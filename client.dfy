/** The launcher client (pyzy_client.c): where it looks for the daemon's
    socket, how it connects (starting the daemon at most once), and the
    request it writes and the reply it reads over the connection. */
module Client {
  import opened Wire

  /** sizeof(addr.sun_path) for struct sockaddr_un on Linux. */
  const SUN_PATH_SIZE: int := 108
  const ENOENT: int := 2
  const MAX_ATTEMPTS: int := 200
  /** nanosleep after starting the daemon, and after every later retry. */
  const FIRST_SLEEP_NS: int := 20_000_000
  const RETRY_SLEEP_NS: int := 5_000_000
  /** The buffer getcwd writes into. */
  const CWD_BUFFER: int := 2048
  /** fatalf ends the client with exit(1). */
  const FATAL_EXIT: int := 1
  const STDIN_FILENO: int := 0
  const STDOUT_FILENO: int := 1
  const STDERR_FILENO: int := 2

  function Min(a: int, b: int): int { if a <= b then a else b }

  /** The first n elements of s, or all of s when it is shorter. */
  function Prefix<T>(s: seq<T>, n: nat): (p: seq<T>)
    ensures |p| == Min(|s|, n) && p == s[..|p|]
  {
    if |s| <= n then s else s[..n]
  }

  function DefaultSocketPath(user: Bytes): Bytes
  {
    Ascii("/tmp/pyzy-") + user + Ascii(".sock")
  }

  /** unix_socket_path(): PYZY_SOCKET when it is set, else
      /tmp/pyzy-<user>.sock. None stands for the fatal exit when the
      uid has no passwd entry, which is checked first. */
  function UnixSocketPath(pwName: Option<Bytes>, socketEnv: Option<Bytes>): (r: Option<Bytes>)
    ensures r.None? <==> pwName.None?
    ensures r.Some? && socketEnv.Some? ==> r.value == socketEnv.value
    ensures r.Some? && socketEnv.None? ==> r.value == DefaultSocketPath(pwName.value)
  {
    if pwName.None? then None
    else if socketEnv.Some? then socketEnv
    else Some(DefaultSocketPath(pwName.value))
  }

  /** What global_error_string says after open_unix_socket (the message text
      is not modelled, only which failure it reports). */
  datatype SocketError = NoError | NullPath | PathTooLong | SocketFailed | ConnectFailed

  /** The operating system's answer to socket() and connect() on one attempt. */
  datatype SocketAnswer = SocketFails(err: int) | ConnectFails(err: int) | Connects(fd: nat)

  /** The descriptor (-1 on failure), errno afterwards, and the error recorded. */
  datatype Opened = Opened(fd: int, errno: int, error: SocketError)

  predicate PathFits(path: Option<Bytes>)
  {
    path.Some? && |path.value| <= SUN_PATH_SIZE - 1
  }

  /** open_unix_socket: a NULL path and a path longer than sun_path can hold
      are refused before any socket is created, and then errno is left as it
      was; otherwise errno is whatever socket() or connect() set. */
  function OpenUnixSocket(path: Option<Bytes>, errno: int, answer: SocketAnswer): (r: Opened)
    ensures r.fd >= 0 <==> PathFits(path) && answer.Connects?
    ensures r.fd >= 0 ==> r.fd == answer.fd && r.errno == errno && r.error == NoError
    ensures r.fd < 0 ==> r.fd == -1 && r.error != NoError
    ensures !PathFits(path) ==> r.errno == errno
    ensures path.None? <==> r.error == NullPath
    ensures path.Some? && |path.value| > SUN_PATH_SIZE - 1 <==> r.error == PathTooLong
    ensures PathFits(path) && !answer.Connects? ==> r.errno == answer.err
  {
    if path.None? then Opened(-1, errno, NullPath)
    else if |path.value| > SUN_PATH_SIZE - 1 then Opened(-1, errno, PathTooLong)
    else
      match answer
      case SocketFails(e) => Opened(-1, e, SocketFailed)
      case ConnectFails(e) => Opened(-1, e, ConnectFailed)
      case Connects(fd) => Opened(fd, errno, NoError)
  }

  /** One attempt of main's loop failed in the way the loop retries; errno
      is its value when the attempt starts. */
  predicate RetriesAfter(path: Option<Bytes>, errno: int, answer: SocketAnswer)
  {
    var o := OpenUnixSocket(path, errno, answer);
    o.fd < 0 && o.errno == ENOENT
  }

  datatype ConnectResult =
    | Connected(fd: nat, attempt: nat)
    | Fatal(attempt: nat)   // a failure other than ENOENT: fatalf
    | NoPasswd              // unix_socket_path's fatalf
    | GaveUp                // 200 attempts all failed with ENOENT

  /** The for loop at the top of main. Each attempt is answered by the
      operating system (answers[i]) and starts with errno at errnos[i]
      (whatever the startup code, exec_pyzy_server and nanosleep left there);
      exec_pyzy_server is counted in execs and each nanosleep duration is
      recorded in sleeps. */
  method ConnectWithRetry(pwName: Option<Bytes>, socketEnv: Option<Bytes>, errnos: seq<int>,
                          answers: seq<SocketAnswer>)
    returns (result: ConnectResult, execs: nat, sleeps: seq<int>)
    requires |answers| == MAX_ATTEMPTS && |errnos| == MAX_ATTEMPTS
    ensures |sleeps| <= MAX_ATTEMPTS
    ensures execs <= 1 && (execs == 1 <==> |sleeps| > 0)
    ensures forall k :: 0 <= k < |sleeps| ==>
              sleeps[k] == if k == 0 then FIRST_SLEEP_NS else RETRY_SLEEP_NS
    ensures result.NoPasswd? <==> pwName.None?
    ensures result.NoPasswd? ==> |sleeps| == 0
    ensures var path := UnixSocketPath(pwName, socketEnv);
            forall j :: 0 <= j < |sleeps| ==> RetriesAfter(path, errnos[j], answers[j])
    ensures result.Connected? ==>
              var path := UnixSocketPath(pwName, socketEnv);
              result.attempt == |sleeps| < MAX_ATTEMPTS && PathFits(path)
              && answers[result.attempt] == Connects(result.fd)
    ensures result.Fatal? ==>
              var path := UnixSocketPath(pwName, socketEnv);
              result.attempt == |sleeps| < MAX_ATTEMPTS
              && var o := OpenUnixSocket(path, errnos[result.attempt], answers[result.attempt]);
                 o.fd < 0 && o.errno != ENOENT
    ensures result.GaveUp? <==> |sleeps| == MAX_ATTEMPTS
  {
    var started := false;
    var sleepNs := 0;
    execs, sleeps := 0, [];
    var i := 0;
    while i < MAX_ATTEMPTS
      invariant 0 <= i <= MAX_ATTEMPTS && |sleeps| == i
      invariant i > 0 ==> pwName.Some?
      invariant started <==> i > 0
      invariant execs == if started then 1 else 0
      invariant forall k :: 0 <= k < i ==>
                  sleeps[k] == if k == 0 then FIRST_SLEEP_NS else RETRY_SLEEP_NS
      invariant forall j :: 0 <= j < i ==>
                  RetriesAfter(UnixSocketPath(pwName, socketEnv), errnos[j], answers[j])
    {
      var path := UnixSocketPath(pwName, socketEnv);
      if path.None? {
        return NoPasswd, execs, sleeps;
      }
      var outcome := OpenUnixSocket(path, errnos[i], answers[i]);
      if outcome.fd < 0 {
        if outcome.errno == ENOENT {
          if !started {
            execs := execs + 1;
            started := true;
            sleepNs := FIRST_SLEEP_NS;
          } else {
            sleepNs := RETRY_SLEEP_NS;
          }
          sleeps := sleeps + [sleepNs];
          i := i + 1;
          continue;
        }
        return Fatal(i), execs, sleeps;
      }
      return Connected(outcome.fd, i), execs, sleeps;
    }
    result := GaveUp;
  }

  /** One unit on the wire: a data byte, or a descriptor passed with
      sendmsg as SCM_RIGHTS ancillary data on a one-byte message. */
  datatype Frame = Octet(b: byte) | Descriptor(fd: int)

  function Lift(b: Bytes): (f: seq<Frame>)
    ensures |f| == |b|
  {
    if b == [] then [] else [Octet(b[0])] + Lift(b[1..])
  }

  lemma {:induction false} LiftConcat(a: Bytes, b: Bytes)
    ensures Lift(a + b) == Lift(a) + Lift(b)
  {
    if a == [] {
      assert a + b == b;
    } else {
      assert (a + b)[1..] == a[1..] + b;
      LiftConcat(a[1..], b);
    }
  }

  lemma LiftPrefix(b: Bytes, n: nat)
    ensures Lift(b[..Min(|b|, n)]) == Prefix(Lift(b), n)
  {
    var k := Min(|b|, n);
    assert b == b[..k] + b[k..];
    LiftConcat(b[..k], b[k..]);
    assert Prefix(Lift(b), n) == Lift(b)[..k];
    assert Lift(b)[..k] == Lift(b[..k]);
  }

  /** The entries of a NULL-terminated environ array: the strings before the
      first NULL (None). */
  function Entries(environ: seq<Option<Bytes>>): (e: seq<Bytes>)
    ensures |e| <= |environ|
    ensures forall i :: 0 <= i < |e| ==> environ[i] == Some(e[i])
    ensures |e| < |environ| ==> environ[|e|].None?
  {
    if environ == [] || environ[0].None? then [] else [environ[0].value] + Entries(environ[1..])
  }

  /** The three descriptors send_launch_ctl passes after argv. */
  function StdioFrames(): seq<Frame>
  {
    [Descriptor(STDIN_FILENO), Descriptor(STDOUT_FILENO), Descriptor(STDERR_FILENO)]
  }

  /** Everything send_launch_ctl puts on the connection when nothing fails. */
  ghost function LaunchFrames(cwd: Bytes, env: seq<Bytes>, argv: seq<Bytes>): (f: seq<Frame>)
    requires |env| < INT_LIMIT && |argv| < INT_LIMIT
    ensures |f| == |EncodeRequest(Request(cwd, env, argv))| + 3
    ensures f[|f| - 3..] == StdioFrames()
  {
    Lift(EncodeRequest(Request(cwd, env, argv))) + StdioFrames()
  }

  /** The request's bytes as frames, in send_launch_ctl's order: cwd, envc
      and the entries, then argc and the arguments. */
  lemma RequestFramesSplit(r: Request)
    requires |r.env| < INT_LIMIT && |r.argv| < INT_LIMIT
    ensures Lift(EncodeRequest(r))
         == (Lift(EncodeString(r.cwd)) + (Lift(EncodeU32(|r.env|)) + Lift(EncodeStrings(r.env))))
            + (Lift(EncodeU32(|r.argv|)) + Lift(EncodeStrings(r.argv)))
  {
    var a, b, c := EncodeString(r.cwd), EncodeU32(|r.env|), EncodeStrings(r.env);
    var d, e := EncodeU32(|r.argv|), EncodeStrings(r.argv);
    assert EncodeRequest(r) == (a + b + c) + (d + e);
    LiftConcat(a + b + c, d + e);
    LiftConcat(d, e);
    LiftConcat(a + b, c);
    LiftConcat(a, b);
    assert Lift(a) + Lift(b) + Lift(c) == Lift(a) + (Lift(b) + Lift(c));
  }

  /** The while loop at the top of send_launch_ctl: envc counts the entries
      of environ before its NULL terminator. */
  method CountEnviron(environ: seq<Option<Bytes>>) returns (envc: nat)
    requires None in environ
    ensures envc == |Entries(environ)| < |environ|
  {
    envc := 0;
    while true
      invariant envc < |environ| && None in environ[envc..]
      invariant |Entries(environ)| == envc + |Entries(environ[envc..])|
      decreases |environ| - envc
    {
      if environ[envc].None? {
        break;
      }
      assert environ[envc..][1..] == environ[envc + 1..];
      envc := envc + 1;
    }
  }

  /** The items of a run of send calls, one call after another. */
  function Flat(calls: seq<seq<Frame>>): (m: seq<Frame>)
  {
    if calls == [] then [] else calls[0] + Flat(calls[1..])
  }

  lemma {:induction false} FlatConcat(a: seq<seq<Frame>>, b: seq<seq<Frame>>)
    ensures Flat(a + b) == Flat(a) + Flat(b)
  {
    if a == [] {
      assert a + b == b;
    } else {
      assert (a + b)[1..] == a[1..] + b;
      FlatConcat(a[1..], b);
    }
  }

  /** How many items the calls before call k carry. */
  function CallStart(calls: seq<seq<Frame>>, k: nat): nat
    requires k <= |calls|
  {
    |Flat(calls[..k])|
  }

  /** What a run of send calls leaves behind: the items that went out, how
      many more the connection takes, the status the C code ends with, and
      whether SIGPIPE ended the process. */
  datatype Sent = Sent(out: seq<Frame>, room: nat, rc: int, piped: bool)

  /** Blocking send calls on the client's socket, each made only when the
      one before sent all it was given (the early returns of send_int,
      send_string, send_fd and send_launch_ctl). On a descriptor that is not
      a socket (unix_fd == -1) a call fails with EBADF and sends nothing. On
      a connection the peer has closed (room 0) it raises SIGPIPE: no call
      passes MSG_NOSIGNAL and main installs its handlers only once the pid
      has arrived, so the default action ends the client there. Otherwise a
      call sends what the connection still takes, and a short count is a
      failure (-1). */
  function SendCalls(calls: seq<seq<Frame>>, open: bool, room: nat): (r: Sent)
    ensures r.rc == 0 || r.rc == -1
    ensures r.piped ==> r.rc == -1
    ensures r.room <= room
  {
    if calls == [] then Sent([], room, 0, false)
    else if !open then Sent([], room, -1, false)
    else if room == 0 then Sent([], 0, -1, true)
    else if |calls[0]| > room then Sent(calls[0][..room], 0, -1, false)
    else
      var r := SendCalls(calls[1..], open, room - |calls[0]|);
      Sent(calls[0] + r.out, r.room, r.rc, r.piped)
  }

  /** On a connection, what goes out is the start of the whole message, as
      much of it as the connection takes, and the room shrinks by as much; on
      a bad descriptor nothing goes out and only an empty run succeeds. */
  lemma {:induction false} SendCallsDeliver(calls: seq<seq<Frame>>, open: bool, room: nat)
    ensures var r := SendCalls(calls, open, room);
            && (open ==> r.out == Prefix(Flat(calls), room) && r.room == room - |r.out|)
            && (!open ==> r.out == [] && r.room == room && !r.piped && (r.rc == 0 <==> calls == []))
  {
    if calls != [] && open && room > 0 {
      var c, m := calls[0], Flat(calls);
      assert m == c + Flat(calls[1..]);
      if |c| > room {
        assert m[..room] == c[..room];
      } else {
        SendCallsDeliver(calls[1..], open, room - |c|);
        var p := Prefix(Flat(calls[1..]), room - |c|);
        assert c + p == m[..|c| + |p|];
      }
    }
  }

  /** On a connection the run succeeds exactly when the whole message fits
      and SIGPIPE did not end the client. */
  lemma {:induction false} SendCallsStatus(calls: seq<seq<Frame>>, room: nat)
    ensures var r := SendCalls(calls, true, room);
            r.rc == 0 <==> |Flat(calls)| <= room && !r.piped
  {
    if calls != [] && room > 0 && |calls[0]| <= room {
      SendCallsStatus(calls[1..], room - |calls[0]|);
    }
  }

  lemma CallStartNext(calls: seq<seq<Frame>>, k: nat)
    requires 0 < k <= |calls|
    ensures CallStart(calls, k) == |calls[0]| + CallStart(calls[1..], k - 1)
  {
    assert calls[..k][1..] == calls[1..][..k - 1];
  }

  /** SIGPIPE ends the client exactly when a call starts once the
      connection has taken all it would: a short send makes the caller
      return -1, so no call follows it. */
  lemma {:induction false} SendCallsPipe(calls: seq<seq<Frame>>, room: nat)
    ensures SendCalls(calls, true, room).piped
        <==> exists k :: 0 <= k < |calls| && CallStart(calls, k) == room
  {
    if calls == [] {
    } else if room == 0 {
      assert CallStart(calls, 0) == 0;
    } else {
      var c := calls[0];
      assert CallStart(calls, 0) == 0;
      if |c| > room {
        forall k | 0 < k < |calls|
          ensures CallStart(calls, k) != room
        {
          CallStartNext(calls, k);
        }
      } else {
        SendCallsPipe(calls[1..], room - |c|);
        if SendCalls(calls, true, room).piped {
          var k :| 0 <= k < |calls[1..]| && CallStart(calls[1..], k) == room - |c|;
          CallStartNext(calls, k + 1);
        } else {
          forall k | 0 < k < |calls|
            ensures CallStart(calls, k) != room
          {
            CallStartNext(calls, k);
          }
        }
      }
    }
  }

  /** Running calls a and then, only if all of a succeeded, calls b is
      running a + b. */
  lemma {:induction false} SendCallsThen(a: seq<seq<Frame>>, b: seq<seq<Frame>>, open: bool, room: nat)
    ensures var x := SendCalls(a, open, room);
            x.rc != 0 ==> SendCalls(a + b, open, room) == x
    ensures var x := SendCalls(a, open, room);
            var y := SendCalls(b, open, x.room);
            x.rc == 0 ==> SendCalls(a + b, open, room) == Sent(x.out + y.out, y.room, y.rc, y.piped)
  {
    if a == [] {
      assert a + b == b;
    } else if !open || room == 0 || |a[0]| > room {
      assert (a + b)[0] == a[0];
    } else {
      var c, n := a[0], room - |a[0]|;
      assert (a + b)[0] == c && (a + b)[1..] == a[1..] + b;
      SendCallsThen(a[1..], b, open, n);
      var x' := SendCalls(a[1..], open, n);
      assert SendCalls(a, open, room) == Sent(c + x'.out, x'.room, x'.rc, x'.piped);
      var z := SendCalls(a[1..] + b, open, n);
      assert SendCalls(a + b, open, room) == Sent(c + z.out, z.room, z.rc, z.piped);
      if x'.rc == 0 {
        var y := SendCalls(b, open, x'.room);
        assert c + (x'.out + y.out) == (c + x'.out) + y.out;
      }
    }
  }

  /** The calls took the connection from (sent0, room0) to (sent1, room1),
      ending with status rc and with SIGPIPE exactly when piped1. */
  ghost predicate Did(calls: seq<seq<Frame>>, open: bool, sent0: seq<Frame>, room0: nat,
                      sent1: seq<Frame>, room1: nat, piped1: bool, rc: int)
  {
    var r := SendCalls(calls, open, room0);
    sent1 == sent0 + r.out && room1 == r.room && piped1 == r.piped && rc == r.rc
  }

  /** Calls a that all succeed, then calls b, are the run a + b. */
  lemma DidThen(a: seq<seq<Frame>>, b: seq<seq<Frame>>, open: bool, s0: seq<Frame>, r0: nat,
                s1: seq<Frame>, r1: nat, s2: seq<Frame>, r2: nat, p2: bool, rc: int)
    requires Did(a, open, s0, r0, s1, r1, false, 0) && Did(b, open, s1, r1, s2, r2, p2, rc)
    ensures Did(a + b, open, s0, r0, s2, r2, p2, rc)
  {
    var x, y, z := SendCalls(a, open, r0), SendCalls(b, open, r1), SendCalls(a + b, open, r0);
    assert z == Sent(x.out + y.out, y.room, y.rc, y.piped) by {
      assert x.rc == 0 && x.room == r1;
      SendCallsThen(a, b, open, r0);
    }
    assert s2 == s0 + z.out by {
      assert s1 == s0 + x.out && s2 == s1 + y.out;
      assert (s0 + x.out) + y.out == s0 + (x.out + y.out);
    }
  }

  /** A failing run ends the message: calls b after it are never made. */
  lemma DidAbort(a: seq<seq<Frame>>, b: seq<seq<Frame>>, open: bool, s0: seq<Frame>, r0: nat,
                 s1: seq<Frame>, r1: nat, p1: bool, rc: int)
    requires Did(a, open, s0, r0, s1, r1, p1, rc) && rc != 0
    ensures Did(a + b, open, s0, r0, s1, r1, p1, rc)
  {
    SendCallsThen(a, b, open, r0);
  }

  /** One more run of calls p after the calls done, with rest still to
      follow; when p fails the message ends here. */
  lemma Step(done: seq<seq<Frame>>, p: seq<seq<Frame>>, rest: seq<seq<Frame>>, full: seq<seq<Frame>>, open: bool,
             s0: seq<Frame>, r0: nat, s1: seq<Frame>, r1: nat, s2: seq<Frame>, r2: nat, p2: bool, rc: int)
    requires Did(done, open, s0, r0, s1, r1, false, 0) && Did(p, open, s1, r1, s2, r2, p2, rc)
    requires done + (p + rest) == full
    ensures Did(done + p, open, s0, r0, s2, r2, p2, rc) && (done + p) + rest == full
    ensures rc != 0 ==> Did(full, open, s0, r0, s2, r2, p2, rc)
  {
    assert (done + p) + rest == done + (p + rest);
    DidThen(done, p, open, s0, r0, s1, r1, s2, r2, p2, rc);
    if rc != 0 {
      DidAbort(done + p, rest, open, s0, r0, s2, r2, p2, rc);
    }
  }

  /** send_string's two calls: the length prefix, then the bytes. */
  ghost function StringCalls(s: Bytes): seq<seq<Frame>>
  {
    [Lift(EncodeU32(StrLen(s))), Lift(s[..StrLen(s)])]
  }

  /** The loop over a list of strings: each string's calls in turn. */
  ghost function StringsCalls(ss: seq<Bytes>): seq<seq<Frame>>
  {
    if ss == [] then [] else StringCalls(ss[0]) + StringsCalls(ss[1..])
  }

  /** The calls send_launch_ctl makes when none fails: cwd, envc and the
      entries, then argc and the arguments, then the three descriptors. */
  ghost function LaunchCalls(cwd: Bytes, env: seq<Bytes>, argv: seq<Bytes>): seq<seq<Frame>>
    requires |env| < INT_LIMIT && |argv| < INT_LIMIT
  {
    ((StringCalls(cwd) + ([Lift(EncodeU32(|env|))] + StringsCalls(env)))
     + ([Lift(EncodeU32(|argv|))] + StringsCalls(argv)))
    + StdioCalls()
  }

  function StdioCalls(): seq<seq<Frame>>
  {
    [[Descriptor(STDIN_FILENO)], [Descriptor(STDOUT_FILENO)], [Descriptor(STDERR_FILENO)]]
  }

  lemma StringCallsFlat(s: Bytes)
    ensures Flat(StringCalls(s)) == Lift(EncodeString(s))
  {
    var len := StrLen(s);
    var c := StringCalls(s);
    assert c[1..][1..] == [];
    assert Flat(c[1..]) == c[1] + Flat([]);
    assert Flat(c) == c[0] + Flat(c[1..]);
    LiftConcat(EncodeU32(len), s[..len]);
  }

  lemma {:induction false} StringsCallsFlat(ss: seq<Bytes>)
    ensures Flat(StringsCalls(ss)) == Lift(EncodeStrings(ss))
  {
    if ss != [] {
      StringsCallsFlat(ss[1..]);
      StringCallsFlat(ss[0]);
      FlatConcat(StringCalls(ss[0]), StringsCalls(ss[1..]));
      LiftConcat(EncodeString(ss[0]), EncodeStrings(ss[1..]));
    }
  }

  /** A 4-byte count sent with one call. */
  lemma CountCallFlat(n: u32)
    ensures Flat([Lift(EncodeU32(n))]) == Lift(EncodeU32(n))
  {
    assert Flat([Lift(EncodeU32(n))]) == Lift(EncodeU32(n)) + [];
  }

  /** A count followed by the strings it counts. */
  lemma CountedCallsFlat(ss: seq<Bytes>)
    requires |ss| < INT_LIMIT
    ensures Flat([Lift(EncodeU32(|ss|))] + StringsCalls(ss)) == Lift(EncodeU32(|ss|)) + Lift(EncodeStrings(ss))
  {
    CountCallFlat(|ss|);
    StringsCallsFlat(ss);
    FlatConcat([Lift(EncodeU32(|ss|))], StringsCalls(ss));
  }

  /** The calls of send_launch_ctl carry exactly the request's encoding and
      then the three standard descriptors. */
  lemma LaunchCallsFlat(cwd: Bytes, env: seq<Bytes>, argv: seq<Bytes>)
    requires |env| < INT_LIMIT && |argv| < INT_LIMIT
    ensures Flat(LaunchCalls(cwd, env, argv)) == LaunchFrames(cwd, env, argv)
  {
    var envBlock := StringCalls(cwd) + ([Lift(EncodeU32(|env|))] + StringsCalls(env));
    var argPart := [Lift(EncodeU32(|argv|))] + StringsCalls(argv);
    assert Flat(envBlock) == Lift(EncodeString(cwd)) + (Lift(EncodeU32(|env|)) + Lift(EncodeStrings(env))) by {
      StringCallsFlat(cwd);
      CountedCallsFlat(env);
      FlatConcat(StringCalls(cwd), [Lift(EncodeU32(|env|))] + StringsCalls(env));
    }
    assert Flat(argPart) == Lift(EncodeU32(|argv|)) + Lift(EncodeStrings(argv)) by {
      CountedCallsFlat(argv);
    }
    assert Flat(envBlock + argPart) == Lift(EncodeRequest(Request(cwd, env, argv))) by {
      FlatConcat(envBlock, argPart);
      RequestFramesSplit(Request(cwd, env, argv));
    }
    assert Flat(StdioCalls()) == StdioFrames();
    FlatConcat(envBlock + argPart, StdioCalls());
  }

  lemma StringsCallsFrom(ss: seq<Bytes>, i: nat)
    requires i < |ss|
    ensures StringsCalls(ss[i..]) == StringCalls(ss[i]) + StringsCalls(ss[i + 1..])
  {
    assert ss[i..][1..] == ss[i + 1..];
  }

  /** Two's complement: what ntohl's result means once stored in an int. */
  function AsInt32(x: u32): (v: int)
    ensures -INT_LIMIT <= v < INT_LIMIT && v % U32_LIMIT == x
  {
    if x >= INT_LIMIT then x - U32_LIMIT else x
  }

  /** The exit status a parent sees when main returns rc: its low 8 bits. */
  function ExitStatus(rc: int): (code: int)
    ensures 0 <= code < 0x100 && (code - rc) % 0x100 == 0
  {
    rc % 0x100
  }

  /** What the client makes of the daemon's reply: the pid (recv_int), then
      the return code and the pid again (recv_return_code, which needs all
      8 bytes at once). */
  datatype Reply = NoPid | NoStatus(pid: int) | Status(pid: int, rc: int, statusPid: int)

  function ReadReply(incoming: Bytes): (r: Reply)
    ensures r.NoPid? <==> |incoming| < 4
    ensures r.Status? <==> |incoming| >= 12
    ensures !r.NoPid? ==> r.pid == AsInt32(DecodeU32(incoming).value.0)
    ensures r.Status? ==> (r.rc == AsInt32(DecodeU32(incoming[4..]).value.0)
                        && r.statusPid == AsInt32(DecodeU32(incoming[8..]).value.0))
  {
    match DecodeU32(incoming)
    case None => NoPid
    case Some((pid, rest)) =>
      if |rest| < 8 then NoStatus(AsInt32(pid))
      else Status(AsInt32(pid), AsInt32(DecodeU32(rest).value.0), AsInt32(DecodeU32(rest[4..]).value.0))
  }

  /** main's exit status once the request is sent: fatalf unless the whole
      reply arrives, otherwise the worker's return code. */
  function ReplyExit(r: Reply): (code: int)
    ensures r.Status? ==> code == ExitStatus(r.rc)
    ensures !r.Status? ==> code == FATAL_EXIT
  {
    if r.Status? then ExitStatus(r.rc) else FATAL_EXIT
  }

  /** SIGPIPE's number on Linux. */
  const SIGPIPE: int := 13

  /** How the client process ends: with an exit status, or killed by a
      signal. */
  datatype Ending = Exited(code: int) | Signalled(signal: int)

  /** The client's end of one connection: what it has sent so far, how many
      more items the connection takes before the peer is gone (an abstract
      stand-in for the daemon closing), whether the descriptor is a socket
      at all (after 200 failed attempts main goes on with unix_fd == -1),
      whether SIGPIPE has ended the process, what the daemon has sent that is
      not yet read, and the remote_pid global. */
  class Session {
    var sent: seq<Frame>
    var room: nat
    const open: bool
    var piped: bool
    var incoming: Bytes
    var remotePid: int

    constructor (open: bool, room: nat, incoming: Bytes)
      ensures this.open == open && this.room == room && this.incoming == incoming
      ensures sent == [] && !piped && remotePid == 0
    {
      this.open := open;
      this.room := room;
      this.incoming := incoming;
      sent := [];
      piped := false;
      remotePid := 0;
    }

    /** send(): -1 with EBADF on a descriptor that is not a socket; SIGPIPE
        on a connection the peer has closed, even for an empty buffer;
        otherwise the count of what the connection took. */
    method Send(buf: Bytes) returns (n: int)
      requires !piped
      modifies this`sent, this`room, this`piped
      ensures Did([Lift(buf)], open, old(sent), old(room), sent, room, piped, if n == |buf| then 0 else -1)
      ensures open && old(room) > 0 ==> n == Min(|buf|, old(room))
      ensures !open || old(room) == 0 ==> n == -1
    {
      if !open {
        return -1;
      }
      if room == 0 {
        piped := true;
        return -1;
      }
      n := Min(|buf|, room);
      LiftPrefix(buf, room);
      sent := sent + Lift(buf[..n]);
      room := room - n;
    }

    /** send_int: 0 when all 4 bytes went out, -1 otherwise. */
    method SendInt(x: u32) returns (rc: int)
      requires !piped
      modifies this`sent, this`room, this`piped
      ensures Did([Lift(EncodeU32(x))], open, old(sent), old(room), sent, room, piped, rc)
    {
      NetworkOrderIsEncoding(x);
      var sentBytes := Send(NetworkOrder(x));
      if sentBytes != 4 {
        return -1;
      }
      return 0;
    }

    /** send_string: the length prefix, then the bytes; when the prefix
        fails the bytes are not attempted. */
    method SendString(s: Bytes) returns (rc: int)
      requires !piped
      modifies this`sent, this`room, this`piped
      ensures Did(StringCalls(s), open, old(sent), old(room), sent, room, piped, rc)
    {
      var len := StrLen(s);
      ghost var s0, r0 := sent, room;
      ghost var pLen, pBody := [Lift(EncodeU32(len))], [Lift(s[..len])];
      assert [] + (pLen + (pBody + [])) == StringCalls(s);
      rc := SendInt(len);
      Step([], pLen, pBody, StringCalls(s), open, s0, r0, s0, r0, sent, room, piped, rc);
      if rc != 0 {
        return;
      }
      ghost var s1, r1 := sent, room;
      var sentBytes := Send(s[..len]);
      rc := if sentBytes != len then -1 else 0;
      Step(pLen, pBody, [], StringCalls(s), open, s0, r0, s1, r1, sent, room, piped, rc);
    }

    /** send_fd: one sendmsg of a single byte carrying the descriptor. */
    method SendFd(fd: int) returns (rc: int)
      requires !piped
      modifies this`sent, this`room, this`piped
      ensures Did([[Descriptor(fd)]], open, old(sent), old(room), sent, room, piped, rc)
    {
      if !open {
        return -1;
      }
      if room == 0 {
        piped := true;
        return -1;
      }
      sent := sent + [Descriptor(fd)];
      room := room - 1;
      return 0;
    }

    /** The loop send_launch_ctl runs twice, over the environment entries
        and over the arguments: each string in turn, stopping at the first
        failure. */
    method SendStrings(ss: seq<Bytes>) returns (rc: int)
      requires !piped
      modifies this`sent, this`room, this`piped
      ensures Did(StringsCalls(ss), open, old(sent), old(room), sent, room, piped, rc)
    {
      ghost var s0, r0 := sent, room;
      ghost var done: seq<seq<Frame>> := [];
      ghost var full := StringsCalls(ss);
      assert ss[0..] == ss;
      for i := 0 to |ss|
        invariant !piped
        invariant Did(done, open, s0, r0, sent, room, false, 0)
        invariant done + StringsCalls(ss[i..]) == full
      {
        StringsCallsFrom(ss, i);
        ghost var s1, r1 := sent, room;
        rc := SendString(ss[i]);
        Step(done, StringCalls(ss[i]), StringsCalls(ss[i + 1..]), full, open, s0, r0, s1, r1, sent, room, piped, rc);
        if rc != 0 {
          return;
        }
        done := done + StringCalls(ss[i]);
      }
      assert ss[|ss|..] == [];
      assert done == full;
      return 0;
    }

    /** The first part of send_launch_ctl: cwd, envc and the environment
        entries, stopping at the first failing send. */
    method SendEnvBlock(cwd: Bytes, env: seq<Bytes>) returns (rc: int)
      requires !piped && |env| < INT_LIMIT
      modifies this`sent, this`room, this`piped
      ensures Did(StringCalls(cwd) + ([Lift(EncodeU32(|env|))] + StringsCalls(env)),
                  open, old(sent), old(room), sent, room, piped, rc)
    {
      ghost var s0, r0 := sent, room;
      ghost var pCwd, pEnvc, pEnv := StringCalls(cwd), [Lift(EncodeU32(|env|))], StringsCalls(env);
      ghost var full := pCwd + (pEnvc + pEnv);
      assert [] + (pCwd + (pEnvc + pEnv)) == full;

      rc := SendString(cwd);
      Step([], pCwd, pEnvc + pEnv, full, open, s0, r0, s0, r0, sent, room, piped, rc);
      if rc != 0 {
        return;
      }
      ghost var s1, r1 := sent, room;

      rc := SendInt(|env|);
      Step(pCwd, pEnvc, pEnv, full, open, s0, r0, s1, r1, sent, room, piped, rc);
      if rc != 0 {
        return;
      }
      s1, r1 := sent, room;

      assert pEnv + [] == pEnv;
      rc := SendStrings(env);
      Step(pCwd + pEnvc, pEnv, [], full, open, s0, r0, s1, r1, sent, room, piped, rc);
    }

    /** The second part of send_launch_ctl: argc and the arguments,
        stopping at the first failing send. */
    method SendArgv(argv: seq<Bytes>) returns (rc: int)
      requires !piped && |argv| < INT_LIMIT
      modifies this`sent, this`room, this`piped
      ensures Did([Lift(EncodeU32(|argv|))] + StringsCalls(argv), open, old(sent), old(room), sent, room, piped, rc)
    {
      ghost var s0, r0 := sent, room;
      ghost var pArgc, pArgv := [Lift(EncodeU32(|argv|))], StringsCalls(argv);
      ghost var full := pArgc + pArgv;
      assert [] + (pArgc + pArgv) == full;

      rc := SendInt(|argv|);
      Step([], pArgc, pArgv, full, open, s0, r0, s0, r0, sent, room, piped, rc);
      if rc != 0 {
        return;
      }
      ghost var s1, r1 := sent, room;

      assert pArgv + [] == pArgv;
      rc := SendStrings(argv);
      Step(pArgc, pArgv, [], full, open, s0, r0, s1, r1, sent, room, piped, rc);
    }

    /** The three send_fd calls at the end of send_launch_ctl: stdin, stdout
        and stderr, stopping at the first failure. */
    method SendStdio() returns (rc: int)
      requires !piped
      modifies this`sent, this`room, this`piped
      ensures Did(StdioCalls(), open, old(sent), old(room), sent, room, piped, rc)
    {
      ghost var s0, r0 := sent, room;
      ghost var pIn, pOut, pErr := [[Descriptor(STDIN_FILENO)]], [[Descriptor(STDOUT_FILENO)]], [[Descriptor(STDERR_FILENO)]];
      ghost var full := StdioCalls();
      assert [] + (pIn + (pOut + pErr)) == full;

      rc := SendFd(STDIN_FILENO);
      Step([], pIn, pOut + pErr, full, open, s0, r0, s0, r0, sent, room, piped, rc);
      if rc != 0 {
        return;
      }
      ghost var s1, r1 := sent, room;

      rc := SendFd(STDOUT_FILENO);
      Step(pIn, pOut, pErr, full, open, s0, r0, s1, r1, sent, room, piped, rc);
      if rc != 0 {
        return;
      }
      s1, r1 := sent, room;

      assert pErr + [] == pErr;
      rc := SendFd(STDERR_FILENO);
      Step(pIn + pOut, pErr, [], full, open, s0, r0, s1, r1, sent, room, piped, rc);
    }

    /** send_launch_ctl: counts environ up to its NULL, reads the working
        directory, then sends cwd, envc, the entries, argc, the arguments and
        the three standard descriptors, stopping at the first failing send. */
    method SendLaunchCtl(cwd: Bytes, environ: seq<Option<Bytes>>, argv: seq<Bytes>) returns (rc: int)
      requires !piped && None in environ && |environ| <= INT_LIMIT && |argv| < INT_LIMIT
      modifies this`sent, this`room, this`piped
      ensures |cwd| >= CWD_BUFFER ==> rc == -1 && sent == old(sent) && room == old(room) && !piped
      ensures |cwd| < CWD_BUFFER ==>
                Did(LaunchCalls(cwd, Entries(environ), argv), open, old(sent), old(room), sent, room, piped, rc)
    {
      var envc := CountEnviron(environ);
      var env := Entries(environ);
      assert |env| == envc;

      // getcwd fails when the directory does not fit its 2048-byte buffer.
      if |cwd| >= CWD_BUFFER {
        return -1;
      }

      ghost var s0, r0 := sent, room;
      ghost var request := (StringCalls(cwd) + ([Lift(EncodeU32(|env|))] + StringsCalls(env)))
                           + ([Lift(EncodeU32(|argv|))] + StringsCalls(argv));
      ghost var full := LaunchCalls(cwd, env, argv);
      assert [] + (request + StdioCalls()) == full;
      rc := SendRequest(Request(cwd, env, argv));
      Step([], request, StdioCalls(), full, open, s0, r0, s0, r0, sent, room, piped, rc);
      if rc != 0 {
        return;
      }
      ghost var s1, r1 := sent, room;
      assert StdioCalls() + [] == StdioCalls();
      rc := SendStdio();
      Step(request, StdioCalls(), [], full, open, s0, r0, s1, r1, sent, room, piped, rc);
    }

    /** The part of send_launch_ctl that writes the request's bytes: cwd,
        envc, the entries, argc and the arguments, stopping at the first
        failing send. */
    method SendRequest(r: Request) returns (rc: int)
      requires !piped && |r.env| < INT_LIMIT && |r.argv| < INT_LIMIT
      modifies this`sent, this`room, this`piped
      ensures Did((StringCalls(r.cwd) + ([Lift(EncodeU32(|r.env|))] + StringsCalls(r.env)))
                  + ([Lift(EncodeU32(|r.argv|))] + StringsCalls(r.argv)),
                  open, old(sent), old(room), sent, room, piped, rc)
    {
      ghost var s0, r0 := sent, room;
      ghost var envBlock := StringCalls(r.cwd) + ([Lift(EncodeU32(|r.env|))] + StringsCalls(r.env));
      ghost var argPart := [Lift(EncodeU32(|r.argv|))] + StringsCalls(r.argv);
      ghost var full := envBlock + argPart;
      assert [] + (envBlock + argPart) == full;
      rc := SendEnvBlock(r.cwd, r.env);
      Step([], envBlock, argPart, full, open, s0, r0, s0, r0, sent, room, piped, rc);
      if rc != 0 {
        return;
      }
      ghost var s1, r1 := sent, room;
      assert argPart + [] == argPart;
      rc := SendArgv(r.argv);
      Step(envBlock, argPart, [], full, open, s0, r0, s1, r1, sent, room, piped, rc);
    }

    /** recv(): takes what is there, up to n bytes. */
    method Recv(n: nat) returns (got: Bytes)
      modifies this`incoming
      ensures got == Prefix(old(incoming), n) && incoming == old(incoming)[|got|..]
    {
      got := Prefix(incoming, n);
      incoming := incoming[|got|..];
    }

    /** recv_int: needs all 4 bytes, then converts from network order. */
    method RecvInt() returns (rc: int, value: int)
      modifies this`incoming
      ensures rc == 0 <==> |old(incoming)| >= 4
      ensures rc == 0 ==> value == AsInt32(DecodeU32(old(incoming)).value.0)
      ensures rc != 0 ==> rc == -1
      ensures incoming == old(incoming)[Min(4, |old(incoming)|)..]
    {
      var got := Recv(4);
      if |got| != 4 {
        return -1, 0;
      }
      rc, value := 0, AsInt32(BigEndian(got[0], got[1], got[2], got[3]));
    }

    /** recv_return_code: one recv of 8 bytes; the return code, then the pid. */
    method RecvReturnCode() returns (rc: int, procRc: int, procPid: int)
      modifies this`incoming
      ensures rc == 0 <==> |old(incoming)| >= 8
      ensures rc == 0 ==> (procRc == AsInt32(DecodeU32(old(incoming)).value.0)
                        && procPid == AsInt32(DecodeU32(old(incoming)[4..]).value.0))
      ensures rc != 0 ==> rc == -1
      ensures incoming == old(incoming)[Min(8, |old(incoming)|)..]
    {
      var got := Recv(8);
      if |got| != 8 {
        return -1, 0, 0;
      }
      procRc := AsInt32(BigEndian(got[0], got[1], got[2], got[3]));
      procPid := AsInt32(BigEndian(got[4], got[5], got[6], got[7]));
      rc := 0;
    }

    /** main after the connection loop: send the request (fatalf when that
        fails, unless SIGPIPE ended the client inside it), read the pid into
        remote_pid, read the final status, and return the return code; any
        failure to read is fatalf. */
    method Run(cwd: Bytes, environ: seq<Option<Bytes>>, argv: seq<Bytes>) returns (end: Ending)
      requires !piped && None in environ && |environ| <= INT_LIMIT && |argv| < INT_LIMIT
      modifies this`sent, this`room, this`piped, this`incoming, this`remotePid
      ensures end == LaunchEnding(cwd, Entries(environ), argv, open, old(room), old(incoming))
      ensures |cwd| >= CWD_BUFFER ==>
                && sent == old(sent) && room == old(room) && !piped
                && incoming == old(incoming) && remotePid == old(remotePid)
      ensures |cwd| < CWD_BUFFER ==>
                var r := SendCalls(LaunchCalls(cwd, Entries(environ), argv), open, old(room));
                && sent == old(sent) + r.out && room == r.room && piped == r.piped
                && (r.rc == 0 && |old(incoming)| >= 4 ==> remotePid == ReadReply(old(incoming)).pid)
    {
      var rc := SendLaunchCtl(cwd, environ, argv);
      if piped {
        // The call that raised SIGPIPE did not return.
        return Signalled(SIGPIPE);
      }
      if rc < 0 {
        return Exited(FATAL_EXIT);
      }
      ghost var reply := ReadReply(incoming);
      var pid;
      rc, pid := RecvInt();
      if rc != 0 {
        return Exited(FATAL_EXIT);
      }
      remotePid := pid;
      var procRc, procPid;
      rc, procRc, procPid := RecvReturnCode();
      if rc != 0 {
        return Exited(FATAL_EXIT);
      }
      return Exited(ExitStatus(procRc));
    }
  }

  /** How main ends after the connection loop, given the descriptor the
      loop left (open), the room of the connection and what the daemon sends
      back: fatalf when getcwd fails or a send fails, death by SIGPIPE, or
      the exit status the reply carries. */
  ghost function LaunchEnding(cwd: Bytes, env: seq<Bytes>, argv: seq<Bytes>, open: bool, room: nat,
                              incoming: Bytes): Ending
    requires |env| < INT_LIMIT && |argv| < INT_LIMIT
  {
    if |cwd| >= CWD_BUFFER then Exited(FATAL_EXIT)
    else
      var r := SendCalls(LaunchCalls(cwd, env, argv), open, room);
      if r.piped then Signalled(SIGPIPE)
      else if r.rc != 0 then Exited(FATAL_EXIT)
      else Exited(ReplyExit(ReadReply(incoming)))
  }

  /** After 200 failed attempts main goes on with the descriptor -1: the
      first send fails with EBADF, so the client ends through fatalf, and
      never by SIGPIPE, whatever the rest of the launch would have been. */
  lemma ClosedLaunchFails(cwd: Bytes, env: seq<Bytes>, argv: seq<Bytes>, room: nat, incoming: Bytes)
    requires |env| < INT_LIMIT && |argv| < INT_LIMIT
    ensures LaunchEnding(cwd, env, argv, false, room, incoming) == Exited(FATAL_EXIT)
  {
    SendCallsDeliver(LaunchCalls(cwd, env, argv), false, room);
    assert LaunchCalls(cwd, env, argv) != [] by {
      assert |LaunchCalls(cwd, env, argv)| >= |StdioCalls()| == 3;
    }
  }

  /** main: the connection loop, then send_launch_ctl on the descriptor the
      loop left and the two reads of the reply. The operating system's
      answers, the room of the connection and what the daemon sends back
      are inputs. Only a connected descriptor can see the reply; a run that
      gave up or met fatalf ends with status 1. */
  method ClientMain(pwName: Option<Bytes>, socketEnv: Option<Bytes>, errnos: seq<int>,
                    answers: seq<SocketAnswer>, room: nat, incoming: Bytes,
                    cwd: Bytes, environ: seq<Option<Bytes>>, argv: seq<Bytes>)
    returns (result: ConnectResult, end: Ending)
    requires |answers| == MAX_ATTEMPTS && |errnos| == MAX_ATTEMPTS
    requires None in environ && |environ| <= INT_LIMIT && |argv| < INT_LIMIT
    ensures result.NoPasswd? <==> pwName.None?
    ensures !result.Connected? ==> end == Exited(FATAL_EXIT)
    ensures result.Connected? ==> end == LaunchEnding(cwd, Entries(environ), argv, true, room, incoming)
    ensures end.Signalled? ==> result.Connected? && end.signal == SIGPIPE
  {
    var execs, sleeps;
    result, execs, sleeps := ConnectWithRetry(pwName, socketEnv, errnos, answers);
    if result.NoPasswd? || result.Fatal? {
      return result, Exited(FATAL_EXIT);
    }
    var session := new Session(result.Connected?, room, incoming);
    end := session.Run(cwd, environ, argv);
    if result.GaveUp? {
      ClosedLaunchFails(cwd, Entries(environ), argv, room, incoming);
    }
  }

  /** What send_launch_ctl puts on a connection is the start of the
      request's encoding followed by the three descriptors, as much as the
      connection takes, and it succeeds exactly when all of it fits and no
      call met a closed connection. */
  lemma LaunchPrefix(cwd: Bytes, env: seq<Bytes>, argv: seq<Bytes>, room: nat)
    requires |env| < INT_LIMIT && |argv| < INT_LIMIT
    ensures var r := SendCalls(LaunchCalls(cwd, env, argv), true, room);
            && r.out == Prefix(LaunchFrames(cwd, env, argv), room)
            && (r.rc == 0 <==> |LaunchFrames(cwd, env, argv)| <= room && !r.piped)
  {
    LaunchCallsFlat(cwd, env, argv);
    SendCallsDeliver(LaunchCalls(cwd, env, argv), true, room);
    SendCallsStatus(LaunchCalls(cwd, env, argv), room);
  }
}
