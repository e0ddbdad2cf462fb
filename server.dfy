/** The daemon side of pyzy (pyzy_server.py): it reads one launch request
    per connection, merges the client's environment into its own, may
    warm a script up in-process so later forks start faster, forks, and in
    the child runs the script and reports its return code. */
module Server {
  import opened Wire

  const EQUALS: byte := 0x3D
  const COLON: byte := 0x3A
  const SLASH: byte := 0x2F
  const DOT: byte := 0x2E

  /** The client key that asks for a script to be warmed up. */
  const CACHE_KEY: Bytes := Ascii("PYZY_CACHE_SCRIPT")
  const PATH_KEY: Bytes := Ascii("PYTHONPATH")

  /** socket_name: the listening path for the daemon's user. */
  function SocketName(user: Bytes): (path: Bytes)
    ensures |path| == |Ascii("/tmp/pyzy-")| + |user| + |Ascii(".sock")|
    ensures path[..|Ascii("/tmp/pyzy-")|] == Ascii("/tmp/pyzy-")
    ensures path[|path| - |Ascii(".sock")|..] == Ascii(".sock")
    ensures path[|Ascii("/tmp/pyzy-")|..|path| - |Ascii(".sock")|] == user
  {
    Ascii("/tmp/pyzy-") + user + Ascii(".sock")
  }

  // ---------------------------------------------------------------------
  // Splitting strings as Python's str.split does.

  /** The position of the first sep in s, or |s| when there is none. */
  function IndexOf(s: Bytes, sep: byte): (i: nat)
    ensures i <= |s|
    ensures i < |s| ==> s[i] == sep
    ensures forall j :: 0 <= j < i ==> s[j] != sep
  {
    if s == [] then 0
    else if s[0] == sep then 0
    else 1 + IndexOf(s[1..], sep)
  }

  /** x.split(sep, 1) read as a (key, value) pair: None when sep does not
      occur, and then the pair cannot go into a dict. */
  function SplitFirst(s: Bytes, sep: byte): (r: Option<(Bytes, Bytes)>)
    ensures r.None? <==> sep !in s
    ensures r.Some? ==> s == r.value.0 + [sep] + r.value.1 && sep !in r.value.0
  {
    var i := IndexOf(s, sep);
    if i == |s| then None else Some((s[..i], s[i + 1..]))
  }

  /** Splitting at the first sep is the only way of writing s as
      key + [sep] + value with no sep in the key. */
  lemma SplitFirstUnique(s: Bytes, sep: byte, k: Bytes, v: Bytes)
    requires s == k + [sep] + v && sep !in k
    ensures SplitFirst(s, sep) == Some((k, v))
  {
    var i := IndexOf(s, sep);
    assert s[|k|] == sep;
    assert forall j :: 0 <= j < |k| ==> s[j] == k[j];
    assert i == |k|;
    assert s[..i] == k;
    assert s[i + 1..] == v;
  }

  /** s.split(sep): the pieces between separators, [s] when there is none. */
  function Split(s: Bytes, sep: byte): (ps: seq<Bytes>)
    ensures |ps| >= 1
    ensures forall i :: 0 <= i < |ps| ==> sep !in ps[i]
    decreases |s|
  {
    var i := IndexOf(s, sep);
    if i == |s| then [s] else [s[..i]] + Split(s[i + 1..], sep)
  }

  /** sep.join(ps). */
  function Join(ps: seq<Bytes>, sep: byte): (s: Bytes)
  {
    if ps == [] then []
    else if |ps| == 1 then ps[0]
    else ps[0] + [sep] + Join(ps[1..], sep)
  }

  /** Joining a piece in front of at least one more. */
  lemma JoinCons(p: Bytes, ps: seq<Bytes>, sep: byte)
    requires ps != []
    ensures Join([p] + ps, sep) == p + [sep] + Join(ps, sep)
  {
    assert ([p] + ps)[1..] == ps;
  }

  lemma {:induction false} JoinSplit(s: Bytes, sep: byte)
    ensures Join(Split(s, sep), sep) == s
    decreases |s|
  {
    var i := IndexOf(s, sep);
    if i < |s| {
      var rest := s[i + 1..];
      var tail := Split(rest, sep);
      assert Split(s, sep) == [s[..i]] + tail;
      JoinSplit(rest, sep);
      JoinCons(s[..i], tail, sep);
      assert s == s[..i] + [sep] + rest;
    } else {
      assert Split(s, sep) == [s];
    }
  }

  lemma {:induction false} SplitJoin(ps: seq<Bytes>, sep: byte)
    requires |ps| >= 1 && forall i :: 0 <= i < |ps| ==> sep !in ps[i]
    ensures Split(Join(ps, sep), sep) == ps
  {
    if |ps| > 1 {
      var rest := Join(ps[1..], sep);
      var s := Join(ps, sep);
      assert s == ps[0] + [sep] + rest;
      SplitFirstUnique(s, sep, ps[0], rest);
      var i := IndexOf(s, sep);
      assert i == |ps[0]| && s[..i] == ps[0] && s[i + 1..] == rest;
      assert forall k :: 0 <= k < |ps[1..]| ==> ps[1..][k] == ps[k + 1];
      SplitJoin(ps[1..], sep);
      assert Split(s, sep) == [ps[0]] + Split(rest, sep);
      assert [ps[0]] + ps[1..] == ps;
    } else {
      assert IndexOf(ps[0], sep) == |ps[0]|;
    }
  }

  // ---------------------------------------------------------------------
  // The client environment: dict(x.split('=', 1) for x in envv).

  /** The dict built from the entries, in order, so that a later entry for
      the same key wins; None when an entry has no '='. */
  function ParseEnv(envv: seq<Bytes>): (m: Option<map<Bytes, Bytes>>)
    ensures m.Some? <==> forall i :: 0 <= i < |envv| ==> EQUALS in envv[i]
  {
    if envv == [] then Some(map[])
    else
      match ParseEnv(envv[..|envv| - 1])
      case None => None
      case Some(m) =>
        match SplitFirst(envv[|envv| - 1], EQUALS)
        case None => None
        case Some((k, v)) => Some(m[k := v])
  }

  /** Every key of the dict comes from some entry. */
  lemma {:induction false} ParseEnvKeys(envv: seq<Bytes>, k: Bytes)
    requires ParseEnv(envv).Some? && k in ParseEnv(envv).value
    ensures exists i :: 0 <= i < |envv| && SplitFirst(envv[i], EQUALS).value.0 == k
  {
    var n := |envv| - 1;
    var kv := SplitFirst(envv[n], EQUALS).value;
    if kv.0 != k {
      ParseEnvKeys(envv[..n], k);
      var i :| 0 <= i < n && SplitFirst(envv[..n][i], EQUALS).value.0 == k;
      assert envv[..n][i] == envv[i];
    }
  }

  /** The dict of all entries is the dict of all but the last, updated
      with the last. */
  lemma ParseEnvLast(envv: seq<Bytes>)
    requires ParseEnv(envv).Some? && envv != []
    ensures var init := envv[..|envv| - 1];
            var kv := SplitFirst(envv[|envv| - 1], EQUALS);
            && ParseEnv(init).Some? && kv.Some?
            && ParseEnv(envv).value == ParseEnv(init).value[kv.value.0 := kv.value.1]
  {
  }

  /** An entry that no later entry overrides gives its key's value. */
  lemma {:induction false} ParseEnvValue(envv: seq<Bytes>, i: nat)
    requires ParseEnv(envv).Some? && i < |envv|
    requires forall j :: i < j < |envv| ==>
               SplitFirst(envv[j], EQUALS).value.0 != SplitFirst(envv[i], EQUALS).value.0
    ensures var kv := SplitFirst(envv[i], EQUALS).value;
            kv.0 in ParseEnv(envv).value && ParseEnv(envv).value[kv.0] == kv.1
  {
    var n := |envv| - 1;
    ParseEnvLast(envv);
    if i < n {
      var init := envv[..n];
      assert init[i] == envv[i];
      assert forall j :: i < j < n ==> init[j] == envv[j];
      ParseEnvValue(init, i);
    }
  }

  /** The value of a key the dict has, or the default (dict.get). */
  function Get(m: map<Bytes, Bytes>, k: Bytes, default: Bytes): (v: Bytes)
    ensures k in m ==> v == m[k]
    ensures k !in m ==> v == default
  {
    if k in m then m[k] else default
  }

  // ---------------------------------------------------------------------
  // os.path.abspath: posixpath.join with the daemon's cwd, then normpath.

  predicate IsAbs(p: Bytes)
  {
    |p| > 0 && p[0] == SLASH
  }

  /** posixpath.join(a, b). */
  function JoinPath(a: Bytes, b: Bytes): (p: Bytes)
    ensures IsAbs(b) ==> p == b
    ensures IsAbs(a) ==> IsAbs(p)
  {
    if IsAbs(b) then b
    else if a == [] || a[|a| - 1] == SLASH then a + b
    else a + [SLASH] + b
  }

  const DOT_NAME: Bytes := [DOT]
  const PARENT_NAME: Bytes := [DOT, DOT]

  /** One step of normpath's component loop over the stack built so far. */
  function NormStep(stack: seq<Bytes>, comp: Bytes, rooted: bool): seq<Bytes>
  {
    if comp == [] || comp == DOT_NAME then stack
    else if comp != PARENT_NAME || (!rooted && stack == [])
         || (stack != [] && stack[|stack| - 1] == PARENT_NAME) then stack + [comp]
    else if stack != [] then stack[..|stack| - 1]
    else stack
  }

  function NormComps(comps: seq<Bytes>, rooted: bool): seq<Bytes>
  {
    if comps == [] then []
    else NormStep(NormComps(comps[..|comps| - 1], rooted), comps[|comps| - 1], rooted)
  }

  /** A component that normpath never leaves in a rooted path. */
  predicate Canonical(c: Bytes)
  {
    c != [] && c != DOT_NAME && c != PARENT_NAME
  }

  /** In a rooted path every '', '.' and '..' is gone. */
  lemma {:induction false} NormCompsCanonical(comps: seq<Bytes>)
    ensures forall i :: 0 <= i < |NormComps(comps, true)| ==> Canonical(NormComps(comps, true)[i])
  {
    if comps != [] {
      NormCompsCanonical(comps[..|comps| - 1]);
    }
  }

  function Slashes(n: nat): (s: Bytes)
    ensures |s| == n && forall i :: 0 <= i < n ==> s[i] == SLASH
  {
    seq(n, _ => SLASH)
  }

  /** The number of leading slashes normpath keeps: POSIX gives exactly two
      a meaning of their own, three or more count as one. */
  function InitialSlashes(p: Bytes): (n: nat)
    ensures n <= 2 && (n > 0 <==> IsAbs(p))
  {
    if !IsAbs(p) then 0
    else if |p| >= 2 && p[1] == SLASH && !(|p| >= 3 && p[2] == SLASH) then 2
    else 1
  }

  /** posixpath.normpath. */
  function NormPath(p: Bytes): (q: Bytes)
    ensures IsAbs(p) ==> IsAbs(q)
    ensures q != []
  {
    if p == [] then DOT_NAME
    else
      var initial := InitialSlashes(p);
      var path := Slashes(initial) + Join(NormComps(Split(p, SLASH), initial > 0), SLASH);
      if path == [] then DOT_NAME else path
  }

  /** os.path.abspath, resolved against the daemon's working directory. */
  function AbsPath(cwd: Bytes, p: Bytes): (q: Bytes)
    ensures q != []
    ensures IsAbs(cwd) || IsAbs(p) ==> IsAbs(q)
  {
    NormPath(JoinPath(cwd, p))
  }

  /** The script path is absolute once the daemon's own cwd is, and the
      components after its leading slashes are all proper names. */
  lemma AbsPathCanonical(cwd: Bytes, p: Bytes)
    requires IsAbs(cwd) || IsAbs(p)
    ensures IsAbs(AbsPath(cwd, p))
    ensures var joined := JoinPath(cwd, p);
            var comps := NormComps(Split(joined, SLASH), true);
            AbsPath(cwd, p) == Slashes(InitialSlashes(joined)) + Join(comps, SLASH)
            && forall i :: 0 <= i < |comps| ==> Canonical(comps[i])
  {
    NormCompsCanonical(Split(JoinPath(cwd, p), SLASH));
  }

  // ---------------------------------------------------------------------
  // One connection: handle_connection.

  /** How execfile of the script ends in the worker. */
  datatype ScriptRun =
    | Finished
      /** sys.exit, which the worker replaces by pyzy_exit; None when it is
          called with no argument, which pyzy_exit does not accept. */
    | ExitCalled(arg: Option<int>)
      /** Any other Exception. */
    | Raised
      /** A BaseException that is not an Exception, such as SystemExit
          raised directly or KeyboardInterrupt. */
    | Escaped

  /** How the warm-up execfile(script, {}) ends: it completes, it raises
      socket.error, or it raises anything else (which nothing catches).
      serve_forever catches socket.error but then reads e[0]: only an error
      raised with at least one argument (hasArgs) gets past that read; on
      one raised bare, e[0] raises IndexError, which nothing catches. */
  datatype WarmEnd = Completes | RaisesSocketError(hasArgs: bool) | RaisesOther

  /** The warm-up in the daemon itself: how it ends, the environment and
      sys.path it leaves behind, and how many threads are alive afterwards. */
  datatype WarmUp = WarmUp(end: WarmEnd, environ: map<Bytes, Bytes>, path: seq<Bytes>, threads: nat)

  /** The side of os.fork() the handler continues on; the child's pid,
      whether os.chdir(cwd) succeeds and how the script ends. */
  datatype Side = Parent | Child(pid: u32, chdirOk: bool, run: ScriptRun)

  /** Exceptions that end serve_forever: those that leave handle_connection
      (serve_forever catches only socket.error), and the IndexError its
      handler raises on a socket.error without arguments. */
  datatype Failure =
    | Framing               // struct.unpack on a short read
    | BadEnvEntry           // an entry with no '=' cannot go into the dict
    | WarmUpFailed          // the warm-up raised something other than socket.error
    | BareSocketError       // e[0] of a socket.error raised with no arguments
    | UnsafeImport(script: Bytes)

  datatype Handled =
    | Died(failure: Failure)
    | Returned
      /** socket.error with at least one argument left the handler:
          serve_forever closes the connection (unless e[0] is EINTR) and
          accepts the next one. */
    | Dropped
      /** The child's chdir raised before anything was sent. */
    | ChildDied
      /** The child's worker: what it sent, and the argument of os._exit. */
    | WorkerExit(reply: Bytes, code: int)

  /** os.environ, sys.path, sys.argv, the working directory and the
      script cache of the daemon process. */
  datatype DaemonState = DaemonState(
    environ: map<Bytes, Bytes>, path: seq<Bytes>, argv: seq<Bytes>, cwd: Bytes, scriptSet: set<Bytes>)

  /** The revert loop's result: each key still present gets its snapshot
      value back, or is deleted when the snapshot does not have it. */
  function Reverted(cur: map<Bytes, Bytes>, snapshot: map<Bytes, Bytes>): (env: map<Bytes, Bytes>)
    ensures env.Keys == cur.Keys * snapshot.Keys
    ensures forall k :: k in env ==> env[k] == snapshot[k]
  {
    map k | k in cur.Keys * snapshot.Keys :: snapshot[k]
  }

  /** The revert gives back the snapshot exactly when no key of the snapshot
      went missing in the meantime. */
  lemma RevertedIsSnapshot(cur: map<Bytes, Bytes>, snapshot: map<Bytes, Bytes>)
    ensures Reverted(cur, snapshot) == snapshot <==> snapshot.Keys <= cur.Keys
  {
    if snapshot.Keys <= cur.Keys {
      assert Reverted(cur, snapshot).Keys == snapshot.Keys;
    } else {
      var k :| k in snapshot.Keys && k !in cur.Keys;
      assert k !in Reverted(cur, snapshot);
    }
  }

  /** The decision to warm a script up. */
  predicate Warms(scriptSet: set<Bytes>, clientEnv: map<Bytes, Bytes>, script: Bytes)
  {
    script !in scriptSet && CACHE_KEY in clientEnv
  }

  /** return_code in the worker. */
  function ReturnCode(importExc: bool, run: ScriptRun): (c: int)
    ensures importExc ==> c == 1
    ensures c == 0 <==> !importExc && (run.Finished? || run.Escaped? || run == ExitCalled(Some(0)))
  {
    if importExc then 1
    else
      match run
      case Finished => 0
      case ExitCalled(arg) => if arg.Some? then arg.value else 1
      case Raised => 1
      case Escaped => 0
  }

  /** The worker after the pid went out: the '!II' status is sent when the
      script's end is caught and the code packs as an unsigned int (under
      Python 2.7, struct.pack raises struct.error for any other code);
      os._exit gets the return code either way. */
  ghost function Worker(pid: u32, importExc: bool, run: ScriptRun): (h: Handled)
    ensures h.WorkerExit? && h.code == ReturnCode(importExc, run)
  {
    var rc := ReturnCode(importExc, run);
    var hello := EncodeU32(pid);
    if !importExc && run.Escaped? then WorkerExit(hello, rc)
    else if 0 <= rc < U32_LIMIT then WorkerExit(hello + EncodeStatus(rc, pid), rc)
    else WorkerExit(hello, rc)
  }

  /** The request as handle_connection reads it: cwd, the parsed client
      environment and argv; None when the reading or the dict fails. */
  function Decoded(data: Bytes): (r: Option<(Bytes, map<Bytes, Bytes>, seq<Bytes>)>)
  {
    match DecodeEnvBlock(data)
    case None => None
    case Some((cwd, envv, rest)) =>
      match ParseEnv(envv)
      case None => None
      case Some(clientEnv) =>
        match DecodeArgv(rest)
        case None => None
        case Some((argv, _)) => Some((cwd, clientEnv, argv))
  }

  /** The script a connection warms up, if it does. */
  function WarmedScript(st: DaemonState, data: Bytes): Option<Bytes>
  {
    match Decoded(data)
    case None => None
    case Some((_, clientEnv, argv)) =>
      if |argv| >= 2 && Warms(st.scriptSet, clientEnv, AbsPath(st.cwd, argv[1]))
      then Some(AbsPath(st.cwd, argv[1])) else None
  }

  /** handle_connection in the order of the code: the environment is merged
      before argv is read, argv shorter than 2 returns at once, the script
      is warmed up before the fork, and only the parent reverts. */
  ghost function Handle(st: DaemonState, data: Bytes, warm: WarmUp, side: Side): (r: (DaemonState, Handled))
    ensures st.scriptSet <= r.0.scriptSet
    ensures side.Parent? ==> r.0.cwd == st.cwd && r.0.argv == st.argv
    ensures r.1.WorkerExit? || r.1.ChildDied? ==> side.Child?
  {
    match DecodeEnvBlock(data)
    case None => (st, Died(Framing))
    case Some((cwd, envv, rest)) =>
      match ParseEnv(envv)
      case None => (st, Died(BadEnvEntry))
      case Some(clientEnv) =>
        var merged := st.(environ := st.environ + clientEnv);
        match DecodeArgv(rest)
        case None => (merged, Died(Framing))
        case Some((argv, _)) =>
          if |argv| < 2 then (merged, Returned)
          else AfterArgv(merged, st.environ, st.path, cwd, clientEnv, argv, warm, side)
  }

  ghost function AfterArgv(st: DaemonState, oldEnv: map<Bytes, Bytes>, oldPath: seq<Bytes>, cwd: Bytes,
                     clientEnv: map<Bytes, Bytes>, argv: seq<Bytes>, warm: WarmUp, side: Side): (r: (DaemonState, Handled))
    requires |argv| >= 2
    ensures st.scriptSet <= r.0.scriptSet <= st.scriptSet + {AbsPath(st.cwd, argv[1])}
    ensures r.1.Dropped? <==> Warms(st.scriptSet, clientEnv, AbsPath(st.cwd, argv[1])) && warm.end == RaisesSocketError(true)
    ensures r.1 == Died(BareSocketError) <==>
              Warms(st.scriptSet, clientEnv, AbsPath(st.cwd, argv[1])) && warm.end == RaisesSocketError(false)
    ensures side.Parent? ==> r.0.cwd == st.cwd && r.0.argv == st.argv
    ensures r.1.WorkerExit? || r.1.ChildDied? ==> side.Child?
  {
    var script := AbsPath(st.cwd, argv[1]);
    if Warms(st.scriptSet, clientEnv, script) then
      var st1 := st.(environ := warm.environ, path := warm.path);
      match warm.end
      case RaisesOther => (st1, Died(WarmUpFailed))
      case RaisesSocketError(hasArgs) => if hasArgs then (st1, Dropped) else (st1, Died(BareSocketError))
      case Completes => Fork(st1.(scriptSet := st.scriptSet + {script}), oldEnv, oldPath, cwd, clientEnv, argv,
                             warm.threads > 1, script, side)
    else Fork(st, oldEnv, oldPath, cwd, clientEnv, argv, false, script, side)
  }

  ghost function Fork(st: DaemonState, oldEnv: map<Bytes, Bytes>, oldPath: seq<Bytes>, cwd: Bytes,
                clientEnv: map<Bytes, Bytes>, argv: seq<Bytes>, importExc: bool, script: Bytes,
                side: Side): (r: (DaemonState, Handled))
    requires |argv| >= 2
    ensures r.0.scriptSet == st.scriptSet
    ensures side.Parent? ==> && r.0.path == oldPath && r.0.cwd == st.cwd && r.0.argv == st.argv
                             && (r.1 == Died(UnsafeImport(script)) <==> importExc)
                             && (r.1.Returned? <==> !importExc)
    ensures side.Child? ==> (r.1.WorkerExit? <==> side.chdirOk) && (r.1.ChildDied? <==> !side.chdirOk)
  {
    match side
    case Parent =>
      var st1 := st.(environ := Reverted(st.environ, oldEnv), path := oldPath);
      (st1, if importExc then Died(UnsafeImport(script)) else Returned)
    case Child(pid, chdirOk, run) =>
      var st1 := st.(path := Split(Get(clientEnv, PATH_KEY, []), COLON) + st.path);
      if !chdirOk then (st1, ChildDied)
      else (st1.(cwd := cwd, argv := argv[1..]), Worker(pid, importExc, run))
  }

  /** A connection the daemon accepts: the bytes the client sent and what
      the warm-up would do if it runs. */
  datatype Connection = Connection(data: Bytes, warm: WarmUp)

  datatype Served = Served(state: DaemonState, stopped: Option<Failure>)

  /** One turn of the serve loop: a run that has stopped stays stopped;
      otherwise the parent side of handle_connection on the next connection. */
  ghost function ServeStep(prev: Served, c: Connection): (r: Served)
    ensures prev.stopped.Some? ==> r == prev
    ensures r.state.cwd == prev.state.cwd && r.state.argv == prev.state.argv
  {
    if prev.stopped.Some? then prev
    else
      var (st1, h) := Handle(prev.state, c.data, c.warm, Parent);
      Served(st1, if h.Died? then Some(h.failure) else None)
  }

  /** serve_forever over the connections accepted so far: the parent side
      of each handle_connection, until one raises something other than a
      socket.error with an argument. */
  ghost function Serve(st: DaemonState, conns: seq<Connection>): (r: Served)
    ensures r.state.cwd == st.cwd && r.state.argv == st.argv
  {
    if conns == [] then Served(st, None)
    else ServeStep(Serve(st, conns[..|conns| - 1]), conns[|conns| - 1])
  }

  /** A turn whose warm-up completes and which does not stop the run
      leaves the script in the cache. */
  lemma StepCaches(prev: Served, c: Connection, script: Bytes)
    requires ServeStep(prev, c).stopped.None?
    requires WarmedScript(prev.state, c.data) == Some(script) && c.warm.end.Completes?
    ensures script in ServeStep(prev, c).state.scriptSet
  {
    HandleScriptSet(prev.state, c.data, c.warm, Parent);
  }

  /** A script already in the cache is not warmed up. */
  lemma CachedNotWarmed(st: DaemonState, data: Bytes, script: Bytes)
    requires script in st.scriptSet
    ensures WarmedScript(st, data) != Some(script)
  {
  }

  /** A turn that leaves the run going started from a run that was going. */
  lemma StepLive(prev: Served, c: Connection)
    requires ServeStep(prev, c).stopped.None?
    ensures prev.stopped.None?
  {
  }

  /** A turn never takes a script out of the cache. */
  lemma StepKeepsCache(prev: Served, c: Connection)
    ensures prev.state.scriptSet <= ServeStep(prev, c).state.scriptSet
  {
    if prev.stopped.None? {
      HandleScriptSet(prev.state, c.data, c.warm, Parent);
    }
  }

  lemma {:induction false} ServeStopped(st: DaemonState, conns: seq<Connection>, i: nat)
    requires i <= |conns| && Serve(st, conns[..i]).stopped.Some?
    ensures Serve(st, conns) == Serve(st, conns[..i])
  {
    if i < |conns| {
      var n := |conns| - 1;
      assert conns[..n][..i] == conns[..i];
      ServeStopped(st, conns[..n], i);
      ServeLast(st, conns, n);
      assert conns[..n + 1] == conns;
    } else {
      assert conns[..i] == conns;
    }
  }

  /** Nothing changes when the request cannot be read up to the client
      environment, or an entry of it has no '='. */
  lemma UnreadableRequestChangesNothing(st: DaemonState, data: Bytes, warm: WarmUp, side: Side)
    requires DecodeEnvBlock(data).None? || ParseEnv(DecodeEnvBlock(data).value.1).None?
    ensures Handle(st, data, warm, side).0 == st
    ensures Handle(st, data, warm, side).1 == Died(if DecodeEnvBlock(data).None? then Framing else BadEnvEntry)
  {
  }

  /** With fewer than two arguments the handler returns without reverting:
      the client's environment stays merged into the daemon's. */
  lemma ShortArgvLeaksEnvironment(st: DaemonState, data: Bytes, warm: WarmUp, side: Side)
    requires Decoded(data).Some? && |Decoded(data).value.2| < 2
    ensures Handle(st, data, warm, side) == (st.(environ := st.environ + Decoded(data).value.1), Returned)
  {
  }

  /** The environment the parent reverts from: the merged one, or what the
      warm-up left. */
  function EnvironAtFork(st: DaemonState, data: Bytes, warm: WarmUp): map<Bytes, Bytes>
    requires Decoded(data).Some?
  {
    if WarmedScript(st, data).Some? then warm.environ else st.environ + Decoded(data).value.1
  }

  /** Whenever the parent gets past the fork, sys.path is back to the copy
      taken before the request and os.environ is the reverted one, also
      when it goes on to raise the unsafe-import error. */
  lemma ParentReverts(st: DaemonState, data: Bytes, warm: WarmUp)
    requires Decoded(data).Some? && |Decoded(data).value.2| >= 2
    requires WarmedScript(st, data).Some? ==> warm.end.Completes?
    ensures var (st1, h) := Handle(st, data, warm, Parent);
            && st1.path == st.path
            && st1.environ == Reverted(EnvironAtFork(st, data, warm), st.environ)
            && st1.argv == st.argv && st1.cwd == st.cwd
            && (h.Returned? || h.failure.UnsafeImport?)
  {
    var (cwd, envv, rest) := DecodeEnvBlock(data).value;
    var clientEnv := ParseEnv(envv).value;
    var argv := DecodeArgv(rest).value.0;
    var merged := st.(environ := st.environ + clientEnv);
    assert Decoded(data).value == (cwd, clientEnv, argv);
    assert Handle(st, data, warm, Parent)
        == AfterArgv(merged, st.environ, st.path, cwd, clientEnv, argv, warm, Parent);
  }

  /** Without a warm-up the parent's environment is exactly the snapshot
      again; after one, exactly when the warm-up deleted none of its keys. */
  lemma ParentRestoresEnvironment(st: DaemonState, data: Bytes, warm: WarmUp)
    requires Decoded(data).Some? && |Decoded(data).value.2| >= 2
    requires WarmedScript(st, data).Some? ==> warm.end.Completes?
    ensures WarmedScript(st, data).None? ==> Handle(st, data, warm, Parent).0.environ == st.environ
    ensures WarmedScript(st, data).Some? ==>
              (Handle(st, data, warm, Parent).0.environ == st.environ <==> st.environ.Keys <= warm.environ.Keys)
  {
    ParentReverts(st, data, warm);
    RevertedIsSnapshot(EnvironAtFork(st, data, warm), st.environ);
  }

  /** The cache gains the warmed script once its warm-up completes, and
      nothing else; no handler removes anything. */
  lemma HandleScriptSet(st: DaemonState, data: Bytes, warm: WarmUp, side: Side)
    ensures var added := if WarmedScript(st, data).Some? && warm.end.Completes?
                         then {WarmedScript(st, data).value} else {};
            Handle(st, data, warm, side).0.scriptSet == st.scriptSet + added
    ensures WarmedScript(st, data).Some? ==>
              WarmedScript(st, data).value !in st.scriptSet && CACHE_KEY in Decoded(data).value.1
    ensures WarmedScript(st, data).Some? && warm.end.RaisesOther? ==> Handle(st, data, warm, side).1 == Died(WarmUpFailed)
    ensures WarmedScript(st, data).Some? && warm.end == RaisesSocketError(true) ==>
              Handle(st, data, warm, side) == (st.(environ := warm.environ, path := warm.path), Dropped)
    ensures WarmedScript(st, data).Some? && warm.end == RaisesSocketError(false) ==>
              Handle(st, data, warm, side).1 == Died(BareSocketError)
  {
  }

  /** The parent raises the unsafe-import error exactly when it warmed the
      script up and more than one thread was alive afterwards. */
  lemma UnsafeImportIff(st: DaemonState, data: Bytes, warm: WarmUp, script: Bytes)
    ensures Handle(st, data, warm, Parent).1 == Died(UnsafeImport(script))
            <==> WarmedScript(st, data) == Some(script) && warm.end.Completes? && warm.threads > 1
  {
  }

  /** The child: PYTHONPATH's pieces go in front of sys.path, then the
      working directory becomes the client's, sys.argv drops argv[0], and
      the worker runs with the import error pending iff the parent would
      raise it. */
  lemma ChildSetup(st: DaemonState, data: Bytes, warm: WarmUp, pid: u32, run: ScriptRun)
    requires Decoded(data).Some? && |Decoded(data).value.2| >= 2
    requires WarmedScript(st, data).Some? ==> warm.end.Completes?
    ensures var (cwd, clientEnv, argv) := Decoded(data).value;
            var pathAtFork := if WarmedScript(st, data).Some? then warm.path else st.path;
            var importExc := WarmedScript(st, data).Some? && warm.threads > 1;
            var (st1, h) := Handle(st, data, warm, Child(pid, true, run));
            && st1.path == Split(Get(clientEnv, PATH_KEY, []), COLON) + pathAtFork
            && st1.cwd == cwd && st1.argv == argv[1..]
            && h == Worker(pid, importExc, run)
  {
  }

  /** What the worker sends: its pid, then, unless a non-Exception escaped
      or the code does not pack as an unsigned int, the code and the pid
      again. */
  lemma WorkerReplies(pid: u32, importExc: bool, run: ScriptRun)
    ensures var h := Worker(pid, importExc, run);
            && |h.reply| >= 4
            && DecodeU32(h.reply) == Some((pid, h.reply[4..]))
            && (|h.reply| == 12 <==> (importExc || !run.Escaped?) && 0 <= h.code < U32_LIMIT)
            && (|h.reply| != 12 ==> |h.reply| == 4)
            && (|h.reply| == 12 ==> (DecodeU32(h.reply[4..]) == Some((h.code, h.reply[8..]))
                                  && DecodeU32(h.reply[8..]) == Some((pid, []))))
  {
    var h := Worker(pid, importExc, run);
    var rc := ReturnCode(importExc, run);
    if (importExc || !run.Escaped?) && 0 <= rc < U32_LIMIT {
      assert h.reply == EncodeU32(pid) + EncodeStatus(rc, pid);
      DecodeReply(pid, rc);
    } else {
      assert h.reply == EncodeU32(pid) + [];
      DecodeEncodeU32(pid, []);
    }
  }

  /** The worker's return code: 0 when the script finishes, n for
      sys.exit(n), and 1 for a pending import error, another exception, or
      sys.exit() with no argument. */
  lemma WorkerReturnCode(importExc: bool, run: ScriptRun)
    ensures importExc || run.Raised? || run == ExitCalled(None) ==> ReturnCode(importExc, run) == 1
    ensures !importExc && run.Finished? ==> ReturnCode(importExc, run) == 0
    ensures !importExc && run.ExitCalled? && run.arg.Some? ==> ReturnCode(importExc, run) == run.arg.value
    ensures !importExc && run.Escaped? ==> ReturnCode(importExc, run) == 0
  {
  }

  /** The run up to connection k + 1 is the run up to k and one more turn. */
  lemma ServeLast(st: DaemonState, conns: seq<Connection>, k: nat)
    requires k < |conns|
    ensures Serve(st, conns[..k + 1]) == ServeStep(Serve(st, conns[..k]), conns[k])
  {
    var upTo := conns[..k + 1];
    assert upTo[..k] == conns[..k] && upTo[k] == conns[k];
  }

  /** The cache only grows along a run of serve_forever. */
  lemma {:induction false} ServeScriptSetGrows(st: DaemonState, conns: seq<Connection>, i: nat)
    requires i <= |conns|
    ensures Serve(st, conns[..i]).state.scriptSet <= Serve(st, conns).state.scriptSet
  {
    if i < |conns| {
      var n := |conns| - 1;
      assert conns[..n][..i] == conns[..i];
      ServeScriptSetGrows(st, conns[..n], i);
      StepKeepsCache(Serve(st, conns[..n]), conns[n]);
    } else {
      assert conns[..i] == conns;
    }
  }

  /** A run that has not stopped had not stopped at any earlier point. */
  lemma {:induction false} ServeLive(st: DaemonState, conns: seq<Connection>, i: nat)
    requires i <= |conns| && Serve(st, conns).stopped.None?
    ensures Serve(st, conns[..i]).stopped.None?
  {
    if i < |conns| {
      var n := |conns| - 1;
      assert conns[..n][..i] == conns[..i];
      StepLive(Serve(st, conns[..n]), conns[n]);
      ServeLive(st, conns[..n], i);
    } else {
      assert conns[..i] == conns;
    }
  }

  /** ServeScriptSetGrows between two prefixes of one run. */
  lemma GrowsBetween(st: DaemonState, conns: seq<Connection>, i: nat, j: nat)
    requires i <= j <= |conns|
    ensures Serve(st, conns[..i]).state.scriptSet <= Serve(st, conns[..j]).state.scriptSet
  {
    assert conns[..j][..i] == conns[..i];
    ServeScriptSetGrows(st, conns[..j], i);
  }

  /** ServeLive between two prefixes of one run. */
  lemma LiveBetween(st: DaemonState, conns: seq<Connection>, i: nat, j: nat)
    requires i <= j <= |conns| && Serve(st, conns[..j]).stopped.None?
    ensures Serve(st, conns[..i]).stopped.None?
  {
    assert conns[..j][..i] == conns[..i];
    ServeLive(st, conns[..j], i);
  }

  /** A script is warmed up at most once per daemon: once a connection's
      warm-up of it has completed, no later connection of the same run warms
      it again. */
  lemma NoScriptWarmedTwice(st: DaemonState, conns: seq<Connection>, i: nat, j: nat, script: Bytes)
    requires i < j < |conns| && Serve(st, conns[..j]).stopped.None?
    requires WarmedScript(Serve(st, conns[..i]).state, conns[i].data) == Some(script)
    requires conns[i].warm.end.Completes?
    ensures WarmedScript(Serve(st, conns[..j]).state, conns[j].data) != Some(script)
  {
    LiveBetween(st, conns, i + 1, j);
    ServeLast(st, conns, i);
    StepCaches(Serve(st, conns[..i]), conns[i], script);
    GrowsBetween(st, conns, i + 1, j);
    CachedNotWarmed(Serve(st, conns[..j]).state, conns[j].data, script);
  }

  /** A warm-up that raises socket.error with an argument does not stop
      the run and leaves the script out of the cache, with the warm-up's
      environment and sys.path left in place: the same request warms the
      script up again. */
  lemma DroppedWarmUpRepeats(st: DaemonState, conns: seq<Connection>, i: nat, script: Bytes)
    requires i < |conns| && Serve(st, conns[..i]).stopped.None?
    requires WarmedScript(Serve(st, conns[..i]).state, conns[i].data) == Some(script)
    requires conns[i].warm.end == RaisesSocketError(true)
    ensures var next := Serve(st, conns[..i + 1]);
            && next.stopped.None?
            && next.state.environ == conns[i].warm.environ && next.state.path == conns[i].warm.path
            && script !in next.state.scriptSet
            && WarmedScript(next.state, conns[i].data) == Some(script)
  {
    var prev := Serve(st, conns[..i]);
    ServeLast(st, conns, i);
    HandleScriptSet(prev.state, conns[i].data, conns[i].warm, Parent);
  }

  /** A warm-up that raises socket.error with no arguments ends the whole
      run: serve_forever's e[0] raises IndexError, and no later connection
      is handled. */
  lemma BareSocketErrorStops(st: DaemonState, conns: seq<Connection>, i: nat)
    requires i < |conns| && Serve(st, conns[..i]).stopped.None?
    requires WarmedScript(Serve(st, conns[..i]).state, conns[i].data).Some?
    requires conns[i].warm.end == RaisesSocketError(false)
    ensures Serve(st, conns).stopped == Some(BareSocketError)
    ensures Serve(st, conns) == Serve(st, conns[..i + 1])
  {
    ServeLast(st, conns, i);
    HandleScriptSet(Serve(st, conns[..i]).state, conns[i].data, conns[i].warm, Parent);
    ServeStopped(st, conns, i + 1);
  }

  class Daemon {
    var environ: map<Bytes, Bytes>
    var path: seq<Bytes>
    var argv: seq<Bytes>
    var cwd: Bytes
    var scriptSet: set<Bytes>

    function State(): DaemonState
      reads this
    {
      DaemonState(environ, path, argv, cwd, scriptSet)
    }

    constructor (environ: map<Bytes, Bytes>, path: seq<Bytes>, argv: seq<Bytes>, cwd: Bytes)
      ensures State() == DaemonState(environ, path, argv, cwd, {})
    {
      this.environ := environ;
      this.path := path;
      this.argv := argv;
      this.cwd := cwd;
      scriptSet := {};
    }

    /** The parent's revert loop over os.environ.keys(): a key of the
        snapshot is assigned its old value, any other key is deleted. */
    method RevertEnviron(snapshot: map<Bytes, Bytes>)
      modifies this`environ
      ensures environ == Reverted(old(environ), snapshot)
    {
      ghost var cur := environ;
      var keys := environ.Keys;
      while keys != {}
        invariant keys <= cur.Keys
        invariant environ.Keys == keys + (cur.Keys - keys) * snapshot.Keys
        invariant forall k :: k in environ ==> environ[k] == if k in keys then cur[k] else snapshot[k]
        decreases keys
      {
        var key :| key in keys;
        if key in snapshot {
          environ := environ[key := snapshot[key]];
        } else {
          environ := environ - {key};
        }
        keys := keys - {key};
      }
      assert environ.Keys == Reverted(cur, snapshot).Keys;
    }

    method HandleConnection(data: Bytes, warm: WarmUp, side: Side) returns (h: Handled)
      modifies this
      ensures (State(), h) == Handle(old(State()), data, warm, side)
    {
      var block := DecodeEnvBlock(data);
      if block.None? {
        return Died(Framing);
      }
      var (reqCwd, envv, rest) := block.value;
      var parsed := ParseEnv(envv);
      if parsed.None? {
        return Died(BadEnvEntry);
      }
      var clientEnv := parsed.value;
      var oldEnv := environ;
      var oldPath := path;
      environ := environ + clientEnv;
      var args := DecodeArgv(rest);
      if args.None? {
        return Died(Framing);
      }
      var reqArgv := args.value.0;
      if |reqArgv| < 2 {
        return Returned;
      }
      h := WarmAndFork(oldEnv, oldPath, reqCwd, clientEnv, reqArgv, warm, side);
    }

    /** handle_connection once argv has a script: the warm-up decision,
        then the fork. */
    method WarmAndFork(oldEnv: map<Bytes, Bytes>, oldPath: seq<Bytes>, reqCwd: Bytes,
                       clientEnv: map<Bytes, Bytes>, reqArgv: seq<Bytes>, warm: WarmUp, side: Side)
      returns (h: Handled)
      requires |reqArgv| >= 2
      modifies this
      ensures (State(), h) == AfterArgv(old(State()), oldEnv, oldPath, reqCwd, clientEnv, reqArgv, warm, side)
    {
      var script := AbsPath(cwd, reqArgv[1]);
      var importExc := false;
      if script !in scriptSet && CACHE_KEY in clientEnv {
        environ, path := warm.environ, warm.path;
        if warm.end.RaisesOther? {
          return Died(WarmUpFailed);
        }
        if warm.end.RaisesSocketError? {
          return if warm.end.hasArgs then Dropped else Died(BareSocketError);
        }
        scriptSet := scriptSet + {script};
        importExc := warm.threads > 1;
      }
      h := ForkBranch(oldEnv, oldPath, reqCwd, clientEnv, reqArgv, importExc, script, side);
    }

    /** The two sides of os.fork(): the parent reverts and returns (or
        raises the pending import error); the child sets up its context,
        runs the script and reports. */
    method ForkBranch(oldEnv: map<Bytes, Bytes>, oldPath: seq<Bytes>, reqCwd: Bytes,
                      clientEnv: map<Bytes, Bytes>, reqArgv: seq<Bytes>, importExc: bool, script: Bytes,
                      side: Side)
      returns (h: Handled)
      requires |reqArgv| >= 2
      modifies this
      ensures (State(), h) == Fork(old(State()), oldEnv, oldPath, reqCwd, clientEnv, reqArgv, importExc, script, side)
    {
      match side {
        case Parent =>
          RevertEnviron(oldEnv);
          path := oldPath;
          if importExc {
            return Died(UnsafeImport(script));
          }
          return Returned;
        case Child(pid, chdirOk, run) =>
          path := Split(Get(clientEnv, PATH_KEY, []), COLON) + path;
          if !chdirOk {
            return ChildDied;
          }
          cwd := reqCwd;
          argv := reqArgv[1..];
          var returnCode := ReturnCode(importExc, run);
          NetworkOrderIsEncoding(pid);
          var reply := NetworkOrder(pid);
          if (importExc || !run.Escaped?) && 0 <= returnCode < U32_LIMIT {
            NetworkOrderIsEncoding(returnCode);
            reply := reply + (NetworkOrder(returnCode) + NetworkOrder(pid));
          }
          return WorkerExit(reply, returnCode);
      }
    }

    /** serve_forever: the cache starts empty, then each accepted connection
        is handled in the parent until one raises something other than a
        socket.error with an argument. */
    method ServeForever(conns: seq<Connection>) returns (stopped: Option<Failure>)
      modifies this
      ensures Served(State(), stopped) == Serve(old(State()).(scriptSet := {}), conns)
    {
      scriptSet := {};
      ghost var st0 := State();
      var i := 0;
      while i < |conns|
        invariant 0 <= i <= |conns|
        invariant Serve(st0, conns[..i]) == Served(State(), None)
      {
        var h := HandleConnection(conns[i].data, conns[i].warm, Parent);
        ServeLast(st0, conns, i);
        if h.Died? {
          assert Serve(st0, conns[..i + 1]) == Served(State(), Some(h.failure));
          ServeStopped(st0, conns, i + 1);
          return Some(h.failure);
        }
        i := i + 1;
      }
      assert conns[..|conns|] == conns;
      return None;
    }
  }
}
