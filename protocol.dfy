/** The two ends together: what the client writes is what the daemon
    reads, what the worker reports is what the client exits with, and the
    two sides agree on the socket exactly when PYZY_SOCKET is unset or
    names /tmp/pyzy-<user>.sock, the one path the daemon listens on. */
module Protocol {
  import opened Wire
  import Client
  import Server

  /** The octets of the client's launch message (the frames before the
      three descriptors) are read back by handle_connection as the same
      cwd, the parsed environment entries and the same argv, whatever
      follows them on the connection. */
  lemma RequestReachesDaemon(cwd: Bytes, environ: seq<Option<Bytes>>, argv: seq<Bytes>, rest: Bytes)
    requires None in environ && |environ| <= INT_LIMIT && |argv| < INT_LIMIT
    requires |cwd| < Client.CWD_BUFFER && AllFit(Client.Entries(environ)) && AllFit(argv)
    ensures var env := Client.Entries(environ);
            var data := EncodeRequest(Request(cwd, env, argv));
            && Client.LaunchFrames(cwd, env, argv) == Client.Lift(data) + Client.StdioFrames()
            && Server.Decoded(data + rest)
               == if Server.ParseEnv(env).Some? then Some((cwd, Server.ParseEnv(env).value, argv)) else None
  {
    var env := Client.Entries(environ);
    var r := Request(cwd, env, argv);
    assert |env| < INT_LIMIT;
    RequestRoundTrip(r, rest);
  }

  /** Numbers that agree modulo 2^32 agree in their low 8 bits. */
  lemma LowByteOfInt32(x: u32)
    ensures Client.ExitStatus(Client.AsInt32(x)) == x % 0x100
  {
    if x >= INT_LIMIT {
      assert x - U32_LIMIT == x + 0x100 * -0x100_0000;
    }
  }

  /** The worker's reply as the client reads it: its pid always, and when
      the status went out the client exits with the low 8 bits of the
      worker's return code, which is also the worker's own exit status;
      without the status the client ends in fatalf. */
  lemma StatusReachesClient(pid: u32, importExc: bool, run: Server.ScriptRun)
    ensures var h := Server.Worker(pid, importExc, run);
            var reply := Client.ReadReply(h.reply);
            && !reply.NoPid? && reply.pid == Client.AsInt32(pid)
            && (|h.reply| == 12 ==> (reply.Status? && reply.statusPid == reply.pid
                                    && Client.ReplyExit(reply) == h.code % 0x100))
            && (|h.reply| != 12 ==> Client.ReplyExit(reply) == Client.FATAL_EXIT)
  {
    var h := Server.Worker(pid, importExc, run);
    Server.WorkerReplies(pid, importExc, run);
    if |h.reply| == 12 {
      LowByteOfInt32(h.code);
    }
  }

  /** Without PYZY_SOCKET the client connects where the daemon listens. */
  lemma SocketPathsAgree(user: Bytes)
    ensures Client.UnixSocketPath(Some(user), None) == Some(Server.SocketName(user))
  {
  }

  /** The client connects where the daemon listens exactly when
      PYZY_SOCKET is unset or is that very path. */
  lemma SocketPathsAgreeIff(user: Bytes, socketEnv: Option<Bytes>)
    ensures Client.UnixSocketPath(Some(user), socketEnv) == Some(Server.SocketName(user))
            <==> socketEnv.None? || socketEnv == Some(Server.SocketName(user))
  {
    if socketEnv.None? {
      SocketPathsAgree(user);
    }
  }

  /** socket_name ignores PYZY_SOCKET: an override naming another path
      sends the client somewhere the daemon does not listen. */
  lemma OverrideMissesDaemon(user: Bytes, socketEnv: Bytes)
    requires socketEnv != Server.SocketName(user)
    ensures Client.UnixSocketPath(Some(user), Some(socketEnv)) != Some(Server.SocketName(user))
  {
  }
}
