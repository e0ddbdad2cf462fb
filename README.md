# pyzy in Dafny

pyzy starts Python scripts fast. A long-lived daemon (`pyzy_server.py`)
keeps a warmed-up interpreter and forks one worker per request. A small C
launcher (`pyzy_client.c`) finds the daemon's Unix socket, starting the
daemon if there is none. It then sends the request: working directory,
environment, argv, and its three standard descriptors. It waits for the
worker's pid and final status, and exits with the worker's return code.

This project models that core and proves properties of the model:

- `wire.dfy` (module `Wire`): the launch-control wire format. Unsigned 4-byte
  big-endian integers, length-prefixed byte strings, the request (cwd, envc
  and the entries, argc and the arguments), and the final `'!II'` status.
  Each decoder returns `Option<(value, rest)>`; encode/decode round trips are
  proved.
- `client.dfy` (module `Client`):
  - the socket path and the path checks of `open_unix_socket`;
  - the 200-attempt connect loop, which starts the daemon at most once;
  - a `Session` class for one connection. Its `sent` field holds what the
    client has written, data bytes and descriptors alike. Its `room` field
    is how much more the connection accepts before the peer is gone, `open`
    says whether the descriptor is a socket at all, and `piped` whether
    `SIGPIPE` has ended the process. Each send method is proved to make
    exactly the send calls of the C code, stopping at the first failure.
    The function `SendCalls` gives the operating system's answer to such a
    run of calls (a count, `EBADF`, or `SIGPIPE`), and lemmas characterise
    it: what goes out is a prefix of the message, the run succeeds exactly
    when the message fits, and `SIGPIPE` strikes exactly when a call starts
    on a connection that has already taken all it will.
- `server.dfy` (module `Server`):
  - the environment-entry parsing (`split('=', 1)` into a dict), the
    `PYTHONPATH` split, and `os.path.abspath`;
  - the per-connection handler as a pure specification `Handle` over a
    `DaemonState` value;
  - a `Daemon` class whose `HandleConnection` method follows the code step by
    step and is proved equal to `Handle`, with the revert loop and the
    `serve_forever` loop as methods;
  - lemmas on snapshot and revert, the script cache, the unsafe-import error,
    the child set-up and the worker's status reply.
- `protocol.dfy` (module `Protocol`): the two ends together.
  - The client's message decodes, on the daemon side, to the same request.
  - The worker's reply makes the client exit with the low 8 bits of the
    worker's return code.
  - The two sides agree on the socket path exactly when `PYZY_SOCKET` is
    unset or names `/tmp/pyzy-<user>.sock` itself.

Bytes are integers 0..255 and strings are byte sequences. The operating
system, the interpreter and the scripts appear only as inputs:
- the answer of `socket`/`connect` on each attempt;
- whether the client holds a socket, how much a connection accepts, and what
  the peer has sent;
- the side of `fork`;
- how a script run ends;
- what a warm-up leaves behind.

Behaviour of the code that the model keeps:
- The environment is sent as a count followed by one length-prefixed string
  per entry.
- An entry without `=` makes the `dict` construction raise, and the daemon
  stops (`Failure.BadEnvEntry`), because `serve_forever` catches only
  `socket.error`. A short read (`struct.error`) also stops it
  (`Failure.Framing`).
- The client sends its three descriptors right after argv
  (`Client.LaunchFrames`).
- The daemon's `socket_name` ignores `PYZY_SOCKET`
  (`Protocol.OverrideMissesDaemon`).
- A request with fewer than two arguments returns before the revert. The
  client's environment then stays merged into the daemon's
  (`Server.ShortArgvLeaksEnvironment`).
- `os.path.abspath(argv[1])` runs in the daemon before the child's `chdir`,
  so a relative script path is resolved against the daemon's working
  directory, not the client's.
- An exception in the warm-up other than `socket.error` stops the daemon
  (`Failure.WarmUpFailed`). A `socket.error` raised with at least one
  argument is caught by `serve_forever`, which goes on with the next
  connection (`Handled.Dropped`). The script is then not cached, and the
  environment and `sys.path` stay as the warm-up left them
  (`Server.DroppedWarmUpRepeats`). A `socket.error` raised with no
  arguments is caught too, but the handler's `e[0]` then raises
  `IndexError`, which ends `serve_forever` (`Failure.BareSocketError`,
  `Server.BareSocketErrorStops`).
- The revert loop visits only the keys present at the fork. A key of the
  snapshot that the warm-up script deleted stays deleted
  (`Server.ParentRestoresEnvironment`).
- `sys.exit()` without an argument calls `pyzy_exit` with a missing
  argument. The resulting `TypeError` gives return code 1.
- An exception that is not an `Exception` (`SystemExit` raised directly,
  `KeyboardInterrupt`) leaves the return code at 0 and sends no status.
- After 200 attempts that all fail with `ENOENT`, `main` goes on with
  `unix_fd == -1`. Its first send then fails with `EBADF` and `fatalf` exits
  with 1: that is `Client.Session.Run` on a session that is not `open`
  (`Client.ClosedLaunchFails`, `Client.ClientMain`).
- The sends pass no `MSG_NOSIGNAL`, and the signal handlers are installed
  only after the pid has arrived. A send on a connection whose peer has
  gone therefore ends the client by `SIGPIPE`, not by `fatalf`
  (`Client.Ending.Signalled`). A send that the connection takes only in
  part returns a short count, and the client exits with 1.

## Model

| member | source | states |
|---|---|---|
| `Wire.EncodeU32` | pyzy_client.c:130-133 | the 4 bytes `htonl` puts on the wire: their big-endian value is the integer |
| `Wire.NetworkOrder` | pyzy_client.c:131 | the bytes computed most significant first are 4 and read back, big-endian, as the integer |
| `Wire.NetworkOrderIsEncoding` | pyzy_client.c:131 | the computed bytes are the encoding, so the client sends exactly `EncodeU32` |
| `Wire.EncodeU32Injective` | pyzy_client.c:131 | two 4-byte strings with the same big-endian value are equal, so a value has one encoding |
| `Wire.DecodeU32` | pyzy_server.py:52-53 | `struct.unpack('!I')` succeeds exactly when 4 bytes are there, and consumes exactly those 4 |
| `Wire.EncodeDecodeU32` | pyzy_server.py:53 | re-encoding the decoded value gives back the 4 bytes read |
| `Wire.DecodeEncodeU32` | pyzy_server.py:52-53 | `recv_int` reads back exactly the value `send_int` wrote, leaving what follows |
| `Wire.DecodeString` | pyzy_server.py:55-57 | `recv_str` returns fewer than 2^32 bytes and always consumes input |
| `Wire.EncodeString` | pyzy_client.c:140-151 | `send_string`'s bytes: a 4-byte length prefix, then the string cut to `strlen` mod 2^32 bytes, which is the whole string when it is shorter than 2^32 |
| `Wire.EncodeDecodeString` | pyzy_server.py:55-57 | whatever `recv_str` accepts is exactly a length prefix plus the bytes it returns, plus what follows |
| `Wire.DecodeEncodeString` | pyzy_client.c:140-151 | `recv_str` returns the first `strlen(s)` mod 2^32 bytes of what `send_string` sent (the unsigned-int truncation), and all of `s` when it is shorter than 2^32 |
| `Wire.EncodeStrings` | pyzy_client.c:175-179 | the loop's bytes: at least 4 per string, and none exactly when there are no strings |
| `Wire.DecodeStrings` | pyzy_server.py:63 | reading `n` strings yields exactly `n`, never consuming more than is there |
| `Wire.DecodeEncodeStrings` | pyzy_server.py:63 | the list comprehension over `recv_str` reads back every string written, in order |
| `Wire.DecodeEnvBlock` | pyzy_server.py:61-63 | reading cwd, envc and the entries always consumes input |
| `Wire.DecodeArgv` | pyzy_server.py:71-72 | reading argc and the arguments always consumes input |
| `Wire.DecodeEncodeEnvBlock` | pyzy_server.py:61-63 | cwd, envc and the entries written by the client read back unchanged |
| `Wire.DecodeEncodeArgv` | pyzy_server.py:71-72 | argc and the arguments read back unchanged |
| `Wire.EncodeRequest` | pyzy_client.c:169-187 | the request has at least 12 bytes: the cwd's prefix, envc and argc, plus 4 per entry and argument |
| `Wire.DecodeRequest` | pyzy_server.py:61-72 | reading the whole request always consumes input; `Wire.RequestRoundTrip` gives back what was encoded |
| `Wire.RequestRoundTrip` | pyzy_client.c:169-187 | the whole request in `send_launch_ctl`'s order decodes to the same cwd, entries and argv, followed by whatever came after |
| `Wire.EncodeStatus` | pyzy_server.py:144 | the `'!II'` status is 8 bytes |
| `Wire.DecodeReply` | pyzy_server.py:125-144 | the pid followed by the `'!II'` status is 12 bytes that read back, word by word, as the pid, the return code and the pid |
| `Client.UnixSocketPath` | pyzy_client.c:58-72 | fatal without a passwd entry (checked first); otherwise `PYZY_SOCKET` when set, else `/tmp/pyzy-<user>.sock` |
| `Client.OpenUnixSocket` | pyzy_client.c:74-99 | a NULL path and a path longer than `sizeof(sun_path)-1` are refused before any socket is made, leaving errno as it was; a descriptor comes back exactly when the path fits and connect succeeds |
| `Client.ConnectWithRetry` | pyzy_client.c:328-345 | at most 200 attempts; the daemon is exec'd at most once, exactly when some attempt failed with ENOENT; a 20 ms sleep after the first such failure and 5 ms after each later one; every retried attempt failed with ENOENT, judged with errno as it was when that attempt started; any other failure is fatal at that attempt; a connection is kept at the attempt where connect succeeded |
| `Client.Entries` | pyzy_client.c:155-161 | `envc` counts the entries of `environ` before its NULL terminator, and those are the entries sent |
| `Client.CountEnviron` | pyzy_client.c:155-161 | the loop stops at the NULL terminator: `envc` is the number of entries before it |
| `Client.RequestFramesSplit` | pyzy_client.c:169-187 | the request's bytes are, in order: cwd, envc and the entries, then argc and the arguments |
| `Client.LaunchFrames` | pyzy_client.c:169-197 | the full message is the request's encoding followed by exactly three descriptor frames: stdin, stdout, stderr |
| `Client.LiftConcat` | pyzy_client.c:146 | bytes sent in two parts arrive as their concatenation |
| `Client.LiftPrefix` | pyzy_client.c:133 | a send that takes only part of a buffer delivers a prefix of it |
| `Client.FlatConcat` | pyzy_client.c:169-197 | the items of two runs of calls are those of the first run followed by those of the second |
| `Client.SendCalls` | pyzy_client.c:124-151 | a run of blocking sends that stops at the first failure ends with status 0 or -1; `SIGPIPE` only ever ends a failing run; the room never grows |
| `Client.SendCallsDeliver` | pyzy_client.c:124-151 | on a connection, what goes out is the start of the whole message, as much as the connection takes; on the descriptor -1 (`EBADF`) nothing goes out and only an empty run succeeds |
| `Client.SendCallsStatus` | pyzy_client.c:130-151 | on a connection the run succeeds exactly when the whole message fits and `SIGPIPE` did not end the client |
| `Client.SendCallsPipe` | pyzy_client.c:124-151 | without `MSG_NOSIGNAL`, `SIGPIPE` ends the client exactly when a call starts once the connection has taken all it will; a short send returns -1 and no call follows it |
| `Client.SendCallsThen` | pyzy_client.c:169-197 | making calls a and then, only if all of a succeeded, calls b is the same as making calls a + b |
| `Client.DidThen` | pyzy_client.c:169-197 | a run that succeeded followed by another run is one run of both |
| `Client.DidAbort` | pyzy_client.c:169-197 | after a failing call the client makes no more calls: the outcome is that of any longer message |
| `Client.Step` | pyzy_client.c:169-197 | one more step of the `if ((rc = ...)) return rc;` chain: the calls so far grow by the step, and a failing step is the outcome of the whole message |
| `Client.CallStartNext` | pyzy_client.c:169-197 | the items before call k are those of the first call plus those before call k - 1 of the rest |
| `Client.StringCallsFlat` | pyzy_client.c:140-151 | `send_string`'s two calls carry exactly the string's encoding |
| `Client.StringsCallsFlat` | pyzy_client.c:175-187 | the loop's calls carry the strings' encodings in order |
| `Client.LaunchCallsFlat` | pyzy_client.c:153-200 | the calls of `send_launch_ctl` carry exactly the request's encoding, then the three descriptors |
| `Client.LaunchPrefix` | pyzy_client.c:153-200 | on a connection what `send_launch_ctl` put out is a prefix of the full message, and it succeeded exactly when all of it fit and no call raised `SIGPIPE` |
| `Client.AsInt32` | pyzy_client.c:207 | an `ntohl` result stored in an `int` is the two's-complement reading of the unsigned value (equal to it mod 2^32) |
| `Client.ExitStatus` | pyzy_client.c:366 | returning `proc_rc` from `main` gives an exit status in 0..255 equal to it mod 256 |
| `Client.ReadReply` | pyzy_client.c:352-365 | the pid is read when 4 bytes are there; the status when all 12 are; the return code and pid are the second and third big-endian words |
| `Client.ReplyExit` | pyzy_client.c:363-366 | the client exits with the return code's low 8 bits when the status arrives, and with fatalf's 1 otherwise |
| `Client.Session.Send` | pyzy_client.c:133 | `send` returns -1 on the descriptor -1 (`EBADF`); raises `SIGPIPE` on a connection whose peer is gone, even for an empty buffer; otherwise returns the count the connection took, as much of the buffer as fits |
| `Client.Session.SendInt` | pyzy_client.c:130-138 | one send call of the 4-byte big-endian encoding, with the outcome `SendCalls` gives it: 0 exactly when all 4 bytes went |
| `Client.Session.SendString` | pyzy_client.c:140-151 | two send calls, the length prefix (strlen truncated to unsigned) and then the bytes; the bytes are not attempted when the prefix fails |
| `Client.Session.SendFd` | pyzy_client.c:101-128 | one `sendmsg` of a byte carrying the descriptor: `EBADF` on the descriptor -1, `SIGPIPE` on a connection whose peer is gone |
| `Client.Session.SendStrings` | pyzy_client.c:175-187 | the two `for` loops: each string's calls in order, stopping at the first failing string |
| `Client.Session.SendEnvBlock` | pyzy_client.c:169-179 | the calls for cwd, envc and the entries, stopping at the first failing one |
| `Client.Session.SendArgv` | pyzy_client.c:180-187 | the calls for argc and the arguments, stopping at the first failing one |
| `Client.Session.SendRequest` | pyzy_client.c:169-187 | the calls for the whole request, stopping at the first failing one |
| `Client.Session.SendStdio` | pyzy_client.c:189-197 | passes stdin, stdout and stderr in that order, stopping at the first failure |
| `Client.Session.SendLaunchCtl` | pyzy_client.c:153-200 | fails with nothing sent when `getcwd` overflows its 2048-byte buffer; otherwise makes exactly the calls of the full message, stopping at the first failing one |
| `Client.Session.Recv` | pyzy_client.c:203 | `recv` takes what is there, up to the requested size |
| `Client.Session.RecvInt` | pyzy_client.c:202-209 | succeeds exactly when 4 bytes are read, giving the big-endian word as an int |
| `Client.Session.RecvReturnCode` | pyzy_client.c:212-223 | succeeds exactly when 8 bytes come in one read; the return code is the first word, the pid the second |
| `Client.Session.Run` | pyzy_client.c:347-366 | exits 1 when `getcwd` fails or a send fails without `SIGPIPE` (a short count, or `EBADF` after 200 failed attempts); is killed by `SIGPIPE` when a send starts on a connection whose peer is gone; otherwise the full message went out, `remote_pid` is the daemon's pid when 4 bytes came back, and the exit status is the reply's; when `getcwd` fails nothing is sent and nothing read |
| `Client.ClosedLaunchFails` | pyzy_client.c:347-349 | on the descriptor -1 the launch fails with `EBADF` at its first send, so the client exits with 1 and is never killed by `SIGPIPE` |
| `Client.ClientMain` | pyzy_client.c:328-366 | `main` as a whole: a missing passwd entry, a fatal connect error or 200 failed attempts end with status 1; only a connected client can be killed by `SIGPIPE` or exit with the reply's status |
| `Server.SocketName` | pyzy_server.py:17-19 | `/tmp/pyzy-`, the user name, `.sock` |
| `Server.IndexOf` | pyzy_server.py:65 | the position of the first separator, or the length when there is none |
| `Server.SplitFirst` | pyzy_server.py:65 | `split('=', 1)` gives a pair exactly when `=` occurs: the key (containing no `=`), `=`, then the value (which may contain `=`) |
| `Server.SplitFirstUnique` | pyzy_server.py:65 | that split is the only way to write the entry as key `=` value with no `=` in the key |
| `Server.Split` | pyzy_server.py:106 | `split(':')` gives at least one piece, and no piece contains `:` |
| `Server.JoinSplit` | pyzy_server.py:106 | joining the pieces with `:` gives back the string |
| `Server.SplitJoin` | pyzy_server.py:106 | splitting a join of `:`-free pieces gives back the pieces |
| `Server.ParseEnv` | pyzy_server.py:65 | the dict is built exactly when every entry contains `=` |
| `Server.ParseEnvKeys` | pyzy_server.py:65 | every key of the dict is the key of some entry |
| `Server.ParseEnvValue` | pyzy_server.py:65 | an entry that no later entry overrides gives its key's value, so the last entry for a key wins |
| `Server.Get` | pyzy_server.py:106 | `client_env.get('PYTHONPATH', '')`: the client's value when the key is there, the default otherwise |
| `Server.JoinPath` | pyzy_server.py:74 | `posixpath.join`: an absolute second part replaces the first, and an absolute first part stays absolute |
| `Server.NormCompsCanonical` | pyzy_server.py:74 | `normpath` of a rooted path keeps no empty, `.` or `..` component |
| `Server.InitialSlashes` | pyzy_server.py:74 | `normpath` keeps one or two leading slashes exactly for an absolute path |
| `Server.NormPath` | pyzy_server.py:74 | `normpath` keeps an absolute path absolute and never returns an empty string |
| `Server.AbsPath` | pyzy_server.py:74 | `os.path.abspath` never returns an empty path, and its result is absolute whenever the daemon's cwd or the argument is |
| `Server.AbsPathCanonical` | pyzy_server.py:74 | the script path is absolute: its leading slashes, then proper names joined by `/` |
| `Server.Reverted` | pyzy_server.py:93-97 | after the revert loop the keys are those present both now and in the snapshot, each with its snapshot value |
| `Server.RevertedIsSnapshot` | pyzy_server.py:93-97 | the revert gives back the snapshot exactly when none of its keys went missing |
| `Server.Warms` | pyzy_server.py:80-81 | the warm-up is due exactly for a script not in the cache when the client's environment has `PYZY_CACHE_SCRIPT`; what it does to the cache is `Server.HandleScriptSet` |
| `Server.ReturnCode` | pyzy_server.py:130-143 | a pending import error gives 1; the code is 0 exactly without one and when the script completes, a non-`Exception` escapes, or `sys.exit(0)` is called |
| `Server.Worker` | pyzy_server.py:130-146 | the worker ends by `os._exit` with the computed return code |
| `Server.Handle` | pyzy_server.py:59-146 | the cache never shrinks; the parent never changes the daemon's cwd or `sys.argv`; only the child can end as a worker or a failed `chdir` (the warm-up's own effects on them are not modelled) |
| `Server.AfterArgv` | pyzy_server.py:74-146 | the cache grows by at most the script; the handler ends in `Dropped` exactly when the warm-up was due and raised `socket.error` with an argument, and in `Died(BareSocketError)` exactly when it raised one with none; the parent keeps cwd and `sys.argv` (the warm-up's own effects on them are not modelled) |
| `Server.Fork` | pyzy_server.py:90-146 | the fork leaves the cache alone; the parent gets `sys.path` back, keeps cwd and `sys.argv`, and raises the unsafe-import error exactly when it is pending; the child reaches the worker exactly when `chdir` succeeds (the warm-up's own effects on them are not modelled) |
| `Server.UnreadableRequestChangesNothing` | pyzy_server.py:61-65 | a short read up to the entries, or an entry with no `=`, stops the daemon before its state is touched |
| `Server.ShortArgvLeaksEnvironment` | pyzy_server.py:70-77 | with fewer than two arguments the handler returns with the client's environment still merged in |
| `Server.ParentReverts` | pyzy_server.py:90-102 | in the parent, `sys.path` is back to the copy taken at the start and `os.environ` is the reverted one, whether it then returns or raises the unsafe-import error |
| `Server.ParentRestoresEnvironment` | pyzy_server.py:67-98 | without a warm-up the parent's environment equals the snapshot again; after one, exactly when the warm-up deleted none of the snapshot's keys |
| `Server.HandleScriptSet` | pyzy_server.py:79-84 | warm-up runs only for a script not in the cache when `PYZY_CACHE_SCRIPT` is a client key; the cache gains exactly that script once its warm-up completes; a warm-up raising anything but `socket.error` stops the daemon; one raising `socket.error` with an argument leaves the warm-up's environment and `sys.path` in place with outcome `Dropped`; one raising it with none stops the daemon (`BareSocketError`) |
| `Server.UnsafeImportIff` | pyzy_server.py:86-101 | the parent raises the unsafe-import error exactly when it warmed the script and more than one thread was alive afterwards |
| `Server.ChildSetup` | pyzy_server.py:104-122 | the child prepends `PYTHONPATH`'s pieces to `sys.path`, moves to the client's cwd, sets `sys.argv` to `argv[1:]`, and runs with the import error pending exactly when the parent would raise it |
| `Server.WorkerReplies` | pyzy_server.py:124-146 | the worker sends its pid, then (unless a non-`Exception` escaped or the code does not pack as unsigned) the code and the pid; the client-side decoder reads them back |
| `Server.WorkerReturnCode` | pyzy_server.py:130-143 | the return code is 0 on completion, n for `sys.exit(n)`, 1 for a pending import error, another exception, or `sys.exit()`, and stays 0 when a non-`Exception` escapes |
| `Server.StepCaches` | pyzy_server.py:79-84 | a connection whose warm-up completes and which does not stop the run leaves the script in the cache |
| `Server.CachedNotWarmed` | pyzy_server.py:80 | a script already in the cache is not warmed up |
| `Server.StepKeepsCache` | pyzy_server.py:79-84 | handling a connection never removes a script from the cache |
| `Server.ServeStep` | pyzy_server.py:151-159 | a stopped run stays as it is; a turn never changes the daemon's cwd or `sys.argv` (the warm-up's own effects on them are not modelled) |
| `Server.Serve` | pyzy_server.py:148-159 | along a whole run the daemon's cwd and `sys.argv` stay as they were (the warm-up's own effects on them are not modelled) |
| `Server.ServeLast` | pyzy_server.py:151-154 | the run up to connection k + 1 is the run up to k followed by handling connection k |
| `Server.ServeStopped` | pyzy_server.py:151-159 | once a handler raises something other than a `socket.error` with an argument, the serve loop is over |
| `Server.ServeLive` | pyzy_server.py:151-154 | a run still going was going at every earlier connection |
| `Server.ServeScriptSetGrows` | pyzy_server.py:150-154 | along a run of `serve_forever` the cache never shrinks |
| `Server.NoScriptWarmedTwice` | pyzy_server.py:79-84 | within one daemon, once a script's warm-up has completed, no later connection warms it up again |
| `Server.DroppedWarmUpRepeats` | pyzy_server.py:79-84 | a warm-up raising `socket.error` with an argument does not stop the run and leaves the script uncached, with the warm-up's environment and `sys.path` in place, so the same request warms it up again |
| `Server.BareSocketErrorStops` | pyzy_server.py:151-157 | a warm-up raising `socket.error` with no arguments ends the run at that connection: `e[0]` raises `IndexError`, and no later connection is handled |
| `Server.Daemon.RevertEnviron` | pyzy_server.py:93-97 | the key loop assigns snapshot values and deletes the other keys, ending at the reverted environment |
| `Server.Daemon.HandleConnection` | pyzy_server.py:59-146 | the handler's effect on environ, path, argv, cwd and the cache, and its outcome, are those of the specification `Handle` |
| `Server.Daemon.WarmAndFork` | pyzy_server.py:74-146 | from the script path on, the handler's effect and outcome are those of `AfterArgv`: the warm-up when it is due, then the fork |
| `Server.Daemon.ForkBranch` | pyzy_server.py:90-146 | each side of the fork does what `Fork` specifies: the parent reverts and returns or raises, the child sets up and runs the worker |
| `Server.Daemon.ServeForever` | pyzy_server.py:148-159 | the cache starts empty, then each accepted connection is handled in the parent until one raises something other than a `socket.error` with an argument |
| `Protocol.RequestReachesDaemon` | pyzy_server.py:59-72 | the bytes of the client's message (before its descriptors) decode to the client's cwd, its parsed environment entries and its argv |
| `Protocol.LowByteOfInt32` | pyzy_client.c:366 | reading an unsigned word as an int does not change its low 8 bits |
| `Protocol.StatusReachesClient` | pyzy_server.py:144 | the client reads the worker's pid; with the status it exits with the worker's return code mod 256, and without it with 1 |
| `Protocol.SocketPathsAgree` | pyzy_server.py:17-19 | without `PYZY_SOCKET` the client connects to the path the daemon listens on |
| `Protocol.SocketPathsAgreeIff` | pyzy_client.c:58-72 | the client connects where the daemon listens exactly when `PYZY_SOCKET` is unset or names that very path |
| `Protocol.OverrideMissesDaemon` | pyzy_client.c:63-66 | a `PYZY_SOCKET` naming any other path makes the client miss the daemon |

## Left out

- Sockets: `socket`, `bind`, `listen`, `accept`, `connect`, `sendmsg` with
  `SCM_RIGHTS`, `_multiprocessing.recvfd`, `dup2` and `fdopen` are
  operating-system I/O. A connection is the `Session` and `Daemon` state;
  a passed descriptor is a `Descriptor` frame, which takes one unit of
  `room` like the dummy byte `send_fd` sends with it. The peer going away
  is the connection's `room` running out: the kernel's buffering and the
  timing of the close are not modelled.
- Process creation: `exec_pyzy_server` (the pipe, fork and exec of the
  interpreter), `os.fork`, `setsid` and `os._exit` are process plumbing.
  The start of the daemon is counted (`execs`), and the fork is the `Side`
  input.
- Script execution: `execfile` becomes a `ScriptRun` outcome for the worker
  and a `WarmUp` input for the daemon. Other effects a warm-up script may
  have on the daemon, such as changing its cwd or its modules, are not
  modelled. `threading.enumerate` is the thread count.
- Signals and time: `signal_relay`, `sigchld_handler`, `sigterm_handler`
  and the installation of handlers are asynchronous. Only the default
  action of `SIGPIPE` during `send_launch_ctl` is modelled. `nanosleep` only
  records its duration.
- `getpwuid`, `getenv("PYZY_SOCKET")`, `getcwd` and `os.getpid` are inputs.
  A `getcwd` failure is modelled as a directory of 2048 bytes or more.
- Logging, `debug_logf`, the text of `fatalf` and `seterr` messages, and
  `print` have no effect on the protocol. `global_error_string` is only the
  kind of failure (`SocketError`).
- Partial reads: on the daemon the `EAGAIN` retry loop in `recv` is left
  out, and every `recv` is assumed to return all requested bytes when they
  exist. The client's two `recv` calls (pyzy_client.c:203, 215) carry the
  same assumption: `Client.Session.Recv` takes everything the daemon sent,
  up to the requested size, in one call.
- `Wire.DecodeString`: by a convention of the model, a stream that ends
  inside a string is a `Framing` failure. In the code only `recv_int` fails
  on a short read (`struct.error`). `recv_str` returns whatever `recv`
  gives, possibly fewer bytes than the prefix announced. So a stream cut
  inside the last argument reaches `abspath`, the warm-up and the fork with
  that argument truncated; the model stops the daemon instead.
- `serve_forever`'s `socket.error` branch is modelled only for a warm-up
  that raises it (`Handled.Dropped`, or `Failure.BareSocketError` when it
  has no arguments): `EINTR` and the close-and-log path
  both go on to the next connection, and the model does not tell them
  apart. Other `socket.error`s (from `accept`, or from `recv` on a broken
  connection) are not modelled: a connection is the bytes it carries. The
  daemon's `main` is not modelled either: `connect`, signal set-up, and
  removing the socket file in its `finally`.
- A `socket.error` from the child's first `send` (the pid) is not caught by
  its `except RuntimeError`. It would carry the forked child back into
  `serve_forever`. The model's worker sends always succeed.
- A child whose `os.chdir` raises ends as `ChildDied` with nothing sent. The
  exception then unwinds the forked child through the daemon's `main`; that
  is not modelled.
- The worker's side of the descriptors: the child's three `recvfd` calls,
  which come before it sends its pid (pyzy_server.py:109-125), are not
  modelled. The model's child sends its pid without reading the
  `Descriptor` frames, and a failing `recvfd`, `dup2` or `fdopen` is not
  modelled either: those are descriptor I/O.
- `sprintf` into the 1024-byte buffer of `unix_socket_path` would overflow
  for a user name near 1000 bytes. The model builds the path for any name.
- C strings cannot contain NUL bytes. The model does not exclude them from
  `Bytes`.
- The daemon is modelled as it runs under Python 2.7: `struct.pack('!II', …)`
  raises `struct.error` for a code outside the unsigned 32-bit range, so
  the worker sends no status for it (`Server.Worker`). Python 2.6 masked
  such a value with a `DeprecationWarning` and sent it; that is not
  modelled.
- `Server.ScriptRun.ExitCalled`: only integer arguments to `sys.exit` are
  modelled. `sys.exit("text")` fails in `struct.pack`. `os._exit` with a
  code outside the C int range is not modelled.
- `Server.NormPath`: only the absolute-in, absolute-out direction is stated.
  The path is given in full by `Server.AbsPathCanonical`.
- `Wire.EncodeStatus`: only its length is stated here. What the client
  reads from it is proved in `Server.WorkerReplies` and
  `Protocol.StatusReachesClient`.
- `Wire.DecodeEnvBlock`, `Wire.DecodeArgv`: their own contracts say only
  that input is consumed. Their meaning is the round trips
  `Wire.DecodeEncodeEnvBlock`, `Wire.DecodeEncodeArgv` and
  `Wire.RequestRoundTrip`.
- The `serve_forever` loop never ends. `Server.Daemon.ServeForever` runs
  over a finite sequence of accepted connections.
