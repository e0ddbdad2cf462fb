/** The launch-control wire format shared by the client and the daemon.
    Integers are unsigned, 4 bytes, big-endian (htonl on the client,
    struct '!I' on the daemon); a string is its 4-byte length followed by
    its raw bytes. Strings are byte strings on both sides (C char*, Python 2 str). */
module Wire {

  /** A byte. */
  type byte = x: int | 0 <= x < 0x100

  type Bytes = seq<byte>

  const U32_LIMIT: int := 0x1_0000_0000

  /** An unsigned 32-bit value. */
  type u32 = x: int | 0 <= x < 0x1_0000_0000

  datatype Option<T> = None | Some(value: T)

  /** The bytes of a literal that is written in ASCII. */
  function Ascii(s: string): (r: Bytes)
    ensures |r| == |s|
  {
    seq(|s|, i requires 0 <= i < |s| => s[i] as int % 0x100)
  }

  /** The value of four bytes read most significant first. */
  function BigEndian(b0: byte, b1: byte, b2: byte, b3: byte): (x: u32)
  {
    ((b0 * 0x100 + b1) * 0x100 + b2) * 0x100 + b3
  }

  /** q * 256 + r with r a byte determines q and r. */
  lemma SplitByteUnique(q: int, r: byte, q': int, r': byte)
    requires q * 0x100 + r == q' * 0x100 + r'
    ensures q == q' && r == r'
  {
    assert (q - q') * 0x100 == r' - r;
  }

  /** send_int: the value in network byte order, that is, the four bytes
      whose big-endian value it is (EncodeU32Injective: there is only one
      such choice). */
  ghost function EncodeU32(x: u32): (r: Bytes)
    ensures |r| == 4 && BigEndian(r[0], r[1], r[2], r[3]) == x
  {
    var w := NetworkOrder(x);
    assert |w| == 4 && BigEndian(w[0], w[1], w[2], w[3]) == x;
    var r :| |r| == 4 && BigEndian(r[0], r[1], r[2], r[3]) == x;
    r
  }

  /** htonl: the bytes of x computed most significant first. */
  function NetworkOrder(x: u32): (r: Bytes)
    ensures |r| == 4 && BigEndian(r[0], r[1], r[2], r[3]) == x
  {
    var q1, b3 := x / 0x100, x % 0x100;
    var q2, b2 := q1 / 0x100, q1 % 0x100;
    var b0, b1 := q2 / 0x100, q2 % 0x100;
    assert b0 < 0x100;
    [b0, b1, b2, b3]
  }

  /** What the client computes is the encoding. */
  lemma NetworkOrderIsEncoding(x: u32)
    ensures NetworkOrder(x) == EncodeU32(x)
  {
    EncodeU32Injective(NetworkOrder(x), EncodeU32(x));
  }

  /** recv_int: four bytes as a big-endian unsigned integer, and what follows them. */
  function DecodeU32(s: Bytes): (r: Option<(u32, Bytes)>)
    ensures r.Some? <==> |s| >= 4
    ensures r.Some? ==> r.value.1 == s[4..]
  {
    if |s| < 4 then None else Some((BigEndian(s[0], s[1], s[2], s[3]), s[4..]))
  }

  /** Every four bytes on the stream are the send_int encoding of the value
      recv_int reads from them: the two are mutually inverse. */
  lemma EncodeDecodeU32(s: Bytes)
    requires |s| >= 4
    ensures EncodeU32(DecodeU32(s).value.0) == s[..4]
  {
    EncodeU32Injective(EncodeU32(DecodeU32(s).value.0), s[..4]);
  }

  /** Four bytes are determined by their big-endian value. */
  lemma EncodeU32Injective(a: Bytes, b: Bytes)
    requires |a| == 4 && |b| == 4
    requires BigEndian(a[0], a[1], a[2], a[3]) == BigEndian(b[0], b[1], b[2], b[3])
    ensures a == b
  {
    var a0, a1, a2: int := a[0], a[1], a[2];
    var c0, c1, c2: int := b[0], b[1], b[2];
    SplitByteUnique((a0 * 0x100 + a1) * 0x100 + a2, a[3], (c0 * 0x100 + c1) * 0x100 + c2, b[3]);
    SplitByteUnique(a0 * 0x100 + a1, a[2], c0 * 0x100 + c1, b[2]);
    SplitByteUnique(a0, a[1], c0, b[1]);
  }

  /** The daemon's recv_int undoes the client's send_int. */
  lemma DecodeEncodeU32(x: u32, rest: Bytes)
    ensures DecodeU32(EncodeU32(x) + rest) == Some((x, rest))
  {
    var s := EncodeU32(x) + rest;
    assert s[..4] == EncodeU32(x) && s[4..] == rest;
  }

  /** strlen(s) stored in an unsigned int: the length modulo 2^32. */
  function StrLen(s: Bytes): (n: u32)
    ensures n <= |s| && (|s| < U32_LIMIT ==> n == |s|)
  {
    |s| % U32_LIMIT
  }

  /** send_string: the length strlen(s), stored in an unsigned int (so taken
      modulo 2^32), then that many bytes of s. */
  ghost function EncodeString(s: Bytes): (r: Bytes)
    ensures |r| == 4 + StrLen(s) && r[4..] == s[..StrLen(s)]
    ensures |s| < U32_LIMIT ==> r[4..] == s
  {
    EncodeU32(StrLen(s)) + s[..StrLen(s)]
  }

  /** recv_str: a length, then that many bytes. A stream that ends early
      yields None: a convention of the model, which reads whole fields or
      nothing, where recv_str itself would return the short remainder. */
  function DecodeString(s: Bytes): (r: Option<(Bytes, Bytes)>)
    ensures r.Some? ==> |r.value.0| < U32_LIMIT && |r.value.1| < |s|
  {
    match DecodeU32(s)
    case None => None
    case Some((len, rest)) =>
      if |rest| < len then None else Some((rest[..len], rest[len..]))
  }

  /** A length prefix followed by a body at least that long decodes to the
      body's first len bytes. */
  lemma DecodeFramed(len: u32, body: Bytes)
    requires len <= |body|
    ensures DecodeString(EncodeU32(len) + body) == Some((body[..len], body[len..]))
  {
    DecodeEncodeU32(len, body);
  }

  /** Whatever recv_str accepts is a send_string encoding followed by the
      rest of the stream. */
  lemma EncodeDecodeString(s: Bytes)
    requires DecodeString(s).Some?
    ensures s == EncodeString(DecodeString(s).value.0) + DecodeString(s).value.1
  {
    var len := DecodeU32(s).value.0;
    var rest := s[4..];
    var x, y := rest[..len], rest[len..];
    assert DecodeString(s) == Some((x, y));
    assert EncodeString(x) == EncodeU32(len) + x by {
      assert StrLen(x) == len && x[..len] == x;
    }
    assert s == s[..4] + (x + y);
    EncodeDecodeU32(s);
    assert s[..4] == EncodeU32(len);
    assert s == EncodeU32(len) + x + y;
  }

  /** Decoding an encoded string gives back the string, cut to its length
      modulo 2^32, and leaves what followed it untouched. */
  lemma DecodeEncodeString(s: Bytes, rest: Bytes)
    ensures DecodeString(EncodeString(s) + rest) == Some((s[..StrLen(s)], rest))
    ensures |s| < U32_LIMIT ==> DecodeString(EncodeString(s) + rest) == Some((s, rest))
  {
    var len := StrLen(s);
    var x := s[..len];
    assert EncodeString(s) + rest == EncodeU32(len) + (x + rest);
    DecodeFramed(len, x + rest);
    assert (x + rest)[..len] == x && (x + rest)[len..] == rest;
    if |s| < U32_LIMIT {
      assert x == s;
    }
  }

  /** The strings one after another (the for loops of send_launch_ctl). */
  ghost function EncodeStrings(ss: seq<Bytes>): (r: Bytes)
    ensures |r| >= 4 * |ss|
    ensures r == [] <==> ss == []
  {
    if ss == [] then [] else EncodeString(ss[0]) + EncodeStrings(ss[1..])
  }

  /** [recv_str() for x in range(n)]. */
  function DecodeStrings(n: nat, s: Bytes): (r: Option<(seq<Bytes>, Bytes)>)
    ensures r.Some? ==> |r.value.0| == n && |r.value.1| <= |s|
  {
    if n == 0 then Some(([], s))
    else
      match DecodeString(s)
      case None => None
      case Some((x, rest)) =>
        match DecodeStrings(n - 1, rest)
        case None => None
        case Some((xs, rest')) => Some(([x] + xs, rest'))
  }

  predicate AllFit(ss: seq<Bytes>)
  {
    forall i :: 0 <= i < |ss| ==> |ss[i]| < U32_LIMIT
  }

  lemma {:induction false} DecodeEncodeStrings(ss: seq<Bytes>, rest: Bytes)
    requires AllFit(ss)
    ensures DecodeStrings(|ss|, EncodeStrings(ss) + rest) == Some((ss, rest))
  {
    if ss != [] {
      var xs := ss[1..];
      assert AllFit(xs) by {
        forall i | 0 <= i < |xs| ensures |xs[i]| < U32_LIMIT {
          assert xs[i] == ss[i + 1];
        }
      }
      DecodeEncodeStrings(xs, rest);
      assert |ss[0]| < U32_LIMIT;
      DecodeOneMore(ss[0], xs, rest);
      assert [ss[0]] + xs == ss;
    } else {
      assert EncodeStrings(ss) + rest == rest;
    }
  }

  /** The inductive step: one more string in front of strings that read back. */
  lemma DecodeOneMore(x: Bytes, xs: seq<Bytes>, rest: Bytes)
    requires |x| < U32_LIMIT
    requires DecodeStrings(|xs|, EncodeStrings(xs) + rest) == Some((xs, rest))
    ensures DecodeStrings(|xs| + 1, EncodeStrings([x] + xs) + rest) == Some(([x] + xs, rest))
  {
    var tail := EncodeStrings(xs) + rest;
    assert ([x] + xs)[1..] == xs;
    assert EncodeStrings([x] + xs) + rest == EncodeString(x) + tail;
    DecodeEncodeString(x, tail);
  }

  /** One launch request as it travels: the working directory, the client's
      environ entries ("KEY=VALUE" strings, not yet parsed) and argv. */
  datatype Request = Request(cwd: Bytes, env: seq<Bytes>, argv: seq<Bytes>)

  /** Counts are C ints on the client. */
  const INT_LIMIT: int := 0x8000_0000

  /** The bytes of the request in the order send_launch_ctl writes them:
      cwd, envc, the envc entries, argc, the argc arguments. */
  ghost function EncodeRequest(r: Request): (b: Bytes)
    requires |r.env| < INT_LIMIT && |r.argv| < INT_LIMIT
    ensures |b| >= 12 + 4 * (|r.env| + |r.argv|)
  {
    EncodeString(r.cwd) + EncodeU32(|r.env|) + EncodeStrings(r.env)
      + EncodeU32(|r.argv|) + EncodeStrings(r.argv)
  }

  /** The part of handle_connection that reads before touching os.environ:
      cwd, envc and the entries. */
  function DecodeEnvBlock(s: Bytes): (r: Option<(Bytes, seq<Bytes>, Bytes)>)
    ensures r.Some? ==> |r.value.2| < |s|
  {
    match DecodeString(s)
    case None => None
    case Some((cwd, s1)) =>
      match DecodeU32(s1)
      case None => None
      case Some((envc, s2)) =>
        match DecodeStrings(envc, s2)
        case None => None
        case Some((env, s3)) => Some((cwd, env, s3))
  }

  /** The part read after os.environ has been updated: argc and the arguments. */
  function DecodeArgv(s: Bytes): (r: Option<(seq<Bytes>, Bytes)>)
    ensures r.Some? ==> |r.value.1| < |s|
  {
    match DecodeU32(s)
    case None => None
    case Some((argc, s1)) => DecodeStrings(argc, s1)
  }

  function DecodeRequest(s: Bytes): (r: Option<(Request, Bytes)>)
    ensures r.Some? ==> |r.value.1| < |s|
  {
    match DecodeEnvBlock(s)
    case None => None
    case Some((cwd, env, s1)) =>
      match DecodeArgv(s1)
      case None => None
      case Some((argv, s2)) => Some((Request(cwd, env, argv), s2))
  }

  lemma DecodeEncodeEnvBlock(cwd: Bytes, env: seq<Bytes>, rest: Bytes)
    requires |cwd| < U32_LIMIT && |env| < U32_LIMIT && AllFit(env)
    ensures DecodeEnvBlock(EncodeString(cwd) + (EncodeU32(|env|) + (EncodeStrings(env) + rest)))
         == Some((cwd, env, rest))
  {
    var body := EncodeStrings(env) + rest;
    var tail := EncodeU32(|env|) + body;
    assert DecodeString(EncodeString(cwd) + tail) == Some((cwd, tail)) by {
      DecodeEncodeString(cwd, tail);
    }
    assert DecodeU32(tail) == Some((|env| as u32, body)) by {
      DecodeEncodeU32(|env|, body);
    }
    assert DecodeStrings(|env|, body) == Some((env, rest)) by {
      DecodeEncodeStrings(env, rest);
    }
    DecodeEnvBlockSteps(EncodeString(cwd) + tail, cwd, tail, |env|, body, env, rest);
  }

  /** DecodeEnvBlock from the results of its three reads. */
  lemma DecodeEnvBlockSteps(s: Bytes, cwd: Bytes, tail: Bytes, envc: u32, body: Bytes, env: seq<Bytes>, rest: Bytes)
    requires DecodeString(s) == Some((cwd, tail)) && DecodeU32(tail) == Some((envc, body))
    requires DecodeStrings(envc, body) == Some((env, rest))
    ensures DecodeEnvBlock(s) == Some((cwd, env, rest))
  {
  }

  lemma DecodeEncodeArgv(argv: seq<Bytes>, rest: Bytes)
    requires |argv| < U32_LIMIT && AllFit(argv)
    ensures DecodeArgv(EncodeU32(|argv|) + (EncodeStrings(argv) + rest)) == Some((argv, rest))
  {
    DecodeEncodeU32(|argv|, EncodeStrings(argv) + rest);
    DecodeEncodeStrings(argv, rest);
  }

  /** The daemon reads back exactly the request the client wrote, and leaves
      what follows it on the stream, provided no string reaches 2^32 bytes. */
  lemma RequestRoundTrip(r: Request, rest: Bytes)
    requires |r.env| < INT_LIMIT && |r.argv| < INT_LIMIT
    requires |r.cwd| < U32_LIMIT && AllFit(r.env) && AllFit(r.argv)
    ensures DecodeRequest(EncodeRequest(r) + rest) == Some((r, rest))
  {
    var a, b, c := EncodeString(r.cwd), EncodeU32(|r.env|), EncodeStrings(r.env);
    var d, e := EncodeU32(|r.argv|), EncodeStrings(r.argv);
    var argPart := d + (e + rest);
    var s := EncodeRequest(r) + rest;
    assert s == a + (b + (c + argPart)) by {
      assert EncodeRequest(r) == a + b + c + d + e;
      SeqAssoc5(a, b, c, d, e, rest);
    }
    DecodeEncodeEnvBlock(r.cwd, r.env, argPart);
    DecodeEncodeArgv(r.argv, rest);
  }

  lemma SeqAssoc5<T>(a: seq<T>, b: seq<T>, c: seq<T>, d: seq<T>, e: seq<T>, f: seq<T>)
    ensures a + b + c + d + e + f == a + (b + (c + (d + (e + f))))
  {
  }

  /** The final status, struct '!II': the return code, then the pid. */
  ghost function EncodeStatus(rc: u32, pid: u32): (b: Bytes)
    ensures |b| == 8
  {
    EncodeU32(rc) + EncodeU32(pid)
  }

  /** The worker's whole reply, its pid and then the '!II' status, reads
      back as the pid, the return code and the pid again. */
  lemma DecodeReply(pid: u32, rc: u32)
    ensures var b := EncodeU32(pid) + EncodeStatus(rc, pid);
            && |b| == 12
            && DecodeU32(b) == Some((pid, b[4..]))
            && DecodeU32(b[4..]) == Some((rc, b[8..]))
            && DecodeU32(b[8..]) == Some((pid, []))
  {
    var hello, status := EncodeU32(pid), EncodeU32(rc);
    var b := hello + (status + hello);
    assert EncodeU32(pid) + EncodeStatus(rc, pid) == b;
    DecodeEncodeU32(pid, status + hello);
    assert b[4..] == status + hello;
    DecodeEncodeU32(rc, hello);
    assert b[8..] == hello + [];
    DecodeEncodeU32(pid, []);
  }
}
