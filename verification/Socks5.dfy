/** The SOCKS5 server side without authentication: greeting and request (sections 3, 4 and 5 of RFC 1928), read from
    a byte stream into one reused buffer, and the reply (section 6). */
module Socks5 {
  import opened Bytes

  const VERSION: Byte := 5
  const METHOD_AUTH_NONE: Byte := 0
  const METHOD_NO_ACCEPTABLE: Byte := 0xFF
  const BUF_LEN: nat := 255

  datatype Host = IPv4(ip: Chunk) | Domain(name: Chunk) | IPv6(ip: Chunk)

  datatype Address = Address(host: Host, port: nat)

  datatype Problem =
    | UnexpectedEnd | UnsupportedVersion | NoAcceptableMethod | UnsupportedCommand | UnsupportedAddressType
    | ReplyFailed

  datatype Result = Ok(address: Address) | Failed(problem: Problem)

  /** What a handshake comes to: its result, the bytes left unread and the bytes replied. On an unexpected end
      everything has been read. */
  datatype Outcome = Outcome(result: Result, left: Chunk, reply: Chunk)

  // ---------- What the handshake does with a byte stream ----------

  function EndOfInput(reply: Chunk): Outcome {
    Outcome(Failed(UnexpectedEnd), [], reply)
  }

  function Handshake(input: Chunk): Outcome {
    if |input| < 2 then EndOfInput([])
    else if input[0] != VERSION then Outcome(Failed(UnsupportedVersion), input[2..], [])
    else
      var methods := input[1] as int;
      var after := input[2..];
      if |after| < methods then EndOfInput([])
      else if METHOD_AUTH_NONE !in after[..methods] then
        Outcome(Failed(NoAcceptableMethod), after[methods..], [VERSION, METHOD_NO_ACCEPTABLE])
      else Request(after[methods..], [VERSION, METHOD_AUTH_NONE])
  }

  /** The same with a peer that takes only so many replies: if the answer to the greeting fails, nothing after the
      greeting is read. */
  function HandshakeWith(input: Chunk, writes: nat): Outcome {
    var o := Handshake(input);
    if o.reply == [] || writes > 0 then o else Outcome(Failed(ReplyFailed), AfterGreeting(input), [])
  }

  function AfterGreeting(input: Chunk): Chunk {
    if |input| < 2 || |input| < 2 + input[1] as int then [] else input[2 + input[1] as int..]
  }

  datatype HostOutcome = GotHost(host: Host, rest: Chunk) | HostEnds | BadType

  function ReadHost(atyp: Byte, input: Chunk): HostOutcome {
    match atyp as int
    case 1 => if |input| < 4 then HostEnds else GotHost(IPv4(input[..4]), input[4..])
    case 3 =>
      if |input| < 1 || |input| < 1 + input[0] as int then HostEnds
      else GotHost(Domain(input[1..1 + input[0] as int]), input[1 + input[0] as int..])
    case 4 => if |input| < 16 then HostEnds else GotHost(IPv6(input[..16]), input[16..])
    case _ => BadType
  }

  function Request(input: Chunk, reply: Chunk): Outcome {
    if |input| < 4 then EndOfInput(reply)
    else if input[1] != 1 && input[2] != 0 then Outcome(Failed(UnsupportedCommand), input[4..], reply)
    else
      match ReadHost(input[3], input[4..])
      case HostEnds => EndOfInput(reply)
      case BadType => Outcome(Failed(UnsupportedAddressType), input[4..], reply)
      case GotHost(host, rest) =>
        if |rest| < 2 then EndOfInput(reply) else Outcome(Ok(Address(host, FromU16(rest))), rest[2..], reply)
  }

  // ---------- Encodings ----------

  predicate WellFormedHost(h: Host) {
    match h
    case IPv4(ip) => |ip| == 4
    case Domain(name) => |name| <= 255
    case IPv6(ip) => |ip| == 16
  }

  predicate WellFormed(a: Address) {
    a.port < 0x1_0000 && WellFormedHost(a.host)
  }

  function EncodeGreeting(methods: Chunk): Chunk
    requires |methods| <= 255
  {
    [VERSION, |methods|] + methods
  }

  function EncodeHost(h: Host): Chunk
    requires WellFormedHost(h)
  {
    match h
    case IPv4(ip) => [1] + ip
    case Domain(name) => [3, |name|] + name
    case IPv6(ip) => [4] + ip
  }

  /** A request; section 4 of RFC 1928 has version 5, command 1 for CONNECT and a zero reserved byte. */
  function EncodeRequest(version: Byte, command: Byte, reserved: Byte, a: Address): Chunk
    requires WellFormed(a)
  {
    [version, command, reserved] + EncodeHost(a.host) + U16(a.port)
  }

  ghost predicate Accepts(input: Chunk, methods: Chunk, version: Byte, command: Byte, reserved: Byte, a: Address,
                          payload: Chunk)
  {
    && |methods| <= 255 && METHOD_AUTH_NONE in methods
    && (command == 1 || reserved == 0)
    && WellFormed(a)
    && input == EncodeGreeting(methods) + EncodeRequest(version, command, reserved, a) + payload
  }

  lemma GreetingParses(methods: Chunk, rest: Chunk)
    requires |methods| <= 255
    ensures Handshake(EncodeGreeting(methods) + rest) ==
      if METHOD_AUTH_NONE in methods then Request(rest, [VERSION, METHOD_AUTH_NONE])
      else Outcome(Failed(NoAcceptableMethod), rest, [VERSION, METHOD_NO_ACCEPTABLE])
  {
    var input := EncodeGreeting(methods) + rest;
    assert input[2..] == methods + rest;
    assert input[2..][..|methods|] == methods && input[2..][|methods|..] == rest;
  }

  lemma RequestParses(version: Byte, command: Byte, reserved: Byte, a: Address, payload: Chunk, reply: Chunk)
    requires WellFormed(a)
    ensures Request(EncodeRequest(version, command, reserved, a) + payload, reply) ==
      if command == 1 || reserved == 0 then Outcome(Ok(a), payload, reply)
      else Outcome(Failed(UnsupportedCommand), EncodeHost(a.host)[1..] + U16(a.port) + payload, reply)
  {
    var host, tail := EncodeHost(a.host), U16(a.port) + payload;
    var input := EncodeRequest(version, command, reserved, a) + payload;
    Assoc([version, command, reserved] + host, U16(a.port), payload);
    Assoc(host[1..], U16(a.port), payload);
    assert input == [version, command, reserved] + host + tail;
    assert input[3] == host[0] && input[4..] == host[1..] + tail;
    HostParses(a.host, tail);
    assert tail[2..] == payload && FromU16(tail) == a.port;
  }

  lemma HostParses(h: Host, tail: Chunk)
    requires WellFormedHost(h)
    ensures ReadHost(EncodeHost(h)[0], EncodeHost(h)[1..] + tail) == GotHost(h, tail)
  {
    var after := EncodeHost(h)[1..] + tail;
    match h
    case IPv4(ip) => assert after[..4] == ip && after[4..] == tail;
    case Domain(name) => assert after[1..1 + |name|] == name && after[1 + |name|..] == tail;
    case IPv6(ip) => assert after[..16] == ip && after[16..] == tail;
  }

  lemma HostEncodes(atyp: Byte, input: Chunk)
    requires ReadHost(atyp, input).GotHost?
    ensures var o := ReadHost(atyp, input);
      WellFormedHost(o.host) && [atyp] + input == EncodeHost(o.host) + o.rest
  {
    var o := ReadHost(atyp, input);
    match o.host
    case IPv4(ip) =>
      assert input == ip + o.rest;
      Assoc([atyp], ip, o.rest);
    case Domain(name) => NameEncodes(atyp, input);
    case IPv6(ip) =>
      assert input == ip + o.rest;
      Assoc([atyp], ip, o.rest);
  }

  lemma NameEncodes(atyp: Byte, input: Chunk)
    requires |input| >= 1 && |input| >= 1 + input[0] as int
    ensures var size := input[0] as int;
      [atyp] + input == [atyp, input[0]] + input[1..1 + size] + input[1 + size..]
  {
    var size := input[0] as int;
    assert input == [input[0]] + (input[1..1 + size] + input[1 + size..]);
    assert [atyp] + [input[0]] == [atyp, input[0]];
    Assoc([atyp], [input[0]], input[1..1 + size] + input[1 + size..]);
    Assoc([atyp, input[0]], input[1..1 + size], input[1 + size..]);
  }

  lemma U16Encodes(input: Chunk)
    requires |input| >= 2
    ensures FromU16(input) < 0x1_0000 && input == U16(FromU16(input)) + input[2..]
  {
    var n := FromU16(input);
    assert n / 256 == input[0] as int && n % 256 == input[1] as int;
  }

  /** Exact consumption: after a greeting that offers "no authentication" and a CONNECT request, the address and port
      are recovered, the reply selects the method, and exactly the payload is left unread. */
  lemma ConnectIsConsumedExactly(methods: Chunk, a: Address, payload: Chunk)
    requires |methods| <= 255 && METHOD_AUTH_NONE in methods && WellFormed(a)
    ensures Handshake(EncodeGreeting(methods) + EncodeRequest(VERSION, 1, 0, a) + payload)
            == Outcome(Ok(a), payload, [VERSION, METHOD_AUTH_NONE])
  {
    var request := EncodeRequest(VERSION, 1, 0, a) + payload;
    assert EncodeGreeting(methods) + EncodeRequest(VERSION, 1, 0, a) + payload == EncodeGreeting(methods) + request;
    GreetingParses(methods, request);
    RequestParses(VERSION, 1, 0, a, payload, [VERSION, METHOD_AUTH_NONE]);
  }

  lemma RequestEncodes(input: Chunk, a: Address)
    requires Request(input, []).result == Ok(a)
    ensures |input| >= 4 && WellFormed(a) && (input[1] == 1 || input[2] == 0)
    ensures input == EncodeRequest(input[0], input[1], input[2], a) + Request(input, []).left
  {
    var after := input[4..];
    var o := ReadHost(input[3], after);
    HostEncodes(input[3], after);
    U16Encodes(o.rest);
    var left := Request(input, []).left;
    calc {
      input;
      [input[0], input[1], input[2]] + ([input[3]] + after);
      [input[0], input[1], input[2]] + (EncodeHost(a.host) + (U16(a.port) + left));
      EncodeRequest(input[0], input[1], input[2], a) + left;
    }
  }

  lemma ReplyIsCarried(input: Chunk, reply: Chunk)
    ensures Request(input, reply) == Request(input, []).(reply := reply)
  {
  }

  lemma GreetingSplits(input: Chunk)
    requires |input| >= 2 && input[0] == VERSION && |input| >= 2 + input[1] as int
    ensures var size := input[1] as int; input == EncodeGreeting(input[2..][..size]) + input[2..][size..]
  {
    var size := input[1] as int;
    assert input == [input[0], input[1]] + input[2..];
    assert input[2..] == input[2..][..size] + input[2..][size..];
    Assoc([input[0], input[1]], input[2..][..size], input[2..][size..]);
  }

  lemma AcceptedIsEncoded(input: Chunk, a: Address)
    requires Handshake(input).result == Ok(a)
    ensures exists methods, version, command, reserved, payload ::
      Accepts(input, methods, version, command, reserved, a, payload)
  {
    var n := input[1] as int;
    var methods, rest := input[2..][..n], input[2..][n..];
    ReplyIsCarried(rest, [VERSION, METHOD_AUTH_NONE]);
    RequestEncodes(rest, a);
    var left := Request(rest, []).left;
    var request := EncodeRequest(rest[0], rest[1], rest[2], a);
    GreetingSplits(input);
    Assoc(EncodeGreeting(methods), request, left);
    assert Accepts(input, methods, rest[0], rest[1], rest[2], a, left);
  }

  lemma EncodedIsAccepted(input: Chunk, methods: Chunk, version: Byte, command: Byte, reserved: Byte, a: Address,
                          payload: Chunk)
    requires Accepts(input, methods, version, command, reserved, a, payload)
    ensures Handshake(input) == Outcome(Ok(a), payload, [VERSION, METHOD_AUTH_NONE])
  {
    var request := EncodeRequest(version, command, reserved, a) + payload;
    assert input == EncodeGreeting(methods) + request;
    GreetingParses(methods, request);
    RequestParses(version, command, reserved, a, payload, [VERSION, METHOD_AUTH_NONE]);
  }

  /** The inputs that are accepted, exactly: a version-5 greeting with method 0, then any version byte, a command and a
      reserved byte not both wrong, a well-formed address, and any payload. */
  lemma AcceptedInputs(input: Chunk, a: Address)
    ensures Handshake(input).result == Ok(a) <==>
      exists methods, version, command, reserved, payload ::
        Accepts(input, methods, version, command, reserved, a, payload)
  {
    if Handshake(input).result == Ok(a) {
      AcceptedIsEncoded(input, a);
    }
    if methods, version, command, reserved, payload :| Accepts(input, methods, version, command, reserved, a, payload) {
      EncodedIsAccepted(input, methods, version, command, reserved, a, payload);
    }
  }

  /** Section 4 of RFC 1928 would have every command but CONNECT refused here. A request with another command is let
      through exactly if its reserved byte is 0, as in a conforming BIND request. */
  lemma OtherCommandsAccepted(methods: Chunk, command: Byte, reserved: Byte, a: Address, payload: Chunk)
    requires |methods| <= 255 && METHOD_AUTH_NONE in methods && WellFormed(a) && command != 1
    ensures Handshake(EncodeGreeting(methods) + EncodeRequest(VERSION, command, reserved, a) + payload).result == Ok(a)
            <==> reserved == 0
  {
    var request := EncodeRequest(VERSION, command, reserved, a) + payload;
    Assoc(EncodeGreeting(methods), EncodeRequest(VERSION, command, reserved, a), payload);
    GreetingParses(methods, request);
    RequestParses(VERSION, command, reserved, a, payload, [VERSION, METHOD_AUTH_NONE]);
  }

  /** Why an input is refused: the first of its parts that is wrong, or missing. */
  lemma RefusalsHaveReasons(input: Chunk)
    ensures var r := Handshake(input).result;
            var version := |input| >= 2 && input[0] == 5;
            var greeting := version && |input| >= 2 + input[1] as int;
            var offered := greeting && 0 in input[2..2 + input[1] as int];
            var head := offered && |AfterGreeting(input)| >= 4;
            var command := head && (AfterGreeting(input)[1] == 1 || AfterGreeting(input)[2] == 0);
            var address := command && AfterGreeting(input)[3] in {1, 3, 4};
      && (r == Failed(UnsupportedVersion) <==> |input| >= 2 && !version)
      && (r == Failed(NoAcceptableMethod) <==> greeting && !offered)
      && (r == Failed(UnsupportedCommand) <==> head && !command)
      && (r == Failed(UnsupportedAddressType) <==> command && !address)
      && (r.Ok? ==> address) && r != Failed(ReplyFailed)
  {
    if |input| >= 2 && |input| >= 2 + input[1] as int {
      var methods := input[1] as int;
      assert input[2..][..methods] == input[2..2 + methods] && input[2..][methods..] == input[2 + methods..];
    }
  }

  /** What a client reads in a reply of section 6 of RFC 1928: version 5, a status that is 0 exactly if the target was
      reached (1 is a general failure), a zero reserved byte, and an IPv4 address and a port that are zero. */
  predicate TellsClient(reply: Chunk, reached: bool) {
    && |reply| == 10
    && reply[0] == 5 && reply[1] == (if reached then 0 else 1) && reply[2] == 0 && reply[3] == 1
    && forall i :: 4 <= i < 10 ==> reply[i] == 0
  }

  /** Section 3: a whole greeting of version 5 is answered with method 0 if it offers that, and with 255 otherwise. */
  lemma GreetingIsAnswered(input: Chunk)
    ensures Handshake(input).reply ==
      if |input| < 2 || input[0] != 5 || |input| < 2 + input[1] as int then []
      else if 0 in input[2..2 + input[1] as int] then [5, 0]
      else [5, 255]
  {
    if |input| >= 2 && |input| >= 2 + input[1] as int {
      var methods := input[1] as int;
      assert input[2..][..methods] == input[2..2 + methods];
      RequestKeepsReply(input[2..][methods..], [VERSION, METHOD_AUTH_NONE]);
    }
  }

  lemma RequestKeepsReply(input: Chunk, reply: Chunk)
    ensures Request(input, reply).reply == reply
  {
  }

  // ---------- The server ----------

  class SourceConn {
    var input: Chunk
    var output: Chunk
    var writes: nat           // how many more Writes succeed
    var closed: bool

    constructor (input: Chunk, writes: nat)
      ensures this.input == input && output == [] && this.writes == writes && !closed
    {
      this.input, output, this.writes, closed := input, [], writes, false;
    }

    /** io.ReadFull into buf[:n] once the peer has sent all it will: it fills the slice or takes up what there is. */
    method ReadFull(buf: array<Byte>, n: nat) returns (ok: bool)
      requires n <= buf.Length
      modifies `input, buf
      ensures ok <==> |old(input)| >= n
      ensures ok ==> buf[..n] == old(input)[..n] && input == old(input)[n..]
      ensures ok ==> buf[n..] == old(buf[n..])
      ensures !ok ==> input == []
    {
      var i := 0;
      while i < n && i < |input|
        invariant i <= n && i <= |input| && input == old(input)
        invariant buf[..i] == input[..i] && buf[n..] == old(buf[n..])
      {
        buf[i] := input[i];
        i := i + 1;
      }
      ok := i == n;
      input := if ok then input[n..] else [];
    }

    method Write(b: Chunk) returns (ok: bool)
      modifies `output, `writes
      ensures ok <==> old(writes) > 0
      ensures ok ==> output == old(output) + b && writes == old(writes) - 1
      ensures !ok ==> output == old(output) && writes == old(writes)
    {
      ok := writes > 0;
      if ok {
        output := output + b;
        writes := writes - 1;
      }
    }
  }

  /** What handleDial comes to; a target whose reply cannot be delivered is closed again. */
  datatype Dialed = Open | Unreachable | ClosedAgain

  class Sock5NoAuthServer {
    constructor () {}

    method HandshakeNoAuth(conn: SourceConn) returns (r: Result)
      modifies conn`input, conn`output, conn`writes
      ensures var o := HandshakeWith(old(conn.input), old(conn.writes));
        && r == o.result && conn.input == o.left && conn.output == old(conn.output) + o.reply
        && conn.writes == old(conn.writes) - if o.reply == [] then 0 else 1
    {
      var buf := new Byte[BUF_LEN];
      ghost var input := conn.input;
      var ok := conn.ReadFull(buf, 2);
      if !ok {
        return Failed(UnexpectedEnd);
      }
      assert buf[..2][0] == input[0] && buf[..2][1] == input[1];
      if buf[0] != VERSION {
        return Failed(UnsupportedVersion);
      }
      var methodsLen := buf[1] as int;
      ok := conn.ReadFull(buf, methodsLen);
      if !ok {
        return Failed(UnexpectedEnd);
      }
      if METHOD_AUTH_NONE !in buf[..methodsLen] {
        ok := conn.Write([VERSION, METHOD_NO_ACCEPTABLE]);
        return Failed(if ok then NoAcceptableMethod else ReplyFailed);
      }
      ok := conn.Write([VERSION, METHOD_AUTH_NONE]);
      if !ok {
        ReplyIsCarried(conn.input, [VERSION, METHOD_AUTH_NONE]);
        return Failed(ReplyFailed);
      }
      ReplyIsCarried(conn.input, [VERSION, METHOD_AUTH_NONE]);
      r := ReadRequest(conn, buf);
    }

    /** The second half of handshakeNoAuth, in the same buffer. */
    method ReadRequest(conn: SourceConn, buf: array<Byte>) returns (r: Result)
      requires buf.Length == BUF_LEN
      modifies conn`input, buf
      ensures var o := Request(old(conn.input), []);
        r == o.result && conn.input == o.left
    {
      ghost var input := conn.input;
      var ok := conn.ReadFull(buf, 4);
      if !ok {
        return Failed(UnexpectedEnd);
      }
      assert forall i :: 0 <= i < 4 ==> buf[i] == buf[..4][i] == input[i];
      var cmd := buf[1];
      var rsv := buf[2];
      if cmd != 1 && rsv != 0 {
        return Failed(UnsupportedCommand);
      }
      var atyp := buf[3];
      var h := ReadAddress(conn, buf, atyp);
      if h.HostEnds? {
        return Failed(UnexpectedEnd);
      }
      if h.BadType? {
        return Failed(UnsupportedAddressType);
      }
      ghost var rest := conn.input;
      ok := conn.ReadFull(buf, 2);
      if !ok {
        return Failed(UnexpectedEnd);
      }
      assert buf[..2][0] == rest[0] && buf[..2][1] == rest[1];
      r := Ok(Address(h.host, FromU16(buf[..2])));
    }

    /** The switch on the address type. */
    method ReadAddress(conn: SourceConn, buf: array<Byte>, atyp: Byte) returns (h: HostOutcome)
      requires buf.Length == BUF_LEN
      modifies conn`input, buf
      ensures h == ReadHost(atyp, old(conn.input))
      ensures conn.input == match h case GotHost(_, rest) => rest case HostEnds => [] case BadType => old(conn.input)
    {
      ghost var input := conn.input;
      match atyp as int {
        case 1 =>
          var ip := new Byte[4];
          var ok := conn.ReadFull(ip, 4);
          if !ok {
            return HostEnds;
          }
          assert ip[..] == ip[..4];
          h := GotHost(IPv4(ip[..]), conn.input);
        case 3 =>
          var ok := conn.ReadFull(buf, 1);
          if !ok {
            return HostEnds;
          }
          assert buf[..1][0] == input[0];
          var sz := buf[0] as int;
          ok := conn.ReadFull(buf, sz);
          if !ok {
            return HostEnds;
          }
          assert input[1..][..sz] == input[1..1 + sz] && input[1..][sz..] == input[1 + sz..];
          h := GotHost(Domain(buf[..sz]), conn.input);
        case 4 =>
          var ip := new Byte[16];
          var ok := conn.ReadFull(ip, 16);
          if !ok {
            return HostEnds;
          }
          assert ip[..] == ip[..16];
          h := GotHost(IPv6(ip[..]), conn.input);
        case _ =>
          return BadType;
      }
    }

    /** `reached` says whether the target could be reached. */
    method HandleDial(conn: SourceConn, reached: bool) returns (dialed: Dialed)
      modifies conn`output, conn`writes
      ensures dialed == if !reached then Unreachable else if old(conn.writes) > 0 then Open else ClosedAgain
      ensures old(conn.output) <= conn.output
      ensures var said := conn.output[|old(conn.output)|..];
        if old(conn.writes) > 0 then TellsClient(said, reached) else said == []
    {
      if !reached {
        var _ := conn.Write([VERSION, 1, 0, 1, 0, 0, 0, 0, 0, 0]);
        return Unreachable;
      }
      var ok := conn.Write([VERSION, 0, 0, 1, 0, 0, 0, 0, 0, 0]);
      dialed := if ok then Open else ClosedAgain;
    }

    /** handleConn up to the proxying: a connection is proxied exactly if the handshake succeeds, the target is reached
        and both replies are delivered; otherwise it is closed, and a target that was reached too. */
    method HandleConn(conn: SourceConn, reachable: Address -> bool) returns (proxied: bool)
      modifies conn
      ensures var o := HandshakeWith(old(conn.input), old(conn.writes));
        var told := o.result.Ok? && old(conn.writes) >= 2;
        && conn.input == o.left
        && (proxied <==> told && reachable(o.result.address))
        && conn.closed == (old(conn.closed) || !proxied)
        && old(conn.output) + o.reply <= conn.output
        && var said := conn.output[|old(conn.output) + o.reply|..];
           if told then TellsClient(said, proxied) else said == []
    {
      OkIsReplied(conn.input);
      var r := HandshakeNoAuth(conn);
      if r.Failed? {
        conn.closed := true;
        return false;
      }
      var dialed := HandleDial(conn, reachable(r.address));
      proxied := dialed.Open?;
      if !proxied {
        conn.closed := true;
      }
    }
  }

  /** An accepted greeting is answered. */
  lemma OkIsReplied(input: Chunk)
    ensures Handshake(input).result.Ok? ==> Handshake(input).reply == [VERSION, METHOD_AUTH_NONE]
  {
  }
}
