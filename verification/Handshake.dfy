/** The symmetric handshake of two nodes, and the role that each takes from comparing their ids. */
module Handshakes {
  import opened Bytes
  import opened Sealing
  import opened CipherConns

  const ID_LEN: nat := 16

  type Uuid = id: Chunk | |id| == ID_LEN witness seq(ID_LEN, _ => 0)

  // ---------- The order of ids ----------

  ghost predicate Precedes(a: Chunk, b: Chunk)
    requires |a| == |b|
  {
    exists i :: 0 <= i < |a| && a[..i] == b[..i] && a[i] < b[i]
  }

  lemma PrecedesLast(a: Chunk, b: Chunk, x: Byte, y: Byte)
    requires |a| == |b|
    ensures Precedes(a + [x], b + [y]) <==> Precedes(a, b) || (a == b && x < y)
  {
    var longA, longB := a + [x], b + [y];
    if Precedes(longA, longB) {
      var i :| 0 <= i < |longA| && longA[..i] == longB[..i] && longA[i] < longB[i];
      assert longA[..i] == a[..i] && longB[..i] == b[..i];
      assert i == |a| ==> a[..i] == a && b[..i] == b;
    }
    if Precedes(a, b) {
      var i :| 0 <= i < |a| && a[..i] == b[..i] && a[i] < b[i];
      assert longA[..i] == longB[..i] && longA[i] < longB[i];
    }
    if a == b && x < y {
      assert longA[..|a|] == longB[..|a|] && longA[|a|] < longB[|a|];
    }
  }

  /** The byte order is the numeric order, so it is a strict total order: exactly one of less, equal, greater holds,
      and less is transitive. */
  lemma {:induction false} PrecedesIsNumeric(a: Chunk, b: Chunk)
    requires |a| == |b|
    ensures Precedes(a, b) <==> Value(a) < Value(b)
    ensures a == b <==> Value(a) == Value(b)
  {
    if a != [] {
      var n := |a| - 1;
      var x, y := a[..n], b[..n];
      PrecedesIsNumeric(x, y);
      assert a == x + [a[n]] && b == y + [b[n]];
      PrecedesLast(x, y, a[n], b[n]);
      assert Value(a) == Value(x) * 256 + a[n] as int && Value(b) == Value(y) * 256 + b[n] as int;
    }
  }

  method CmpUUID(a: Uuid, b: Uuid) returns (r: int)
    ensures r == if Value(a) < Value(b) then -1 else if Value(a) > Value(b) then 1 else 0
    ensures r == 0 <==> a == b
  {
    PrecedesIsNumeric(a, b);
    PrecedesIsNumeric(b, a);
    var i := 0;
    while i < ID_LEN
      invariant i <= ID_LEN && a[..i] == b[..i]
    {
      if a[i] < b[i] {
        return -1;
      } else if a[i] > b[i] {
        return 1;
      }
      i := i + 1;
    }
    assert a == a[..ID_LEN] && b == b[..ID_LEN];
    return 0;
  }

  // ---------- One end ----------

  datatype Hello = Hello(version: string, id: Uuid)

  datatype Config = Config(hello: Hello, allowed: seq<Uuid>)

  datatype Verdict = Accepted(client: bool) | VersionMismatch | BadIds | NotAllowed | Unreadable

  function Judge(c: Config, other: Hello): Verdict {
    if other.version != c.hello.version then VersionMismatch
    else if c.hello.id == other.id then BadIds
    else if other.id !in c.allowed then NotAllowed
    else Accepted(Value(c.hello.id) < Value(other.id))
  }

  /** JSON encoding of the handshake, as an inverse pair. */
  datatype Codec = Codec(marshal: Hello -> Chunk, unmarshal: Chunk -> Option<Hello>)

  /** Both encodings fit one record, which a version string and an id do. */
  ghost predicate Carried(codec: Codec, h: Hello)
  {
    1 <= |codec.marshal(h)| <= MAX_CHUNK_LEN && codec.unmarshal(codec.marshal(h)) == Some(h)
  }

  class ConnectionManager {
    const config: Config
    const codec: Codec
    var inHs: Option<Hello>
    var outHs: Option<Hello>
    var client: bool

    constructor (config: Config, codec: Codec)
      ensures this.config == config && this.codec == codec && inHs == None && outHs == None
    {
      this.config, this.codec := config, codec;
      inHs, outHs, client := None, None, false;
    }

    method SendHandshake(conn: CipherAesGcmConn, nonces: (nat -> nat, nat -> nat))
      requires Carried(codec, config.hello)
      modifies `outHs, conn`outgoing
      ensures outHs == Some(config.hello)
      ensures conn.outgoing == old(conn.outgoing) + MsgWire(conn.cipher, nonces, codec.marshal(config.hello))
    {
      outHs := Some(config.hello);
      var ok := conn.WriteMsg(codec.marshal(config.hello), nonces);
    }

    /** Called once the other end's message has arrived. */
    method ReceiveHandshake(conn: CipherAesGcmConn) returns (v: Verdict)
      requires outHs == Some(config.hello)
      modifies `inHs, `client, conn`readBuf, conn`incoming
      ensures v == Received(codec, config, conn.cipher, old(conn.incoming), old(conn.readBuf))
      ensures v.Accepted? ==> client == v.client
    {
      var r := conn.ReadMsg();
      if !r.Msg? {
        return Unreadable;
      }
      var hello := codec.unmarshal(r.body);
      if hello.None? {
        return Unreadable;
      }
      inHs := hello;
      if inHs.value.version != config.hello.version {
        return VersionMismatch;
      }
      var cmpId := CmpUUID(config.hello.id, inHs.value.id);
      if cmpId == 0 {
        return BadIds;
      }
      var allowed := HasAllowedToConnectNodeId(inHs.value.id);
      if !allowed {
        return NotAllowed;
      }
      client := cmpId < 0;
      v := Accepted(client);
    }

    method HasAllowedToConnectNodeId(id: Uuid) returns (allowed: bool)
      ensures allowed <==> id in config.allowed
    {
      var i := 0;
      while i < |config.allowed|
        invariant i <= |config.allowed| && id !in config.allowed[..i]
      {
        if config.allowed[i] == id {
          return true;
        }
        i := i + 1;
      }
      return false;
    }
  }

  function Received(codec: Codec, c: Config, cipher: Cipher, wire: Chunk, readBuf: Chunk): Verdict {
    match ReadMsgFrom(cipher, wire, readBuf)
    case Msg(body, _, _) =>
      (match codec.unmarshal(body)
       case Some(hello) => Judge(c, hello)
       case None => Unreadable)
    case _ => Unreadable
  }

  // ---------- Both ends ----------

  datatype Side = Left | Right

  function Other(s: Side): Side {
    if s == Left then Right else Left
  }

  datatype Both<T> = Both(left: T, right: T) {
    function At(s: Side): T {
      if s == Left then left else right
    }

    function With(s: Side, t: T): Both<T> {
      if s == Left then this.(left := t) else this.(right := t)
    }
  }

  datatype Progress = Fresh | Listening | Finished(verdict: Verdict)

  /** `toward` holds the bytes on their way to each side. */
  datatype World = World(progress: Both<Progress>, toward: Both<Chunk>)

  const BEGIN: World := World(Both(Fresh, Fresh), Both([], []))

  datatype Event = Send(from: Side, nonces: (nat -> nat, nat -> nat)) | Receive(at: Side)

  predicate Possible(w: World, e: Event) {
    match e
    case Send(from, _) => w.progress.At(from).Fresh?
    case Receive(at) => w.progress.At(at).Listening? && w.toward.At(at) != []
  }

  datatype Deployment = Deployment(codec: Codec, cipher: Cipher, configs: Both<Config>)

  ghost predicate Fits(d: Deployment)
  {
    Carried(d.codec, d.configs.left.hello) && Carried(d.codec, d.configs.right.hello)
  }

  function HelloOf(d: Deployment, s: Side): Hello {
    d.configs.At(s).hello
  }

  ghost function Step(d: Deployment, w: World, e: Event): World
    requires Fits(d)
  {
    match e
    case Send(from, nonces) =>
      World(w.progress.With(from, Listening),
            w.toward.With(Other(from), w.toward.At(Other(from))
                                       + MsgWire(d.cipher, nonces, d.codec.marshal(HelloOf(d, from)))))
    case Receive(at) =>
      World(w.progress.With(at, Finished(Received(d.codec, d.configs.At(at), d.cipher, w.toward.At(at), []))),
            w.toward.With(at, []))
  }

  ghost function Run(d: Deployment, events: seq<Event>): World
    requires Fits(d)
  {
    if events == [] then BEGIN
    else
      var w := Run(d, events[..|events| - 1]);
      var e := events[|events| - 1];
      if Possible(w, e) then Step(d, w, e) else w
  }

  // the bytes of one message of `from`, or none
  ghost predicate HelloOnWire(d: Deployment, wire: Chunk, from: Side)
    requires Fits(d)
  {
    wire == [] || exists nonces :: wire == MsgWire(d.cipher, nonces, d.codec.marshal(HelloOf(d, from)))
  }

  ghost predicate FaithfulTo(d: Deployment, w: World, s: Side)
    requires Fits(d)
  {
    && HelloOnWire(d, w.toward.At(s), Other(s))
    && (w.progress.At(Other(s)).Fresh? ==> w.toward.At(s) == [])
    && (w.progress.At(s).Finished? ==> w.progress.At(s).verdict == Judge(d.configs.At(s), HelloOf(d, Other(s))))
  }

  lemma ReceivesTheOther(d: Deployment, c: Config, wire: Chunk, from: Side)
    requires Fits(d) && HelloOnWire(d, wire, from) && wire != []
    ensures Received(d.codec, c, d.cipher, wire, []) == Judge(c, HelloOf(d, from))
  {
    var nonces :| wire == MsgWire(d.cipher, nonces, d.codec.marshal(HelloOf(d, from)));
    MessageReadBack(d.cipher, nonces, d.codec.marshal(HelloOf(d, from)), []);
    assert wire + [] == wire;
  }

  lemma SendFaithful(d: Deployment, w: World, e: Event, s: Side)
    requires Fits(d) && Possible(w, e) && e.Send? && FaithfulTo(d, w, s)
    ensures FaithfulTo(d, Step(d, w, e), s)
  {
    if s == Other(e.from) {
      var wire := MsgWire(d.cipher, e.nonces, d.codec.marshal(HelloOf(d, e.from)));
      assert [] + wire == wire;
      assert HelloOnWire(d, wire, e.from);
    }
  }

  lemma ReceiveFaithful(d: Deployment, w: World, e: Event, s: Side)
    requires Fits(d) && Possible(w, e) && e.Receive? && FaithfulTo(d, w, s)
    ensures FaithfulTo(d, Step(d, w, e), s)
  {
    if s == e.at {
      ReceivesTheOther(d, d.configs.At(s), w.toward.At(s), Other(s));
    }
  }

  lemma StepFaithful(d: Deployment, w: World, e: Event, s: Side)
    requires Fits(d) && Possible(w, e) && FaithfulTo(d, w, s)
    ensures FaithfulTo(d, Step(d, w, e), s)
  {
    match e
    case Send(_, _) => SendFaithful(d, w, e, s);
    case Receive(_) => ReceiveFaithful(d, w, e, s);
  }

  lemma {:induction false} RunFaithful(d: Deployment, events: seq<Event>)
    requires Fits(d)
    ensures FaithfulTo(d, Run(d, events), Left) && FaithfulTo(d, Run(d, events), Right)
  {
    if events != [] {
      var w := Run(d, events[..|events| - 1]);
      RunFaithful(d, events[..|events| - 1]);
      if Possible(w, events[|events| - 1]) {
        StepFaithful(d, w, events[|events| - 1], Left);
        StepFaithful(d, w, events[|events| - 1], Right);
      }
    }
  }

  /** What one end can rely on, whatever the other decides: it accepts exactly if the versions agree, the ids differ and
      the other's id is allowed here, and it is then the client exactly if its own id comes first. When it refuses, it
      gives the first of the three reasons that applies. */
  lemma OneEndsVerdict(d: Deployment, events: seq<Event>, s: Side)
    requires Fits(d) && Run(d, events).progress.At(s).Finished?
    ensures var v := Run(d, events).progress.At(s).verdict;
            var own, other := d.configs.At(s).hello, d.configs.At(Other(s)).hello;
            var allowed := exists i :: 0 <= i < |d.configs.At(s).allowed| && d.configs.At(s).allowed[i] == other.id;
      && (v.Accepted? <==> own.version == other.version && own.id != other.id && allowed)
      && (v.Accepted? ==> (v.client <==> Precedes(own.id, other.id)))
      && (v.VersionMismatch? <==> own.version != other.version)
      && (v.BadIds? <==> own.version == other.version && own.id == other.id)
      && (v.NotAllowed? <==> own.version == other.version && own.id != other.id && !allowed)
      && !v.Unreadable?
  {
    RunFaithful(d, events);
    PrecedesIsNumeric(d.configs.At(s).hello.id, d.configs.At(Other(s)).hello.id);
  }

  /** Role election, in any interleaving: once both ends have finished, both accept exactly if their versions agree
      and their ids differ and are allowed by each other; then exactly one is the client, the one with the smaller
      id. */
  lemma ExactlyOneClient(d: Deployment, events: seq<Event>)
    requires Fits(d)
    ensures var w := Run(d, events); var l, r := w.progress.left, w.progress.right;
            var cl, cr := d.configs.left, d.configs.right;
      l.Finished? && r.Finished? ==>
        && (l.verdict.Accepted? && r.verdict.Accepted? <==>
              cl.hello.version == cr.hello.version && cl.hello.id != cr.hello.id
              && cl.hello.id in cr.allowed && cr.hello.id in cl.allowed)
        && (l.verdict.Accepted? && r.verdict.Accepted? ==>
              && l.verdict.client != r.verdict.client
              && (l.verdict.client <==> Precedes(cl.hello.id, cr.hello.id)))
  {
    RunFaithful(d, events);
    PrecedesIsNumeric(d.configs.left.hello.id, d.configs.right.hello.id);
  }
}
