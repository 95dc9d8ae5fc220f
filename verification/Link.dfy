/** One direction of a transport session: framing, limiter, a wire that cuts the bytes as it likes, and
    reassembly. The whole is a first-in first-out channel of buffers. */
module Links {
  import opened Bytes
  import opened Sealing
  import opened RateLimiting
  import opened Framing

  datatype Setup = Setup(limit: Limit, maximumChunkSize: nat, cipher: Option<Cipher>)

  datatype Link = Link(
    given: seq<Chunk>,       // buffers handed to writeBuffer
    sealed: seq<Chunk>,      // the same after the middleware
    out: Sending,            // limiter state and chunks handed to the wire
    received: Chunk,         // bytes the far end has been pushed
    parser: Parser,          // state of the far end's reassembly
    frames: seq<Chunk>,      // frames it has cut off
    events: seq<Framing.Event>)  // what it has emitted

  const IDLE: Link := Link([], [], Sending(FRESH.state, []), [], START, [], [])

  datatype LinkEvent =
    | Write(buffer: Chunk, nonce: nat, at: Instant)
    | Fire(at: Instant)
    | Deliver(count: nat)

  function InFlight(l: Link): Chunk
    requires |l.received| <= |Flatten(l.out.wire)|
  {
    Flatten(l.out.wire)[|l.received|..]
  }

  /** A buffer is never empty: the multiplexer writes encoded messages only. */
  ghost predicate Enabled(l: Link, e: LinkEvent)
  {
    match e
    case Write(buffer, _, _) => 0 < |buffer| <= MAXIMUM_BUFFER_SIZE
    case Fire(_) => true
    case Deliver(count) => |l.received| + count <= |Flatten(l.out.wire)|
  }

  ghost function StepLink(c: Setup, l: Link, e: LinkEvent): Link
    requires c.maximumChunkSize > 0 && Enabled(l, e) && l.parser.Valid()
  {
    match e
    case Write(buffer, nonce, at) =>
      var payload := Sealed(c.cipher, nonce, buffer);
      l.(given := l.given + [buffer], sealed := l.sealed + [payload],
         out := WriteChunks(c.limit, l.out, Pieces(payload, c.maximumChunkSize), at))
    case Fire(at) =>
      var o := Process(c.limit, l.out.state, at, []);
      l.(out := Sending(o.state, l.out.wire + o.sent))
    case Deliver(count) =>
      var chunk := InFlight(l)[..count];
      var r := Feed(l.parser, chunk);
      l.(received := l.received + chunk, parser := r.parser, frames := l.frames + r.frames,
         events := l.events + ReceivedAll(c.cipher, r.frames))
  }

  ghost predicate Carries(c: Setup, l: Link)
  {
    && Framable(l.sealed) && Opens(c.cipher, l.sealed, l.given)
    && AtRest(c.limit, l.out.state)
    && Unsent(l.out) == FrameAll(l.sealed)
    && l.received <= Flatten(l.out.wire)
    && Parse(l.received) == Parsed(l.frames, l.parser)
    && l.events == ReceivedAll(c.cipher, l.frames)
  }

  function BufferEvents(buffers: seq<Chunk>): (r: seq<Framing.Event>)
    ensures |r| == |buffers|
  {
    seq(|buffers|, i requires 0 <= i < |buffers| => BufferEvent(buffers[i]))
  }

  /** The buffers given and not yet emitted at the far end. */
  function Pending(l: Link): seq<Chunk> {
    if |l.events| <= |l.given| then l.given[|l.events|..] else []
  }

  /** Full-stack refinement, safety: the far end has emitted a prefix of the buffers given, and all of them
      once the limiter's queue is empty and the wire is drained. */
  lemma LinkIsAChannel(c: Setup, l: Link)
    requires Carries(c, l)
    ensures |l.events| <= |l.given| && l.events == BufferEvents(l.given[..|l.events|])
    ensures !l.parser.Stuck()
    ensures l.out.state.queue == [] && InFlight(l) == [] ==> Pending(l) == [] && l.events == BufferEvents(l.given)
  {
    PrefixParses(l.sealed, l.received);
    forall i | 0 <= i < |l.events| ensures l.events[i] == BufferEvent(l.given[i]) {
      assert l.frames[i] == l.sealed[i];
    }
    if l.out.state.queue == [] && InFlight(l) == [] {
      assert l.received == Flatten(l.out.wire) == FrameAll(l.sealed);
      assert l.given[..|l.events|] == l.given;
    }
  }

  lemma IdleCarries(c: Setup)
    ensures Carries(c, IDLE)
  {
  }

  lemma WriteCarries(c: Setup, l: Link, e: LinkEvent)
    requires c.maximumChunkSize > 0 && Carries(c, l) && e.Write? && Enabled(l, e)
    ensures Carries(c, StepLink(c, l, e))
    ensures Pending(StepLink(c, l, e)) == Pending(l) + [e.buffer]
  {
    LinkIsAChannel(c, l);
    var payload := Sealed(c.cipher, e.nonce, e.buffer);
    OutKeepsTheFrames(c, l, payload, e.at);
    PairsSnoc(c.cipher, l.sealed, l.given, payload, e.buffer);
  }

  ghost predicate Opens(cipher: Option<Cipher>, sealed: seq<Chunk>, given: seq<Chunk>)
  {
    && |sealed| == |given| && [] !in sealed
    && forall i :: 0 <= i < |given| ==> Received(cipher, sealed[i]) == BufferEvent(given[i])
  }

  lemma PairsSnoc(cipher: Option<Cipher>, sealed: seq<Chunk>, given: seq<Chunk>, payload: Chunk, buffer: Chunk)
    requires Opens(cipher, sealed, given) && payload != [] && Received(cipher, payload) == BufferEvent(buffer)
    ensures Opens(cipher, sealed + [payload], given + [buffer])
  {
  }

  lemma OutKeepsTheFrames(c: Setup, l: Link, payload: Chunk, at: Instant)
    requires c.maximumChunkSize > 0 && Carries(c, l) && |payload| < 0x1_0000_0000
    ensures var out := WriteChunks(c.limit, l.out, Pieces(payload, c.maximumChunkSize), at);
      && AtRest(c.limit, out.state)
      && Framable(l.sealed + [payload]) && Unsent(out) == FrameAll(l.sealed + [payload])
      && l.received <= Flatten(out.wire)
  {
    PiecesAreTheFrame(payload, c.maximumChunkSize);
    WriteChunksConserves(c.limit, l.out, Pieces(payload, c.maximumChunkSize), at);
    FrameAllSnoc(l.sealed, payload);
    WirePrefix(l.out.wire, WriteChunks(c.limit, l.out, Pieces(payload, c.maximumChunkSize), at).wire);
  }

  lemma WirePrefix(before: seq<Chunk>, after: seq<Chunk>)
    requires before <= after
    ensures Flatten(before) <= Flatten(after)
  {
    assert after == before + after[|before|..];
    FlattenAppend(before, after[|before|..]);
  }

  lemma FireCarries(c: Setup, l: Link, e: LinkEvent)
    requires c.maximumChunkSize > 0 && Carries(c, l) && e.Fire?
    ensures Carries(c, StepLink(c, l, e))
    ensures Pending(StepLink(c, l, e)) == Pending(l)
  {
    var fire := RateLimiting.Event.Fire(e.at, []);
    var o := Process(c.limit, l.out.state, e.at, []);
    EffectConserves(c.limit, l.out.state, fire);
    EffectKeeps(c.limit, l.out.state, fire);
    FlattenAppend(l.out.wire, o.sent);
    assert Offered(c.limit, l.out.state, fire) == [];
    Regroup(Flatten(l.out.wire), Flatten(o.sent), Flatten(o.state.queue), Flatten(l.out.state.queue), [], []);
  }

  lemma DeliverCarries(c: Setup, l: Link, e: LinkEvent)
    requires c.maximumChunkSize > 0 && Carries(c, l) && e.Deliver? && Enabled(l, e)
    ensures Carries(c, StepLink(c, l, e))
    ensures l.events <= StepLink(c, l, e).events && StepLink(c, l, e).given == l.given
  {
    LinkIsAChannel(c, l);
    var chunk := InFlight(l)[..e.count];
    ParseResumes(l.received, chunk);
    var r := Feed(l.parser, chunk);
    assert r == Drain(More(l.parser, chunk));
    ReceivedAllAppend(c.cipher, l.frames, r.frames);
  }

  lemma DeliverTakes(c: Setup, l: Link, e: LinkEvent)
    requires c.maximumChunkSize > 0 && Carries(c, l) && e.Deliver? && Enabled(l, e)
    ensures var next := StepLink(c, l, e); var taken := |next.events| - |l.events|;
      && 0 <= taken <= |Pending(l)|
      && next.events == l.events + BufferEvents(Pending(l)[..taken])
      && Pending(next) == Pending(l)[taken..]
  {
    LinkIsAChannel(c, l);
    DeliverCarries(c, l, e);
    var next := StepLink(c, l, e);
    LinkIsAChannel(c, next);
    EventsExtend(l.events, next.events, l.given);
    SuffixOfSuffix(l.given, |l.events|, |next.events|);
  }

  lemma SuffixOfSuffix<T>(given: seq<T>, i: nat, j: nat)
    requires i <= j <= |given|
    ensures given[i..][j - i..] == given[j..]
  {
  }

  lemma EventsExtend(before: seq<Framing.Event>, after: seq<Framing.Event>, given: seq<Chunk>)
    requires |before| <= |after| <= |given|
    requires before == BufferEvents(given[..|before|]) && after == BufferEvents(given[..|after|])
    ensures after == before + BufferEvents(given[|before|..][..|after| - |before|])
  {
    assert given[..|after|] == given[..|before|] + given[|before|..][..|after| - |before|];
  }

  /** Full-stack refinement, step by step: a write appends its buffer to the channel, a timer changes nothing,
      and a delivery of any number of bytes takes some buffers off the front and emits exactly those. */
  lemma StepRefinesChannel(c: Setup, l: Link, e: LinkEvent)
    requires c.maximumChunkSize > 0 && Carries(c, l) && Enabled(l, e)
    ensures var next := StepLink(c, l, e); var taken := |next.events| - |l.events|;
      && Carries(c, next)
      && (e.Write? ==> taken == 0 && Pending(next) == Pending(l) + [e.buffer])
      && (e.Fire? ==> taken == 0 && Pending(next) == Pending(l))
      && (e.Deliver? ==> 0 <= taken <= |Pending(l)|
                         && next.events == l.events + BufferEvents(Pending(l)[..taken])
                         && Pending(next) == Pending(l)[taken..])
  {
    match e
    case Write(_, _, _) => WriteCarries(c, l, e);
    case Fire(_) => FireCarries(c, l, e);
    case Deliver(_) =>
      DeliverCarries(c, l, e);
      DeliverTakes(c, l, e);
  }
}
