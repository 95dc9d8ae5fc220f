/** Length-prefixed framing over a byte stream: writing buffers as chunks, and reassembling them from
    whatever chunks the wire delivers. */
module Framing {
  import opened Bytes
  import opened Sealing
  import opened RateLimiting

  const MAXIMUM_BUFFER_SIZE: nat := 256 * 1024 * 1024
  const MAXIMUM_CHUNK_SIZE: nat := 128 * 1024

  // ---------- The stream of frames, and a parser over one contiguous string ----------

  function Frame(buffer: Chunk): Chunk
    requires |buffer| < 0x1_0000_0000
  {
    U32(|buffer|) + buffer
  }

  ghost predicate Framable(buffers: seq<Chunk>)
  {
    forall i :: 0 <= i < |buffers| ==> |buffers[i]| < 0x1_0000_0000
  }

  function FrameAll(buffers: seq<Chunk>): Chunk
    requires Framable(buffers)
  {
    if buffers == [] then [] else Frame(buffers[0]) + FrameAll(buffers[1..])
  }

  datatype Phase = ReadLength | ReadBuffer

  datatype Parser = Parser(phase: Phase, need: nat, rest: Chunk) {
    ghost predicate Valid() {
      phase.ReadLength? ==> need == 4
    }

    /** A zero length has been read and not one chunk is left: where processData dereferences chunks[0] and throws. */
    predicate Stuck() {
      phase.ReadBuffer? && need == 0 && rest == []
    }

    ghost predicate AtRest() {
      Valid() && (|rest| < need || Stuck())
    }
  }

  datatype Parsed = Parsed(frames: seq<Chunk>, parser: Parser)

  const START: Parser := Parser(ReadLength, 4, [])

  predicate Blocked(p: Parser) {
    |p.rest| < p.need || p.Stuck()
  }

  function Then(before: Parsed, after: Parsed): Parsed {
    Parsed(before.frames + after.frames, after.parser)
  }

  /** One turn of the processing loop: a length is read, or a frame is cut off. */
  function Advance(p: Parser): (r: Parsed)
    requires p.Valid() && |p.rest| >= p.need
    ensures r.parser.Valid()
  {
    if p.phase.ReadLength? then Parsed([], Parser(ReadBuffer, FromU32(p.rest), p.rest[4..]))
    else Parsed([p.rest[..p.need]], Parser(ReadLength, 4, p.rest[p.need..]))
  }

  function Drain(p: Parser): (r: Parsed)
    requires p.Valid()
    ensures r.parser.AtRest()
    decreases |p.rest|, p.phase.ReadBuffer?
  {
    if Blocked(p) then Parsed([], p) else Then(Advance(p), Drain(Advance(p).parser))
  }

  function Parse(bytes: Chunk): Parsed {
    Drain(START.(rest := bytes))
  }

  function More(p: Parser, bytes: Chunk): Parser {
    p.(rest := p.rest + bytes)
  }

  lemma AdvanceMore(p: Parser, bytes: Chunk)
    requires p.Valid() && !Blocked(p)
    ensures !Blocked(More(p, bytes))
    ensures Advance(More(p, bytes)) == Parsed(Advance(p).frames, More(Advance(p).parser, bytes))
  {
    if p.phase.ReadLength? {
      FromU32Prefix(p.rest, bytes);
      assert (p.rest + bytes)[4..] == p.rest[4..] + bytes;
    } else {
      assert (p.rest + bytes)[p.need..] == p.rest[p.need..] + bytes;
      assert (p.rest + bytes)[..p.need] == p.rest[..p.need];
    }
  }

  lemma LengthRead(bytes: Chunk)
    requires |bytes| >= 4
    ensures Parse(bytes) == Drain(Parser(ReadBuffer, FromU32(bytes), bytes[4..]))
  {
    var p := START.(rest := bytes);
    var rest := Drain(Advance(p).parser);
    assert Drain(p) == Then(Advance(p), rest);
    assert [] + rest.frames == rest.frames;
  }

  /** Parsing can stop anywhere and go on from the state it stopped in. */
  lemma {:induction false} DrainResumes(p: Parser, bytes: Chunk)
    requires p.Valid()
    ensures Drain(More(p, bytes)) == Then(Drain(p), Drain(More(Drain(p).parser, bytes)))
    decreases |p.rest|, p.phase.ReadBuffer?
  {
    if !Blocked(p) {
      var next := Advance(p);
      AdvanceMore(p, bytes);
      DrainResumes(next.parser, bytes);
      var last := Drain(More(Drain(p).parser, bytes));
      Assoc(next.frames, Drain(next.parser).frames, last.frames);
    }
  }

  lemma ParseResumes(a: Chunk, b: Chunk)
    ensures Parse(a + b) == Then(Parse(a), Drain(More(Parse(a).parser, b)))
  {
    DrainResumes(START.(rest := a), b);
  }

  // ---------- Framing round trip ----------

  lemma ParseOneFrame(buffer: Chunk, after: Chunk)
    requires |buffer| < 0x1_0000_0000 && (buffer != [] || after != [])
    ensures Parse(Frame(buffer) + after) == Then(Parsed([buffer], START), Parse(after))
  {
    var all := Frame(buffer) + after;
    var body := Parser(ReadBuffer, |buffer|, buffer + after);
    assert all[4..] == body.rest && FromU32(all) == |buffer|;
    LengthRead(all);
    assert body.rest[..body.need] == buffer && body.rest[body.need..] == after;
    assert !body.Stuck();
  }

  /** Round trip: the frames of any buffers parse back to exactly those buffers, except that an empty last
      buffer is never reported. */
  lemma {:induction false} FramingRoundTrip(buffers: seq<Chunk>)
    requires Framable(buffers)
    ensures var n := |buffers|;
      Parse(FrameAll(buffers)) ==
      if n > 0 && buffers[n - 1] == [] then Parsed(buffers[..n - 1], Parser(ReadBuffer, 0, []))
      else Parsed(buffers, START)
  {
    if buffers != [] {
      FramingRoundTrip(buffers[1..]);
      if buffers == [[]] {
        assert FrameAll(buffers)[4..] == [] && FromU32(FrameAll(buffers)) == 0;
        LengthRead(FrameAll(buffers));
      } else {
        ParseOneFrame(buffers[0], FrameAll(buffers[1..]));
      }
    }
  }

  lemma PartOfAFrame(buffer: Chunk, bytes: Chunk)
    requires 0 < |buffer| < 0x1_0000_0000 && bytes < Frame(buffer)
    ensures Parse(bytes).frames == [] && !Parse(bytes).parser.Stuck()
  {
    if |bytes| >= 4 {
      assert bytes[..4] == Frame(buffer)[..4] == U32(|buffer|);
      assert bytes == bytes[..4] + bytes[4..];
      FromU32Prefix(bytes[..4], bytes[4..]);
      LengthRead(bytes);
      assert Blocked(Parser(ReadBuffer, |buffer|, bytes[4..]));
    }
  }

  /** Any prefix of the stream of non-empty frames yields a prefix of the buffers and never gets stuck. */
  lemma {:induction false} PrefixParses(buffers: seq<Chunk>, bytes: Chunk)
    requires Framable(buffers) && [] !in buffers && bytes <= FrameAll(buffers)
    ensures Parse(bytes).frames <= buffers && !Parse(bytes).parser.Stuck()
    ensures bytes == FrameAll(buffers) ==> Parse(bytes) == Parsed(buffers, START)
  {
    if buffers != [] {
      var head := Frame(buffers[0]);
      if |bytes| < |head| {
        assert bytes == head[..|bytes|];
        PartOfAFrame(buffers[0], bytes);
      } else {
        var rest := bytes[|head|..];
        assert bytes == head + rest;
        PrefixParses(buffers[1..], rest);
        FirstFrameParses(buffers, rest);
      }
    }
  }

  lemma FirstFrameParses(buffers: seq<Chunk>, rest: Chunk)
    requires buffers != [] && Framable(buffers) && buffers[0] != []
    requires Parse(rest).frames <= buffers[1..]
    ensures var r := Parse(Frame(buffers[0]) + rest);
      r.frames <= buffers && r.parser == Parse(rest).parser
      && (Parse(rest).frames == buffers[1..] ==> r.frames == buffers)
  {
    ParseOneFrame(buffers[0], rest);
    assert [buffers[0]] + buffers[1..] == buffers;
  }

  lemma {:induction false} FrameAllSnoc(buffers: seq<Chunk>, last: Chunk)
    requires Framable(buffers) && |last| < 0x1_0000_0000
    ensures Framable(buffers + [last])
    ensures FrameAll(buffers + [last]) == FrameAll(buffers) + Frame(last)
  {
    var longer := buffers + [last];
    if buffers == [] {
      assert longer == [last] && longer[1..] == [];
    } else {
      assert longer[0] == buffers[0] && longer[1..] == buffers[1..] + [last];
      FrameAllSnoc(buffers[1..], last);
      Assoc(Frame(buffers[0]), FrameAll(buffers[1..]), Frame(last));
    }
  }

  // ---------- Reassembly from chunks ----------

  /** The effect of one pushed chunk. An empty chunk un-sticks the parser, since it gives it a chunks[0]. */
  function Feed(p: Parser, chunk: Chunk): Parsed
    requires p.Valid()
  {
    if chunk == [] && p.Stuck() then Parsed([[]], START) else Drain(More(p, chunk))
  }

  /** The frames and final state after any sequence of pushed chunks. */
  function FeedAll(chunks: seq<Chunk>): (r: Parsed)
    ensures r.parser.AtRest()
  {
    if chunks == [] then Parsed([], START)
    else
      var before := FeedAll(chunks[..|chunks| - 1]);
      Then(before, Feed(before.parser, chunks[|chunks| - 1]))
  }

  ghost predicate EndsOnUnsticking(chunks: seq<Chunk>)
  {
    chunks != [] && chunks[|chunks| - 1] == [] && Parse(Flatten(chunks)).parser.Stuck()
  }

  lemma {:induction false} FeedAllParses(chunks: seq<Chunk>)
    ensures FeedAll(chunks) ==
      if EndsOnUnsticking(chunks) then Parsed(Parse(Flatten(chunks)).frames + [[]], START)
      else Parse(Flatten(chunks))
  {
    if chunks != [] {
      var n := |chunks| - 1;
      var before, last := chunks[..n], chunks[n];
      FeedAllParses(before);
      assert chunks == before + [last];
      FlattenSnoc(before, last);
      ParseResumes(Flatten(before), last);
      if last == [] {
        EmptyChunkFed(Parse(Flatten(before)).parser);
        assert Flatten(before) + [] == Flatten(before);
      } else if EndsOnUnsticking(before) {
        UnstuckChunkFed(Parse(Flatten(before)), last);
      }
    }
  }

  lemma EmptyChunkFed(p: Parser)
    requires p.AtRest()
    ensures Feed(p, []) == if p.Stuck() then Parsed([[]], START) else Parsed([], p)
    ensures Feed(START, []) == Parsed([], START)
  {
    assert More(p, []) == p && More(START, []) == START;
  }

  /** Bytes after a zero length: the empty frame is reported either with them or before them. */
  lemma UnstuckChunkFed(stuck: Parsed, chunk: Chunk)
    requires stuck.parser.Stuck() && chunk != []
    ensures Then(stuck, Drain(More(stuck.parser, chunk)))
            == Then(Parsed(stuck.frames + [[]], START), Feed(START, chunk))
  {
    var p := More(stuck.parser, chunk);
    assert p.rest == chunk == More(START, chunk).rest;
    assert chunk[0..] == chunk && chunk[..0] == [];
    assert Advance(p) == Parsed([[]], More(START, chunk));
    Assoc(stuck.frames, [[]], Drain(More(START, chunk)).frames);
  }

  /** Segmentation independence: the chunks give the frames and state that their concatenation gives, exactly
      unless the last chunk is empty and the bytes so far end in the length field of an empty frame. */
  lemma SegmentationIndependence(chunks: seq<Chunk>)
    ensures FeedAll(chunks) == Parse(Flatten(chunks)) <==> !EndsOnUnsticking(chunks)
  {
    FeedAllParses(chunks);
    if EndsOnUnsticking(chunks) {
      assert |FeedAll(chunks).frames| == |Parse(Flatten(chunks)).frames| + 1;
    }
  }

  const ZERO_LENGTH: Chunk := [0, 0, 0, 0]

  lemma ZeroLengthIsPending()
    ensures Parse(ZERO_LENGTH) == Parsed([], Parser(ReadBuffer, 0, []))
  {
    FramingRoundTrip([[]]);
    assert FrameAll([[]]) == ZERO_LENGTH + [];
  }

  /** The failing family has a member: a zero length, then an empty chunk. */
  lemma EmptyChunkIsSeen()
    ensures EndsOnUnsticking([ZERO_LENGTH, []])
    ensures FeedAll([ZERO_LENGTH, []]) == Parsed([[]], START)
  {
    var chunks: seq<Chunk> := [ZERO_LENGTH, []];
    FlattenCons(ZERO_LENGTH, [[]]);
    assert chunks == [ZERO_LENGTH] + [[]] && Flatten(chunks) == ZERO_LENGTH;
    ZeroLengthIsPending();
    FeedAllParses(chunks);
  }

  // ---------- Writing ----------

  /** The chunks that carry a payload: never longer than `max`, and together the payload. */
  function Split(payload: Chunk, max: nat): seq<Chunk>
    requires max > 0
    decreases |payload|
  {
    if |payload| <= max then [payload] else [payload[..max]] + Split(payload[max..], max)
  }

  function Pieces(payload: Chunk, max: nat): seq<Chunk>
    requires max > 0 && |payload| < 0x1_0000_0000
  {
    [U32(|payload|)] + Split(payload, max)
  }

  lemma {:induction false} SplitJoins(payload: Chunk, max: nat)
    requires max > 0
    ensures Flatten(Split(payload, max)) == payload
    ensures forall i :: 0 <= i < |Split(payload, max)| ==> |Split(payload, max)[i]| <= max
    ensures forall i :: 0 <= i < |Split(payload, max)| - 1 ==> |Split(payload, max)[i]| == max
    ensures payload != [] ==> [] !in Split(payload, max)
    decreases |payload|
  {
    FlattenOne(payload);
    if |payload| > max {
      SplitJoins(payload[max..], max);
    }
  }

  /** The chunks written for one payload are its frame, cut up: the four bytes of the length field, then pieces of the
      payload of the maximum size, only the last of which may be shorter. */
  lemma PiecesAreTheFrame(payload: Chunk, max: nat)
    requires max > 0 && |payload| < 0x1_0000_0000
    ensures Flatten(Pieces(payload, max)) == Frame(payload)
    ensures |Pieces(payload, max)[0]| == 4
    ensures forall i :: 0 < i < |Pieces(payload, max)| ==> |Pieces(payload, max)[i]| <= max
    ensures forall i :: 0 < i < |Pieces(payload, max)| - 1 ==> |Pieces(payload, max)[i]| == max
    ensures payload != [] ==> [] !in Pieces(payload, max)
  {
    SplitJoins(payload, max);
    assert Pieces(payload, max)[1..] == Split(payload, max);
  }

  function Sealed(cipher: Option<Cipher>, nonce: nat, buffer: Chunk): (r: Chunk)
    ensures |r| == |buffer| + if cipher.Some? then OVERHEAD else 0
    ensures Received(cipher, r) == BufferEvent(buffer)
  {
    if cipher.Some? then cipher.value.seal(nonce, buffer) else buffer
  }

  datatype Event = BufferEvent(buffer: Chunk) | ErrorEvent

  /** What a reader of the socket is told about one frame. */
  function Received(cipher: Option<Cipher>, frame: Chunk): Event {
    if cipher.None? then BufferEvent(frame)
    else
      match cipher.value.open(frame)
      case Some(plain) => BufferEvent(plain)
      case None => ErrorEvent
  }

  /** A frame that does not open is an error, and only such a one. */
  lemma OnlyBadFramesAreErrors(cipher: Option<Cipher>, frame: Chunk)
    ensures Received(cipher, frame) == ErrorEvent <==> cipher.Some? && cipher.value.open(frame) == None
    ensures forall plain :: Received(cipher, frame) == BufferEvent(plain) <==>
              if cipher.Some? then cipher.value.open(frame) == Some(plain) else frame == plain
  {
  }

  function ReceivedAll(cipher: Option<Cipher>, frames: seq<Chunk>): (r: seq<Event>)
    ensures |r| == |frames|
  {
    seq(|frames|, i requires 0 <= i < |frames| => Received(cipher, frames[i]))
  }

  /** The largest accepted buffer still fits its length field after sealing. */
  lemma LengthNeverOverflows(cipher: Option<Cipher>, nonce: nat, buffer: Chunk)
    requires |buffer| <= MAXIMUM_BUFFER_SIZE
    ensures |Sealed(cipher, nonce, buffer)| <= MAXIMUM_BUFFER_SIZE + OVERHEAD < 0x1_0000_0000
  {
  }

  /** A limiter's state and all that it has handed to the wire. */
  datatype Sending = Sending(state: State, wire: seq<Chunk>)

  function WriteChunk(limit: Limit, s: Sending, chunk: Chunk, now: Instant): Sending {
    var o := Submit(limit, s.state, chunk, now, []);
    Sending(o.state, s.wire + o.sent)
  }

  function WriteChunks(limit: Limit, s: Sending, chunks: seq<Chunk>, now: Instant): Sending
    decreases |chunks|
  {
    if chunks == [] then s else WriteChunks(limit, WriteChunk(limit, s, chunks[0], now), chunks[1..], now)
  }

  function Unsent(s: Sending): Chunk {
    Flatten(s.wire) + Flatten(s.state.queue)
  }

  /** Writing keeps the books: wire and queue together grow by exactly the bytes written. */
  lemma {:induction false} WriteChunksConserves(limit: Limit, s: Sending, chunks: seq<Chunk>, now: Instant)
    requires AtRest(limit, s.state)
    ensures var after := WriteChunks(limit, s, chunks, now);
      && AtRest(limit, after.state)
      && s.wire <= after.wire
      && Unsent(after) == Unsent(s) + Flatten(chunks)
    decreases |chunks|
  {
    if chunks != [] {
      var first := WriteChunk(limit, s, chunks[0], now);
      WriteChunkConserves(limit, s, chunks[0], now);
      WriteChunksConserves(limit, first, chunks[1..], now);
      assert Unsent(s) + chunks[0] + Flatten(chunks[1..]) == Unsent(s) + (chunks[0] + Flatten(chunks[1..]));
    }
  }

  lemma WriteOne(limit: Limit, s: Sending, chunk: Chunk, now: Instant)
    ensures WriteChunks(limit, s, [chunk], now) == WriteChunk(limit, s, chunk, now)
  {
    assert WriteChunks(limit, s, [chunk], now)
        == WriteChunks(limit, WriteChunk(limit, s, chunk, now), [chunk][1..], now);
  }

  lemma WriteChunkConserves(limit: Limit, s: Sending, chunk: Chunk, now: Instant)
    requires AtRest(limit, s.state)
    ensures var after := WriteChunk(limit, s, chunk, now);
      AtRest(limit, after.state) && Unsent(after) == Unsent(s) + chunk
  {
    var e := RateLimiting.Event.Send(now, chunk, []);
    var o := Submit(limit, s.state, chunk, now, []);
    EffectConserves(limit, s.state, e);
    EffectKeeps(limit, s.state, e);
    FlattenAppend(s.wire, o.sent);
    assert Offered(limit, s.state, e) == chunk;
    Regroup(Flatten(s.wire), Flatten(o.sent), Flatten(o.state.queue), Flatten(s.state.queue), chunk, []);
  }

  const NO_LIMIT: Limit := Setting(true, 25.0, 0)

  // ---------- The socket object ----------

  /** All that the processing loop does from a state, with or without a chunk in hand. */
  function Finish(p: Parser, hasChunk: bool): Parsed
    requires p.Valid()
  {
    if hasChunk && p.Stuck() then Parsed([[]], START) else Drain(p)
  }

  lemma ReceivedAllAppend(cipher: Option<Cipher>, a: seq<Chunk>, b: seq<Chunk>)
    ensures ReceivedAll(cipher, a + b) == ReceivedAll(cipher, a) + ReceivedAll(cipher, b)
  {
  }

  /** Where a processing loop ends that has emitted `events` and come to state `p`. */
  datatype ReadEnd = ReadEnd(events: seq<Event>, parser: Parser)

  function EndOfRead(cipher: Option<Cipher>, events: seq<Event>, p: Parser, hasChunk: bool): ReadEnd
    requires p.Valid()
  {
    var r := Finish(p, hasChunk);
    ReadEnd(events + ReceivedAll(cipher, r.frames), r.parser)
  }

  lemma EndOfReadStep(cipher: Option<Cipher>, events: seq<Event>, p: Parser, hasMore: bool)
    requires p.Valid() && |p.rest| >= p.need
    requires hasMore ==> !Advance(p).parser.Stuck()
    ensures EndOfRead(cipher, events, p, true)
            == EndOfRead(cipher, events + ReceivedAll(cipher, Advance(p).frames), Advance(p).parser, hasMore)
  {
    var next := Advance(p);
    var rest := Finish(next.parser, hasMore);
    assert Finish(p, true) == Then(next, rest);
    ReceivedAllAppend(cipher, next.frames, rest.frames);
    Assoc(events, ReceivedAll(cipher, next.frames), ReceivedAll(cipher, rest.frames));
  }

  lemma FinishedEnd(cipher: Option<Cipher>, events: seq<Event>, p: Parser)
    requires p.Valid() && Blocked(p)
    ensures EndOfRead(cipher, events, p, false) == ReadEnd(events, p)
    ensures !p.Stuck() ==> EndOfRead(cipher, events, p, true) == ReadEnd(events, p)
  {
    assert ReceivedAll(cipher, []) == [] && events + [] == events;
  }

  lemma {:induction false} BytesAtTheEnd(chunks: seq<Chunk>)
    ensures chunks != [] && chunks[|chunks| - 1] != [] ==> Flatten(chunks) != []
  {
    if |chunks| > 1 {
      assert chunks[1..][|chunks| - 2] == chunks[|chunks| - 1];
      BytesAtTheEnd(chunks[1..]);
    }
  }

  lemma FromU32OfFront(chunk: Chunk, others: Chunk)
    ensures |chunk| >= 4 ==> FromU32(chunk + others) == FromU32(chunk)
  {
    if |chunk| >= 4 {
      FromU32Prefix(chunk, others);
    }
  }

  function WithoutFront(chunks: seq<Chunk>, size: nat): seq<Chunk>
    requires chunks != [] && |chunks[0]| >= size
  {
    if |chunks[0]| > size then [chunks[0][size..]] + chunks[1..] else chunks[1..]
  }

  lemma FrontTaken(chunks: seq<Chunk>, size: nat)
    requires chunks != [] && |chunks[0]| >= size
    ensures Flatten(chunks)[..size] == chunks[0][..size]
    ensures Flatten(WithoutFront(chunks, size)) == Flatten(chunks)[size..]
  {
    CutInFirst(chunks[0], Flatten(chunks[1..]), size);
    if |chunks[0]| > size {
      FlattenCons(chunks[0][size..], chunks[1..]);
    } else {
      assert chunks[0][size..] == [];
    }
  }

  lemma CutInFirst(first: Chunk, others: Chunk, size: nat)
    requires size <= |first|
    ensures (first + others)[..size] == first[..size] && (first + others)[size..] == first[size..] + others
  {
  }

  lemma SameEnd(chunks: seq<Chunk>, size: nat)
    requires chunks != [] && |chunks[0]| >= size
    ensures var left := WithoutFront(chunks, size);
      left != [] && chunks[|chunks| - 1] != [] ==> left[|left| - 1] != []
  {
  }

  class TransportSocket {
    const maximumChunkSize: nat
    const cipher: Option<Cipher>             // the only middleware there is
    const limiter: DataRateLimiter?
    var sizeToRead: nat
    var state: Phase
    var chunks: seq<Chunk>
    var chunksTotalSize: nat
    var events: seq<Event>                   // "buffer" and "error" events emitted so far
    var written: seq<Chunk>                  // arguments of the calls to options.write made without a limiter

    ghost function View(): Parser
      reads this
    {
      Parser(state, sizeToRead, Flatten(chunks))
    }

    ghost predicate Reading()
      reads this
    {
      && View().Valid()
      && chunksTotalSize == |Flatten(chunks)|
    }

    ghost predicate Valid()
      reads this, limiter
    {
      && maximumChunkSize > 0
      && Reading() && View().AtRest() && (View().Stuck() ==> chunks == [])
      && (limiter != null ==> limiter.Valid())
    }

    ghost function Limit(): Limit {
      if limiter == null then NO_LIMIT else limiter.limit
    }

    /** The limiter's sink is the options.write callback that is used without a limiter. */
    ghost function Outgoing(): Sending
      reads this, limiter
    {
      if limiter == null then Sending(FRESH.state, written) else Sending(limiter.View(), limiter.sent)
    }

    constructor (maximumChunkSize: nat, cipher: Option<Cipher>, bytesPerSecond: real)
      requires bytesPerSecond >= 0.0
      ensures Valid() && (limiter != null ==> fresh(limiter))
      ensures View() == START && events == [] && Outgoing() == Sending(FRESH.state, [])
      ensures this.cipher == cipher
      ensures this.maximumChunkSize == if maximumChunkSize == 0 then 131_072 else maximumChunkSize
      ensures Limit() == Configure(bytesPerSecond, 25.0)
    {
      this.maximumChunkSize := if maximumChunkSize == 0 then MAXIMUM_CHUNK_SIZE else maximumChunkSize;
      this.cipher := cipher;
      if bytesPerSecond != 0.0 {
        limiter := new DataRateLimiter(bytesPerSecond, 25.0);
      } else {
        limiter := null;
      }
      sizeToRead, state, chunks, chunksTotalSize := 4, ReadLength, [], 0;
      events, written := [], [];
    }

    method Close()
      requires Valid()
      modifies this, limiter
      ensures Valid() && View() == START && chunks == []
      ensures events == old(events)
      ensures Outgoing().wire == old(Outgoing().wire) && Outgoing().state.queue == []
    {
      sizeToRead := 4;
      state := ReadLength;
      chunks := [];
      chunksTotalSize := 0;
      if limiter != null {
        limiter.Clear();
      }
    }

    // ----- writing -----

    method WriteData(chunk: Chunk, now: Instant)
      requires Valid()
      modifies `written, limiter
      ensures Valid()
      ensures Outgoing() == WriteChunk(Limit(), old(Outgoing()), chunk, now)
    {
      if limiter != null {
        limiter.Send(chunk, now, []);
      } else {
        written := written + [chunk];
      }
    }

    /** Returns false where the source throws "Buffer too large". */
    method WriteBuffer(buffer: Chunk, nonce: nat, now: Instant) returns (accepted: bool)
      requires Valid()
      modifies `written, limiter
      ensures Valid()
      ensures accepted <==> |buffer| <= 268_435_456
      ensures !accepted ==> Outgoing() == old(Outgoing())
      ensures accepted ==>
        var pieces := Pieces(Sealed(cipher, nonce, buffer), maximumChunkSize);
        Outgoing() == WriteChunks(Limit(), old(Outgoing()), pieces, now)
    {
      if |buffer| > MAXIMUM_BUFFER_SIZE {
        return false;
      }
      accepted := true;
      LengthNeverOverflows(cipher, nonce, buffer);
      var payload := Sealed(cipher, nonce, buffer);
      ghost var pieces := Pieces(payload, maximumChunkSize);
      assert pieces[0] == U32(|payload|) && pieces[1..] == Split(payload, maximumChunkSize);
      WriteData(U32(|payload|), now);
      WritePayload(payload, now);
    }

    /** The second half of writeBuffer: the payload in one chunk, or cut up. */
    method WritePayload(payload: Chunk, now: Instant)
      requires Valid()
      modifies `written, limiter
      ensures Valid()
      ensures Outgoing() == WriteChunks(Limit(), old(Outgoing()), Split(payload, maximumChunkSize), now)
    {
      if |payload| > maximumChunkSize {
        WriteSlices(payload, now);
      } else {
        WriteOne(Limit(), Outgoing(), payload, now);
        WriteData(payload, now);
      }
    }

    method WriteSlices(payload: Chunk, now: Instant)
      requires Valid() && payload != []
      modifies `written, limiter
      ensures Valid()
      ensures Outgoing() == WriteChunks(Limit(), old(Outgoing()), Split(payload, maximumChunkSize), now)
    {
      ghost var whole := Finally(payload, 0, now);
      var i := 0;
      assert payload[0..] == payload;
      while i < |payload|
        invariant Valid() && whole == Finally(payload, i, now)
      {
        WriteSlice(payload, i, now);
        i := i + maximumChunkSize;
      }
    }

    /** What will have been sent once the slices from `i` on are. */
    ghost function Finally(payload: Chunk, i: nat, now: Instant): Sending
      requires maximumChunkSize > 0
      reads this, limiter
    {
      WriteChunks(Limit(), Outgoing(), Uncut(payload, i, maximumChunkSize), now)
    }

    method WriteSlice(payload: Chunk, i: nat, now: Instant)
      requires Valid() && i < |payload|
      modifies `written, limiter
      ensures Valid()
      ensures Finally(payload, i + maximumChunkSize, now) == old(Finally(payload, i, now))
    {
      var end := if i + maximumChunkSize < |payload| then i + maximumChunkSize else |payload|;
      ghost var before := Outgoing();
      WriteData(payload[i..end], now);
      UncutWrites(Limit(), before, Outgoing(), payload, i, maximumChunkSize, now);
    }

    // ----- reading -----

    method PushBuffer(frame: Chunk)
      modifies `events
      ensures events == old(events) + [Received(cipher, frame)]
    {
      events := events + [Received(cipher, frame)];
    }

    /** A chunk arrives. Returns true where the source throws on a missing chunks[0]. */
    method HandleOnData(chunk: Chunk) returns (threw: bool)
      requires Valid()
      modifies `sizeToRead, `state, `chunks, `chunksTotalSize, `events
      ensures Valid()
      ensures var r := Feed(old(View()), chunk);
        && View() == r.parser && events == old(events) + ReceivedAll(cipher, r.frames)
        && (threw <==> r.parser.Stuck())
    {
      FlattenSnoc(chunks, chunk);
      chunks := chunks + [chunk];
      chunksTotalSize := chunksTotalSize + |chunk|;
      threw := ProcessData();
    }

    ghost predicate EndsInBytes()
      reads this
    {
      chunks != [] ==> chunks[|chunks| - 1] != []
    }

    method ProcessData() returns (threw: bool)
      requires Reading()
      requires Tidy()
      modifies `sizeToRead, `state, `chunks, `chunksTotalSize, `events
      ensures Reading() && View().AtRest() && (View().Stuck() ==> chunks == [])
      ensures var r := Finish(old(View()), old(chunks) != []);
        && View() == r.parser && events == old(events) + ReceivedAll(cipher, r.frames)
        && (threw <==> r.parser.Stuck())
    {
      threw := false;
      ghost var end := Ending();
      while chunksTotalSize >= sizeToRead
        invariant Reading() && Tidy() && end == Ending()
        decreases chunksTotalSize, state.ReadBuffer?
      {
        GatherFront();
        if chunks == [] {
          // chunks[0] is undefined: reading its length throws
          FinishedEnd(cipher, events, View());
          return true;
        }
        Take();
      }
      FinishedEnd(cipher, events, View());
    }

    /** What the loop will have done by its end. */
    ghost function Ending(): ReadEnd
      requires View().Valid()
      reads this
    {
      EndOfRead(cipher, events, View(), chunks != [])
    }

    ghost predicate Tidy()
      reads this
    {
      EndsInBytes() || chunksTotalSize < sizeToRead || View().Stuck()
    }

    method Take()
      requires Reading() && Tidy() && chunksTotalSize >= sizeToRead
      requires chunks != [] && |chunks[0]| >= sizeToRead
      modifies `sizeToRead, `state, `chunks, `chunksTotalSize, `events
      ensures Reading() && Tidy() && Ending() == old(Ending())
      ensures chunksTotalSize < old(chunksTotalSize) ||
              (chunksTotalSize == old(chunksTotalSize) && old(state).ReadBuffer? && state.ReadLength?)
    {
      ghost var before, emitted := View(), events;
      Turn();
      BytesAtTheEnd(chunks);
      EndOfReadStep(cipher, emitted, before, chunks != []);
    }

    /** The rest of the loop body: the state's own action on the first chunk, then its removal. */
    method Turn()
      requires Reading() && chunksTotalSize >= sizeToRead
      requires chunks != [] && |chunks[0]| >= sizeToRead
      requires EndsInBytes() || View().Stuck()
      modifies `sizeToRead, `state, `chunks, `chunksTotalSize, `events
      ensures Reading()
      ensures EndsInBytes() || chunksTotalSize < sizeToRead
      ensures var r := Advance(old(View()));
        View() == r.parser && events == old(events) + ReceivedAll(cipher, r.frames)
    {
      var chunk := chunks[0];
      var nextSizeToRead: nat;
      FromU32OfFront(chunk, Flatten(chunks[1..]));
      FrontTaken(chunks, sizeToRead);
      SameEnd(chunks, sizeToRead);
      match state {
        case ReadLength =>
          nextSizeToRead := FromU32(chunk);
          state := ReadBuffer;
        case ReadBuffer =>
          PushBuffer(if |chunk| > sizeToRead then chunk[..sizeToRead] else chunk);
          nextSizeToRead := 4;
          state := ReadLength;
      }
      if |chunk| > sizeToRead {
        chunks := [chunk[sizeToRead..]] + chunks[1..];
      } else {
        chunks := chunks[1..];
      }
      chunksTotalSize := chunksTotalSize - sizeToRead;
      sizeToRead := nextSizeToRead;
    }

    /** Joins as many leading chunks as the next read needs. */
    method GatherFront()
      requires Reading() && chunksTotalSize >= sizeToRead
      modifies `chunks
      ensures Flatten(chunks) == old(Flatten(chunks))
      ensures old(EndsInBytes()) ==> EndsInBytes()
      ensures chunks == [] <==> old(chunks) == []
      ensures chunks != [] ==> |chunks[0]| >= sizeToRead
    {
      var amount, size := 0, 0;
      assert chunks[..0] == [] && chunks[..|chunks|] == chunks;
      while size < sizeToRead
        invariant chunks == old(chunks)
        invariant 0 <= amount <= |chunks| && size == |Flatten(chunks[..amount])|
        invariant amount == 0 ==> size == 0
        invariant amount > 0 ==> sizeToRead > 0
        invariant amount == 1 ==> size == |chunks[0]|
        decreases |chunks| - amount
      {
        assert chunks[..amount + 1] == chunks[..amount] + [chunks[amount]];
        FlattenSnoc(chunks[..amount], chunks[amount]);
        size := size + |chunks[amount]|;
        amount := amount + 1;
      }
      if amount > 1 {
        assert chunks == chunks[..amount] + chunks[amount..];
        FlattenAppend(chunks[..amount], chunks[amount..]);
        chunks := [Flatten(chunks[..amount])] + chunks[amount..];
      }
    }
  }

  /** The chunks still to be written once the loop variable has reached `i`. */
  function Uncut(payload: Chunk, i: nat, max: nat): seq<Chunk>
    requires max > 0
  {
    if i < |payload| then Split(payload[i..], max) else []
  }

  lemma UncutStep(payload: Chunk, i: nat, max: nat)
    requires max > 0 && i < |payload|
    ensures var end := if i + max < |payload| then i + max else |payload|;
      Uncut(payload, i, max) == [payload[i..end]] + Uncut(payload, i + max, max)
  {
    if i + max < |payload| {
      assert payload[i..][..max] == payload[i..i + max];
      assert payload[i..][max..] == payload[i + max..];
    } else {
      assert payload[i..] == payload[i..|payload|];
      assert Split(payload[i..], max) == [payload[i..]];
      assert Uncut(payload, i + max, max) == [];
    }
  }

  lemma UncutWrites(limit: Limit, before: Sending, after: Sending, payload: Chunk, i: nat, max: nat, now: Instant)
    requires max > 0 && i < |payload|
    requires after == WriteChunk(limit, before, payload[i..if i + max < |payload| then i + max else |payload|], now)
    ensures WriteChunks(limit, before, Uncut(payload, i, max), now)
            == WriteChunks(limit, after, Uncut(payload, i + max, max), now)
  {
    UncutStep(payload, i, max);
  }
}
