/** The encrypting connection: records of at most 4096 bytes over a byte stream, a byte stream again on top,
    and the length-prefixed messages that are read from it with one Read each. */
module CipherConns {
  import opened Bytes
  import opened Sealing

  const MAX_MSG_LEN: nat := 4096
  const MSG_HEADER_LEN: nat := 2
  const MAX_CHUNK_LEN: nat := MAX_MSG_LEN - OVERHEAD - MSG_HEADER_LEN

  // ---------- Records ----------

  /** The plain chunks that one Write seals: none for an empty buffer. */
  function ChunksOf(b: Chunk): (r: seq<Chunk>)
    ensures forall i :: 0 <= i < |r| ==> 0 < |r[i]| <= MAX_CHUNK_LEN
    ensures Flatten(r) == b
    decreases |b|
  {
    if b == [] then []
    else if |b| <= MAX_CHUNK_LEN then FlattenOne(b); [b]
    else [b[..MAX_CHUNK_LEN]] + ChunksOf(b[MAX_CHUNK_LEN..])
  }

  function Record(cipher: Cipher, nonce: nat, chunk: Chunk): Chunk
    requires |chunk| <= MAX_CHUNK_LEN
  {
    U16(|cipher.seal(nonce, chunk)|) + cipher.seal(nonce, chunk)
  }

  /** A record's length fits its header and the record its maximum. */
  lemma RecordFits(cipher: Cipher, nonce: nat, chunk: Chunk)
    requires |chunk| <= MAX_CHUNK_LEN
    ensures |cipher.seal(nonce, chunk)| <= 4094 && |Record(cipher, nonce, chunk)| <= MAX_MSG_LEN
    ensures |Record(cipher, nonce, chunk)| == |chunk| + OVERHEAD + MSG_HEADER_LEN
  {
  }

  /** The records of a list of chunks; `nonces` are the random draws of this Write. */
  function Records(cipher: Cipher, nonces: nat -> nat, chunks: seq<Chunk>, first: nat): Chunk
    requires forall i :: 0 <= i < |chunks| ==> |chunks[i]| <= MAX_CHUNK_LEN
    decreases |chunks|
  {
    if chunks == [] then []
    else Record(cipher, nonces(first), chunks[0]) + Records(cipher, nonces, chunks[1..], first + 1)
  }

  function RecordList(cipher: Cipher, nonces: nat -> nat, chunks: seq<Chunk>, first: nat): seq<Chunk>
    requires forall i :: 0 <= i < |chunks| ==> |chunks[i]| <= MAX_CHUNK_LEN
  {
    seq(|chunks|, i requires 0 <= i < |chunks| => Record(cipher, nonces(first + i), chunks[i]))
  }

  /** Every record is sealed with a draw of its own. */
  lemma {:induction false} RecordsAreDrawn(cipher: Cipher, nonces: nat -> nat, chunks: seq<Chunk>, first: nat)
    requires forall i :: 0 <= i < |chunks| ==> |chunks[i]| <= MAX_CHUNK_LEN
    ensures Records(cipher, nonces, chunks, first) == Flatten(RecordList(cipher, nonces, chunks, first))
    decreases |chunks|
  {
    if chunks != [] {
      RecordsAreDrawn(cipher, nonces, chunks[1..], first + 1);
      RecordListStep(cipher, nonces, chunks, first);
    }
  }

  lemma RecordListStep(cipher: Cipher, nonces: nat -> nat, chunks: seq<Chunk>, first: nat)
    requires chunks != [] && forall i :: 0 <= i < |chunks| ==> |chunks[i]| <= MAX_CHUNK_LEN
    ensures var all := RecordList(cipher, nonces, chunks, first);
      && all[0] == Record(cipher, nonces(first), chunks[0])
      && all[1..] == RecordList(cipher, nonces, chunks[1..], first + 1)
  {
  }

  datatype Taken = Waiting | Bad(rest: Chunk) | Plain(chunk: Chunk, rest: Chunk)

  /** Reading one record off the wire: it waits for the missing bytes of a record that is not all there yet. */
  function TakeRecord(cipher: Cipher, wire: Chunk): Taken {
    if |wire| < MSG_HEADER_LEN || |wire| < MSG_HEADER_LEN + FromU16(wire) then Waiting
    else
      var end := MSG_HEADER_LEN + FromU16(wire);
      match cipher.open(wire[MSG_HEADER_LEN..end])
      case None => Bad(wire[end..])
      case Some(chunk) => Plain(chunk, wire[end..])
  }

  lemma TakeWhatWasSealed(cipher: Cipher, nonce: nat, chunk: Chunk, rest: Chunk)
    requires |chunk| <= MAX_CHUNK_LEN
    ensures TakeRecord(cipher, Record(cipher, nonce, chunk) + rest) == Plain(chunk, rest)
  {
    var sealed := cipher.seal(nonce, chunk);
    var wire := Record(cipher, nonce, chunk) + rest;
    assert FromU16(wire) == |sealed|;
    assert wire[MSG_HEADER_LEN..MSG_HEADER_LEN + |sealed|] == sealed;
  }

  /** All the plain chunks on a wire, if it is a whole number of good records. */
  function Unwrap(cipher: Cipher, wire: Chunk): Option<seq<Chunk>>
    decreases |wire|
  {
    if wire == [] then Some([])
    else
      match TakeRecord(cipher, wire)
      case Plain(chunk, rest) => Ahead(chunk, Unwrap(cipher, rest))
      case _ => None
  }

  function Ahead(chunk: Chunk, others: Option<seq<Chunk>>): Option<seq<Chunk>> {
    match others
    case Some(chunks) => Some([chunk] + chunks)
    case None => None
  }

  lemma UnwrapOne(cipher: Cipher, wire: Chunk)
    requires TakeRecord(cipher, wire).Plain?
    ensures Unwrap(cipher, wire) == Ahead(TakeRecord(cipher, wire).chunk, Unwrap(cipher, TakeRecord(cipher, wire).rest))
  {
  }

  lemma {:induction false} UnwrapRecords(cipher: Cipher, nonces: nat -> nat, chunks: seq<Chunk>, first: nat)
    requires forall i :: 0 <= i < |chunks| ==> |chunks[i]| <= MAX_CHUNK_LEN
    ensures Unwrap(cipher, Records(cipher, nonces, chunks, first)) == Some(chunks)
    decreases |chunks|
  {
    if chunks != [] {
      TakeWhatWasSealed(cipher, nonces(first), chunks[0], Records(cipher, nonces, chunks[1..], first + 1));
      UnwrapOne(cipher, Records(cipher, nonces, chunks, first));
      assert [chunks[0]] + chunks[1..] == chunks;
      UnwrapRecords(cipher, nonces, chunks[1..], first + 1);
    }
  }

  lemma TakeKeepsMore(cipher: Cipher, wire: Chunk, more: Chunk)
    requires TakeRecord(cipher, wire).Plain?
    ensures var t := TakeRecord(cipher, wire); TakeRecord(cipher, wire + more) == Plain(t.chunk, t.rest + more)
  {
    var end := MSG_HEADER_LEN + FromU16(wire);
    assert (wire + more)[MSG_HEADER_LEN..end] == wire[MSG_HEADER_LEN..end];
    assert (wire + more)[end..] == wire[end..] + more;
  }

  lemma {:induction false} UnwrapAppend(cipher: Cipher, wire: Chunk, more: Chunk)
    requires Unwrap(cipher, wire).Some? && Unwrap(cipher, more).Some?
    ensures Unwrap(cipher, wire + more) == Some(Unwrap(cipher, wire).value + Unwrap(cipher, more).value)
    decreases |wire|
  {
    if wire == [] {
      assert wire + more == more;
      assert [] + Unwrap(cipher, more).value == Unwrap(cipher, more).value;
    } else {
      TakeKeepsMore(cipher, wire, more);
      UnwrapOne(cipher, wire);
      UnwrapOne(cipher, wire + more);
      var t := TakeRecord(cipher, wire);
      UnwrapAppend(cipher, t.rest, more);
      Assoc([t.chunk], Unwrap(cipher, t.rest).value, Unwrap(cipher, more).value);
    }
  }

  // ---------- One direction of a connection ----------

  /** `written` and `read` are histories: what was given to Write and what Reads have returned. */
  datatype Pipe = Pipe(written: Chunk, wire: Chunk, readBuf: Chunk, read: Chunk)

  datatype ReadResult = Read(data: Chunk, wire: Chunk, readBuf: Chunk) | Blocked | Broken(wire: Chunk)

  function Cut(buffered: Chunk, size: nat, wire: Chunk): ReadResult {
    var n := if size < |buffered| then size else |buffered|;
    Read(buffered[..n], wire, buffered[n..])
  }

  function ReadFrom(cipher: Cipher, wire: Chunk, readBuf: Chunk, size: nat): ReadResult {
    if readBuf != [] then Cut(readBuf, size, wire)
    else
      match TakeRecord(cipher, wire)
      case Waiting => Blocked
      case Bad(rest) => Broken(rest)
      case Plain(chunk, rest) => Cut(chunk, size, rest)
  }

  datatype Event = Write(b: Chunk, nonces: nat -> nat) | ReadUpTo(size: nat)

  function Step(cipher: Cipher, p: Pipe, e: Event): Pipe {
    match e
    case Write(b, nonces) => p.(written := p.written + b, wire := p.wire + Records(cipher, nonces, ChunksOf(b), 0))
    case ReadUpTo(size) =>
      match ReadFrom(cipher, p.wire, p.readBuf, size)
      case Read(data, wire, readBuf) => p.(wire := wire, readBuf := readBuf, read := p.read + data)
      case Blocked => p
      case Broken(wire) => p.(wire := wire)
  }

  function Run(cipher: Cipher, events: seq<Event>): Pipe {
    if events == [] then Pipe([], [], [], [])
    else Step(cipher, Run(cipher, events[..|events| - 1]), events[|events| - 1])
  }

  ghost predicate Transparent(cipher: Cipher, p: Pipe)
  {
    && Unwrap(cipher, p.wire).Some?
    && [] !in Unwrap(cipher, p.wire).value
    && p.written == p.read + p.readBuf + Flatten(Unwrap(cipher, p.wire).value)
  }

  lemma WriteTransparent(cipher: Cipher, p: Pipe, b: Chunk, nonces: nat -> nat)
    requires Transparent(cipher, p)
    ensures Transparent(cipher, Step(cipher, p, Write(b, nonces)))
  {
    var pending := Unwrap(cipher, p.wire).value;
    var chunks := ChunksOf(b);
    UnwrapRecords(cipher, nonces, chunks, 0);
    UnwrapAppend(cipher, p.wire, Records(cipher, nonces, chunks, 0));
    FlattenAppend(pending, chunks);
    StillTransparent(cipher, p, p.wire + Records(cipher, nonces, chunks, 0), b, pending, chunks);
  }

  lemma StillTransparent(cipher: Cipher, p: Pipe, wire: Chunk, b: Chunk, pending: seq<Chunk>, chunks: seq<Chunk>)
    requires Transparent(cipher, p) && pending == Unwrap(cipher, p.wire).value
    requires Unwrap(cipher, wire) == Some(pending + chunks) && [] !in chunks
    requires Flatten(pending + chunks) == Flatten(pending) + b
    ensures Transparent(cipher, p.(written := p.written + b, wire := wire))
  {
    Assoc(p.read + p.readBuf, Flatten(pending), b);
  }

  lemma ReadTransparent(cipher: Cipher, p: Pipe, size: nat)
    requires Transparent(cipher, p)
    ensures Transparent(cipher, Step(cipher, p, ReadUpTo(size)))
  {
    var r := ReadFrom(cipher, p.wire, p.readBuf, size);
    if r.Read? {
      var pending := Unwrap(cipher, p.wire).value;
      if p.readBuf == [] {
        RecordTransparent(cipher, p, size);
      } else {
        CutKeeps(p.readBuf, size, p.wire);
        Shift(p.read, r.data, r.readBuf, Flatten(pending));
      }
    }
  }

  lemma RecordTransparent(cipher: Cipher, p: Pipe, size: nat)
    requires Transparent(cipher, p) && p.readBuf == [] && ReadFrom(cipher, p.wire, [], size).Read?
    ensures Transparent(cipher, Step(cipher, p, ReadUpTo(size)))
  {
    var r := ReadFrom(cipher, p.wire, [], size);
    UnwrapOne(cipher, p.wire);
    var first := TakeRecord(cipher, p.wire).chunk;
    var others := Unwrap(cipher, r.wire).value;
    assert Unwrap(cipher, p.wire).value[1..] == others;
    FlattenOneMore(first, others);
    CutKeeps(first, size, r.wire);
    Shift(p.read, r.data, r.readBuf, Flatten(others));
    Assoc(p.read + [], first, Flatten(others));
    assert p.read + [] == p.read;
  }

  lemma FlattenOneMore(first: Chunk, others: seq<Chunk>)
    ensures Flatten([first] + others) == first + Flatten(others)
  {
    assert ([first] + others)[1..] == others;
  }

  lemma CutKeeps(buffered: Chunk, size: nat, wire: Chunk)
    ensures var r := Cut(buffered, size, wire); r.data + r.readBuf == buffered && r.wire == wire
  {
  }

  lemma Shift(read: Chunk, data: Chunk, left: Chunk, later: Chunk)
    ensures read + (data + left) + later == read + data + left + later
  {
    Assoc(read, data, left);
  }

  /** What a run has written is what its Writes were given. */
  function WrittenIn(events: seq<Event>): Chunk {
    if events == [] then []
    else
      var e := events[|events| - 1];
      WrittenIn(events[..|events| - 1]) + if e.Write? then e.b else []
  }

  lemma {:induction false} WrittenIsGiven(cipher: Cipher, events: seq<Event>)
    ensures Run(cipher, events).written == WrittenIn(events)
  {
    if events != [] {
      WrittenIsGiven(cipher, events[..|events| - 1]);
      assert WrittenIn(events[..|events| - 1]) + [] == WrittenIn(events[..|events| - 1]);
    }
  }

  /** The connection is a transparent byte stream, for any interleaving of writes and reads of any sizes: what was
      read, what is buffered and what is still sealed on the wire are together what was written. */
  lemma {:induction false} CipherConnIsTransparent(cipher: Cipher, events: seq<Event>)
    ensures Transparent(cipher, Run(cipher, events))
  {
    if events != [] {
      CipherConnIsTransparent(cipher, events[..|events| - 1]);
      var p := Run(cipher, events[..|events| - 1]);
      match events[|events| - 1]
      case Write(b, nonces) => WriteTransparent(cipher, p, b, nonces);
      case ReadUpTo(size) => ReadTransparent(cipher, p, size);
    }
  }

  /** A Read with room for a byte gets at least one whenever not everything has been read, it gets less than it has room
      for only if it uses up a record, and it never meets a bad record. */
  lemma ReadsMakeProgress(cipher: Cipher, events: seq<Event>, size: nat)
    ensures var p := Run(cipher, events); var r := ReadFrom(cipher, p.wire, p.readBuf, size);
      && !r.Broken?
      && (r.Blocked? <==> p.read == p.written)
      && (r.Read? && size > 0 ==> |r.data| > 0 && |r.data| <= size)
      && (r.Read? && |r.data| < size ==> r.readBuf == [])
  {
    CipherConnIsTransparent(cipher, events);
    var p := Run(cipher, events);
    var pending := Unwrap(cipher, p.wire).value;
    if p.readBuf == [] && p.wire != [] {
      assert Flatten(pending) == pending[0] + Flatten(pending[1..]);
      assert pending[0] != [];
    }
  }

  // ---------- Messages ----------

  /** Each outcome comes with what is then left on the wire and in the buffer. */
  datatype MsgResult =
    | Msg(body: Chunk, wire: Chunk, readBuf: Chunk)
    | MsgWaiting(wire: Chunk, readBuf: Chunk)
    | MsgFailed(wire: Chunk, readBuf: Chunk)

  /** ReadMsg: one Read for the length and one for the body, each of which must fill its buffer. MsgWaiting is a call
      that blocks until more bytes arrive, perhaps with the length already taken. */
  function ReadMsgFrom(cipher: Cipher, wire: Chunk, readBuf: Chunk): MsgResult {
    match ReadFrom(cipher, wire, readBuf, 4)
    case Read(header, wire1, readBuf1) =>
      if |header| != 4 then MsgFailed(wire1, readBuf1) else ReadBodyFrom(cipher, wire1, readBuf1, FromU32(header))
    case Blocked => MsgWaiting(wire, readBuf)
    case Broken(wire1) => MsgFailed(wire1, readBuf)
  }

  function ReadBodyFrom(cipher: Cipher, wire: Chunk, readBuf: Chunk, length: nat): MsgResult {
    match ReadFrom(cipher, wire, readBuf, length)
    case Read(body, wire1, readBuf1) =>
      if |body| != length then MsgFailed(wire1, readBuf1) else Msg(body, wire1, readBuf1)
    case Blocked => MsgWaiting(wire, readBuf)
    case Broken(wire1) => MsgFailed(wire1, readBuf)
  }

  /** What WriteMsg puts on the wire: the length and the body in Writes of their own. */
  function MsgWire(cipher: Cipher, nonces: (nat -> nat, nat -> nat), body: Chunk): Chunk
    requires |body| < 0x1_0000_0000
  {
    Records(cipher, nonces.0, ChunksOf(U32(|body|)), 0) + Records(cipher, nonces.1, ChunksOf(body), 0)
  }

  lemma ReadHeader(cipher: Cipher, nonces: (nat -> nat, nat -> nat), body: Chunk, after: Chunk)
    requires |body| < 0x1_0000_0000
    ensures ReadFrom(cipher, MsgWire(cipher, nonces, body) + after, [], 4)
            == Read(U32(|body|), Records(cipher, nonces.1, ChunksOf(body), 0) + after, [])
  {
    var header := U32(|body|);
    var rest := Records(cipher, nonces.1, ChunksOf(body), 0);
    assert ChunksOf(header) == [header];
    assert Records(cipher, nonces.0, [header], 0)
        == Record(cipher, nonces.0(0), header) + Records(cipher, nonces.0, [header][1..], 1);
    assert MsgWire(cipher, nonces, body) + after == Record(cipher, nonces.0(0), header) + (rest + after);
    TakeWhatWasSealed(cipher, nonces.0(0), header, rest + after);
    assert header[..4] == header && header[4..] == [];
  }

  lemma ShortBodyIsRead(cipher: Cipher, nonces: (nat -> nat, nat -> nat), body: Chunk, after: Chunk)
    requires 1 <= |body| <= MAX_CHUNK_LEN
    ensures ReadMsgFrom(cipher, MsgWire(cipher, nonces, body) + after, []) == Msg(body, after, [])
  {
    ReadHeader(cipher, nonces, body, after);
    assert ChunksOf(body) == [body];
    assert Records(cipher, nonces.1, [body], 0)
        == Record(cipher, nonces.1(0), body) + Records(cipher, nonces.1, [body][1..], 1);
    assert Records(cipher, nonces.1, [body], 0) + after == Record(cipher, nonces.1(0), body) + after;
    TakeWhatWasSealed(cipher, nonces.1(0), body, after);
    assert body[..|body|] == body && body[|body|..] == [];
  }

  /** A body of several records does not fill the buffer of the second Read. */
  lemma LongBodyFails(cipher: Cipher, nonces: (nat -> nat, nat -> nat), body: Chunk, after: Chunk)
    requires MAX_CHUNK_LEN < |body| < 0x1_0000_0000
    ensures ReadMsgFrom(cipher, MsgWire(cipher, nonces, body) + after, []).MsgFailed?
  {
    ReadHeader(cipher, nonces, body, after);
    var first := ChunksOf(body)[0];
    var others := Records(cipher, nonces.1, ChunksOf(body)[1..], 1);
    Assoc(Record(cipher, nonces.1(0), first), others, after);
    TakeWhatWasSealed(cipher, nonces.1(0), first, others + after);
  }

  /** With an empty body no record follows the length, so the second Read takes up what comes next, or waits. */
  lemma EmptyBodyTakesTheNext(cipher: Cipher, nonces: (nat -> nat, nat -> nat), after: Chunk)
    ensures ReadMsgFrom(cipher, MsgWire(cipher, nonces, []) + after, []) != Msg([], after, [])
  {
    ReadHeader(cipher, nonces, [], after);
    assert Records(cipher, nonces.1, ChunksOf([]), 0) + after == after;
    if TakeRecord(cipher, after).Plain? {
      assert |TakeRecord(cipher, after).rest| < |after|;
    }
  }

  /** Frame alignment: a message is read back whole, leaving nothing buffered and the wire at the next byte, exactly
      when its body has between 1 and 4066 bytes. */
  lemma MessageReadBack(cipher: Cipher, nonces: (nat -> nat, nat -> nat), body: Chunk, after: Chunk)
    requires |body| < 0x1_0000_0000
    ensures ReadMsgFrom(cipher, MsgWire(cipher, nonces, body) + after, []) == Msg(body, after, [])
            <==> 1 <= |body| <= 4066
  {
    if body == [] {
      EmptyBodyTakesTheNext(cipher, nonces, after);
    } else if |body| <= MAX_CHUNK_LEN {
      ShortBodyIsRead(cipher, nonces, body, after);
    } else {
      LongBodyFails(cipher, nonces, body, after);
    }
  }

  function MsgsWire(cipher: Cipher, nonces: nat -> (nat -> nat, nat -> nat), bodies: seq<Chunk>, first: nat): Chunk
    requires forall i :: 0 <= i < |bodies| ==> |bodies[i]| < 0x1_0000_0000
    decreases |bodies|
  {
    if bodies == [] then []
    else MsgWire(cipher, nonces(first), bodies[0]) + MsgsWire(cipher, nonces, bodies[1..], first + 1)
  }

  datatype Msgs = Msgs(bodies: seq<Chunk>, wire: Chunk, readBuf: Chunk) | MsgsFailed

  function Following(body: Chunk, others: Msgs): Msgs {
    match others
    case Msgs(bodies, wire, readBuf) => Msgs([body] + bodies, wire, readBuf)
    case MsgsFailed => MsgsFailed
  }

  function ReadMsgs(cipher: Cipher, wire: Chunk, readBuf: Chunk, count: nat): Msgs
    decreases count
  {
    if count == 0 then Msgs([], wire, readBuf)
    else
      match ReadMsgFrom(cipher, wire, readBuf)
      case Msg(body, wire1, readBuf1) => Following(body, ReadMsgs(cipher, wire1, readBuf1, count - 1))
      case _ => MsgsFailed
  }

  lemma ReadOneMore(cipher: Cipher, wire: Chunk, readBuf: Chunk, count: nat)
    requires count > 0 && ReadMsgFrom(cipher, wire, readBuf).Msg?
    ensures var m := ReadMsgFrom(cipher, wire, readBuf);
      ReadMsgs(cipher, wire, readBuf, count) == Following(m.body, ReadMsgs(cipher, m.wire, m.readBuf, count - 1))
  {
  }

  /** Any sequence of messages of 1 to 4066 bytes is read back by as many ReadMsg calls, and the next protocol on the
      connection starts on its own first byte. */
  lemma {:induction false} MessagesReadBack(cipher: Cipher, nonces: nat -> (nat -> nat, nat -> nat), bodies: seq<Chunk>,
                                            first: nat, after: Chunk)
    requires forall i :: 0 <= i < |bodies| ==> 1 <= |bodies[i]| <= MAX_CHUNK_LEN
    ensures ReadMsgs(cipher, MsgsWire(cipher, nonces, bodies, first) + after, [], |bodies|) == Msgs(bodies, after, [])
    decreases |bodies|
  {
    if bodies == [] {
      assert MsgsWire(cipher, nonces, bodies, first) + after == after;
    } else {
      var rest := MsgsWire(cipher, nonces, bodies[1..], first + 1) + after;
      MessageReadBack(cipher, nonces(first), bodies[0], rest);
      assert MsgsWire(cipher, nonces, bodies, first) + after == MsgWire(cipher, nonces(first), bodies[0]) + rest;
      MessagesReadBack(cipher, nonces, bodies[1..], first + 1, after);
      ReadOneMore(cipher, MsgsWire(cipher, nonces, bodies, first) + after, [], |bodies|);
      assert [bodies[0]] + bodies[1..] == bodies;
    }
  }

  // ---------- The connection object ----------

  class CipherAesGcmConn {
    const cipher: Cipher
    var readBuf: Chunk
    var incoming: Chunk     // bytes the underlying connection holds for this end
    var outgoing: Chunk     // bytes written to the underlying connection

    constructor (cipher: Cipher)
      ensures this.cipher == cipher && readBuf == [] && incoming == [] && outgoing == []
    {
      this.cipher := cipher;
      readBuf, incoming, outgoing := [], [], [];
    }

    method WriteRecord(chunk: Chunk, nonce: nat)
      requires |chunk| <= MAX_CHUNK_LEN
      modifies `outgoing
      ensures outgoing == old(outgoing) + Record(cipher, nonce, chunk)
    {
      var encrypted := cipher.seal(nonce, chunk);
      outgoing := outgoing + U16(|encrypted|);
      outgoing := outgoing + encrypted;
    }

    method Write(b: Chunk, nonces: nat -> nat) returns (n: nat)
      modifies `outgoing
      ensures n == |b| && outgoing == old(outgoing) + Records(cipher, nonces, ChunksOf(b), 0)
    {
      n := 0;
      var i, count := 0, 0;
      ghost var whole := Sealed(cipher, nonces, outgoing, ChunksOf(b), 0);
      SealedAppends(cipher, nonces, outgoing, ChunksOf(b), 0);
      assert b[0..] == b;
      while i < |b|
        invariant n == if i < |b| then i else |b|
        invariant whole == Sealed(cipher, nonces, outgoing, Remaining(b, i), count)
      {
        var end := if i + MAX_CHUNK_LEN < |b| then i + MAX_CHUNK_LEN else |b|;
        NextChunk(b, i);
        WriteRecord(b[i..end], nonces(count));
        n := n + |b[i..end]|;
        count := count + 1;
        i := i + MAX_CHUNK_LEN;
      }
    }

    method ReadInto(size: nat) returns (r: ReadResult)
      modifies `readBuf, `incoming
      ensures r == ReadFrom(cipher, old(incoming), old(readBuf), size)
      ensures r.Read? ==> incoming == r.wire && readBuf == r.readBuf
      ensures r.Blocked? ==> incoming == old(incoming) && readBuf == old(readBuf)
      ensures r.Broken? ==> incoming == r.wire && readBuf == old(readBuf)
    {
      if readBuf != [] {
        var n := if size < |readBuf| then size else |readBuf|;
        r := Read(readBuf[..n], incoming, readBuf[n..]);
        readBuf := readBuf[n..];
        return;
      }
      if |incoming| < MSG_HEADER_LEN {
        return Blocked;
      }
      var chunkLen := FromU16(incoming);
      if |incoming| < MSG_HEADER_LEN + chunkLen {
        return Blocked;
      }
      var plain := cipher.open(incoming[MSG_HEADER_LEN..MSG_HEADER_LEN + chunkLen]);
      incoming := incoming[MSG_HEADER_LEN + chunkLen..];
      match plain {
        case None => return Broken(incoming);
        case Some(buf) =>
          readBuf := readBuf + buf;
          assert readBuf == buf;
          var n := if size < |readBuf| then size else |readBuf|;
          r := Read(readBuf[..n], incoming, readBuf[n..]);
          readBuf := readBuf[n..];
      }
    }

    method WriteMsg(body: Chunk, nonces: (nat -> nat, nat -> nat)) returns (ok: bool)
      requires |body| < 0x1_0000_0000
      modifies `outgoing
      ensures ok && outgoing == old(outgoing) + MsgWire(cipher, nonces, body)
    {
      var n := Write(U32(|body|), nonces.0);
      if n != 4 {
        return false;
      }
      n := Write(body, nonces.1);
      ok := n == |body|;
    }

    method ReadMsg() returns (r: MsgResult)
      modifies `readBuf, `incoming
      ensures r == ReadMsgFrom(cipher, old(incoming), old(readBuf))
      ensures incoming == r.wire && readBuf == r.readBuf
    {
      var header := ReadInto(4);
      if !header.Read? {
        return if header.Blocked? then MsgWaiting(incoming, readBuf) else MsgFailed(incoming, readBuf);
      }
      if |header.data| != 4 {
        return MsgFailed(incoming, readBuf);
      }
      var body := ReadInto(FromU32(header.data));
      if !body.Read? {
        return if body.Blocked? then MsgWaiting(incoming, readBuf) else MsgFailed(incoming, readBuf);
      }
      if |body.data| != FromU32(header.data) {
        return MsgFailed(incoming, readBuf);
      }
      r := Msg(body.data, incoming, readBuf);
    }
  }

  /** The chunks still to be sealed once the loop variable has reached `i`. */
  function Remaining(b: Chunk, i: nat): (r: seq<Chunk>)
    ensures forall k :: 0 <= k < |r| ==> |r[k]| <= MAX_CHUNK_LEN
  {
    if i < |b| then ChunksOf(b[i..]) else []
  }

  lemma NextChunk(b: Chunk, i: nat)
    requires i < |b|
    ensures var end := if i + MAX_CHUNK_LEN < |b| then i + MAX_CHUNK_LEN else |b|;
      Remaining(b, i) == [b[i..end]] + Remaining(b, i + MAX_CHUNK_LEN)
  {
    if i + MAX_CHUNK_LEN < |b| {
      assert b[i..][..MAX_CHUNK_LEN] == b[i..i + MAX_CHUNK_LEN];
      assert b[i..][MAX_CHUNK_LEN..] == b[i + MAX_CHUNK_LEN..];
    } else {
      assert b[i..] == b[i..|b|];
    }
  }

  /** The same records, appended one by one to what has been written already. */
  function Sealed(cipher: Cipher, nonces: nat -> nat, out: Chunk, chunks: seq<Chunk>, first: nat): Chunk
    requires forall i :: 0 <= i < |chunks| ==> |chunks[i]| <= MAX_CHUNK_LEN
    decreases |chunks|
  {
    if chunks == [] then out
    else Sealed(cipher, nonces, out + Record(cipher, nonces(first), chunks[0]), chunks[1..], first + 1)
  }

  lemma {:induction false} SealedAppends(cipher: Cipher, nonces: nat -> nat, out: Chunk, chunks: seq<Chunk>, first: nat)
    requires forall i :: 0 <= i < |chunks| ==> |chunks[i]| <= MAX_CHUNK_LEN
    ensures Sealed(cipher, nonces, out, chunks, first) == out + Records(cipher, nonces, chunks, first)
    decreases |chunks|
  {
    if chunks != [] {
      SealedAppends(cipher, nonces, out + Record(cipher, nonces(first), chunks[0]), chunks[1..], first + 1);
    }
  }
}
