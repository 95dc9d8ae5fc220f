/** The connection that gathers small writes: a buffer, one timeout, and a channel to a writer goroutine. */
module BufferedConns {
  import opened Bytes

  const CHANNEL_CAPACITY: nat := 100

  datatype Config = Config(maxSize: nat, maxDelay: nat)

  // ---------- One locked step ----------

  /** `armed` is the time at which the current timeout was set; `channel` is writeCh; `inHand` is the chunk of a flush
      that waits for the writer to make room, holding the lock. */
  datatype State = State(buffer: Chunk, armed: Option<nat>, channel: seq<Chunk>, inHand: Option<Chunk>)

  predicate HasRoom(s: State) {
    |s.channel| < CHANNEL_CAPACITY
  }

  /** flushLocked. The buffer is empty before the channel is found full. */
  function Flushed(s: State): State {
    if s.buffer == [] then s
    else if HasRoom(s) then State([], None, s.channel + [s.buffer], s.inHand)
    else State([], None, s.channel, Some(s.buffer))
  }

  function Written(c: Config, s: State, data: Chunk, now: nat): State {
    if data == [] then s
    else
      var t := s.(buffer := s.buffer + data);
      if |t.buffer| >= c.maxSize then Flushed(t)
      else if |t.buffer| == |data| && t.armed.None? then t.(armed := Some(now))
      else t
  }

  // ---------- Runs ----------

  /** `accepted` and `sent` are histories: the bytes of all Writes, and those the writer has passed on. `arrivals`
      are the arrival times of the buffered bytes, and `clock` is the present. */
  datatype World = World(state: State, accepted: Chunk, sent: Chunk, arrivals: seq<nat>, clock: nat)

  const BEGIN: World := World(State([], None, [], None), [], [], [], 0)

  datatype Event =
    | Write(data: Chunk)
    | Flush
    | Timeout             // a timeout runs, perhaps one that was stopped too late
    | WriterStep
    | Handover            // the waiting flush finds room and gives up the lock
    | Tick(to: nat)

  /** Writes, flushes and timeouts need the lock. Time does not pass a deadline before the timeout has run. */
  predicate Possible(c: Config, w: World, e: Event) {
    match e
    case Write(_) => w.state.inHand.None?
    case Flush => w.state.inHand.None?
    case Timeout => w.state.inHand.None?
    case WriterStep => w.state.channel != []
    case Handover => w.state.inHand.Some? && HasRoom(w.state)
    case Tick(to) => w.clock <= to && (w.state.armed.Some? ==> to <= w.state.armed.value + c.maxDelay)
  }

  function HandedOver(s: State): State
    requires s.inHand.Some?
  {
    s.(channel := s.channel + [s.inHand.value], inHand := None)
  }

  function ArrivalsOf(data: Chunk, at: nat): seq<nat> {
    seq(|data|, _ => at)
  }

  function Step(c: Config, w: World, e: Event): World
    requires Possible(c, w, e)
  {
    match e
    case Write(data) =>
      var s := Written(c, w.state, data, w.clock);
      w.(state := s, accepted := w.accepted + data,
         arrivals := if s.buffer == [] then [] else w.arrivals + ArrivalsOf(data, w.clock))
    case Flush => w.(state := Flushed(w.state), arrivals := [])
    case Timeout => w.(state := Flushed(w.state), arrivals := [])
    case WriterStep => w.(state := w.state.(channel := w.state.channel[1..]), sent := w.sent + w.state.channel[0])
    case Handover => w.(state := HandedOver(w.state))
    case Tick(to) => w.(clock := to)
  }

  function Run(c: Config, events: seq<Event>): World {
    if events == [] then BEGIN
    else
      var w := Run(c, events[..|events| - 1]);
      var e := events[|events| - 1];
      if Possible(c, w, e) then Step(c, w, e) else w
  }

  function InHand(s: State): Chunk {
    if s.inHand.Some? then s.inHand.value else []
  }

  ghost predicate NothingLost(w: World)
  {
    w.sent + Flatten(w.state.channel) + InHand(w.state) + w.state.buffer == w.accepted
  }

  ghost predicate Sound(c: Config, w: World)
  {
    && NothingLost(w)
    && (w.state.inHand.Some? ==> w.state.buffer == []) && |w.state.channel| <= 100
    && |w.arrivals| == |w.state.buffer|
    && (w.state.armed.Some? <==> w.state.buffer != [])
    && (w.state.buffer != [] ==> w.state.armed == Some(w.arrivals[0]) && |w.state.buffer| < c.maxSize)
    && (forall i :: 0 <= i < |w.arrivals| ==> w.arrivals[0] <= w.arrivals[i] <= w.clock <= w.arrivals[i] + c.maxDelay)
  }

  lemma FlushLosesNothing(w: World)
    requires NothingLost(w) && w.state.inHand.None?
    ensures NothingLost(w.(state := Flushed(w.state)))
  {
    FlattenSnoc(w.state.channel, w.state.buffer);
    Assoc(w.sent, Flatten(w.state.channel), w.state.buffer);
    assert w.accepted + [] == w.accepted;
    assert w.sent + Flatten(w.state.channel) + [] == w.sent + Flatten(w.state.channel);
  }

  lemma FlushSound(c: Config, w: World)
    requires NothingLost(w) && w.state.inHand.None? && |w.state.channel| <= CHANNEL_CAPACITY
    requires w.state.buffer == [] ==> w.state.armed == None
    ensures Sound(c, w.(state := Flushed(w.state), arrivals := []))
  {
    FlushLosesNothing(w);
  }

  lemma HandoverSound(c: Config, w: World)
    requires Sound(c, w) && Possible(c, w, Handover)
    ensures Sound(c, Step(c, w, Handover))
  {
    FlattenSnoc(w.state.channel, w.state.inHand.value);
    Assoc(w.sent, Flatten(w.state.channel), w.state.inHand.value);
    assert w.sent + Flatten(w.state.channel) + w.state.inHand.value + []
        == w.sent + Flatten(w.state.channel) + w.state.inHand.value;
  }

  lemma WriteSound(c: Config, w: World, data: Chunk)
    requires Sound(c, w) && Possible(c, w, Write(data))
    ensures Sound(c, Step(c, w, Write(data)))
  {
    if data == [] {
      assert w.accepted + data == w.accepted && w.arrivals + ArrivalsOf(data, w.clock) == w.arrivals;
    } else {
      var t := w.state.(buffer := w.state.buffer + data);
      var v := w.(state := t, accepted := w.accepted + data);
      Assoc(w.sent + Flatten(w.state.channel) + InHand(w.state), w.state.buffer, data);
      if |t.buffer| >= c.maxSize {
        FlushSound(c, v);
      }
    }
  }

  lemma WriterSound(c: Config, w: World)
    requires Sound(c, w) && Possible(c, w, WriterStep)
    ensures Sound(c, Step(c, w, WriterStep))
  {
    Assoc(w.sent, w.state.channel[0], Flatten(w.state.channel[1..]));
  }

  lemma StepSound(c: Config, w: World, e: Event)
    requires Sound(c, w) && Possible(c, w, e)
    ensures Sound(c, Step(c, w, e))
  {
    match e
    case Write(data) => WriteSound(c, w, data);
    case Flush => FlushSound(c, w);
    case Timeout => FlushSound(c, w);
    case WriterStep => WriterSound(c, w);
    case Handover => HandoverSound(c, w);
    case Tick(to) =>
  }

  /** Order and deadline, in every interleaving before Close and with timeouts that run late or twice: nothing is lost
      or reordered, a timeout is armed exactly while bytes are buffered, since the first of them arrived, every byte
      leaves the buffer within the delay, the buffer stays shorter than the size that flushes it, and an armed timeout
      never has to wait for the lock and empties the buffer. */
  lemma {:induction false} NothingWaitsTooLong(c: Config, events: seq<Event>)
    ensures var w := Run(c, events);
      Sound(c, w) && (w.state.armed.Some? ==> Possible(c, w, Timeout) && Step(c, w, Timeout).state.buffer == [])
  {
    if events != [] {
      var w := Run(c, events[..|events| - 1]);
      NothingWaitsTooLong(c, events[..|events| - 1]);
      if Possible(c, w, events[|events| - 1]) {
        StepSound(c, w, events[|events| - 1]);
      }
    }
  }

  /** The bytes of the Writes that took place. */
  function WrittenIn(c: Config, events: seq<Event>): Chunk {
    if events == [] then []
    else
      var w := Run(c, events[..|events| - 1]);
      var e := events[|events| - 1];
      var before := WrittenIn(c, events[..|events| - 1]);
      if e.Write? && Possible(c, w, e) then before + e.data else before
  }

  lemma {:induction false} AcceptedIsWritten(c: Config, events: seq<Event>)
    ensures Run(c, events).accepted == WrittenIn(c, events)
  {
    if events != [] {
      AcceptedIsWritten(c, events[..|events| - 1]);
    }
  }

  ghost predicate AllFull(c: Config, s: State)
  {
    && (forall i :: 0 <= i < |s.channel| ==> |s.channel[i]| >= c.maxSize)
    && (s.inHand.Some? ==> |s.inHand.value| >= c.maxSize)
  }

  /** Small writes are kept back: without a Flush and before any timeout, only full chunks go out. */
  lemma {:induction false} OnlyFullChunks(c: Config, events: seq<Event>)
    requires forall e :: e in events ==> !e.Flush? && !e.Timeout?
    ensures AllFull(c, Run(c, events).state)
  {
    if events != [] {
      var n := |events| - 1;
      OnlyFullChunks(c, events[..n]);
      assert events[n] in events;
    }
  }

  /** A waiting flush gets its room: the writer's next turn makes it, and then nothing else holds up the lock. */
  lemma WaitingFlushEnds(c: Config, events: seq<Event>)
    requires Run(c, events).state.inHand.Some?
    ensures var w := Run(c, events);
      if HasRoom(w.state) then Possible(c, w, Handover)
      else Possible(c, w, WriterStep) && Possible(c, Step(c, w, WriterStep), Handover)
  {
    NothingWaitsTooLong(c, events);
  }

  // ---------- The connection object ----------

  class BufferedConn {
    const config: Config
    var buffer: Chunk
    var timer: Option<nat>
    var writeCh: seq<Chunk>
    var inHand: Option<Chunk> // what a flush that holds the lock waits to put into writeCh
    var conn: Chunk           // bytes written to the underlying connection

    ghost function View(): State
      reads this
    {
      State(buffer, timer, writeCh, inHand)
    }

    constructor (maxSize: nat, maxDelay: nat)
      ensures config == Config(maxSize, maxDelay) && View() == BEGIN.state && conn == []
    {
      config := Config(maxSize, maxDelay);
      buffer, timer, writeCh, inHand, conn := [], None, [], None, [];
    }

    method Write(data: Chunk, now: nat) returns (n: nat)
      requires inHand.None?
      modifies `buffer, `timer, `writeCh, `inHand
      ensures n == |data| && View() == Written(config, old(View()), data, now)
      ensures |old(buffer)| + |data| < config.maxSize ==>
        buffer == old(buffer) + data && writeCh == old(writeCh) && inHand == None
    {
      if |data| == 0 {
        return 0;
      }
      buffer := buffer + data;
      if |buffer| >= config.maxSize {
        FlushLocked();
        return |data|;
      }
      if |buffer| == |data| && timer == None {
        timer := Some(now);
      }
      return |data|;
    }

    /** Ends with the chunk in hand where the source waits. */
    method FlushLocked()
      requires inHand.None?
      modifies `buffer, `timer, `writeCh, `inHand
      ensures View() == Flushed(old(View()))
    {
      if |buffer| == 0 {
        return;
      }
      if timer != None {
        timer := None;
      }
      var data := buffer;
      buffer := [];
      if |writeCh| < CHANNEL_CAPACITY {
        writeCh := writeCh + [data];
      } else {
        inHand := Some(data);
      }
    }

    /** The wait of FlushLocked is over. */
    method FinishFlush()
      requires inHand.Some? && |writeCh| < CHANNEL_CAPACITY
      modifies `writeCh, `inHand
      ensures View() == HandedOver(old(View()))
    {
      writeCh := writeCh + [inHand.value];
      inHand := None;
    }

    /** One turn of the writer goroutine before Close. */
    method WriterTurn()
      requires writeCh != []
      modifies `writeCh, `conn
      ensures writeCh == old(writeCh)[1..] && conn == old(conn) + old(writeCh)[0]
    {
      var data := writeCh[0];
      writeCh := writeCh[1..];
      conn := conn + data;
    }
  }
}
