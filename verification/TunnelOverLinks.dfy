/** The two nodes on top of two full transport directions: bytes, timers, limiter and reassembly included. */
module TunnelOverLinks {
  import opened Bytes
  import opened RateLimiting
  import opened Framing
  import opened Links
  import Tunnel
  import TunnelEvents

  type Msg = Tunnel.Msg
  type World = Tunnel.World

  /** Message packing, as an inverse pair that never gives an empty buffer. */
  datatype Codec = Codec(pack: Msg -> Chunk, unpack: Chunk -> Option<Msg>)

  ghost predicate Faithful(codec: Codec)
  {
    forall m :: codec.pack(m) != [] && codec.unpack(codec.pack(m)) == Some(m)
  }

  datatype Plan = Plan(codec: Codec, up: Setup, down: Setup)

  ghost predicate Usable(p: Plan)
  {
    Faithful(p.codec) && p.up.maximumChunkSize > 0 && p.down.maximumChunkSize > 0
  }

  /** `upMsgs` and `downMsgs` are the messages written so far, towards the output and towards the input node. */
  datatype Stack = Stack(input: Tunnel.Node, output: Tunnel.Node, up: Link, down: Link,
                         upMsgs: seq<Msg>, downMsgs: seq<Msg>, stale: set<Tunnel.Id>)

  const CONNECTED: Stack := Stack(Tunnel.NEW_NODE, Tunnel.NEW_NODE, IDLE, IDLE, [], [], {})

  datatype StackEvent =
    | Socket(isOutput: bool, event: Tunnel.SocketEvent, nonce: nat, at: Instant)
    | Timer(up: bool, at: Instant)
    | Bytes(up: bool, count: nat)

  function NodeAt(s: Stack, isOutput: bool): Tunnel.Node {
    if isOutput then s.output else s.input
  }

  /** Messages too large for writeBuffer throw there; they are not part of a run. An id comes back only after its
      last CLOSE. */
  ghost predicate Possible(p: Plan, s: Stack, e: StackEvent)
  {
    match e
    case Socket(isOutput, event, _, _) =>
      && Tunnel.CanHappen(NodeAt(s, isOutput), event, isOutput)
      && Tunnel.Safe(Abstract(s), Tunnel.Local(isOutput, event))
      && forall m :: m in Tunnel.React(NodeAt(s, isOutput), event, isOutput).sent ==>
           |p.codec.pack(m)| <= MAXIMUM_BUFFER_SIZE
    case Timer(_, _) => true
    case Bytes(up, count) => Enabled(if up then s.up else s.down, Deliver(count))
  }

  function HandleEvent(codec: Codec, n: Tunnel.Node, e: Framing.Event, isOutput: bool): Tunnel.Node {
    match e
    case ErrorEvent => n
    case BufferEvent(buffer) =>
      match codec.unpack(buffer)
      case None => n
      case Some(m) => Tunnel.Handle(n, m, isOutput)
  }

  function HandleEvents(codec: Codec, n: Tunnel.Node, events: seq<Framing.Event>, isOutput: bool): Tunnel.Node
    decreases |events|
  {
    if events == [] then n else HandleEvents(codec, HandleEvent(codec, n, events[0], isOutput), events[1..], isOutput)
  }

  ghost function WriteMsgs(codec: Codec, c: Setup, l: Link, msgs: seq<Msg>, nonce: nat, at: Instant): Link
    requires c.maximumChunkSize > 0 && l.parser.Valid() && |msgs| <= 1
    requires forall m :: m in msgs ==> 0 < |codec.pack(m)| <= MAXIMUM_BUFFER_SIZE
  {
    if msgs == [] then l else StepLink(c, l, Write(codec.pack(msgs[0]), nonce, at))
  }

  ghost function Step(p: Plan, s: Stack, e: StackEvent): Stack
    requires Usable(p) && Possible(p, s, e) && s.up.parser.Valid() && s.down.parser.Valid()
  {
    match e
    case Socket(isOutput, event, nonce, at) =>
      var r := Tunnel.React(NodeAt(s, isOutput), event, isOutput);
      if isOutput then
        s.(output := r.node, down := WriteMsgs(p.codec, p.down, s.down, r.sent, nonce, at),
           downMsgs := s.downMsgs + r.sent)
      else
        s.(input := r.node, up := WriteMsgs(p.codec, p.up, s.up, r.sent, nonce, at), upMsgs := s.upMsgs + r.sent,
           stale := Tunnel.StaleAfter(s.stale, event, Abstract(s).toInput))
    case Timer(up, at) =>
      if up then s.(up := StepLink(p.up, s.up, LinkEvent.Fire(at)))
      else s.(down := StepLink(p.down, s.down, LinkEvent.Fire(at)))
    case Bytes(up, count) =>
      if up then
        var l := StepLink(p.up, s.up, Deliver(count));
        s.(up := l, output := HandleEvents(p.codec, s.output, Emitted(s.up, l), true))
      else
        var l := StepLink(p.down, s.down, Deliver(count));
        s.(down := l, input := HandleEvents(p.codec, s.input, Emitted(s.down, l), false))
  }

  function Emitted(before: Link, after: Link): seq<Framing.Event> {
    if |before.events| <= |after.events| then after.events[|before.events|..] else []
  }

  ghost predicate CarriesMsgs(codec: Codec, c: Setup, l: Link, msgs: seq<Msg>)
  {
    && Carries(c, l)
    && |msgs| == |l.given|
    && forall i :: 0 <= i < |msgs| ==> l.given[i] == codec.pack(msgs[i])
  }

  ghost predicate Sound(p: Plan, s: Stack)
  {
    CarriesMsgs(p.codec, p.up, s.up, s.upMsgs) && CarriesMsgs(p.codec, p.down, s.down, s.downMsgs)
  }

  function Undelivered(l: Link, msgs: seq<Msg>): seq<Msg> {
    if |l.events| <= |msgs| then msgs[|l.events|..] else []
  }

  /** The protocol's view of the stack: two plain channels of messages. */
  function Abstract(s: Stack): World {
    Tunnel.World(s.input, s.output, Undelivered(s.up, s.upMsgs), Undelivered(s.down, s.downMsgs), s.stale)
  }

  // ---------- Simulation ----------

  function HandleMsgs(n: Tunnel.Node, msgs: seq<Msg>, isOutput: bool): Tunnel.Node
    decreases |msgs|
  {
    if msgs == [] then n else HandleMsgs(Tunnel.Handle(n, msgs[0], isOutput), msgs[1..], isOutput)
  }

  lemma {:induction false} EventsAreMsgs(codec: Codec, n: Tunnel.Node, buffers: seq<Chunk>, msgs: seq<Msg>,
                                         isOutput: bool)
    requires Faithful(codec) && |buffers| == |msgs|
    requires forall i :: 0 <= i < |msgs| ==> buffers[i] == codec.pack(msgs[i])
    ensures HandleEvents(codec, n, BufferEvents(buffers), isOutput) == HandleMsgs(n, msgs, isOutput)
    decreases |msgs|
  {
    if msgs != [] {
      assert BufferEvents(buffers)[1..] == BufferEvents(buffers[1..]);
      assert BufferEvents(buffers)[0] == BufferEvent(codec.pack(msgs[0]));
      EventsAreMsgs(codec, Tunnel.Handle(n, msgs[0], isOutput), buffers[1..], msgs[1..], isOutput);
    }
  }

  lemma RunOneMore(run: seq<Tunnel.Event>, e: Tunnel.Event)
    requires Tunnel.Possible(Tunnel.Run(run), e) && Tunnel.Safe(Tunnel.Run(run), e)
    ensures Tunnel.Run(run + [e]) == Tunnel.Step(Tunnel.Run(run), e)
    ensures SocketsOf(run + [e]) == SocketsOf(run) + if e.Local? then [TunnelEvents.Did(e.isOutput, e.event)] else []
  {
    assert (run + [e])[..|run|] == run;
    TunnelEvents.DidsSnoc(TunnelEvents.Trace(run), TunnelEvents.EntryOf(Tunnel.Run(run), e));
  }

  function SocketsOf(run: seq<Tunnel.Event>): seq<TunnelEvents.Entry> {
    TunnelEvents.Dids(TunnelEvents.Trace(run))
  }

  ghost function Delivered(w: World, isOutput: bool, count: nat): World
    requires count <= |if isOutput then w.toOutput else w.toInput|
  {
    if isOutput then
      w.(output := HandleMsgs(w.output, w.toOutput[..count], true), toOutput := w.toOutput[count..])
    else
      w.(input := HandleMsgs(w.input, w.toInput[..count], false), toInput := w.toInput[count..])
  }

  lemma DeliveredFirst(w: World, isOutput: bool, count: nat)
    requires 0 < count <= |if isOutput then w.toOutput else w.toInput|
    ensures var next := Tunnel.Step(w, Tunnel.Deliver(isOutput));
      && count - 1 <= |if isOutput then next.toOutput else next.toInput|
      && Delivered(next, isOutput, count - 1) == Delivered(w, isOutput, count)
  {
    var channel := if isOutput then w.toOutput else w.toInput;
    assert channel[..count][1..] == channel[1..][..count - 1];
    assert channel[1..][count - 1..] == channel[count..];
  }

  /** Handling several messages at once is a run of single deliveries. */
  lemma {:induction false} DeliverMany(run: seq<Tunnel.Event>, isOutput: bool, count: nat)
    returns (longer: seq<Tunnel.Event>)
    requires var w := Tunnel.Run(run); count <= |if isOutput then w.toOutput else w.toInput|
    ensures Tunnel.Run(longer) == Delivered(Tunnel.Run(run), isOutput, count) && SocketsOf(longer) == SocketsOf(run)
    decreases count
  {
    var w := Tunnel.Run(run);
    if count == 0 {
      longer := run;
    } else {
      RunOneMore(run, Tunnel.Deliver(isOutput));
      DeliveredFirst(w, isOutput, count);
      longer := DeliverMany(run + [Tunnel.Deliver(isOutput)], isOutput, count - 1);
    }
  }

  lemma MsgsWritten(codec: Codec, c: Setup, l: Link, msgs: seq<Msg>, sent: seq<Msg>, nonce: nat, at: Instant)
    requires c.maximumChunkSize > 0 && CarriesMsgs(codec, c, l, msgs) && |sent| <= 1
    requires forall m :: m in sent ==> 0 < |codec.pack(m)| <= MAXIMUM_BUFFER_SIZE
    ensures var after := WriteMsgs(codec, c, l, sent, nonce, at);
      && CarriesMsgs(codec, c, after, msgs + sent)
      && Undelivered(after, msgs + sent) == Undelivered(l, msgs) + sent
  {
    LinkIsAChannel(c, l);
    if sent != [] {
      assert sent[0] in sent && sent == [sent[0]];
      StepRefinesChannel(c, l, Write(codec.pack(sent[0]), nonce, at));
    } else {
      assert msgs + sent == msgs;
    }
  }

  lemma StillCarries(codec: Codec, c: Setup, l: Link, msgs: seq<Msg>, count: nat)
    requires c.maximumChunkSize > 0 && CarriesMsgs(codec, c, l, msgs) && Enabled(l, Deliver(count))
    ensures CarriesMsgs(codec, c, StepLink(c, l, Deliver(count)), msgs)
  {
    DeliverCarries(c, l, Deliver(count));
  }

  lemma MsgsTaken(codec: Codec, c: Setup, l: Link, msgs: seq<Msg>, count: nat, n: Tunnel.Node, isOutput: bool)
    returns (taken: nat)
    requires c.maximumChunkSize > 0 && Faithful(codec) && CarriesMsgs(codec, c, l, msgs) && Enabled(l, Deliver(count))
    ensures var after := StepLink(c, l, Deliver(count));
      && taken <= |Undelivered(l, msgs)| && Undelivered(after, msgs) == Undelivered(l, msgs)[taken..]
      && HandleEvents(codec, n, Emitted(l, after), isOutput) == HandleMsgs(n, Undelivered(l, msgs)[..taken], isOutput)
  {
    LinkIsAChannel(c, l);
    DeliverTakes(c, l, Deliver(count));
    var after := StepLink(c, l, Deliver(count));
    taken := |after.events| - |l.events|;
    EmittedMsgs(codec, l, after, msgs, taken, n, isOutput);
  }

  lemma EmittedMsgs(codec: Codec, l: Link, after: Link, msgs: seq<Msg>, taken: nat, n: Tunnel.Node, isOutput: bool)
    requires Faithful(codec) && |l.given| == |msgs| && |l.events| + taken <= |msgs|
    requires forall i :: 0 <= i < |msgs| ==> l.given[i] == codec.pack(msgs[i])
    requires after.events == l.events + BufferEvents(Pending(l)[..taken])
    ensures Undelivered(after, msgs) == Undelivered(l, msgs)[taken..]
    ensures HandleEvents(codec, n, Emitted(l, after), isOutput)
            == HandleMsgs(n, Undelivered(l, msgs)[..taken], isOutput)
  {
    SuffixOfSuffix(msgs, |l.events|, |after.events|);
    SuffixIsAdded(l.events, BufferEvents(Pending(l)[..taken]));
    SlicesAreMsgs(codec, n, l.given, msgs, |l.events|, taken, isOutput);
  }

  lemma SuffixIsAdded<T>(before: seq<T>, added: seq<T>)
    ensures (before + added)[|before|..] == added
  {
  }

  lemma SlicesAreMsgs(codec: Codec, n: Tunnel.Node, given: seq<Chunk>, msgs: seq<Msg>, from: nat, count: nat,
                      isOutput: bool)
    requires Faithful(codec) && |given| == |msgs| && from + count <= |msgs|
    requires forall i :: 0 <= i < |msgs| ==> given[i] == codec.pack(msgs[i])
    ensures HandleEvents(codec, n, BufferEvents(given[from..][..count]), isOutput)
            == HandleMsgs(n, msgs[from..][..count], isOutput)
  {
    EventsAreMsgs(codec, n, given[from..][..count], msgs[from..][..count], isOutput);
  }

  lemma SocketStep(p: Plan, s: Stack, e: StackEvent)
    requires Usable(p) && Sound(p, s) && Possible(p, s, e) && e.Socket?
    ensures Sound(p, Step(p, s, e))
    ensures var te := Tunnel.Local(e.isOutput, e.event);
      && Tunnel.Possible(Abstract(s), te) && Tunnel.Safe(Abstract(s), te)
      && Abstract(Step(p, s, e)) == Tunnel.Step(Abstract(s), te)
  {
    var sent := Tunnel.React(NodeAt(s, e.isOutput), e.event, e.isOutput).sent;
    if e.isOutput {
      MsgsWritten(p.codec, p.down, s.down, s.downMsgs, sent, e.nonce, e.at);
    } else {
      MsgsWritten(p.codec, p.up, s.up, s.upMsgs, sent, e.nonce, e.at);
    }
  }

  lemma TimerStep(p: Plan, s: Stack, e: StackEvent)
    requires Usable(p) && Sound(p, s) && e.Timer?
    ensures Sound(p, Step(p, s, e)) && Abstract(Step(p, s, e)) == Abstract(s)
  {
    StepRefinesChannel(if e.up then p.up else p.down, if e.up then s.up else s.down, LinkEvent.Fire(e.at));
  }

  lemma BytesStep(p: Plan, s: Stack, e: StackEvent) returns (taken: nat)
    requires Usable(p) && Sound(p, s) && Possible(p, s, e) && e.Bytes?
    ensures Sound(p, Step(p, s, e))
    ensures taken <= |if e.up then Abstract(s).toOutput else Abstract(s).toInput|
    ensures Abstract(Step(p, s, e)) == Delivered(Abstract(s), e.up, taken)
  {
    if e.up {
      StillCarries(p.codec, p.up, s.up, s.upMsgs, e.count);
      taken := MsgsTaken(p.codec, p.up, s.up, s.upMsgs, e.count, s.output, true);
    } else {
      StillCarries(p.codec, p.down, s.down, s.downMsgs, e.count);
      taken := MsgsTaken(p.codec, p.down, s.down, s.downMsgs, e.count, s.input, false);
    }
  }

  /** Every run of the stack; an event that cannot happen is passed over. */
  ghost function RunStack(p: Plan, events: seq<StackEvent>): (s: Stack)
    requires Usable(p)
    ensures s.up.parser.Valid() && s.down.parser.Valid()
  {
    if events == [] then CONNECTED
    else
      var s := RunStack(p, events[..|events| - 1]);
      var e := events[|events| - 1];
      if Possible(p, s, e) then Step(p, s, e) else s
  }

  /** The sockets' events that took place. */
  ghost function StackTrace(p: Plan, events: seq<StackEvent>): seq<TunnelEvents.Entry>
    requires Usable(p)
  {
    if events == [] then []
    else
      var s := RunStack(p, events[..|events| - 1]);
      var e := events[|events| - 1];
      var before := StackTrace(p, events[..|events| - 1]);
      if e.Socket? && Possible(p, s, e) then before + [TunnelEvents.Did(e.isOutput, e.event)] else before
  }

  /** Refinement: every run of the nodes over bytes, timers and reassembly is a run of the message protocol in which the
      sockets do the same. */
  lemma {:induction false} StackRefinesProtocol(p: Plan, events: seq<StackEvent>) returns (run: seq<Tunnel.Event>)
    requires Usable(p)
    ensures Sound(p, RunStack(p, events)) && Tunnel.Run(run) == Abstract(RunStack(p, events))
    ensures SocketsOf(run) == StackTrace(p, events)
  {
    if events == [] {
      run := [];
      IdleCarries(p.up);
      IdleCarries(p.down);
    } else {
      var n := |events| - 1;
      run := StackRefinesProtocol(p, events[..n]);
      var s := RunStack(p, events[..n]);
      if Possible(p, s, events[n]) {
        match events[n]
        case Socket(isOutput, event, _, _) =>
          SocketStep(p, s, events[n]);
          RunOneMore(run, Tunnel.Local(isOutput, event));
          run := run + [Tunnel.Local(isOutput, event)];
        case Timer(_, _) => TimerStep(p, s, events[n]);
        case Bytes(up, _) =>
          var taken := BytesStep(p, s, events[n]);
          run := DeliverMany(run, up, taken);
      }
    }
  }

  function Drained(l: Link): bool
    requires |l.received| <= |Flatten(l.out.wire)|
  {
    l.out.state.queue == [] && InFlight(l) == []
  }

  /** The tunnel's promise over the whole stack: for every interleaving, timing and cutting of the bytes, each
      socket has been given a prefix of what the socket at the other end of its connection has emitted, and once
      both directions are drained every record still live on both nodes has got all of it, unless its socket is not
      ready yet, and the tables agree. What was emitted is what the events say. A client's stream needs that nothing
      of an earlier use of the id was on its way to it. */
  lemma TunnelDelivers(p: Plan, events: seq<StackEvent>, id: Tunnel.Id)
    requires Usable(p)
    ensures var s := RunStack(p, events); var told := StackTrace(p, events);
      && Tunnel.OutputWrote(Abstract(s), id) <= TunnelEvents.Emitted(told, false, id)
      && (id !in s.stale ==> Tunnel.At(s.input.wrote, id) <= TunnelEvents.Emitted(told, true, id))
      && |s.up.received| <= |Flatten(s.up.out.wire)| && |s.down.received| <= |Flatten(s.down.out.wire)|
      && (Drained(s.up) ==> Tunnel.OutputWrote(Abstract(s), id) == Tunnel.At(s.output.wrote, id))
      && (Drained(s.up) && id in s.output.connections ==> AllGiven(s.output, told, id))
      && (Drained(s.down) && id in s.input.connections && id !in s.stale ==>
            Tunnel.At(s.input.wrote, id) == TunnelEvents.Emitted(told, true, id))
      && (Drained(s.up) && Drained(s.down) ==> s.input.connections.Keys == s.output.connections.Keys)
  {
    var run := StackRefinesProtocol(p, events);
    var s := RunStack(p, events);
    RunDelivers(run, id);
    LinkIsAChannel(p.up, s.up);
    LinkIsAChannel(p.down, s.down);
  }

  lemma RunDelivers(run: seq<Tunnel.Event>, id: Tunnel.Id)
    ensures var w := Tunnel.Run(run); var told := SocketsOf(run);
      && Tunnel.OutputWrote(w, id) <= TunnelEvents.Emitted(told, false, id)
      && (id !in w.stale ==> Tunnel.At(w.input.wrote, id) <= TunnelEvents.Emitted(told, true, id))
      && (w.toOutput == [] ==> Tunnel.OutputWrote(w, id) == Tunnel.At(w.output.wrote, id))
      && (w.toOutput == [] && id in w.output.connections ==> AllGiven(w.output, told, id))
      && (w.toInput == [] && id in w.input.connections && id !in w.stale ==>
            Tunnel.At(w.input.wrote, id) == TunnelEvents.Emitted(told, true, id))
      && (w.toOutput == [] && w.toInput == [] ==> w.input.connections.Keys == w.output.connections.Keys)
  {
    var trace := TunnelEvents.Trace(run);
    TunnelEvents.SocketToSocket(run, id);
    TunnelEvents.RecordsAreKept(run, id);
    TunnelEvents.DidsSayAll(trace, false, id);
    TunnelEvents.DidsSayAll(trace, true, id);
    Tunnel.TablesAgree(run);
  }

  /** The output's socket dials what was asked for, and it has been given all that the client has emitted, but for what
      is kept back until it is ready. */
  ghost predicate AllGiven(output: Tunnel.Node, told: seq<TunnelEvents.Entry>, id: Tunnel.Id)
    requires id in output.connections
  {
    var kept := output.connections[id].messages;
    && Tunnel.At(output.wrote, id) + kept == TunnelEvents.Emitted(told, false, id)
    && (TunnelEvents.IsReady(told, id) ==> kept == [])
    && Tunnel.Of(output.targets, id) == TunnelEvents.Wanted(told, id)
  }
}
