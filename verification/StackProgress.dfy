/** The stack with its clock and its timeouts: once the sockets fall silent, everything arrives. */
module StackProgress {
  import opened Bytes
  import opened RateLimiting
  import opened Framing
  import opened Links
  import opened TunnelOverLinks
  import Tunnel
  import TunnelEvents

  /** `up` and `down` are the limiters of the two directions with their timeouts. */
  datatype Timed = Timed(stack: Stack, up: Loop, down: Loop, clock: real)

  const SILENT: Timed := Timed(CONNECTED, IDLE_LOOP, IDLE_LOOP, 0.0)

  datatype TimedEvent =
    | FromSocket(isOutput: bool, event: Tunnel.SocketEvent, nonce: nat, at: Instant)
    | Timeout(up: bool, handle: nat, at: Instant)
    | Arrival(up: bool, count: nat)

  function Untimed(e: TimedEvent): StackEvent {
    match e
    case FromSocket(isOutput, event, nonce, at) => Socket(isOutput, event, nonce, at)
    case Timeout(up, _, at) => Timer(up, at)
    case Arrival(up, count) => StackEvent.Bytes(up, count)
  }

  ghost predicate Ready(t: Timed)
  {
    t.stack.up.parser.Valid() && t.stack.down.parser.Valid()
  }

  /** The clock does not run backwards, and a timeout fires when it is armed and due. */
  ghost predicate CanOccur(p: Plan, t: Timed, e: TimedEvent)
  {
    && Possible(p, t.stack, Untimed(e))
    && match e
       case FromSocket(_, _, _, at) => t.clock <= at
       case Timeout(up, handle, at) =>
         t.clock <= at && CanTick(if up then t.up else t.down, Fired(at, handle, []))
       case Arrival(_, _) => true
  }

  function WriteLoop(limit: Limit, l: Loop, chunks: seq<Chunk>, at: Instant): Loop
    decreases |chunks|
  {
    if chunks == [] then l else WriteLoop(limit, SendLoop(limit, l, chunks[0], at, []), chunks[1..], at)
  }

  ghost function WriteMsgsLoop(codec: Codec, c: Setup, l: Loop, msgs: seq<Msg>, nonce: nat, at: Instant): Loop
    requires c.maximumChunkSize > 0 && |msgs| <= 1
    requires forall m :: m in msgs ==> 0 < |codec.pack(m)| <= MAXIMUM_BUFFER_SIZE
  {
    if msgs == [] then l
    else WriteLoop(c.limit, l, Pieces(Sealed(c.cipher, nonce, codec.pack(msgs[0])), c.maximumChunkSize), at)
  }

  ghost function TimedStep(p: Plan, t: Timed, e: TimedEvent): (after: Timed)
    requires Usable(p) && Ready(t) && CanOccur(p, t, e)
    ensures after.stack == TunnelOverLinks.Step(p, t.stack, Untimed(e)) && Ready(after)
  {
    var stack := TunnelOverLinks.Step(p, t.stack, Untimed(e));
    match e
    case FromSocket(isOutput, event, nonce, at) =>
      var sent := Tunnel.React(NodeAt(t.stack, isOutput), event, isOutput).sent;
      if isOutput then
        Timed(stack, t.up, WriteMsgsLoop(p.codec, p.down, t.down, sent, nonce, at), at)
      else
        Timed(stack, WriteMsgsLoop(p.codec, p.up, t.up, sent, nonce, at), t.down, at)
    case Timeout(up, handle, at) =>
      if up then Timed(stack, FireLoop(p.up.limit, t.up, handle, at, []), t.down, at)
      else Timed(stack, t.up, FireLoop(p.down.limit, t.down, handle, at, []), at)
    case Arrival(_, _) => t.(stack := stack)
  }

  /** One event after the other; an event that cannot occur is passed over. */
  ghost function RunOn(p: Plan, t: Timed, events: seq<TimedEvent>): (after: Timed)
    requires Usable(p) && Ready(t)
    ensures Ready(after)
    decreases |events|
  {
    if events == [] then t
    else RunOn(p, if CanOccur(p, t, events[0]) then TimedStep(p, t, events[0]) else t, events[1..])
  }

  ghost function RunTimed(p: Plan, events: seq<TimedEvent>): (after: Timed)
    requires Usable(p)
    ensures Ready(after)
  {
    RunOn(p, SILENT, events)
  }

  /** The sockets' events of a timed run. */
  ghost function TimedTrace(p: Plan, t: Timed, events: seq<TimedEvent>): seq<TunnelEvents.Entry>
    requires Usable(p) && Ready(t)
    decreases |events|
  {
    if events == [] then []
    else if !CanOccur(p, t, events[0]) then TimedTrace(p, t, events[1..])
    else
      (if events[0].FromSocket? then [TunnelEvents.Did(events[0].isOutput, events[0].event)] else [])
      + TimedTrace(p, TimedStep(p, t, events[0]), events[1..])
  }

  /** A timed run is a run of the stack in which the sockets do the same. */
  lemma {:induction false} RunOnIsARun(p: Plan, t: Timed, events: seq<TimedEvent>, done: seq<StackEvent>)
    returns (all: seq<StackEvent>)
    requires Usable(p) && Ready(t) && RunStack(p, done) == t.stack
    ensures RunStack(p, all) == RunOn(p, t, events).stack
    ensures StackTrace(p, all) == StackTrace(p, done) + TimedTrace(p, t, events)
    decreases |events|
  {
    all := done;
    if events == [] {
      assert StackTrace(p, done) + [] == StackTrace(p, done);
    } else {
      if CanOccur(p, t, events[0]) {
        all := done + [Untimed(events[0])];
        assert all[..|done|] == done;
        ghost var now := if events[0].FromSocket? then [TunnelEvents.Did(events[0].isOutput, events[0].event)] else [];
        assert StackTrace(p, all) == StackTrace(p, done) + now;
        Assoc(StackTrace(p, done), now, TimedTrace(p, TimedStep(p, t, events[0]), events[1..]));
        all := RunOnIsARun(p, TimedStep(p, t, events[0]), events[1..], all);
      } else {
        all := RunOnIsARun(p, t, events[1..], done);
      }
    }
  }

  // ---------- The limiters keep up ----------

  /** A limiter's loop is about the state of its link, and paced. */
  ghost predicate InStep(limit: Limit, state: State, l: Loop, clock: real)
  {
    && l.state == state && Paced(limit, l)
    && (state.start.Some? ==> state.start.value <= clock)
  }

  ghost predicate BothInStep(p: Plan, t: Timed)
  {
    && InStep(p.up.limit, t.stack.up.out.state, t.up, t.clock)
    && InStep(p.down.limit, t.stack.down.out.state, t.down, t.clock)
  }

  lemma LaterInStep(limit: Limit, state: State, l: Loop, clock: real, later: real)
    requires InStep(limit, state, l, clock) && clock <= later
    ensures InStep(limit, state, l, later)
  {
  }

  lemma {:induction false} WriteInStep(limit: Limit, s: Sending, l: Loop, chunks: seq<Chunk>, at: Instant)
    requires InStep(limit, s.state, l, at)
    ensures InStep(limit, WriteChunks(limit, s, chunks, at).state, WriteLoop(limit, l, chunks, at), at)
    decreases |chunks|
  {
    if chunks != [] {
      TickPaces(limit, l, Sent(at, chunks[0], []));
      WriteInStep(limit, WriteChunk(limit, s, chunks[0], at), SendLoop(limit, l, chunks[0], at, []), chunks[1..], at);
    }
  }

  lemma MsgsInStep(codec: Codec, c: Setup, link: Link, l: Loop, msgs: seq<Msg>, nonce: nat, at: Instant)
    requires c.maximumChunkSize > 0 && link.parser.Valid() && |msgs| <= 1
    requires forall m :: m in msgs ==> 0 < |codec.pack(m)| <= MAXIMUM_BUFFER_SIZE
    requires InStep(c.limit, link.out.state, l, at)
    ensures InStep(c.limit, WriteMsgs(codec, c, link, msgs, nonce, at).out.state,
                   WriteMsgsLoop(codec, c, l, msgs, nonce, at), at)
  {
    if msgs != [] {
      WriteInStep(c.limit, link.out, l, Pieces(Sealed(c.cipher, nonce, codec.pack(msgs[0])), c.maximumChunkSize), at);
    }
  }

  lemma FireInStep(c: Setup, link: Link, l: Loop, handle: nat, at: Instant)
    requires c.maximumChunkSize > 0 && link.parser.Valid() && InStep(c.limit, link.out.state, l, at)
    requires CanTick(l, Fired(at, handle, []))
    ensures InStep(c.limit, StepLink(c, link, LinkEvent.Fire(at)).out.state, FireLoop(c.limit, l, handle, at, []), at)
  {
    TickPaces(c.limit, l, Fired(at, handle, []));
  }

  lemma StepInStep(p: Plan, t: Timed, e: TimedEvent)
    requires Usable(p) && Ready(t) && CanOccur(p, t, e) && BothInStep(p, t)
    ensures BothInStep(p, TimedStep(p, t, e))
  {
    if !e.Arrival? {
      LaterInStep(p.up.limit, t.stack.up.out.state, t.up, t.clock, e.at);
      LaterInStep(p.down.limit, t.stack.down.out.state, t.down, t.clock, e.at);
    }
    match e
    case FromSocket(isOutput, event, nonce, at) =>
      var sent := Tunnel.React(NodeAt(t.stack, isOutput), event, isOutput).sent;
      if isOutput {
        MsgsInStep(p.codec, p.down, t.stack.down, t.down, sent, nonce, at);
      } else {
        MsgsInStep(p.codec, p.up, t.stack.up, t.up, sent, nonce, at);
      }
    case Timeout(up, handle, at) =>
      if up {
        FireInStep(p.up, t.stack.up, t.up, handle, at);
      } else {
        FireInStep(p.down, t.stack.down, t.down, handle, at);
      }
    case Arrival(_, _) =>
  }

  lemma {:induction false} RunInStep(p: Plan, t: Timed, events: seq<TimedEvent>)
    requires Usable(p) && Ready(t) && BothInStep(p, t)
    ensures BothInStep(p, RunOn(p, t, events))
    decreases |events|
  {
    if events != [] {
      if CanOccur(p, t, events[0]) {
        StepInStep(p, t, events[0]);
        RunInStep(p, TimedStep(p, t, events[0]), events[1..]);
      } else {
        RunInStep(p, t, events[1..]);
      }
    }
  }

  // ---------- After the sockets have fallen silent ----------

  function LoopOf(t: Timed, up: bool): Loop {
    if up then t.up else t.down
  }

  function LimitOf(p: Plan, up: bool): Limit {
    if up then p.up.limit else p.down.limit
  }

  /** The timeouts of one direction that fire in a run. */
  ghost function Firings(p: Plan, t: Timed, events: seq<TimedEvent>, up: bool): seq<Firing>
    requires Usable(p) && Ready(t)
    decreases |events|
  {
    if events == [] then []
    else if !CanOccur(p, t, events[0]) then Firings(p, t, events[1..], up)
    else
      var later := Firings(p, TimedStep(p, t, events[0]), events[1..], up);
      if events[0].Timeout? && events[0].up == up then [Firing(events[0].handle, events[0].at)] + later else later
  }

  ghost predicate Quiet(events: seq<TimedEvent>)
  {
    forall e :: e in events ==> !e.FromSocket?
  }

  /** In a quiet run a limiter goes through the firings of its own timeouts and nothing else. */
  lemma {:induction false} QuietRunFires(p: Plan, t: Timed, events: seq<TimedEvent>, up: bool)
    requires Usable(p) && Ready(t) && BothInStep(p, t) && Quiet(events)
    ensures Legal(LimitOf(p, up), LoopOf(t, up), Firings(p, t, events, up))
    ensures LoopOf(RunOn(p, t, events), up) == FiredAll(LimitOf(p, up), LoopOf(t, up), Firings(p, t, events, up))
    decreases |events|
  {
    if events != [] {
      assert events[0] in events;
      if CanOccur(p, t, events[0]) {
        StepInStep(p, t, events[0]);
        QuietRunFires(p, TimedStep(p, t, events[0]), events[1..], up);
        var later := Firings(p, TimedStep(p, t, events[0]), events[1..], up);
        if events[0].Timeout? && events[0].up == up {
          var f := Firing(events[0].handle, events[0].at);
          assert ([f] + later)[1..] == later;
        }
      } else {
        QuietRunFires(p, t, events[1..], up);
      }
    }
  }

  /** The chain of the limiter's own timeout has come to its end, or has fired often enough for what was queued. */
  ghost predicate Enough(limit: Limit, l: Loop, firings: seq<Firing>)
  {
    l.timer.Some? ==>
      || ChainEnd(limit, l, firings, l.timer.value) !in FiredAll(limit, l, firings).armed
      || (limit.budget > 0
          && Generations(limit, l, firings, l.timer.value) >= 2 * (Left(l.state) / limit.budget + 1))
  }

  lemma EnoughEmpties(limit: Limit, l: Loop, firings: seq<Firing>)
    requires Paced(limit, l) && Legal(limit, l, firings) && Enough(limit, l, firings)
    ensures FiredAll(limit, l, firings).state.queue == []
  {
    if l.timer.Some? {
      ChainFiresUntilEmpty(limit, l, firings);
    } else {
      LoopIdles(limit, l, firings);
    }
  }

  ghost predicate Arrived(l: Link)
  {
    l.received == Flatten(l.out.wire)
  }

  /** Every record has got all that the socket at the other end has emitted by what the events say, and both nodes know
      the same connections. */
  ghost predicate AllDelivered(s: Stack, told: seq<TunnelEvents.Entry>)
  {
    && s.input.connections.Keys == s.output.connections.Keys
    && (forall id :: id in s.output.connections ==> AllGiven(s.output, told, id))
    && (forall id :: id in s.input.connections && id !in s.stale ==>
          Tunnel.At(s.input.wrote, id) == TunnelEvents.Emitted(told, true, id))
  }

  lemma DrainedIsDelivered(p: Plan, run: seq<StackEvent>)
    requires Usable(p)
    requires var s := RunStack(p, run);
      s.up.out.state.queue == [] && s.down.out.state.queue == [] && Arrived(s.up) && Arrived(s.down)
    ensures AllDelivered(RunStack(p, run), StackTrace(p, run))
  {
    var s := RunStack(p, run);
    var told := StackTrace(p, run);
    TunnelDelivers(p, run, 0);
    assert Drained(s.up) && Drained(s.down);
    forall id: Tunnel.Id
      ensures id in s.output.connections ==> AllGiven(s.output, told, id)
      ensures id in s.input.connections && id !in s.stale ==>
        Tunnel.At(s.input.wrote, id) == TunnelEvents.Emitted(told, true, id)
    {
      TunnelDelivers(p, run, id);
    }
  }

  lemma {:induction false} QuietTraceIsEmpty(p: Plan, t: Timed, quiet: seq<TimedEvent>)
    requires Usable(p) && Ready(t) && Quiet(quiet)
    ensures TimedTrace(p, t, quiet) == []
    decreases |quiet|
  {
    if quiet != [] {
      assert quiet[0] in quiet;
      QuietTraceIsEmpty(p, if CanOccur(p, t, quiet[0]) then TimedStep(p, t, quiet[0]) else t, quiet[1..]);
    }
  }

  lemma TimedIsARun(p: Plan, events: seq<TimedEvent>) returns (run: seq<StackEvent>)
    requires Usable(p)
    ensures RunStack(p, run) == RunTimed(p, events).stack && StackTrace(p, run) == TimedTrace(p, SILENT, events)
  {
    NothingYet(p);
    run := RunOnIsARun(p, SILENT, events, []);
    NothingBefore(TimedTrace(p, SILENT, events));
  }

  lemma NothingYet(p: Plan)
    requires Usable(p)
    ensures Ready(SILENT) && RunStack(p, []) == SILENT.stack && StackTrace(p, []) == []
  {
  }

  lemma NothingBefore(trace: seq<TunnelEvents.Entry>)
    ensures [] + trace == trace
  {
  }

  lemma QuietOnIsARun(p: Plan, t: Timed, quiet: seq<TimedEvent>, done: seq<StackEvent>) returns (run: seq<StackEvent>)
    requires Usable(p) && Ready(t) && RunStack(p, done) == t.stack && Quiet(quiet)
    ensures RunStack(p, run) == RunOn(p, t, quiet).stack && StackTrace(p, run) == StackTrace(p, done)
  {
    run := RunOnIsARun(p, t, quiet, done);
    QuietTraceIsEmpty(p, t, quiet);
    assert StackTrace(p, done) + [] == StackTrace(p, done);
  }

  lemma QuietEnd(p: Plan, events: seq<TimedEvent>, quiet: seq<TimedEvent>)
    requires Usable(p) && Quiet(quiet)
    requires var after := RunOn(p, RunTimed(p, events), quiet);
      && after.up.state.queue == [] && after.down.state.queue == []
      && Arrived(after.stack.up) && Arrived(after.stack.down)
    ensures AllDelivered(RunOn(p, RunTimed(p, events), quiet).stack, TimedTrace(p, SILENT, events))
  {
    var t := RunTimed(p, events);
    RunInStep(p, SILENT, events);
    RunInStep(p, t, quiet);
    var run := TimedIsARun(p, events);
    run := QuietOnIsARun(p, t, quiet, run);
    DrainedIsDelivered(p, run);
  }

  /** Progress of the whole stack: from any state that a timed run reaches, if the sockets fall silent, both limiters'
      chains of timeouts end or fire often enough, in any order among themselves and with stale timeouts and partial
      deliveries in between, and the bytes on the wires arrive, then all is delivered. */
  lemma StackDrains(p: Plan, events: seq<TimedEvent>, quiet: seq<TimedEvent>)
    requires Usable(p) && Quiet(quiet)
    requires forall up :: Enough(LimitOf(p, up), LoopOf(RunTimed(p, events), up),
                                 Firings(p, RunTimed(p, events), quiet, up))
    requires var s := RunOn(p, RunTimed(p, events), quiet).stack; Arrived(s.up) && Arrived(s.down)
    ensures AllDelivered(RunOn(p, RunTimed(p, events), quiet).stack, TimedTrace(p, SILENT, events))
  {
    var t := RunTimed(p, events);
    var after := RunOn(p, t, quiet);
    RunInStep(p, SILENT, events);
    forall up: bool ensures LoopOf(after, up).state.queue == [] {
      QuietRunFires(p, t, quiet, up);
      EnoughEmpties(LimitOf(p, up), LoopOf(t, up), Firings(p, t, quiet, up));
    }
    assert LoopOf(after, true) == after.up && LoopOf(after, false) == after.down;
    QuietEnd(p, events, quiet);
  }

  // ---------- Such a run is always possible ----------

  lemma {:induction false} RunOnTwice(p: Plan, t: Timed, first: seq<TimedEvent>, second: seq<TimedEvent>)
    requires Usable(p) && Ready(t)
    ensures RunOn(p, t, first + second) == RunOn(p, RunOn(p, t, first), second)
    decreases |first|
  {
    if first == [] {
      assert first + second == second;
    } else {
      assert (first + second)[0] == first[0] && (first + second)[1..] == first[1..] + second;
      RunOnTwice(p, if CanOccur(p, t, first[0]) then TimedStep(p, t, first[0]) else t, first[1..], second);
    }
  }

  lemma RunOnOne(p: Plan, t: Timed, e: TimedEvent)
    requires Usable(p) && Ready(t) && CanOccur(p, t, e)
    ensures RunOn(p, t, [e]) == TimedStep(p, t, e)
  {
    assert RunOn(p, t, [e]) == RunOn(p, TimedStep(p, t, e), [e][1..]);
  }

  ghost predicate CanSend(limit: Limit)
  {
    limit.unlimited || limit.budget > 0
  }

  /** The limiter's own timeout fires as soon as it may. */
  function NextTimeout(t: Timed, up: bool): TimedEvent
    requires var l := LoopOf(t, up); l.timer.Some? && l.timer.value in l.armed && l.armed[l.timer.value] > 0.0
  {
    var l := LoopOf(t, up);
    var due := l.armed[l.timer.value];
    Timeout(up, l.timer.value, if due < t.clock then t.clock else due)
  }

  lemma NextTimeoutHelps(p: Plan, t: Timed, up: bool)
    requires Usable(p) && Ready(t) && BothInStep(p, t) && CanSend(LimitOf(p, up))
    requires LoopOf(t, up).state.queue != []
    ensures var l := LoopOf(t, up); l.timer.Some? && l.timer.value in l.armed && l.armed[l.timer.value] > 0.0
    ensures CanOccur(p, t, NextTimeout(t, up))
    ensures var l := LoopOf(t, up); var limit := LimitOf(p, up);
      var after := LoopOf(TimedStep(p, t, NextTimeout(t, up)), up);
      after.state.queue == [] ||
      (&& after.timer.Some? && after.timer.value in after.armed
       && (Left(after.state) < Left(l.state)
           || (Left(after.state) <= Left(l.state)
               && Lead(limit, after, after.timer.value) > Lead(limit, l, l.timer.value))))
    ensures LoopOf(TimedStep(p, t, NextTimeout(t, up)), !up) == LoopOf(t, !up)
  {
    var l := LoopOf(t, up);
    var limit := LimitOf(p, up);
    var e := NextTimeout(t, up);
    FiringStep(limit, l, Firing(e.handle, e.at), l.timer.value);
    StepInStep(p, t, e);
  }

  function Slack(p: Plan, t: Timed, up: bool): int {
    var l := LoopOf(t, up);
    if l.timer.Some? && l.timer.value in l.armed && l.state.start.Some? then
      1 - Lead(LimitOf(p, up), l, l.timer.value)
    else 0
  }

  lemma {:induction false} DrainLimiter(p: Plan, t: Timed, up: bool) returns (quiet: seq<TimedEvent>)
    requires Usable(p) && Ready(t) && BothInStep(p, t) && CanSend(LimitOf(p, up))
    ensures Quiet(quiet)
    ensures var after := RunOn(p, t, quiet);
      LoopOf(after, up).state.queue == [] && LoopOf(after, !up) == LoopOf(t, !up)
    decreases Left(LoopOf(t, up).state), Slack(p, t, up)
  {
    quiet := [];
    if LoopOf(t, up).state.queue != [] {
      NextTimeoutHelps(p, t, up);
      var e := NextTimeout(t, up);
      StepInStep(p, t, e);
      var next := TimedStep(p, t, e);
      if LoopOf(next, up).state.queue != [] {
        quiet := DrainLimiter(p, next, up);
      }
      RunOnOne(p, t, e);
      RunOnTwice(p, t, [e], quiet);
      quiet := [e] + quiet;
    }
  }

  lemma RestArrives(c: Setup, l: Link)
    requires c.maximumChunkSize > 0 && Carries(c, l)
    ensures |l.received| <= |Flatten(l.out.wire)| && Enabled(l, Deliver(|InFlight(l)|)) && l.parser.Valid()
    ensures var after := StepLink(c, l, Deliver(|InFlight(l)|)); after.out == l.out && Arrived(after)
  {
    assert Flatten(l.out.wire) == l.received + InFlight(l);
    assert InFlight(l)[..|InFlight(l)|] == InFlight(l);
  }

  lemma Arrive(p: Plan, t: Timed, up: bool) returns (quiet: seq<TimedEvent>)
    requires Usable(p) && Ready(t) && BothInStep(p, t) && Sound(p, t.stack)
    ensures Quiet(quiet)
    ensures var after := RunOn(p, t, quiet); var s := after.stack;
      && after.up == t.up && after.down == t.down && s.up.out == t.stack.up.out && s.down.out == t.stack.down.out
      && Arrived(if up then s.up else s.down)
      && (if up then s.down == t.stack.down else s.up == t.stack.up)
  {
    var l := if up then t.stack.up else t.stack.down;
    RestArrives(if up then p.up else p.down, l);
    var e := Arrival(up, |InFlight(l)|);
    RunOnOne(p, t, e);
    quiet := [e];
  }

  /** From every state that a timed run reaches there is such a run: nothing that was sent is ever stuck. */
  lemma StackCanDrain(p: Plan, events: seq<TimedEvent>) returns (quiet: seq<TimedEvent>)
    requires Usable(p) && CanSend(p.up.limit) && CanSend(p.down.limit)
    ensures Quiet(quiet)
    ensures AllDelivered(RunOn(p, RunTimed(p, events), quiet).stack, TimedTrace(p, SILENT, events))
  {
    var t := RunTimed(p, events);
    RunInStep(p, SILENT, events);
    quiet := DrainLimiter(p, t, true);
    RunInStep(p, t, quiet);
    var more := DrainLimiter(p, RunOn(p, t, quiet), false);
    RunOnTwice(p, t, quiet, more);
    quiet := quiet + more;
    quiet := ArriveAfter(p, events, quiet, true);
    quiet := ArriveAfter(p, events, quiet, false);
    QuietEnd(p, events, quiet);
  }

  lemma ArriveAfter(p: Plan, events: seq<TimedEvent>, quiet: seq<TimedEvent>, up: bool)
    returns (longer: seq<TimedEvent>)
    requires Usable(p) && Quiet(quiet)
    ensures Quiet(longer)
    ensures var t := RunOn(p, RunTimed(p, events), quiet); var after := RunOn(p, RunTimed(p, events), longer);
      && after.up == t.up && after.down == t.down
      && Arrived(if up then after.stack.up else after.stack.down)
      && (if up then after.stack.down == t.stack.down else after.stack.up == t.stack.up)
  {
    var t := RunOn(p, RunTimed(p, events), quiet);
    RunInStep(p, SILENT, events);
    RunInStep(p, RunTimed(p, events), quiet);
    var run := TimedIsARun(p, events);
    run := QuietOnIsARun(p, RunTimed(p, events), quiet, run);
    var abstracted := StackRefinesProtocol(p, run);
    var more := Arrive(p, t, up);
    RunOnTwice(p, RunTimed(p, events), quiet, more);
    longer := quiet + more;
  }
}
