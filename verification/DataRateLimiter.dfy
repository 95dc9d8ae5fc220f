/** The byte-rate limiter between framing and wire: a queue drained by bursts of at most one budget
    per interval, with a timeout armed while anything is left over. */
module RateLimiting {
  import opened Bytes

  // performance.now(): milliseconds since the process started, so never zero when it is read
  type Instant = t: real | t > 0.0 witness 1.0

  /** `budget` is rateLimitBytesPerInterval; a rate of 0 means no limit. */
  datatype Setting = Setting(unlimited: bool, interval: real, budget: nat)

  type Limit = s: Setting | s.interval > 0.0 witness Setting(true, 25.0, 0)

  /** The constructor's arithmetic. The budget is 0 for a positive rate too slow to send one byte an interval. */
  function Configure(bytesPerSecond: real, interval: real): (limit: Limit)
    requires bytesPerSecond >= 0.0 && interval > 0.0
    ensures limit.budget as real * 1000.0 <= bytesPerSecond * interval < (limit.budget + 1) as real * 1000.0
  {
    assert bytesPerSecond * interval >= 0.0;
    Setting(bytesPerSecond == 0.0, interval, (bytesPerSecond * interval / 1000.0).Floor)
  }

  // ---------- One burst ----------

  datatype State = State(start: Option<Instant>, written: nat, queue: seq<Chunk>)

  ghost predicate WithinBudget(limit: Limit, s: State)
  {
    s.start.Some? ==> s.written <= limit.budget
  }

  /** What holds between calls: only a limited rate queues, and a queue belongs to an interval. */
  ghost predicate AtRest(limit: Limit, s: State)
  {
    && WithinBudget(limit, s)
    && (s.queue != [] ==> s.start.Some? && !limit.unlimited)
  }

  datatype Burst = Burst(sent: seq<Chunk>, queue: seq<Chunk>)

  function Front<T>(calls: seq<seq<T>>): seq<T> {
    if calls == [] then [] else calls[0]
  }

  function Rest<T>(calls: seq<T>): seq<T> {
    if calls == [] then [] else calls[1..]
  }

  // the buffer handed to the sink next, cut if it overruns `room`, and the queue without it
  function CutOff(queue: seq<Chunk>, room: nat): (r: Chunk)
    requires queue != []
    ensures |r| <= room
  {
    if |queue[0]| <= room then queue[0] else queue[0][..room]
  }

  function CutRest(queue: seq<Chunk>, room: nat): seq<Chunk>
    requires queue != []
  {
    if |queue[0]| <= room then queue[1..] else [queue[0][room..]] + queue[1..]
  }

  /** What one processing run hands to the sink when `room` bytes of the budget are left. The sink may
      call `send` again while it is being called: `reentry[i]` lists the chunks that its i-th call adds. */
  function Release(queue: seq<Chunk>, room: nat, reentry: seq<seq<Chunk>>): Burst
    decreases |reentry|, room, |queue|
  {
    if queue == [] || room == 0 then Burst([], queue)
    else
      var chunk := CutOff(queue, room);
      var next := Release(CutRest(queue, room) + Front(reentry), room - |chunk|, Rest(reentry));
      Burst([chunk] + next.sent, next.queue)
  }

  /** The chunks that the sink added during the first `calls` of its calls. */
  function Reentered(reentry: seq<seq<Chunk>>, calls: nat): seq<Chunk> {
    Flatten(if calls <= |reentry| then reentry[..calls] else reentry)
  }

  lemma ReenteredStep(reentry: seq<seq<Chunk>>, calls: nat)
    requires calls > 0
    ensures Reentered(reentry, calls) == Front(reentry) + Reentered(Rest(reentry), calls - 1)
  {
    if reentry != [] && calls <= |reentry| {
      assert reentry[..calls][1..] == reentry[1..][..calls - 1];
    }
  }

  lemma CutKeepsBytes(queue: seq<Chunk>, room: nat)
    requires queue != []
    ensures CutOff(queue, room) + Flatten(CutRest(queue, room)) == Flatten(queue)
  {
    if |queue[0]| > room {
      FlattenCons(queue[0][room..], queue[1..]);
      assert queue[0] == queue[0][..room] + queue[0][room..];
      Assoc(queue[0][..room], queue[0][room..], Flatten(queue[1..]));
    }
  }

  /** A burst neither loses, invents nor reorders a byte, and it stays within its room. */
  lemma {:induction false} ReleaseConserves(queue: seq<Chunk>, room: nat, reentry: seq<seq<Chunk>>)
    ensures var b := Release(queue, room, reentry);
      && Flatten(b.sent) + Flatten(b.queue) == Flatten(queue) + Flatten(Reentered(reentry, |b.sent|))
      && |Flatten(b.sent)| <= room
    decreases |reentry|, room, |queue|
  {
    if queue == [] || room == 0 {
      assert Reentered(reentry, 0) == [];
    } else {
      var chunk, left := CutOff(queue, room), CutRest(queue, room);
      var next := Release(left + Front(reentry), room - |chunk|, Rest(reentry));
      ReleaseConserves(left + Front(reentry), room - |chunk|, Rest(reentry));
      var later := Reentered(Rest(reentry), |next.sent|);
      CutKeepsBytes(queue, room);
      FlattenAppend(left, Front(reentry));
      ReenteredStep(reentry, |next.sent| + 1);
      FlattenAppend(Front(reentry), later);
      FlattenCons(chunk, next.sent);
      Regroup(chunk, Flatten(next.sent), Flatten(next.queue), Flatten(left), Flatten(Front(reentry)), Flatten(later));
    }
  }

  lemma FlattenCons(head: Chunk, tail: seq<Chunk>)
    ensures Flatten([head] + tail) == head + Flatten(tail)
  {
    assert ([head] + tail)[1..] == tail;
  }

  lemma Regroup(head: Chunk, sent: Chunk, left: Chunk, queued: Chunk, front: Chunk, later: Chunk)
    requires sent + left == queued + front + later
    ensures head + sent + left == head + queued + (front + later)
  {
    assert head + sent + left == head + (sent + left);
    assert head + queued + (front + later) == head + (queued + front + later);
  }

  /** A burst empties the queue or uses up its room. */
  lemma {:induction false} ReleaseDrains(queue: seq<Chunk>, room: nat, reentry: seq<seq<Chunk>>)
    ensures var b := Release(queue, room, reentry);
      b.queue == [] || |Flatten(b.sent)| == room
    decreases |reentry|, room, |queue|
  {
    if queue != [] && room > 0 {
      var chunk, left := CutOff(queue, room), CutRest(queue, room) + Front(reentry);
      ReleaseDrains(left, room - |chunk|, Rest(reentry));
      FlattenCons(chunk, Release(left, room - |chunk|, Rest(reentry)).sent);
    }
  }

  ghost predicate CutsNone(all: seq<Chunk>, b: Burst)
  {
    var k := |b.sent|;
    k <= |all| && b.sent == all[..k] && b.queue == all[k..]
  }

  // the last chunk handed out is the front of a buffer whose rest goes first next time
  ghost predicate CutsLast(all: seq<Chunk>, b: Burst)
  {
    var k := |b.sent|;
    && 0 < k <= |all| && |b.sent[k - 1]| < |all[k - 1]|
    && b.sent == all[..k - 1] + [all[k - 1][..|b.sent[k - 1]|]]
    && b.queue == [all[k - 1][|b.sent[k - 1]|..]] + all[k..]
  }

  /** A burst hands out whole buffers, and cuts one at most: the one at which the room is used up. */
  ghost predicate CutsLate(all: seq<Chunk>, room: nat, b: Burst)
  {
    CutsNone(all, b) || (CutsLast(all, b) && |Flatten(b.sent)| == room)
  }

  lemma {:induction false} ReleaseCutsLate(queue: seq<Chunk>, room: nat, reentry: seq<seq<Chunk>>)
    ensures var b := Release(queue, room, reentry);
      CutsLate(queue + Reentered(reentry, |b.sent|), room, b)
    decreases |reentry|, room, |queue|
  {
    if queue == [] || room == 0 {
      NothingCut(queue, room, reentry);
    } else if |queue[0]| <= room {
      ReleaseCutsLate(queue[1..] + Front(reentry), room - |queue[0]|, Rest(reentry));
      var next := Release(queue[1..] + Front(reentry), room - |queue[0]|, Rest(reentry));
      WholeOnTop(queue, Front(reentry), Reentered(Rest(reentry), |next.sent|), room, next);
      ReleaseWhole(queue, room, reentry, next);
      ReenteredStep(reentry, |next.sent| + 1);
    } else {
      CutCutsLate(queue, room, reentry);
    }
  }

  lemma ReleaseWhole(queue: seq<Chunk>, room: nat, reentry: seq<seq<Chunk>>, next: Burst)
    requires queue != [] && 0 < room && |queue[0]| <= room
    requires next == Release(queue[1..] + Front(reentry), room - |queue[0]|, Rest(reentry))
    ensures Release(queue, room, reentry) == Burst([queue[0]] + next.sent, next.queue)
  {
  }

  lemma NothingCut(queue: seq<Chunk>, room: nat, reentry: seq<seq<Chunk>>)
    requires queue == [] || room == 0
    ensures var b := Release(queue, room, reentry); CutsLate(queue + Reentered(reentry, |b.sent|), room, b)
  {
    assert Reentered(reentry, 0) == [] && queue + [] == queue;
  }

  lemma WholeOnTop(queue: seq<Chunk>, front: seq<Chunk>, later: seq<Chunk>, room: nat, next: Burst)
    requires queue != [] && |queue[0]| <= room
    requires CutsLate(queue[1..] + front + later, room - |queue[0]|, next)
    ensures CutsLate(queue + (front + later), room, Burst([queue[0]] + next.sent, next.queue))
  {
    Assoc(queue[1..], front, later);
    WholeFirst(queue[0], queue[1..] + (front + later), room, next);
    assert queue == [queue[0]] + queue[1..];
    Assoc([queue[0]], queue[1..], front + later);
  }

  lemma CutCutsLate(queue: seq<Chunk>, room: nat, reentry: seq<seq<Chunk>>)
    requires queue != [] && 0 < room < |queue[0]|
    ensures var b := Release(queue, room, reentry); CutsLate(queue + Reentered(reentry, |b.sent|), room, b)
  {
    var left := CutRest(queue, room) + Front(reentry);
    assert Release(left, 0, Rest(reentry)) == Burst([], left);
    ReenteredStep(reentry, 1);
    assert Reentered(Rest(reentry), 0) == [] && Front(reentry) + [] == Front(reentry);
    assert [queue[0][..room]] + [] == [queue[0][..room]];
    CutFirst(queue, room, Front(reentry));
  }

  lemma WholeFirst(first: Chunk, rest: seq<Chunk>, room: nat, next: Burst)
    requires |first| <= room && CutsLate(rest, room - |first|, next)
    ensures CutsLate([first] + rest, room, Burst([first] + next.sent, next.queue))
  {
    FlattenCons(first, next.sent);
    if CutsNone(rest, next) {
      WholeThenNone(first, rest, next);
    } else {
      WholeThenLast(first, rest, next);
    }
  }

  lemma WholeThenNone(first: Chunk, rest: seq<Chunk>, next: Burst)
    requires CutsNone(rest, next)
    ensures CutsNone([first] + rest, Burst([first] + next.sent, next.queue))
  {
    var all, k := [first] + rest, |next.sent|;
    assert all[..k + 1] == [first] + rest[..k] && all[k + 1..] == rest[k..];
  }

  lemma WholeThenLast(first: Chunk, rest: seq<Chunk>, next: Burst)
    requires CutsLast(rest, next)
    ensures CutsLast([first] + rest, Burst([first] + next.sent, next.queue))
  {
    var all, k := [first] + rest, |next.sent|;
    assert all[..k] == [first] + rest[..k - 1] && all[k + 1..] == rest[k..] && all[k] == rest[k - 1];
    Assoc([first], rest[..k - 1], [rest[k - 1][..|next.sent[k - 1]|]]);
  }

  lemma CutFirst(queue: seq<Chunk>, room: nat, more: seq<Chunk>)
    requires queue != [] && 0 < room < |queue[0]|
    ensures CutsLate(queue + more, room, Burst([queue[0][..room]], [queue[0][room..]] + queue[1..] + more))
  {
    FlattenOne(queue[0][..room]);
    var all := queue + more;
    assert all[..0] == [] && all[1..] == queue[1..] + more;
    Assoc([queue[0][room..]], queue[1..], more);
    assert [] + [queue[0][..room]] == [queue[0][..room]];
  }

  // ---------- One call ----------

  datatype Outcome = Outcome(state: State, sent: seq<Chunk>)

  /** The interval that a processing run at `now` works in: a fresh one if the last began too long ago. */
  function Opened(limit: Limit, s: State, now: Instant): State {
    if s.start.None? || now - s.start.value > limit.interval then State(Some(now), 0, s.queue) else s
  }

  function Room(limit: Limit, written: nat): nat {
    if written < limit.budget then limit.budget - written else 0
  }

  function Process(limit: Limit, s: State, now: Instant, reentry: seq<seq<Chunk>>): Outcome {
    if s.queue == [] then
      Outcome(s, [])
    else
      var open := Opened(limit, s, now);
      var b := Release(open.queue, Room(limit, open.written), reentry);
      Outcome(State(open.start, open.written + |Flatten(b.sent)|, b.queue), b.sent)
  }

  function Submit(limit: Limit, s: State, chunk: Chunk, now: Instant, reentry: seq<seq<Chunk>>): Outcome {
    if limit.unlimited then Outcome(s, [chunk])
    else Process(limit, s.(queue := s.queue + [chunk]), now, reentry)
  }

  lemma ProcessKeeps(limit: Limit, s: State, now: Instant, reentry: seq<seq<Chunk>>)
    requires WithinBudget(limit, s) && !limit.unlimited
    ensures AtRest(limit, Process(limit, s, now, reentry).state)
    ensures s.queue == [] || Process(limit, s, now, reentry).state.written <= limit.budget
  {
    var open := Opened(limit, s, now);
    ReleaseConserves(open.queue, Room(limit, open.written), reentry);
  }

  lemma SubmitKeeps(limit: Limit, s: State, chunk: Chunk, now: Instant, reentry: seq<seq<Chunk>>)
    requires AtRest(limit, s)
    ensures AtRest(limit, Submit(limit, s, chunk, now, reentry).state)
  {
    if !limit.unlimited {
      ProcessKeeps(limit, s.(queue := s.queue + [chunk]), now, reentry);
    }
  }

  // ---------- Whole runs ----------

  datatype Event =
    | Send(at: Instant, chunk: Chunk, reentry: seq<seq<Chunk>>)
    | Fire(at: Instant, reentry: seq<seq<Chunk>>)

  // what one event handed to the sink, and when
  datatype Stamped = Stamped(at: Instant, bytes: Chunk)

  datatype Log = Log(state: State, accepted: Chunk, sent: seq<Stamped>)

  const FRESH: Log := Log(State(None, 0, []), [], [])

  function Effect(limit: Limit, s: State, e: Event): Outcome {
    match e
    case Send(at, chunk, reentry) => Submit(limit, s, chunk, at, reentry)
    case Fire(at, reentry) => Process(limit, s, at, reentry)
  }

  /** The bytes that an event gives the limiter: its own chunk, then those of the re-entrant calls made. */
  function Offered(limit: Limit, s: State, e: Event): Chunk {
    var calls := |Effect(limit, s, e).sent|;
    match e
    case Send(_, chunk, reentry) =>
      if limit.unlimited then chunk else chunk + Flatten(Reentered(reentry, calls))
    case Fire(_, reentry) => Flatten(Reentered(reentry, calls))
  }

  function Step(limit: Limit, log: Log, e: Event): Log {
    var o := Effect(limit, log.state, e);
    Log(o.state, log.accepted + Offered(limit, log.state, e), log.sent + [Stamped(e.at, Flatten(o.sent))])
  }

  function Run(limit: Limit, events: seq<Event>): Log {
    if events == [] then FRESH
    else Step(limit, Run(limit, events[..|events| - 1]), events[|events| - 1])
  }

  function SentBytes(sent: seq<Stamped>): Chunk {
    if sent == [] then [] else SentBytes(sent[..|sent| - 1]) + sent[|sent| - 1].bytes
  }

  lemma SentBytesSnoc(sent: seq<Stamped>, last: Stamped)
    ensures SentBytes(sent + [last]) == SentBytes(sent) + last.bytes
  {
    assert (sent + [last])[..|sent|] == sent;
  }

  lemma ProcessConserves(limit: Limit, s: State, now: Instant, reentry: seq<seq<Chunk>>)
    ensures var o := Process(limit, s, now, reentry);
      Flatten(o.sent) + Flatten(o.state.queue) == Flatten(s.queue) + Flatten(Reentered(reentry, |o.sent|))
  {
    if s.queue == [] {
      assert Reentered(reentry, 0) == [];
    } else {
      ReleaseConserves(s.queue, Room(limit, Opened(limit, s, now).written), reentry);
    }
  }

  lemma EffectConserves(limit: Limit, s: State, e: Event)
    requires limit.unlimited ==> s.queue == []
    ensures var o := Effect(limit, s, e);
      Flatten(o.sent) + Flatten(o.state.queue) == Flatten(s.queue) + Offered(limit, s, e)
  {
    if e.Send? && limit.unlimited {
      FlattenOne(e.chunk);
    } else if e.Send? {
      var longer := s.(queue := s.queue + [e.chunk]);
      FlattenSnoc(s.queue, e.chunk);
      ProcessConserves(limit, longer, e.at, e.reentry);
      Assoc(Flatten(s.queue), e.chunk, Flatten(Reentered(e.reentry, |Process(limit, longer, e.at, e.reentry).sent|)));
    } else {
      ProcessConserves(limit, s, e.at, e.reentry);
    }
  }

  /** Conservation over every run: sent bytes followed by queued bytes are the accepted bytes, in order. */
  lemma {:induction false} RunConserves(limit: Limit, events: seq<Event>)
    ensures var log := Run(limit, events);
      && AtRest(limit, log.state)
      && SentBytes(log.sent) + Flatten(log.state.queue) == log.accepted
  {
    if events != [] {
      var before := Run(limit, events[..|events| - 1]);
      var e := events[|events| - 1];
      RunConserves(limit, events[..|events| - 1]);
      StepConserves(limit, before, e);
    }
  }

  lemma RunIsAtRest(limit: Limit, events: seq<Event>)
    ensures AtRest(limit, Run(limit, events).state)
  {
    RunConserves(limit, events);
  }

  lemma StepConserves(limit: Limit, log: Log, e: Event)
    requires AtRest(limit, log.state)
    requires SentBytes(log.sent) + Flatten(log.state.queue) == log.accepted
    ensures var after := Step(limit, log, e);
      && AtRest(limit, after.state)
      && SentBytes(after.sent) + Flatten(after.state.queue) == after.accepted
  {
    var o := Effect(limit, log.state, e);
    EffectConserves(limit, log.state, e);
    SentBytesSnoc(log.sent, Stamped(e.at, Flatten(o.sent)));
    Regroup(SentBytes(log.sent), Flatten(o.sent), Flatten(o.state.queue), Flatten(log.state.queue),
            Offered(limit, log.state, e), []);
    EffectKeeps(limit, log.state, e);
  }

  lemma EffectKeeps(limit: Limit, s: State, e: Event)
    requires AtRest(limit, s)
    ensures AtRest(limit, Effect(limit, s, e).state)
  {
    if e.Send? {
      SubmitKeeps(limit, s, e.chunk, e.at, e.reentry);
    } else if !limit.unlimited {
      ProcessKeeps(limit, s, e.at, e.reentry);
    }
  }

  // ---------- Rate bound ----------

  ghost predicate Ordered(events: seq<Event>)
  {
    forall i, j :: 0 <= i < j < |events| ==> events[i].at <= events[j].at
  }

  /** Bytes handed to the sink at times between `from` and `to`. */
  function Volume(sent: seq<Stamped>, from: real, to: real): nat {
    if sent == [] then 0
    else
      var last := sent[|sent| - 1];
      Volume(sent[..|sent| - 1], from, to) + if from <= last.at <= to then |last.bytes| else 0
  }

  lemma VolumeSnoc(sent: seq<Stamped>, last: Stamped, from: real, to: real)
    ensures Volume(sent + [last], from, to)
            == Volume(sent, from, to) + if from <= last.at <= to then |last.bytes| else 0
  {
    assert (sent + [last])[..|sent|] == sent;
  }

  lemma {:induction false} QuietBefore(limit: Limit, events: seq<Event>, from: real, to: real)
    requires forall i :: 0 <= i < |events| ==> events[i].at < from
    ensures Volume(Run(limit, events).sent, from, to) == 0
  {
    if events != [] {
      var n := |events| - 1;
      QuietBefore(limit, events[..n], from, to);
      StepVolume(limit, Run(limit, events[..n]), events[n], from, to);
    }
  }

  lemma StepVolume(limit: Limit, log: Log, e: Event, from: real, to: real)
    ensures Volume(Step(limit, log, e).sent, from, to)
            == Volume(log.sent, from, to)
               + if from <= e.at <= to then |Flatten(Effect(limit, log.state, e).sent)| else 0
  {
    VolumeSnoc(log.sent, Stamped(e.at, Flatten(Effect(limit, log.state, e).sent)), from, to);
  }

  /** `count` budgets, and the time that `count` intervals take at least. */
  function Budgets(limit: Limit, count: nat): nat {
    if count == 0 then 0 else Budgets(limit, count - 1) + limit.budget
  }

  function Lasting(limit: Limit, count: nat): real {
    if count == 0 then 0.0 else Lasting(limit, count - 1) + limit.interval
  }

  lemma {:induction false} CountedProducts(limit: Limit, count: nat)
    ensures Budgets(limit, count) == count * limit.budget
    ensures Lasting(limit, count) == count as real * limit.interval
  {
    if count > 0 {
      CountedProducts(limit, count - 1);
      assert (count - 1) * limit.budget + limit.budget == count * limit.budget;
      assert (count - 1) as real * limit.interval + limit.interval == count as real * limit.interval;
    }
  }

  /** The window from `from` on has seen `spent` full budgets and what the current interval has used so far,
      and the intervals of those budgets fit between `from` (less one interval) and the current one. */
  ghost predicate Accounted(limit: Limit, s: State, volume: nat, from: real, spent: nat)
  {
    && s.start.Some?
    && volume <= Budgets(limit, spent) + s.written
    && Lasting(limit, spent) <= s.start.value - from + limit.interval
  }

  lemma StepAccounted(limit: Limit, s: State, e: Event, volume: nat, from: real, spent: nat) returns (now: nat)
    requires !limit.unlimited && AtRest(limit, s)
    requires s.start.Some? ==> s.start.value <= e.at
    requires from <= e.at
    requires volume == 0 || Accounted(limit, s, volume, from, spent)
    ensures var o := Effect(limit, s, e); var after := volume + |Flatten(o.sent)|;
      after == 0 || Accounted(limit, o.state, after, from, now)
  {
    var q := if e.Send? then s.(queue := s.queue + [e.chunk]) else s;
    now := spent;
    if q.queue != [] {
      var open := Opened(limit, q, e.at);
      ReleaseConserves(q.queue, Room(limit, open.written), e.reentry);
      now := if volume == 0 then 0 else if open == q then spent else spent + 1;
    }
  }

  lemma {:induction false} StartsInThePast(limit: Limit, events: seq<Event>)
    requires Ordered(events)
    ensures var start := Run(limit, events).state.start;
      start.Some? ==> events != [] && start.value <= events[|events| - 1].at
  {
    if events != [] {
      StartsInThePast(limit, events[..|events| - 1]);
    }
  }

  ghost predicate Covered(limit: Limit, log: Log, from: real, to: real, spent: nat)
  {
    var volume := Volume(log.sent, from, to);
    volume == 0 || Accounted(limit, log.state, volume, from, spent)
  }

  lemma StepCovered(limit: Limit, log: Log, e: Event, from: real, to: real, spent: nat) returns (now: nat)
    requires !limit.unlimited && AtRest(limit, log.state)
    requires log.state.start.Some? ==> log.state.start.value <= e.at
    requires from <= e.at <= to
    requires Covered(limit, log, from, to, spent)
    ensures Covered(limit, Step(limit, log, e), from, to, now)
  {
    StepVolume(limit, log, e, from, to);
    now := StepAccounted(limit, log.state, e, Volume(log.sent, from, to), from, spent);
  }

  lemma {:induction false} WindowAccounted(limit: Limit, events: seq<Event>, from: real, to: real) returns (spent: nat)
    requires !limit.unlimited && Ordered(events) && AllBy(events, to)
    ensures Covered(limit, Run(limit, events), from, to, spent)
  {
    spent := 0;
    if events != [] {
      var n := |events| - 1;
      if events[n].at < from {
        QuietBefore(limit, events, from, to);
      } else {
        var k := WindowAccounted(limit, events[..n], from, to);
        RunIsAtRest(limit, events[..n]);
        StartsInThePast(limit, events[..n]);
        spent := StepCovered(limit, Run(limit, events[..n]), events[n], from, to, k);
      }
    }
  }

  ghost predicate WithinBudgets(limit: Limit, log: Log, from: real, width: real, spent: nat)
  {
    && Volume(log.sent, from, from + width) <= Budgets(limit, spent) + limit.budget
    && Lasting(limit, spent) <= width + limit.interval
  }

  lemma LaterEventsDoNotCount(limit: Limit, log: Log, e: Event, from: real, width: real, spent: nat)
    requires WithinBudgets(limit, log, from, width, spent) && e.at > from + width
    ensures WithinBudgets(limit, Step(limit, log, e), from, width, spent)
  {
    StepVolume(limit, log, e, from, from + width);
  }

  ghost predicate AtRestBy(limit: Limit, log: Log, to: real)
  {
    AtRest(limit, log.state) && (log.state.start.Some? ==> log.state.start.value <= to)
  }

  lemma CoveredIsWithinBudgets(limit: Limit, log: Log, from: real, width: real, spent: nat) returns (count: nat)
    requires Covered(limit, log, from, from + width, spent) && AtRestBy(limit, log, from + width) && width >= 0.0
    ensures WithinBudgets(limit, log, from, width, count)
  {
    count := if Volume(log.sent, from, from + width) == 0 then 0 else spent;
  }

  ghost predicate AllBy(events: seq<Event>, to: real)
  {
    forall i :: 0 <= i < |events| ==> events[i].at <= to
  }

  lemma LastIsLatest(events: seq<Event>, to: real)
    requires Ordered(events) && (events != [] ==> events[|events| - 1].at <= to)
    ensures AllBy(events, to)
  {
    forall i | 0 <= i < |events| ensures events[i].at <= to {
      assert i < |events| - 1 ==> events[i].at <= events[|events| - 1].at;
    }
  }

  lemma RunIsAtRestBy(limit: Limit, events: seq<Event>, to: real)
    requires Ordered(events) && AllBy(events, to)
    ensures AtRestBy(limit, Run(limit, events), to)
  {
    RunIsAtRest(limit, events);
    StartsInThePast(limit, events);
  }

  lemma WindowToTheEnd(limit: Limit, events: seq<Event>, from: real, width: real) returns (spent: nat)
    requires !limit.unlimited && Ordered(events) && width >= 0.0 && AllBy(events, from + width)
    ensures WithinBudgets(limit, Run(limit, events), from, width, spent)
  {
    RunIsAtRestBy(limit, events, from + width);
    spent := WindowAccounted(limit, events, from, from + width);
    spent := CoveredIsWithinBudgets(limit, Run(limit, events), from, width, spent);
  }

  lemma RunLast(limit: Limit, events: seq<Event>)
    requires events != []
    ensures var n := |events| - 1; Run(limit, events) == Step(limit, Run(limit, events[..n]), events[n])
    ensures Ordered(events) ==> Ordered(events[..|events| - 1])
  {
  }

  lemma {:induction false} WindowBound(limit: Limit, events: seq<Event>, from: real, width: real) returns (spent: nat)
    requires !limit.unlimited && Ordered(events) && width >= 0.0
    ensures WithinBudgets(limit, Run(limit, events), from, width, spent)
    decreases |events|
  {
    if events == [] || events[|events| - 1].at <= from + width {
      LastIsLatest(events, from + width);
      spent := WindowToTheEnd(limit, events, from, width);
    } else {
      var before, e := events[..|events| - 1], events[|events| - 1];
      RunLast(limit, events);
      spent := WindowBound(limit, before, from, width);
      LaterEventsDoNotCount(limit, Run(limit, before), e, from, width, spent);
    }
  }

  lemma FullIntervals(interval: real, width: real, spent: nat)
    requires width >= 0.0 && interval > 0.0
    requires spent as real * interval <= width + interval
    ensures spent <= (width / interval).Floor + 1
  {
    var q := width / interval;
    assert q * interval == width;
    CancelFactor(spent as real, q + 1.0, interval);
    assert q >= 0.0;
  }

  lemma CancelFactor(a: real, b: real, factor: real)
    requires factor > 0.0 && a * factor <= b * factor
    ensures a <= b
  {
  }

  /** Rate bound: whatever is sent and whenever the timers fire, no window of length `width` sees more than
      floor(width / interval) + 2 budgets, nor more than the configured rate over width + 2 intervals. */
  lemma RateBound(bytesPerSecond: real, interval: real, events: seq<Event>, from: real, width: real)
    requires bytesPerSecond > 0.0 && interval > 0.0 && Ordered(events) && width >= 0.0
    ensures var limit := Configure(bytesPerSecond, interval);
            var volume := Volume(Run(limit, events).sent, from, from + width);
      && volume <= ((width / interval).Floor + 2) * limit.budget
      && volume as real * 1000.0 <= bytesPerSecond * (width + 2.0 * interval)
  {
    var limit := Configure(bytesPerSecond, interval);
    var spent := WindowBound(limit, events, from, width);
    CountedProducts(limit, spent);
    var volume := Volume(Run(limit, events).sent, from, from + width);
    VolumeAtRate(bytesPerSecond, interval, limit.budget, spent, width, volume);
  }

  lemma VolumeAtRate(bytesPerSecond: real, interval: real, budget: nat, spent: nat, width: real, volume: nat)
    requires bytesPerSecond >= 0.0 && interval > 0.0 && width >= 0.0
    requires budget as real * 1000.0 <= bytesPerSecond * interval
    requires spent as real * interval <= width + interval
    requires volume <= spent * budget + budget
    ensures volume <= ((width / interval).Floor + 2) * budget
    ensures volume as real * 1000.0 <= bytesPerSecond * (width + 2.0 * interval)
  {
    FullIntervals(interval, width, spent);
    assert (spent + 1) * budget == spent * budget + budget;
    MoreBudgets(spent + 1, (width / interval).Floor + 2, budget);
    BudgetsAtRate(bytesPerSecond, interval, budget, spent, width);
    assert volume as real <= ((spent + 1) * budget) as real;
  }

  lemma MoreBudgets(few: int, many: int, budget: nat)
    requires few <= many
    ensures few * budget <= many * budget
  {
  }

  lemma BudgetsAtRate(bytesPerSecond: real, interval: real, budget: nat, spent: nat, width: real)
    requires bytesPerSecond >= 0.0
    requires budget as real * 1000.0 <= bytesPerSecond * interval
    requires spent as real * interval <= width + interval
    ensures ((spent + 1) * budget) as real * 1000.0 <= bytesPerSecond * (width + 2.0 * interval)
  {
    var n := (spent + 1) as real;
    assert n * interval <= width + 2.0 * interval;
    calc {
      ((spent + 1) * budget) as real * 1000.0;
      n * (budget as real * 1000.0);
    <=
      n * (bytesPerSecond * interval);
      bytesPerSecond * (n * interval);
    <=
      bytesPerSecond * (width + 2.0 * interval);
    }
  }

  // ---------- Every interval is used, and used once ----------

  /** Nothing waits while the interval's budget is not used up. */
  ghost predicate Busy(limit: Limit, s: State)
  {
    s.queue != [] ==> s.written == limit.budget
  }

  lemma ProcessIsBusy(limit: Limit, s: State, now: Instant, reentry: seq<seq<Chunk>>)
    requires WithinBudget(limit, s)
    ensures Busy(limit, Process(limit, s, now, reentry).state)
  {
    var open := Opened(limit, s, now);
    ReleaseDrains(open.queue, Room(limit, open.written), reentry);
  }

  lemma {:induction false} NothingWaitsInVain(limit: Limit, events: seq<Event>)
    requires !limit.unlimited
    ensures Busy(limit, Run(limit, events).state)
  {
    if events != [] {
      var n := |events| - 1;
      var before := Run(limit, events[..n]).state;
      RunIsAtRest(limit, events[..n]);
      RunLast(limit, events);
      match events[n]
      case Send(at, chunk, reentry) => ProcessIsBusy(limit, before.(queue := before.queue + [chunk]), at, reentry);
      case Fire(at, reentry) => ProcessIsBusy(limit, before, at, reentry);
    }
  }

  /** All that was sent since the current interval began is counted in it, and nothing was sent after its end. */
  ghost predicate Counted(limit: Limit, log: Log)
  {
    match log.state.start
    case None => forall i :: 0 <= i < |log.sent| ==> log.sent[i].bytes == []
    case Some(start) =>
      && (forall i :: 0 <= i < |log.sent| && log.sent[i].bytes != [] ==> log.sent[i].at <= start + limit.interval)
      && Volume(log.sent, start, start + limit.interval) == log.state.written
  }

  lemma {:induction false} SilentVolume(sent: seq<Stamped>, from: real, to: real)
    requires forall i :: 0 <= i < |sent| && sent[i].bytes != [] ==> sent[i].at < from
    ensures Volume(sent, from, to) == 0
  {
    if sent != [] {
      SilentVolume(sent[..|sent| - 1], from, to);
    }
  }

  lemma CountedOn(limit: Limit, log: Log, s: State, at: Instant, reentry: seq<seq<Chunk>>)
    requires Counted(limit, log) && s.start == log.state.start && s.written == log.state.written
    requires log.state.start.Some? ==> log.state.start.value <= at
    ensures var o := Process(limit, s, at, reentry);
      Counted(limit, Log(o.state, log.accepted, log.sent + [Stamped(at, Flatten(o.sent))]))
  {
    var o := Process(limit, s, at, reentry);
    if s.queue != [] {
      OpenedIsCounted(limit, log, at);
      var open := Opened(limit, log.state, at);
      StampCounts(limit, log.(state := open), o.state, Stamped(at, Flatten(o.sent)));
    } else {
      StampCounts(limit, log, s, Stamped(at, []));
    }
  }

  lemma OpenedIsCounted(limit: Limit, log: Log, at: Instant)
    requires Counted(limit, log)
    ensures Counted(limit, log.(state := Opened(limit, log.state, at)))
  {
    if Opened(limit, log.state, at) != log.state {
      SilentVolume(log.sent, at, at + limit.interval);
    }
  }

  lemma StampCounts(limit: Limit, log: Log, after: State, last: Stamped)
    requires Counted(limit, log) && after.start == log.state.start
    requires after.written == log.state.written + |last.bytes|
    requires last.bytes != [] ==>
      log.state.start.Some? && log.state.start.value <= last.at <= log.state.start.value + limit.interval
    ensures Counted(limit, Log(after, log.accepted, log.sent + [last]))
  {
    if log.state.start.Some? {
      VolumeSnoc(log.sent, last, log.state.start.value, log.state.start.value + limit.interval);
    }
  }

  lemma StepCounts(limit: Limit, log: Log, e: Event)
    requires !limit.unlimited && Counted(limit, log)
    requires log.state.start.Some? ==> log.state.start.value <= e.at
    ensures Counted(limit, Step(limit, log, e))
  {
    match e
    case Send(at, chunk, reentry) =>
      CountedOn(limit, log, log.state.(queue := log.state.queue + [chunk]), at, reentry);
    case Fire(at, reentry) => CountedOn(limit, log, log.state, at, reentry);
  }

  /** In every run `written` is exactly what was sent from the start of the current interval to its last instant. */
  lemma {:induction false} IntervalIsCounted(limit: Limit, events: seq<Event>)
    requires !limit.unlimited && Ordered(events)
    ensures Counted(limit, Run(limit, events))
  {
    if events != [] {
      var n := |events| - 1;
      RunLast(limit, events);
      IntervalIsCounted(limit, events[..n]);
      StartsInThePast(limit, events[..n]);
      StepCounts(limit, Run(limit, events[..n]), events[n]);
    }
  }

  lemma NextStart(limit: Limit, log: Log, e: Event)
    requires log.state.start.Some? && !limit.unlimited
    ensures var start := Step(limit, log, e).state.start;
      start == log.state.start || (start == Some(e.at) && e.at > log.state.start.value + limit.interval)
  {
  }

  /** The interval that began at `start` has had one budget at most, and the next one begins after its end. */
  ghost predicate Bounded(limit: Limit, log: Log, start: real)
  {
    var now := log.state.start;
    && Volume(log.sent, start, start + limit.interval) <= limit.budget
    && now.Some? && (now.value == start || now.value > start + limit.interval)
  }

  lemma StepBounded(limit: Limit, log: Log, e: Event, start: real)
    requires !limit.unlimited && Bounded(limit, log, start) && log.state.start.value <= e.at
    requires Counted(limit, Step(limit, log, e)) && AtRest(limit, Step(limit, log, e).state)
    ensures Bounded(limit, Step(limit, log, e), start)
  {
    NextStart(limit, log, e);
    StepVolume(limit, log, e, start, start + limit.interval);
  }

  ghost predicate Regular(limit: Limit, log: Log)
  {
    Counted(limit, log) && AtRest(limit, log.state)
  }

  lemma RunIsRegular(limit: Limit, events: seq<Event>)
    requires !limit.unlimited && Ordered(events)
    ensures Regular(limit, Run(limit, events))
  {
    IntervalIsCounted(limit, events);
    RunIsAtRest(limit, events);
  }

  lemma {:induction false} StaysBounded(limit: Limit, first: seq<Event>, events: seq<Event>, start: real)
    requires !limit.unlimited && Ordered(events) && first <= events && Bounded(limit, Run(limit, first), start)
    ensures Bounded(limit, Run(limit, events), start)
    decreases |events|
  {
    if first != events {
      var before := events[..|events| - 1];
      PrefixOrdered(events, |before|);
      StaysBounded(limit, first, before, start);
      LastStaysBounded(limit, events, start);
    }
  }

  lemma LastStaysBounded(limit: Limit, events: seq<Event>, start: real)
    requires !limit.unlimited && Ordered(events) && events != []
    requires Bounded(limit, Run(limit, events[..|events| - 1]), start)
    ensures Bounded(limit, Run(limit, events), start)
  {
    var m := |events| - 1;
    RunLast(limit, events);
    StartsInThePast(limit, events[..m]);
    RunIsRegular(limit, events);
    StepBounded(limit, Run(limit, events[..m]), events[m], start);
  }

  lemma RegularIsBounded(limit: Limit, log: Log)
    requires Regular(limit, log) && log.state.start.Some?
    ensures Bounded(limit, log, log.state.start.value)
  {
  }

  lemma PrefixOrdered(events: seq<Event>, n: nat)
    requires Ordered(events) && n <= |events|
    ensures Ordered(events[..n])
  {
  }

  /** Every interval that a run opens lasts to its last instant included, and no more than one budget is sent in it. */
  lemma OneBudgetPerInterval(limit: Limit, events: seq<Event>, n: nat)
    requires !limit.unlimited && Ordered(events) && n <= |events| && Run(limit, events[..n]).state.start.Some?
    ensures Bounded(limit, Run(limit, events), Run(limit, events[..n]).state.start.value)
  {
    PrefixOrdered(events, n);
    RunIsRegular(limit, events[..n]);
    RegularIsBounded(limit, Run(limit, events[..n]));
    StaysBounded(limit, events[..n], events, Run(limit, events[..n]).state.start.value);
  }

  // ---------- Progress ----------

  function Fires(limit: Limit, s: State, times: seq<Instant>): State
    decreases |times|
  {
    if times == [] then s else Fires(limit, Process(limit, s, times[0], []).state, times[1..])
  }

  function Left(s: State): nat {
    |Flatten(s.queue)|
  }

  ghost predicate InOrder(s: State, times: seq<Instant>)
  {
    && (forall i, j :: 0 <= i < j < |times| ==> times[i] <= times[j])
    && (s.start.Some? && times != [] ==> s.start.value <= times[0])
  }

  /** One firing sends all that is left, or all that the interval still allows. */
  lemma FireSends(limit: Limit, s: State, now: Instant)
    requires AtRest(limit, s) && s.queue != []
    ensures var after := Process(limit, s, now, []).state; var open := Opened(limit, s, now);
      && AtRest(limit, after)
      && Left(after) <= Left(s)
      && (after.queue == [] || Left(after) + Room(limit, open.written) == Left(s))
      && after.start == open.start
  {
    ProcessKeeps(limit, s, now, []);
    var open := Opened(limit, s, now);
    var room := Room(limit, open.written);
    var b := Release(s.queue, room, []);
    ReleaseConserves(s.queue, room, []);
    ReleaseDrains(s.queue, room, []);
    assert Flatten(b.sent) + Flatten(b.queue) == Flatten(s.queue);
  }

  /** Firings, current and stale ones, at any times: once they reach beyond the current interval, they have sent a
      full budget or all that was left. */
  lemma {:induction false} FiringsSendABudget(limit: Limit, s: State, times: seq<Instant>)
    requires AtRest(limit, s) && InOrder(s, times)
    ensures var after := Fires(limit, s, times);
      && AtRest(limit, after)
      && Left(after) <= Left(s)
      && (after.start.Some? && times != [] ==> after.start.value <= times[|times| - 1])
      && (times != [] && s.start.Some? && times[|times| - 1] > s.start.value + limit.interval ==>
            after.queue == [] || Left(after) + limit.budget <= Left(s))
      && (s.queue == [] ==> after.queue == [])
    decreases |times|
  {
    if s.queue == [] {
      NothingToFire(limit, s, times);
    } else if times != [] {
      FireSends(limit, s, times[0]);
      FiringsSendABudget(limit, Process(limit, s, times[0], []).state, times[1..]);
    }
  }

  // ---------- The event loop ----------

  /** The limiter with the timeouts that the event loop holds for it, each under its handle with the earliest time
      it may fire at. `timer` is the handle the limiter remembers; older timeouts stay armed. */
  datatype Loop = Loop(state: State, armed: map<nat, real>, handles: nat, timer: Option<nat>)

  const IDLE_LOOP: Loop := Loop(FRESH.state, map[], 0, None)

  function ProcessLoop(limit: Limit, l: Loop, now: Instant, reentry: seq<seq<Chunk>>): Loop {
    if l.state.queue == [] then l
    else
      var after := Process(limit, l.state, now, reentry).state;
      if after.queue == [] then l.(state := after, timer := None)
      else Loop(after, l.armed[l.handles := now + limit.interval], l.handles + 1, Some(l.handles))
  }

  function SendLoop(limit: Limit, l: Loop, chunk: Chunk, now: Instant, reentry: seq<seq<Chunk>>): Loop {
    if limit.unlimited then l
    else ProcessLoop(limit, l.(state := l.state.(queue := l.state.queue + [chunk])), now, reentry)
  }

  function FireLoop(limit: Limit, l: Loop, handle: nat, now: Instant, reentry: seq<seq<Chunk>>): Loop {
    ProcessLoop(limit, l.(armed := l.armed - {handle}), now, reentry)
  }

  function ClearLoop(l: Loop): Loop {
    Loop(l.state.(start := None, queue := []),
         if l.timer.Some? then l.armed - {l.timer.value} else l.armed, l.handles, None)
  }

  datatype Tick =
    | Sent(at: Instant, chunk: Chunk, reentry: seq<seq<Chunk>>)
    | Fired(at: Instant, handle: nat, reentry: seq<seq<Chunk>>)
    | Cleared(at: Instant)

  predicate CanTick(l: Loop, t: Tick) {
    t.Fired? ==> t.handle in l.armed && l.armed[t.handle] <= t.at
  }

  function TickLoop(limit: Limit, l: Loop, t: Tick): Loop {
    match t
    case Sent(at, chunk, reentry) => SendLoop(limit, l, chunk, at, reentry)
    case Fired(at, handle, reentry) => FireLoop(limit, l, handle, at, reentry)
    case Cleared(_) => ClearLoop(l)
  }

  function RunLoop(limit: Limit, ticks: seq<Tick>): Loop {
    if ticks == [] then IDLE_LOOP
    else
      var l := RunLoop(limit, ticks[..|ticks| - 1]);
      var t := ticks[|ticks| - 1];
      if CanTick(l, t) then TickLoop(limit, l, t) else l
  }

  /** While anything is queued, the interval's budget is used up and the timeout that the limiter remembers is armed,
      and it is not due before the current interval is over. */
  ghost predicate Paced(limit: Limit, l: Loop)
  {
    && AtRest(limit, l.state) && Busy(limit, l.state)
    && (forall h :: h in l.armed ==> h < l.handles)
    && (l.timer.Some? <==> l.state.queue != [])
    && (l.timer.Some? ==>
          l.timer.value in l.armed && l.state.start.value + limit.interval <= l.armed[l.timer.value])
  }

  /** No timeout is due more than an interval ahead. */
  ghost predicate DueSoon(limit: Limit, l: Loop, now: real)
  {
    forall h :: h in l.armed ==> l.armed[h] <= now + limit.interval
  }

  lemma TickIsDueSoon(limit: Limit, l: Loop, t: Tick, now: real)
    requires CanTick(l, t) && DueSoon(limit, l, now) && now <= t.at
    ensures DueSoon(limit, TickLoop(limit, l, t), t.at)
  {
  }

  ghost predicate InThePast(l: Loop, now: Instant)
  {
    l.state.start.Some? ==> l.state.start.value <= now
  }

  lemma ProcessPaces(limit: Limit, l: Loop, now: Instant, reentry: seq<seq<Chunk>>)
    requires WithinBudget(limit, l.state) && (l.state.queue != [] ==> !limit.unlimited) && InThePast(l, now)
    requires (forall h :: h in l.armed ==> h < l.handles) && (l.state.queue == [] ==> l.timer.None?)
    ensures var after := ProcessLoop(limit, l, now, reentry); Paced(limit, after) && InThePast(after, now)
  {
    if l.state.queue != [] {
      ProcessKeeps(limit, l.state, now, reentry);
      ProcessIsBusy(limit, l.state, now, reentry);
    }
  }

  lemma TickPaces(limit: Limit, l: Loop, t: Tick)
    requires Paced(limit, l) && CanTick(l, t) && InThePast(l, t.at)
    ensures var after := TickLoop(limit, l, t); Paced(limit, after) && InThePast(after, t.at)
  {
    match t
    case Sent(at, chunk, reentry) =>
      if !limit.unlimited {
        ProcessPaces(limit, l.(state := l.state.(queue := l.state.queue + [chunk])), at, reentry);
      }
    case Fired(at, handle, reentry) => ProcessPaces(limit, l.(armed := l.armed - {handle}), at, reentry);
    case Cleared(_) =>
  }

  /** In every run of sends, firings and clears, as long as the clock does not run backwards. */
  lemma {:induction false} RunPaces(limit: Limit, ticks: seq<Tick>)
    requires forall i, j :: 0 <= i < j < |ticks| ==> ticks[i].at <= ticks[j].at
    ensures var l := RunLoop(limit, ticks);
      Paced(limit, l) && (ticks != [] ==> InThePast(l, ticks[|ticks| - 1].at)) && (ticks == [] ==> l == IDLE_LOOP)
    ensures ticks != [] ==> DueSoon(limit, RunLoop(limit, ticks), ticks[|ticks| - 1].at)
  {
    if ticks != [] {
      var n := |ticks| - 1;
      RunPaces(limit, ticks[..n]);
      var l := RunLoop(limit, ticks[..n]);
      assert n > 0 ==> ticks[..n][n - 1].at <= ticks[n].at;
      if CanTick(l, ticks[n]) {
        TickPaces(limit, l, ticks[n]);
        TickIsDueSoon(limit, l, ticks[n], if n == 0 then ticks[n].at else ticks[n - 1].at);
      }
    }
  }

  // a timeout runs, and nothing new is sent
  datatype Firing = Firing(handle: nat, at: Instant)

  function FiredOnce(limit: Limit, l: Loop, f: Firing): Loop {
    FireLoop(limit, l, f.handle, f.at, [])
  }

  function FiredAll(limit: Limit, l: Loop, firings: seq<Firing>): Loop
    decreases |firings|
  {
    if firings == [] then l else FiredAll(limit, FiredOnce(limit, l, firings[0]), firings[1..])
  }

  /** Each timeout is armed and due when it fires. */
  ghost predicate Legal(limit: Limit, l: Loop, firings: seq<Firing>)
    decreases |firings|
  {
    firings == [] ||
    (&& CanTick(l, Fired(firings[0].at, firings[0].handle, [])) && InThePast(l, firings[0].at)
     && Legal(limit, FiredOnce(limit, l, firings[0]), firings[1..]))
  }

  /** How many of the firings belong to the chain of `handle`: it, the timeout that its run arms, and so on. */
  function Generations(limit: Limit, l: Loop, firings: seq<Firing>, handle: nat): nat
    decreases |firings|
  {
    if firings == [] then 0
    else if firings[0].handle == handle then
      1 + Generations(limit, FiredOnce(limit, l, firings[0]), firings[1..], l.handles)
    else Generations(limit, FiredOnce(limit, l, firings[0]), firings[1..], handle)
  }

  /** Whether a timeout is due before, at or after the end of the current interval. */
  function Lead(limit: Limit, l: Loop, handle: nat): int
    requires handle in l.armed && l.state.start.Some?
  {
    var end := l.state.start.value + limit.interval;
    if l.armed[handle] < end then -1 else if l.armed[handle] == end then 0 else 1
  }

  function Half(count: int): nat {
    if count < 0 then 0 else count / 2
  }

  function Next(l: Loop, f: Firing, handle: nat): nat {
    if f.handle == handle then l.handles else handle
  }

  predicate Opens(limit: Limit, l: Loop, now: Instant)
    requires l.state.start.Some?
  {
    now - l.state.start.value > limit.interval
  }

  /** One firing: what it sends, and how the chain of `handle` stands afterwards. A firing that opens an interval
      sends a budget; one that does not puts off the chain's next one. */
  lemma FiringStep(limit: Limit, l: Loop, f: Firing, handle: nat)
    requires AtRest(limit, l.state) && l.state.queue != [] && InThePast(l, f.at)
    requires handle in l.armed && (forall h :: h in l.armed ==> h < l.handles)
    requires f.handle in l.armed && l.armed[f.handle] <= f.at
    ensures var after := FiredOnce(limit, l, f); var opens := Opens(limit, l, f.at);
      && AtRest(limit, after.state)
      && (after.state.queue != [] ==>
            && Next(l, f, handle) in after.armed && (forall h :: h in after.armed ==> h < after.handles)
            && Left(after.state) + (if opens then limit.budget else 0) <= Left(l.state)
            && (if opens then Lead(limit, after, Next(l, f, handle)) >= if f.handle == handle then 0 else -1
                else
                  Lead(limit, after, Next(l, f, handle)) - Lead(limit, l, handle)
                    >= if f.handle == handle then 1 else 0))
  {
    FireSends(limit, l.state, f.at);
  }

  lemma {:induction false} LoopIdles(limit: Limit, l: Loop, firings: seq<Firing>)
    requires l.state.queue == []
    ensures FiredAll(limit, l, firings).state.queue == []
    decreases |firings|
  {
    if firings != [] {
      LoopIdles(limit, FiredOnce(limit, l, firings[0]), firings[1..]);
    }
  }

  lemma {:induction false} MoreBudgetsSend(limit: Limit, few: nat, many: nat)
    requires few <= many
    ensures Budgets(limit, few) <= Budgets(limit, many)
  {
    if few < many {
      MoreBudgetsSend(limit, few, many - 1);
    }
  }

  lemma BudgetsAddUp(limit: Limit, before: int, later: int, opens: bool)
    requires before <= later + if opens then 2 else 0
    ensures Budgets(limit, Half(before)) <= Budgets(limit, Half(later)) + if opens then limit.budget else 0
  {
    MoreBudgetsSend(limit, Half(before), Half(later) + if opens then 1 else 0);
  }

  function Owing(limit: Limit, l: Loop, firings: seq<Firing>, handle: nat): nat
    requires handle in l.armed && l.state.start.Some?
  {
    Budgets(limit, Half(Generations(limit, l, firings, handle) + Lead(limit, l, handle)))
  }

  lemma OwingStep(limit: Limit, l: Loop, firings: seq<Firing>, handle: nat)
    requires AtRest(limit, l.state) && l.state.queue != [] && firings != [] && Legal(limit, l, firings)
    requires handle in l.armed && forall h :: h in l.armed ==> h < l.handles
    requires FiredOnce(limit, l, firings[0]).state.queue != []
    ensures var f := firings[0]; var middle := FiredOnce(limit, l, f); var next := Next(l, f, handle);
      && AtRest(limit, middle.state)
      && next in middle.armed && (forall h :: h in middle.armed ==> h < middle.handles)
      && Left(middle.state) + Owing(limit, l, firings, handle)
         <= Left(l.state) + Owing(limit, middle, firings[1..], next)
  {
    var f := firings[0];
    var middle := FiredOnce(limit, l, f);
    FiringStep(limit, l, f, handle);
    var next := Next(l, f, handle);
    BudgetsAddUp(limit, Generations(limit, l, firings, handle) + Lead(limit, l, handle),
                 Generations(limit, middle, firings[1..], next) + Lead(limit, middle, next), Opens(limit, l, f.at));
  }

  /** Every second firing of a chain sends a budget, whatever other timeouts fire in between. */
  lemma {:induction false} ChainSends(limit: Limit, l: Loop, firings: seq<Firing>, handle: nat)
    requires AtRest(limit, l.state) && l.state.queue != [] && Legal(limit, l, firings)
    requires handle in l.armed && forall h :: h in l.armed ==> h < l.handles
    ensures var after := FiredAll(limit, l, firings).state;
      after.queue == [] || Left(after) + Owing(limit, l, firings, handle) <= Left(l.state)
    decreases |firings|
  {
    if firings != [] {
      var middle := FiredOnce(limit, l, firings[0]);
      if middle.state.queue == [] {
        LoopIdles(limit, middle, firings[1..]);
      } else {
        OwingStep(limit, l, firings, handle);
        ChainSends(limit, middle, firings[1..], Next(l, firings[0], handle));
      }
    }
  }

  lemma DivisionCeils(n: nat, d: nat)
    requires d > 0
    ensures (n + d - 1) / d * d >= n && (n / d + 1) * d > n
  {
  }

  /** The quotient, rounded up. */
  function Enough(limit: Limit, bytes: nat): (count: nat)
    requires limit.budget > 0
    ensures Budgets(limit, count) >= bytes && count == (bytes + limit.budget - 1) / limit.budget
  {
    DivisionCeils(bytes, limit.budget);
    CountedProducts(limit, (bytes + limit.budget - 1) / limit.budget);
    (bytes + limit.budget - 1) / limit.budget
  }

  lemma ChainDrains(limit: Limit, l: Loop, firings: seq<Firing>, rounds: nat)
    requires Paced(limit, l) && l.timer.Some? && Legal(limit, l, firings)
    requires Generations(limit, l, firings, l.timer.value) >= 2 * rounds
    ensures var after := FiredAll(limit, l, firings).state;
      after.queue == [] || Left(after) + Budgets(limit, rounds) <= Left(l.state)
  {
    var handle := l.timer.value;
    ChainSends(limit, l, firings, handle);
    MoreBudgetsSend(limit, rounds, Half(Generations(limit, l, firings, handle) + Lead(limit, l, handle)));
  }

  /** Progress: N queued bytes are gone once the limiter's own timeout and its successors have fired
      2 * ceil(N / budget) times, stale timeouts in between or not. */
  lemma QueueDrains(limit: Limit, l: Loop, firings: seq<Firing>)
    requires Paced(limit, l) && l.timer.Some? && limit.budget > 0 && Legal(limit, l, firings)
    requires var bytes := Left(l.state);
      Generations(limit, l, firings, l.timer.value) >= 2 * ((bytes + limit.budget - 1) / limit.budget)
    ensures Left(FiredAll(limit, l, firings).state) == 0
  {
    ChainDrains(limit, l, firings, Enough(limit, Left(l.state)));
  }

  function MoreThanEnough(limit: Limit, bytes: nat): (count: nat)
    requires limit.budget > 0
    ensures Budgets(limit, count) > bytes
  {
    DivisionCeils(bytes, limit.budget);
    CountedProducts(limit, bytes / limit.budget + 1);
    bytes / limit.budget + 1
  }

  /** The last empty chunks may take two more firings. */
  lemma QueueEmpties(limit: Limit, l: Loop, firings: seq<Firing>)
    requires Paced(limit, l) && l.timer.Some? && limit.budget > 0 && Legal(limit, l, firings)
    requires Generations(limit, l, firings, l.timer.value) >= 2 * (Left(l.state) / limit.budget + 1)
    ensures FiredAll(limit, l, firings).state.queue == []
  {
    ChainDrains(limit, l, firings, MoreThanEnough(limit, Left(l.state)));
  }

  /** The timeout at which the chain of `handle` has arrived. */
  function ChainEnd(limit: Limit, l: Loop, firings: seq<Firing>, handle: nat): nat
    decreases |firings|
  {
    if firings == [] then handle
    else ChainEnd(limit, FiredOnce(limit, l, firings[0]), firings[1..], Next(l, firings[0], handle))
  }

  lemma {:induction false} ChainStaysArmed(limit: Limit, l: Loop, firings: seq<Firing>, handle: nat)
    requires AtRest(limit, l.state) && l.state.queue != [] && Legal(limit, l, firings)
    requires handle in l.armed && forall h :: h in l.armed ==> h < l.handles
    ensures var after := FiredAll(limit, l, firings);
      after.state.queue == [] || ChainEnd(limit, l, firings, handle) in after.armed
    decreases |firings|
  {
    if firings != [] {
      var middle := FiredOnce(limit, l, firings[0]);
      FiringStep(limit, l, firings[0], handle);
      if middle.state.queue == [] {
        LoopIdles(limit, middle, firings[1..]);
      } else {
        ChainStaysArmed(limit, middle, firings[1..], Next(l, firings[0], handle));
      }
    }
  }

  /** The chain does not break off: while anything is queued its next timeout is armed, and it has fired fewer than
      2 * (floor(N / budget) + 1) times since there were N bytes. */
  lemma ChainFiresUntilEmpty(limit: Limit, l: Loop, firings: seq<Firing>)
    requires Paced(limit, l) && l.timer.Some? && Legal(limit, l, firings)
    ensures var after := FiredAll(limit, l, firings); var handle := l.timer.value;
      after.state.queue == [] ||
      (&& ChainEnd(limit, l, firings, handle) in after.armed
       && (limit.budget > 0 ==>
             Generations(limit, l, firings, handle) < 2 * (Left(l.state) / limit.budget + 1)))
  {
    ChainStaysArmed(limit, l, firings, l.timer.value);
    if limit.budget > 0 && Generations(limit, l, firings, l.timer.value) >= 2 * (Left(l.state) / limit.budget + 1) {
      QueueEmpties(limit, l, firings);
    }
  }

  // ---------- In time ----------

  /** Every timeout runs when it is due, or at most `lag` later. */
  ghost predicate OnTime(limit: Limit, l: Loop, firings: seq<Firing>, lag: real)
    decreases |firings|
  {
    firings == [] ||
    (&& firings[0].handle in l.armed && firings[0].at <= l.armed[firings[0].handle] + lag
     && OnTime(limit, FiredOnce(limit, l, firings[0]), firings[1..], lag))
  }

  /** The time that `count` timeouts in a row take at most. */
  function Spans(limit: Limit, lag: real, count: nat): real {
    if count == 0 then 0.0 else Spans(limit, lag, count - 1) + limit.interval + lag
  }

  lemma {:induction false} SpansAdd(limit: Limit, lag: real, count: nat)
    ensures Spans(limit, lag, count) == count as real * (limit.interval + lag)
  {
    if count > 0 {
      SpansAdd(limit, lag, count - 1);
      assert (count - 1) as real * (limit.interval + lag) + (limit.interval + lag)
          == count as real * (limit.interval + lag);
    }
  }

  lemma NextIsFit(limit: Limit, l: Loop, f: Firing, handle: nat)
    requires AtRest(limit, l.state) && l.state.queue != [] && FiredOnce(limit, l, f).state.queue != []
    requires handle in l.armed && (forall h :: h in l.armed ==> h < l.handles)
    requires CanTick(l, Fired(f.at, f.handle, [])) && InThePast(l, f.at)
    ensures var middle := FiredOnce(limit, l, f);
      && AtRest(limit, middle.state) && Next(l, f, handle) in middle.armed
      && forall h :: h in middle.armed ==> h < middle.handles
  {
    FiringStep(limit, l, f, handle);
  }

  lemma NextIsDue(limit: Limit, l: Loop, f: Firing, handle: nat, lag: real)
    requires l.state.queue != [] && FiredOnce(limit, l, f).state.queue != []
    requires handle in l.armed && (forall h :: h in l.armed ==> h < l.handles)
    requires f.handle in l.armed && f.at <= l.armed[f.handle] + lag
    ensures var next := Next(l, f, handle); var middle := FiredOnce(limit, l, f);
      next in middle.armed
      && middle.armed[next] <= l.armed[handle] + if f.handle == handle then limit.interval + lag else 0.0
  {
  }

  lemma {:induction false} ChainIsDue(limit: Limit, l: Loop, firings: seq<Firing>, handle: nat, lag: real)
    requires AtRest(limit, l.state) && l.state.queue != [] && Legal(limit, l, firings) && OnTime(limit, l, firings, lag)
    requires handle in l.armed && forall h :: h in l.armed ==> h < l.handles
    ensures var after := FiredAll(limit, l, firings); var end := ChainEnd(limit, l, firings, handle);
      after.state.queue == [] ||
      (end in after.armed
       && after.armed[end] <= l.armed[handle] + Spans(limit, lag, Generations(limit, l, firings, handle)))
    decreases |firings|
  {
    if firings != [] {
      var middle := FiredOnce(limit, l, firings[0]);
      if middle.state.queue == [] {
        LoopIdles(limit, middle, firings[1..]);
      } else {
        NextIsFit(limit, l, firings[0], handle);
        NextIsDue(limit, l, firings[0], handle, lag);
        ChainIsDue(limit, middle, firings[1..], Next(l, firings[0], handle), lag);
      }
    }
  }

  lemma {:induction false} SpansGrow(limit: Limit, lag: real, few: nat, many: nat)
    requires few <= many && lag >= 0.0
    ensures Spans(limit, lag, few) <= Spans(limit, lag, many)
  {
    if few < many {
      SpansGrow(limit, lag, few, many - 1);
    }
  }

  lemma ChainHadToRun(limit: Limit, first: real, due: real, now: real, lag: real, count: nat, rounds: nat)
    requires lag >= 0.0 && count < 2 * rounds
    requires first <= now + limit.interval && due <= first + Spans(limit, lag, count)
    ensures due + lag <= now + Spans(limit, lag, 2 * rounds)
  {
    SpansGrow(limit, lag, count + 1, 2 * rounds);
  }

  ghost predicate NoneOverdue(l: Loop, lag: real, until: real)
  {
    forall h :: h in l.armed ==> l.armed[h] + lag > until
  }

  lemma RoundsInTime(limit: Limit, l: Loop, firings: seq<Firing>, now: real, lag: real, rounds: nat)
    requires Paced(limit, l) && DueSoon(limit, l, now) && l.timer.Some? && lag >= 0.0
    requires Legal(limit, l, firings) && OnTime(limit, l, firings, lag)
    requires NoneOverdue(FiredAll(limit, l, firings), lag, now + Spans(limit, lag, 2 * rounds))
    ensures var after := FiredAll(limit, l, firings).state;
      after.queue == [] || Left(after) + Budgets(limit, rounds) <= Left(l.state)
  {
    var handle := l.timer.value;
    var count := Generations(limit, l, firings, handle);
    if count >= 2 * rounds {
      ChainDrains(limit, l, firings, rounds);
    } else if FiredAll(limit, l, firings).state.queue != [] {
      ChainIsDue(limit, l, firings, handle, lag);
      var end := ChainEnd(limit, l, firings, handle);
      ChainHadToRun(limit, l.armed[handle], FiredAll(limit, l, firings).armed[end], now, lag, count, rounds);
      assert false;
    }
  }

  /** Progress in time: with no new input, if every timeout runs within `lag` of its due time and none that had to run
      by `until` is left, then N bytes that were queued at `now` are gone by
      `now` + 2 * ceil(N / budget) * (interval + lag). */
  lemma QueueDrainsInTime(limit: Limit, l: Loop, firings: seq<Firing>, now: real, lag: real, until: real)
    requires Paced(limit, l) && DueSoon(limit, l, now) && l.timer.Some? && limit.budget > 0 && lag >= 0.0
    requires Legal(limit, l, firings) && OnTime(limit, l, firings, lag)
    requires NoneOverdue(FiredAll(limit, l, firings), lag, until)
    requires until >= now + (2 * Enough(limit, Left(l.state))) as real * (limit.interval + lag)
    ensures Left(FiredAll(limit, l, firings).state) == 0
  {
    var rounds := Enough(limit, Left(l.state));
    SpansAdd(limit, lag, 2 * rounds);
    OverdueEarlier(FiredAll(limit, l, firings), lag, now + Spans(limit, lag, 2 * rounds), until);
    RoundsInTime(limit, l, firings, now, lag, rounds);
  }

  lemma OverdueEarlier(l: Loop, lag: real, early: real, late: real)
    requires NoneOverdue(l, lag, late) && early <= late
    ensures NoneOverdue(l, lag, early)
  {
  }

  /** The bound is tight: if the limiter's timeout is due exactly at the end of the interval, and it and its successors
      run exactly when they are due, only every second one sends anything. */
  lemma {:induction false} ExactTimeoutsSendEverySecondTime(limit: Limit, l: Loop, firings: seq<Firing>)
    requires Paced(limit, l) && l.timer.Some? && l.armed.Keys == {l.timer.value}
    requires var due, end := l.armed[l.timer.value], l.state.start.value + limit.interval;
      due == end || due == end + limit.interval
    requires Legal(limit, l, firings) && OnTime(limit, l, firings, 0.0)
    ensures Left(l.state) <= Left(FiredAll(limit, l, firings).state)
                             + Budgets(limit, Half(|firings| + Lead(limit, l, l.timer.value)))
    decreases |firings|
  {
    if firings != [] {
      var f := firings[0];
      var middle := FiredOnce(limit, l, f);
      ExactFiring(limit, l, f);
      if middle.state.queue == [] {
        NoneArmed(limit, middle, firings[1..]);
      } else {
        ExactTimeoutsSendEverySecondTime(limit, middle, firings[1..]);
      }
    }
  }

  lemma NoneArmed(limit: Limit, l: Loop, firings: seq<Firing>)
    requires l.armed == map[] && Legal(limit, l, firings)
    ensures firings == []
  {
  }

  lemma ExactFiring(limit: Limit, l: Loop, f: Firing)
    requires Paced(limit, l) && l.timer.Some? && l.armed.Keys == {l.timer.value}
    requires var due, end := l.armed[l.timer.value], l.state.start.value + limit.interval;
      due == end || due == end + limit.interval
    requires f.handle == l.timer.value && f.at == l.armed[f.handle]
    ensures var after := FiredOnce(limit, l, f); var lead := Lead(limit, l, l.timer.value);
      && Paced(limit, after)
      && (after.state.queue == [] ==> after.armed == map[])
      && (after.state.queue != [] ==>
            && after.armed.Keys == {after.timer.value} && Lead(limit, after, after.timer.value) == 1 - lead
            && var due, end := after.armed[after.timer.value], after.state.start.value + limit.interval;
               due == end || due == end + limit.interval)
      && Left(l.state) <= Left(after.state) + if lead == 1 then limit.budget else 0
  {
    ProcessPaces(limit, l.(armed := l.armed - {f.handle}), f.at, []);
    var open := Opened(limit, l.state, f.at);
    ReleaseConserves(open.queue, Room(limit, open.written), []);
    assert Reentered([], |Release(open.queue, Room(limit, open.written), []).sent|) == [];
  }

  lemma {:induction false} NothingToFire(limit: Limit, s: State, times: seq<Instant>)
    requires s.queue == []
    ensures Fires(limit, s, times) == s
    decreases |times|
  {
    if times != [] {
      NothingToFire(limit, s, times[1..]);
    }
  }

  /** A limited rate is silent in every run if and only if it allows less than one byte per interval. */
  lemma ProgressNeedsABudget(bytesPerSecond: real, interval: real)
    requires bytesPerSecond > 0.0 && interval > 0.0
    ensures bytesPerSecond * interval < 1000.0 <==>
            forall events :: SentBytes(Run(Configure(bytesPerSecond, interval), events).sent) == []
  {
    var limit := Configure(bytesPerSecond, interval);
    if limit.budget == 0 {
      forall events ensures SentBytes(Run(limit, events).sent) == [] {
        NoBudgetSendsNothing(limit, events);
      }
    } else {
      BudgetSendsAByte(limit);
    }
  }

  lemma BudgetSendsAByte(limit: Limit)
    requires !limit.unlimited && limit.budget > 0
    ensures SentBytes(Run(limit, [Send(1.0, [7], [])]).sent) == [7]
  {
    var e := Send(1.0, [7], []);
    assert Release([[7]], limit.budget, []) == Burst([[7]], []);
    assert [] + [e.chunk] == [[7]];
    assert Effect(limit, FRESH.state, e).sent == [[7]];
    FlattenOne<Byte>([7]);
    RunLast(limit, [e]);
    SentBytesSnoc([], Stamped(1.0, [7]));
  }

  lemma NoBudgetNoEffect(limit: Limit, s: State, e: Event)
    requires !limit.unlimited && limit.budget == 0
    ensures Effect(limit, s, e).sent == []
  {
  }

  lemma {:induction false} NoBudgetSendsNothing(limit: Limit, events: seq<Event>)
    requires !limit.unlimited && limit.budget == 0
    ensures SentBytes(Run(limit, events).sent) == []
  {
    if events != [] {
      var n := |events| - 1;
      NoBudgetSendsNothing(limit, events[..n]);
      RunLast(limit, events);
      var before := Run(limit, events[..n]);
      NoBudgetNoEffect(limit, before.state, events[n]);
      SentBytesSnoc(before.sent, Stamped(events[n].at, []));
    }
  }

  // ---------- The limiter object ----------

  /** A loop that has come to `sent` and `written` and has `rest` to do ends with these values. */
  datatype LoopEnd = LoopEnd(sent: seq<Chunk>, queue: seq<Chunk>, written: nat)

  function EndOf(sent: seq<Chunk>, written: nat, rest: Burst): LoopEnd {
    LoopEnd(sent + rest.sent, rest.queue, written + |Flatten(rest.sent)|)
  }

  lemma EndOfStep(sent: seq<Chunk>, written: nat, queue: seq<Chunk>, room: nat, calls: seq<seq<Chunk>>)
    requires queue != [] && room > 0
    ensures var chunk := CutOff(queue, room);
      EndOf(sent, written, Release(queue, room, calls))
      == EndOf(sent + [chunk], written + |chunk|,
               Release(CutRest(queue, room) + Front(calls), room - |chunk|, Rest(calls)))
  {
    var chunk := CutOff(queue, room);
    var next := Release(CutRest(queue, room) + Front(calls), room - |chunk|, Rest(calls));
    Assoc(sent, [chunk], next.sent);
    FlattenCons(chunk, next.sent);
  }

  /** What the loop that stands at `sent` and `written` will end with. */
  function Ending(limit: Limit, sent: seq<Chunk>, written: nat, queue: seq<Chunk>, calls: seq<seq<Chunk>>): LoopEnd {
    EndOf(sent, written, Release(queue, Room(limit, written), calls))
  }

  lemma EndingStep(limit: Limit, sent: seq<Chunk>, written: nat, queue: seq<Chunk>, calls: seq<seq<Chunk>>)
    requires queue != [] && written < limit.budget
    ensures var room := limit.budget - written; var chunk := CutOff(queue, room);
      Ending(limit, sent, written, queue, calls)
      == Ending(limit, sent + [chunk], written + |chunk|, CutRest(queue, room) + Front(calls), Rest(calls))
  {
    var room := limit.budget - written;
    EndOfStep(sent, written, queue, room, calls);
    assert Room(limit, written) == room && Room(limit, written + |CutOff(queue, room)|) == room - |CutOff(queue, room)|;
  }

  lemma EndingNow(limit: Limit, sent: seq<Chunk>, written: nat, queue: seq<Chunk>, calls: seq<seq<Chunk>>)
    requires queue == [] || written >= limit.budget
    ensures Ending(limit, sent, written, queue, calls) == LoopEnd(sent, queue, written)
  {
    EndOfNothing(sent, written, queue);
  }

  /** One processing run is such a loop in the interval that it opens or finds open. */
  lemma EndingIsProcess(limit: Limit, s: State, now: Instant, sent: seq<Chunk>, calls: seq<seq<Chunk>>)
    requires s.queue != []
    ensures var open := Opened(limit, s, now); var o := Process(limit, s, now, calls);
      && Ending(limit, sent, open.written, open.queue, calls)
         == LoopEnd(sent + o.sent, o.state.queue, o.state.written)
      && o.state.start == open.start
  {
  }

  lemma EndOfNothing(sent: seq<Chunk>, written: nat, queue: seq<Chunk>)
    ensures EndOf(sent, written, Burst([], queue)) == LoopEnd(sent, queue, written)
  {
    assert sent + [] == sent;
  }

  class DataRateLimiter {
    const limit: Limit
    var intervalStart: Option<Instant>    // intervalStartProcessingTime
    var intervalWritten: nat              // intervalWrittenBytesAmount
    var queue: seq<Chunk>                 // rateLimitQueue
    var processing: bool
    var timer: Option<nat>                // rateLimitTimer, the handle of the last timeout set
    var armed: map<nat, real>             // timeouts the event loop still holds, with their earliest firing times
    var handles: nat                      // handles given out so far
    var sent: seq<Chunk>                  // arguments of the calls to options.send so far

    ghost function View(): State
      reads this
    {
      State(intervalStart, intervalWritten, queue)
    }

    ghost function LoopView(): Loop
      reads this
    {
      Loop(View(), armed, handles, timer)
    }

    ghost predicate Valid()
      reads this
    {
      && !processing
      && AtRest(limit, View())
      && (timer.Some? <==> queue != [])
      && (timer.Some? ==> timer.value in armed)
      && (forall h :: h in armed ==> h < handles)
    }

    constructor (bytesPerSecond: real, interval: real)
      requires bytesPerSecond >= 0.0 && interval > 0.0
      ensures Valid() && limit == Configure(bytesPerSecond, interval)
      ensures LoopView() == IDLE_LOOP && sent == []
    {
      limit := Configure(bytesPerSecond, interval);
      intervalStart, intervalWritten, queue, processing := None, 0, [], false;
      timer, armed, handles, sent := None, map[], 0, [];
    }

    /** Forgets the queue and the interval, and cancels the timeout it holds the handle of; older ones stay armed. */
    method Clear()
      requires Valid()
      modifies this
      ensures Valid() && LoopView() == ClearLoop(old(LoopView())) && sent == old(sent)
      ensures queue == [] && intervalStart == None && timer == None
      ensures armed == if old(timer).Some? then old(armed) - {old(timer).value} else old(armed)
    {
      intervalStart := None;
      if timer.Some? {
        armed := armed - {timer.value};
      }
      timer := None;
      queue := [];
    }

    method Send(chunk: Chunk, now: Instant, reentry: seq<seq<Chunk>>)
      requires Valid()
      modifies this
      ensures Valid()
      ensures LoopView() == SendLoop(limit, old(LoopView()), chunk, now, reentry)
      ensures var o := Submit(limit, old(View()), chunk, now, reentry);
        View() == o.state && sent == old(sent) + o.sent
    {
      if limit.unlimited {
        sent := sent + [chunk];
      } else {
        queue := queue + [chunk];
        ProcessRateLimitQueue(now, reentry);
      }
    }

    /** The event loop runs the timeout with handle `h`, whether or not it is the one the limiter still knows. */
    method TimerFired(h: nat, now: Instant, reentry: seq<seq<Chunk>>)
      requires Valid() && h in armed && armed[h] <= now
      modifies this
      ensures Valid() && LoopView() == FireLoop(limit, old(LoopView()), h, now, reentry)
      ensures sent == old(sent) + Process(limit, old(View()), now, reentry).sent
    {
      armed := armed - {h};
      ProcessRateLimitQueue(now, reentry);
    }

    method ProcessRateLimitQueue(now: Instant, reentry: seq<seq<Chunk>>)
      requires !processing && WithinBudget(limit, View())
      requires queue == [] ==> timer == None
      requires queue != [] ==> !limit.unlimited
      requires forall h :: h in armed ==> h < handles
      modifies this
      ensures Valid() && LoopView() == ProcessLoop(limit, old(LoopView()), now, reentry)
      ensures old(queue) != [] && queue != [] ==> timer.Some? && armed[timer.value] == now + limit.interval
      ensures sent == old(sent) + Process(limit, old(View()), now, reentry).sent
    {
      if processing || queue == [] {
        return;
      }
      ProcessKeeps(limit, View(), now, reentry);
      EndingIsProcess(limit, View(), now, sent, reentry);
      processing := true;
      OpenInterval(now);
      timer := None;

      WriteWithinBudget(reentry);
      if queue != [] {
        SetTimer(now + limit.interval);
      }
      processing := false;
    }

    method SetTimer(due: real)
      requires forall h :: h in armed ==> h < handles
      modifies `timer, `armed, `handles
      ensures timer == Some(old(handles)) && armed == old(armed)[old(handles) := due] && handles == old(handles) + 1
    {
      timer := Some(handles);
      armed := armed[handles := due];
      handles := handles + 1;
    }

    method OpenInterval(now: Instant)
      modifies `intervalStart, `intervalWritten
      ensures View() == Opened(limit, old(View()), now)
    {
      if intervalStart.Some? && now - intervalStart.value > limit.interval {
        intervalStart := None;
      }
      if intervalStart == None {
        intervalStart := Some(now);
        intervalWritten := 0;
      }
    }

    /** The first buffer of the queue, cut if it overruns the budget. */
    method NextBuffer() returns (bufferToSend: Chunk)
      requires queue != [] && intervalWritten < limit.budget
      modifies `queue
      ensures var room := limit.budget - intervalWritten;
        bufferToSend == CutOff(old(queue), room) && queue == CutRest(old(queue), room)
    {
      var currentBuffer := queue[0];
      var remaining := limit.budget - intervalWritten;
      if |currentBuffer| <= remaining {
        bufferToSend := currentBuffer;
        queue := queue[1..];
      } else {
        bufferToSend := currentBuffer[..remaining];
        queue := [currentBuffer[remaining..]] + queue[1..];
      }
    }

    /** The loop of one processing run: it hands out buffers, cutting the one that overruns the budget. */
    method WriteWithinBudget(reentry: seq<seq<Chunk>>)
      requires processing
      modifies `queue, `sent, `intervalWritten
      ensures LoopEnd(sent, queue, intervalWritten)
              == Ending(limit, old(sent), old(intervalWritten), old(queue), reentry)
    {
      ghost var end := Ending(limit, sent, intervalWritten, queue, reentry);
      var calls := reentry;
      while queue != [] && intervalWritten < limit.budget
        invariant end == Ending(limit, sent, intervalWritten, queue, calls)
        decreases |calls|, limit.budget - intervalWritten, |queue|
      {
        EndingStep(limit, sent, intervalWritten, queue, calls);
        var bufferToSend := NextBuffer();
        // options.send(bufferToSend): a send() made from inside it finds `processing` set and only queues
        sent := sent + [bufferToSend];
        queue := queue + Front(calls);
        calls := Rest(calls);
        intervalWritten := intervalWritten + |bufferToSend|;
      }
      EndingNow(limit, sent, intervalWritten, queue, calls);
    }
  }
}
