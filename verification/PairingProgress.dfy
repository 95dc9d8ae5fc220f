/** Progress of the pairing: who will still meet, and when nobody can. */
module Meetings {
  import opened Bytes
  import opened Pairing

  /** The last CONNECT of a waiting participant reaches one that has not begun yet and does not list it. */
  predicate Drops(w: World, m: Packet) {
    && m.body.CONNECT? && m.from != m.to && m.from in w.peers && m.to in w.peers
    && w.peers[m.from].state.Connecting? && w.peers[m.to].state.Idle?
    && m.from !in w.peers[m.to].participants && w.net[m] == 1
  }

  /** A connected participant whose opponent has left learns of it, and starts connecting again. */
  predicate Restarts(w: World, e: Event) {
    && (e.HungUp? || (e.Registered? && !e.fits)) && e.at in w.peers && e.other !in w.peers
    && w.peers[e.at].state.Connected? && w.peers[e.at].opponent == Some(e.other)
  }

  /** `q` is not listed by `at`, and has not got through to it either. */
  predicate Misses(w: World, at: Id, q: Id)
    requires at in w.peers && q in w.peers
  {
    && q !in w.peers[at].participants && Packet(at, q, CONNECT) !in w.net
    && match w.peers[q].state
       case Idle => at !in w.peers[q].participants
       case Connecting => Packet(q, at, CONNECT) !in w.net
       case Connected => false
  }

  ghost predicate Loses(w: World, e: Event)
  {
    || (e.Deliver? && Drops(w, e.packet))
    || (Restarts(w, e) && exists q :: q in w.peers && q != e.at && Misses(w, e.at, q))
  }

  ghost predicate Calm(events: seq<Event>)
  {
    events == [] || (Calm(events[..|events| - 1]) && !Loses(Run(events[..|events| - 1]), events[|events| - 1]))
  }

  ghost predicate WillMeet(w: World, p: Id, q: Id)
    requires p in w.peers && q in w.peers
  {
    match (w.peers[p].state, w.peers[q].state)
    case (Connecting, Connecting) => Packet(p, q, CONNECT) in w.net || Packet(q, p, CONNECT) in w.net
    case (Idle, Connecting) => Packet(q, p, CONNECT) in w.net || q in w.peers[p].participants
    case (Connecting, Idle) => Packet(p, q, CONNECT) in w.net || p in w.peers[q].participants
    case (Idle, Idle) => q in w.peers[p].participants || p in w.peers[q].participants
    case _ => true
  }

  ghost predicate AllWillMeet(w: World)
  {
    forall p, q :: p in w.peers && q in w.peers && p != q ==> WillMeet(w, p, q)
  }

  lemma OthersStillMeet(w: World, v: World, id: Id)
    requires AllWillMeet(w)
    requires forall p :: p in v.peers && p != id ==> p in w.peers && v.peers[p] == w.peers[p]
    requires forall m :: m in w.net && m.from != id && m.to != id ==> m in v.net
    requires id in v.peers ==> forall q :: q in v.peers && q != id ==> WillMeet(v, id, q)
    ensures AllWillMeet(v)
  {
    forall p, q | p in v.peers && q in v.peers && p != q ensures WillMeet(v, p, q) {
      if p == id {
        assert WillMeet(v, id, q);
      } else if q == id {
        assert WillMeet(v, id, p);
      } else {
        assert WillMeet(w, p, q);
      }
    }
  }

  lemma UpdateWillMeet(w: World, id: Id, r: Reaction)
    requires AllWillMeet(w) && id in w.peers
    requires r.peer.state == w.peers[id].state || r.peer.state.Connected?
    requires w.peers[id].participants * w.peers.Keys <= r.peer.participants
    ensures AllWillMeet(Update(w, id, r))
  {
    var v := Update(w, id, r);
    forall q | q in v.peers && q != id ensures WillMeet(v, id, q) {
      assert WillMeet(w, id, q);
    }
    OthersStillMeet(w, v, id);
  }

  lemma BeginWillMeet(w: World, id: Id)
    requires AllWillMeet(w) && Possible(w, Begin(id))
    ensures AllWillMeet(Step(w, Begin(id)))
  {
    var v := Step(w, Begin(id));
    forall q | q in v.peers && q != id ensures WillMeet(v, id, q) {
      assert WillMeet(w, id, q);
      assert q in w.peers[id].participants ==> Packet(id, q, CONNECT) in ConnectAll(id, w.peers[id].participants);
    }
    OthersStillMeet(w, v, id);
  }

  lemma RestWillMeet(w: World, m: Packet, q: Id)
    requires m.to in w.peers && q in w.peers && q != m.to && m in w.net
    requires WillMeet(w, m.to, q) && !Drops(w, m) && (m.body.CONNECT? ==> !w.peers[m.to].state.Connecting?)
    ensures WillMeet(w.(net := w.net - multiset{m}), m.to, q)
  {
    var rest := w.net - multiset{m};
    assert forall k: Packet :: k != m && k in w.net ==> k in rest;
    assert w.net[m] != 1 ==> m in rest;
  }

  lemma MessageWillMeet(w: World, m: Packet, q: Id)
    requires m.to in w.peers && q in w.peers && q != m.to && m in w.net
    requires WillMeet(w, m.to, q) && Shape(w, m.to) && !Drops(w, m)
    ensures WillMeet(Step(w, Deliver(m)), m.to, q)
  {
    var p := w.peers[m.to];
    if !OnMessage(m.to, p, m).peer.state.Connected? {
      RestWillMeet(w, m, q);
    }
  }

  lemma DeliverWillMeet(w: World, m: Packet)
    requires Matching(w) && AllWillMeet(w) && m in w.net && !Drops(w, m)
    ensures AllWillMeet(Step(w, Deliver(m)))
  {
    var v := Step(w, Deliver(m));
    if m.to in w.peers {
      assert Shape(w, m.to);
      forall q | q in v.peers && q != m.to ensures WillMeet(v, m.to, q) {
        MessageWillMeet(w, m, q);
      }
    }
    OthersStillMeet(w, v, m.to);
  }

  /** The exact condition, packet by packet: a delivery loses a meeting if and only if it drops a last CONNECT. */
  lemma DeliverMeetsExactly(w: World, m: Packet)
    requires Matching(w) && AllWillMeet(w) && m in w.net
    ensures AllWillMeet(Step(w, Deliver(m))) <==> !Drops(w, m)
  {
    if Drops(w, m) {
      assert !WillMeet(Step(w, Deliver(m)), m.to, m.from);
    } else {
      DeliverWillMeet(w, m);
    }
  }

  lemma RestartWillMeet(w: World, e: Event)
    requires AllWillMeet(w) && Possible(w, e) && Restarts(w, e)
    requires forall q :: q in w.peers && q != e.at ==> !Misses(w, e.at, q)
    ensures AllWillMeet(Step(w, e))
  {
    var v := Step(w, e);
    var rest := w.peers[e.at].participants - {e.other};
    assert v == Update(w, e.at, SetConnecting(e.at, w.peers[e.at].(participants := rest)));
    forall q | q in v.peers && q != e.at ensures WillMeet(v, e.at, q) {
      assert !Misses(w, e.at, q);
      assert q in rest ==> Packet(e.at, q, CONNECT) in ConnectAll(e.at, rest);
    }
    OthersStillMeet(w, v, e.at);
  }

  lemma MissedForGood(w: World, e: Event, q: Id)
    requires Possible(w, e) && Restarts(w, e) && q in w.peers && q != e.at && Misses(w, e.at, q)
    ensures !AllWillMeet(Step(w, e))
  {
    var v := Step(w, e);
    var rest := w.peers[e.at].participants - {e.other};
    assert v.net == w.net + ConnectAll(e.at, rest);
    assert forall m :: m in ConnectAll(e.at, rest) ==> m.from == e.at && m.to in rest;
    assert !WillMeet(v, e.at, q);
  }

  lemma NoRestartWillMeet(w: World, at: Id, other: Id)
    requires AllWillMeet(w) && at in w.peers && other !in w.peers
    requires !(w.peers[at].state.Connected? && w.peers[at].opponent == Some(other))
    ensures AllWillMeet(Update(w, at, OnHungUp(at, w.peers[at], other)))
  {
    UpdateWillMeet(w, at, OnHungUp(at, w.peers[at], other));
  }

  lemma StepWillMeet(w: World, e: Event)
    requires Matching(w) && AllWillMeet(w) && Possible(w, e) && !Loses(w, e)
    ensures AllWillMeet(Step(w, e))
  {
    if Restarts(w, e) {
      RestartWillMeet(w, e);
    } else {
      match e
      case Join(id, _) => OthersStillMeet(w, Step(w, e), id);
      case Depart(id) => OthersStillMeet(w, Step(w, e), id);
      case Begin(id) => BeginWillMeet(w, id);
      case Deliver(m) => DeliverWillMeet(w, m);
      case AnswerReady(id, origin) => UpdateWillMeet(w, id, OnAnswerReady(id, w.peers[id], origin));
      case Registered(at, other, fits) =>
        if fits {
          UpdateWillMeet(w, at, OnRegistered(at, w.peers[at], other, fits));
        } else {
          NoRestartWillMeet(w, at, other);
        }
      case HungUp(at, other) => NoRestartWillMeet(w, at, other);
    }
  }

  /** The exact condition, event by event: a meeting is lost if and only if a last CONNECT is dropped or a participant
      that starts again misses somebody. */
  lemma StepMeetsExactly(w: World, e: Event)
    requires Matching(w) && AllWillMeet(w) && Possible(w, e)
    ensures AllWillMeet(Step(w, e)) <==> !Loses(w, e)
  {
    if Restarts(w, e) && Loses(w, e) {
      var q :| q in w.peers && q != e.at && Misses(w, e.at, q);
      MissedForGood(w, e, q);
    } else if Loses(w, e) {
      DeliverMeetsExactly(w, e.packet);
    } else {
      StepWillMeet(w, e);
    }
  }

  lemma {:induction false} CalmRunMeets(events: seq<Event>)
    requires Calm(events)
    ensures AllWillMeet(Run(events))
  {
    if events != [] {
      var n := |events| - 1;
      CalmRunMeets(events[..n]);
      RunMatches(events[..n]);
      if Possible(Run(events[..n]), events[n]) {
        StepWillMeet(Run(events[..n]), events[n]);
      }
    }
  }

  /** No pairing deadlock, departures included: in a run that loses no meeting, once no CONNECT is in flight at most one
      participant is still connecting. */
  lemma NoPairingDeadlock(events: seq<Event>, p: Id, q: Id)
    requires Calm(events)
    requires forall m :: m in Run(events).net ==> !m.body.CONNECT?
    requires var w := Run(events);
      p in w.peers && q in w.peers && w.peers[p].state.Connecting? && w.peers[q].state.Connecting?
    ensures p == q
  {
    CalmRunMeets(events);
    assert p != q ==> WillMeet(Run(events), p, q);
  }

  /** The signal-server transport: whoever joins begins at once, and nobody leaves. */
  ghost predicate Prompt(events: seq<Event>)
  {
    && (forall i :: 0 <= i < |events| ==> !events[i].Depart?)
    && (forall i :: 0 <= i < |events| - 1 && events[i].Join? ==> events[i + 1] == Begin(events[i].id))
  }

  lemma {:induction false} OnlyTheNewestIsIdle(events: seq<Event>, p: Id)
    requires Prompt(events) && p in Run(events).peers && Run(events).peers[p].state.Idle?
    ensures events != [] && events[|events| - 1].Join? && events[|events| - 1].id == p
  {
    var n := |events| - 1;
    var w := Run(events[..n]);
    if Possible(w, events[n]) {
      StillIdle(w, events[n], p);
    }
    if p in w.peers && w.peers[p].state.Idle? {
      OnlyTheNewestIsIdle(events[..n], p);
      assert events[n] == Begin(p);
    }
  }

  lemma StillIdle(w: World, e: Event, p: Id)
    requires Possible(w, e) && p in Step(w, e).peers && Step(w, e).peers[p].state.Idle?
    ensures (e.Join? && e.id == p) || (p in w.peers && w.peers[p].state.Idle? && e != Begin(p))
  {
    match e
    case Deliver(m) => IdleDelivered(w, m, p);
    case Registered(at, other, fits) => IdleUpdated(w, at, OnRegistered(at, w.peers[at], other, fits), p);
    case HungUp(at, other) => IdleUpdated(w, at, OnHungUp(at, w.peers[at], other), p);
    case AnswerReady(id, origin) => IdleUpdated(w, id, OnAnswerReady(id, w.peers[id], origin), p);
    case _ =>
  }

  lemma IdleUpdated(w: World, id: Id, r: Reaction, p: Id)
    requires id in w.peers && (r.peer.state.Idle? ==> w.peers[id].state.Idle?)
    requires p in Update(w, id, r).peers && Update(w, id, r).peers[p].state.Idle?
    ensures p in w.peers && w.peers[p].state.Idle?
  {
  }

  lemma IdleDelivered(w: World, m: Packet, p: Id)
    requires m in w.net && p in Step(w, Deliver(m)).peers && Step(w, Deliver(m)).peers[p].state.Idle?
    ensures p in w.peers && w.peers[p].state.Idle?
  {
  }

  lemma OnlyDepartsLeave(w: World, e: Event)
    requires Possible(w, e) && !e.Depart?
    ensures Step(w, e).departed == w.departed
  {
  }

  lemma {:induction false} NobodyLeft(events: seq<Event>)
    requires forall e :: e in events ==> !e.Depart?
    ensures Run(events).departed == {}
  {
    if events != [] {
      var n := |events| - 1;
      NobodyLeft(events[..n]);
      if Possible(Run(events[..n]), events[n]) {
        OnlyDepartsLeave(Run(events[..n]), events[n]);
      }
    }
  }

  lemma NobodyRestarts(events: seq<Event>, e: Event)
    requires forall k :: k in events ==> !k.Depart?
    ensures !Restarts(Run(events), e)
  {
    NobodyLeft(events);
    RunMatches(events);
    assert forall at :: at in Run(events).peers ==> Shape(Run(events), at);
  }

  lemma {:induction false} PromptRunsAreCalm(events: seq<Event>)
    requires Prompt(events)
    ensures Calm(events)
  {
    if events != [] {
      var n := |events| - 1;
      PromptRunsAreCalm(events[..n]);
      NobodyRestarts(events[..n], events[n]);
      if events[n].Deliver? {
        var w := Run(events[..n]);
        if events[n].packet.to in w.peers && w.peers[events[n].packet.to].state.Idle? {
          OnlyTheNewestIsIdle(events[..n], events[n].packet.to);
        }
      }
    }
  }

  /** So the signal-server transport needs no condition on the order of announcements and messages. */
  lemma SignalServerNeverDeadlocks(events: seq<Event>, p: Id, q: Id)
    requires Prompt(events)
    requires forall m :: m in Run(events).net ==> !m.body.CONNECT?
    requires var w := Run(events);
      p in w.peers && q in w.peers && w.peers[p].state.Connecting? && w.peers[q].state.Connecting?
    ensures p == q
  {
    PromptRunsAreCalm(events);
    NoPairingDeadlock(events, p, q);
  }

  // ---------- A stalemate ----------

  lemma SecondIsAheadOfItsAnnouncement() returns (events: seq<Event>)
    ensures var w := Run(events);
      && w.peers.Keys == {1, 2} && w.departed == {} && w.net == multiset{Packet(2, 1, CONNECT)}
      && w.peers[1] == NewPeer({}) && Waiting(w, 2) && w.peers[2].jobs == multiset{}
  {
    events := GoEnter([], 1, {});
    events := GoJoin(events, 2);
    assert ConnectAll(2, {1}) == multiset{Packet(2, 1, CONNECT)};
  }

  /** A CONNECT that overtakes the announcement of its sender is dropped, and both sides wait. */
  lemma UnannouncedConnectDeadlocks() returns (events: seq<Event>)
    ensures var w := Run(events); Stalemate(w) && w.departed == {} && w.peers.Keys == {1, 2}
    ensures !Calm(events)
  {
    events := SecondIsAheadOfItsAnnouncement();
    events := Go(events, Deliver(Packet(2, 1, CONNECT)));
    events := GoBegin(events, 1);
    assert ConnectAll(1, {}) == multiset{};
    if Calm(events) {
      NoPairingDeadlock(events, 1, 2);
    }
  }

  /** Everyone waits, and nothing is in flight or in the making. */
  ghost predicate Stalemate(w: World)
  {
    w.net == multiset{} && forall id :: id in w.peers ==> Waiting(w, id) && w.peers[id].jobs == multiset{}
  }

  lemma StepKeepsStalemate(w: World, e: Event)
    requires Stalemate(w) && Possible(w, e) && !e.Join?
    ensures Stalemate(Step(w, e)) && Step(w, e).joined == w.joined
  {
  }

  /** A stalemate lasts until somebody joins. */
  lemma {:induction false} StalemateLasts(events: seq<Event>, more: seq<Event>)
    requires Stalemate(Run(events)) && forall e :: e in more ==> !e.Join?
    ensures Stalemate(Run(events + more))
  {
    if more == [] {
      assert events + [] == events;
    } else {
      var n := |more| - 1;
      assert (events + more)[..|events + more| - 1] == events + more[..n];
      StalemateLasts(events, more[..n]);
      if Possible(Run(events + more[..n]), more[n]) {
        StepKeepsStalemate(Run(events + more[..n]), more[n]);
      }
    }
  }

  /** The other way to get there: 3 joins unannounced and its CONNECTs find 1 and 2 connected; then 1 leaves. */
  lemma UnannouncedRestartDeadlocks() returns (events: seq<Event>)
    ensures var w := Run(events);
      Waiting(w, 2) && Waiting(w, 3) && forall m :: m in w.net ==> !m.body.CONNECT?
    ensures !Calm(events)
  {
    events := ThirdIsOutOfTouch();
    events := GoLose(events, 2, 1);
    assert ConnectAll(2, {}) == multiset{};
    if Calm(events) {
      NoPairingDeadlock(events, 2, 3);
    }
  }

  lemma GoIgnored(events: seq<Event>, m: Packet) returns (longer: seq<Event>)
    requires var w := Run(events); m in w.net && m.to in w.peers && m.body.CONNECT? && w.peers[m.to].state.Connected?
    ensures var w := Run(events); var v := Run(longer);
      v.peers == w.peers && v.joined == w.joined && v.net == w.net - multiset{m}
  {
    longer := Go(events, Deliver(m));
  }

  lemma ThirdCalls() returns (events: seq<Event>)
    ensures var w := Run(events);
      && w.peers.Keys == {1, 2, 3} && PairedWith(w, 1, 2) && AnswerTo(w, 2, 1) && Waiting(w, 3)
      && w.peers[2].participants == {1}
      && w.net == multiset{Packet(1, 2, SDP_OFFER(1)), Packet(3, 1, CONNECT), Packet(3, 2, CONNECT)}
  {
    events := TwoParticipantsPair();
    RunMatches(events);
    events := GoJoin(events, 3);
    assert ConnectAll(3, {1, 2}) == multiset{Packet(3, 1, CONNECT), Packet(3, 2, CONNECT)};
  }

  /** 1 and 2 are connected, 3 waits, and none of its CONNECTs is left. */
  lemma ThirdIsOutOfTouch() returns (events: seq<Event>)
    ensures var w := Run(events);
      && w.peers.Keys == {1, 2, 3} && AnswerTo(w, 2, 1) && Waiting(w, 3) && w.peers[2].participants == {1}
      && w.net == multiset{Packet(1, 2, SDP_OFFER(1))}
  {
    events := ThirdCalls();
    events := GoIgnored(events, Packet(3, 1, CONNECT));
    events := GoIgnored(events, Packet(3, 2, CONNECT));
  }
}
