/** The session descriptions that paired participants exchange. */
module Answers {
  import opened Bytes
  import opened Pairing

  /** The answer to an offer is ready while its creator is still the opponent, or while there is none. */
  predicate TimelyAt(w: World, e: Event) {
    e.AnswerReady? && Possible(w, e) ==> w.peers[e.id].opponent in {None, Some(e.origin)}
  }

  predicate Timely(events: seq<Event>) {
    events == [] || (Timely(events[..|events| - 1]) && TimelyAt(Run(events[..|events| - 1]), events[|events| - 1]))
  }

  predicate GoesHome(m: Packet) {
    m.body.SDP_ANSWER? ==> m.body.creator == m.from && m.body.origin == m.to
  }

  predicate Offered(w: World, from: Id, to: Id) {
    Packet(from, to, SDP_OFFER(from)) in w.sent
  }

  ghost predicate Traced(w: World)
  {
    && (forall m :: m in w.net ==> m in w.sent)
    && (forall m :: m in w.sent && m.body.SDP_OFFER? ==> m.body.origin == m.from)
    && (forall m :: m in w.sent && m.body.SDP_ANSWER? ==> m.body.creator == m.from && Offered(w, m.body.origin, m.from))
    && (forall p, q :: p in w.peers && q in w.peers[p].jobs ==> Offered(w, q, p))
    && (forall q, i :: q in w.peers && 0 <= i < |w.peers[q].applied| ==>
          var a := w.peers[q].applied[i];
          a.answer in w.sent && a.answer.to == q && a.answer.body.SDP_ANSWER? && a.recorded == Some(a.answer.from))
  }

  lemma UpdateKeepsTraced(w: World, id: Id, r: Reaction)
    requires Traced(w) && id in w.peers
    requires forall m :: m in r.sent && m.body.SDP_OFFER? ==> m.body.origin == m.from
    requires forall m :: m in r.sent && m.body.SDP_ANSWER? ==>
      m.body.creator == m.from && Offered(w, m.body.origin, m.from)
    requires forall q :: q in r.peer.jobs ==> Offered(w, q, id)
    requires forall i :: 0 <= i < |r.peer.applied| ==>
      var a := r.peer.applied[i];
      a.answer in w.sent && a.answer.to == id && a.answer.body.SDP_ANSWER? && a.recorded == Some(a.answer.from)
    ensures Traced(Update(w, id, r))
  {
    var v := Update(w, id, r);
    assert forall a, b :: Offered(w, a, b) ==> Offered(v, a, b);
  }

  lemma MessageKeepsTraced(w: World, m: Packet)
    requires Traced(w) && m.to in w.peers && m in w.sent
    ensures Traced(Update(w, m.to, OnMessage(m.to, w.peers[m.to], m)))
  {
    var p := w.peers[m.to];
    assert m.body.SDP_OFFER? ==> m == Packet(m.from, m.to, SDP_OFFER(m.from)) && Offered(w, m.from, m.to);
    MessageSends(m.to, p, m);
    MessageJobs(m.to, p, m);
    MessageApplies(m.to, p, m);
    UpdateKeepsTraced(w, m.to, OnMessage(m.to, p, m));
  }

  lemma NothingSentKeepsTraced(w: World, v: World)
    requires Traced(w) && v.sent == w.sent && v.net <= w.net
    requires forall p :: p in v.peers ==>
      (p in w.peers && v.peers[p] == w.peers[p]) || (v.peers[p].jobs == multiset{} && v.peers[p].applied == [])
    ensures Traced(v)
  {
    assert forall a, b :: Offered(w, a, b) <==> Offered(v, a, b);
  }

  lemma ConnectingKeepsTraced(w: World, id: Id, r: Reaction)
    requires Traced(w) && id in w.peers
    requires r.peer.jobs == w.peers[id].jobs && r.peer.applied == w.peers[id].applied
    requires forall m :: m in r.sent ==> m.body.CONNECT?
    ensures Traced(Update(w, id, r))
  {
    UpdateKeepsTraced(w, id, r);
  }

  lemma AnswerKeepsTraced(w: World, id: Id, origin: Id)
    requires Traced(w) && Possible(w, AnswerReady(id, origin))
    ensures Traced(Update(w, id, OnAnswerReady(id, w.peers[id], origin)))
  {
    UpdateKeepsTraced(w, id, OnAnswerReady(id, w.peers[id], origin));
  }

  lemma StepKeepsTraced(w: World, e: Event)
    requires Traced(w) && Possible(w, e)
    ensures Traced(Step(w, e))
  {
    match e
    case Join(_, _) => NothingSentKeepsTraced(w, Step(w, e));
    case Depart(_) => NothingSentKeepsTraced(w, Step(w, e));
    case Deliver(m) =>
      var rest := w.(net := w.net - multiset{m});
      NothingSentKeepsTraced(w, rest);
      if m.to in w.peers {
        MessageKeepsTraced(rest, m);
      }
    case Begin(id) => ConnectingKeepsTraced(w, id, SetConnecting(id, w.peers[id]));
    case AnswerReady(id, origin) => AnswerKeepsTraced(w, id, origin);
    case Registered(at, other, fits) => ConnectingKeepsTraced(w, at, OnRegistered(at, w.peers[at], other, fits));
    case HungUp(at, other) => ConnectingKeepsTraced(w, at, OnHungUp(at, w.peers[at], other));
  }

  lemma {:induction false} RunTraced(events: seq<Event>)
    ensures Traced(Run(events))
  {
    if events != [] {
      var w := Run(events[..|events| - 1]);
      RunTraced(events[..|events| - 1]);
      if Possible(w, events[|events| - 1]) {
        StepKeepsTraced(w, events[|events| - 1]);
      }
    }
  }

  // ---------- What is being answered ----------

  /** The author of an offer is answered by its answer peer, or has left; in the second case the one at work on the
      answer is no answer peer any more. */
  ghost predicate JobFits(w: World, p: Id, q: Id)
    requires p in w.peers
  {
    && q in w.joined
    && (AnswerTo(w, p, q) || (q !in w.peers && !(w.peers[p].state.Connected? && w.peers[p].isAnswer)))
  }

  /** While both are there, the creator of an answer is the answer peer of the one whose offer it answers. */
  ghost predicate Served(w: World, creator: Id, origin: Id)
  {
    && creator in w.joined && origin in w.joined
    && (creator in w.peers && origin in w.peers ==> AnswerTo(w, creator, origin))
  }

  ghost predicate Serving(w: World)
  {
    && (forall p, q :: p in w.peers && q in w.peers[p].jobs ==> JobFits(w, p, q))
    && (forall m :: m in w.sent && m.body.SDP_ANSWER? ==> Served(w, m.body.creator, m.body.origin))
  }

  lemma StaysJoined(w: World, e: Event, p: Id)
    requires Matching(w) && Possible(w, e) && p in w.joined
    ensures p in Step(w, e).joined && (p in Step(w, e).peers ==> p in w.peers)
  {
  }

  lemma ServedStays(w: World, e: Event, creator: Id, origin: Id)
    requires Matching(w) && Possible(w, e) && Served(w, creator, origin)
    ensures Served(Step(w, e), creator, origin)
  {
    StaysJoined(w, e, creator);
    StaysJoined(w, e, origin);
    if creator in Step(w, e).peers && origin in Step(w, e).peers {
      StepsPeer(w, e, creator);
      StaysConnected(w, e, creator);
    }
  }

  lemma JobStays(w: World, e: Event, p: Id, q: Id)
    requires Matching(w) && Possible(w, e) && p in w.peers && JobFits(w, p, q)
    requires p in Step(w, e).peers && q in Step(w, e).peers[p].jobs
    ensures JobFits(Step(w, e), p, q)
  {
    StaysJoined(w, e, q);
    StepsPeer(w, e, p);
    if AnswerTo(w, p, q) {
      StaysConnected(w, e, p);
    } else if e.Deliver? && e.packet.to == p {
      MessageJobs(p, w.peers[p], e.packet);
    }
  }

  lemma JobsComeByMessage(w: World, e: Event, p: Id, q: Id)
    requires Possible(w, e) && p in w.peers && q in PeerAfter(w, e, p).jobs && q !in w.peers[p].jobs
    ensures e.Deliver? && e.packet.to == p && q in OnMessage(p, w.peers[p], e.packet).peer.jobs
  {
  }

  /** A job is new only where an answer peer gets the offer of its opponent. */
  lemma NewJob(w: World, e: Event, p: Id, q: Id)
    requires Matching(w) && Traced(w) && Possible(w, e) && p in w.peers
    requires p in Step(w, e).peers && q in Step(w, e).peers[p].jobs && q !in w.peers[p].jobs
    ensures JobFits(Step(w, e), p, q)
  {
    StepsPeer(w, e, p);
    JobsComeByMessage(w, e, p, q);
    MessageJobs(p, w.peers[p], e.packet);
    assert Shape(w, p) && e.packet.from == q;
    StaysJoined(w, e, q);
    StaysConnected(w, e, p);
  }

  lemma NewcomerHasNoJobs(w: World, e: Event, p: Id)
    requires Possible(w, e) && p in Step(w, e).peers && p !in w.peers
    ensures Step(w, e).peers[p].jobs == multiset{}
  {
  }

  lemma StepKeepsServing(w: World, e: Event)
    requires Matching(w) && Traced(w) && Possible(w, e) && Serving(w)
    ensures Serving(Step(w, e))
  {
    var v := Step(w, e);
    forall p, q | p in v.peers && q in v.peers[p].jobs ensures JobFits(v, p, q) {
      if p in w.peers && q in w.peers[p].jobs {
        JobStays(w, e, p, q);
      } else if p in w.peers {
        NewJob(w, e, p, q);
      } else {
        NewcomerHasNoJobs(w, e, p);
      }
    }
    forall m | m in v.sent && m.body.SDP_ANSWER? ensures Served(v, m.body.creator, m.body.origin) {
      if m !in w.sent {
        NewAnswers(w, e, m);
        assert JobFits(w, e.id, e.origin);
      }
      ServedStays(w, e, m.body.creator, m.body.origin);
    }
  }

  lemma {:induction false} RunServes(events: seq<Event>)
    ensures Serving(Run(events))
  {
    if events != [] {
      var n := |events| - 1;
      RunServes(events[..n]);
      if Possible(Run(events[..n]), events[n]) {
        RunMatches(events[..n]);
        RunTraced(events[..n]);
        StepKeepsServing(Run(events[..n]), events[n]);
      }
    }
  }

  /** A pair that crossed counts as connected but never finishes its exchange: until one of the two leaves, neither
      creates an answer to the other's offer, so neither ever applies one. */
  lemma CrossedPairsNeverFinish(events: seq<Event>, more: seq<Event>, p: Id, q: Id)
    requires Crossed(Run(events), p, q) && forall e :: e in more ==> LeavesAlone(e, p, q)
    ensures var w := Run(events + more);
      && Crossed(w, p, q)
      && (forall m :: m in w.sent ==> m.body !in {SDP_ANSWER(p, q), SDP_ANSWER(q, p)})
      && (forall a :: a in w.peers[p].applied ==> a.answer.body != SDP_ANSWER(q, p))
      && (forall a :: a in w.peers[q].applied ==> a.answer.body != SDP_ANSWER(p, q))
  {
    CrossedStays(events, more, p, q);
    var w := Run(events + more);
    RunMatches(events + more);
    RunTraced(events + more);
    RunServes(events + more);
    assert Shape(w, p) && Shape(w, q);
    assert !AnswerTo(w, p, q) && !AnswerTo(w, q, p);
  }

  // ---------- Where answers go ----------

  ghost predicate AllGoHome(w: World)
  {
    forall m :: m in w.sent ==> GoesHome(m)
  }

  lemma StepGoesHome(w: World, e: Event)
    requires Possible(w, e)
    ensures AllGoHome(Step(w, e)) <==> AllGoHome(w) && TimelyAt(w, e)
  {
    var v := Step(w, e);
    assert w.sent <= v.sent;
    if e.AnswerReady? && !TimelyAt(w, e) {
      var m := Packet(e.id, w.peers[e.id].opponent.value, SDP_ANSWER(e.id, e.origin));
      assert m in OnAnswerReady(e.id, w.peers[e.id], e.origin).sent;
      assert m in v.sent && !GoesHome(m);
    } else if AllGoHome(w) {
      forall m | m in v.sent ensures GoesHome(m) {
        if m !in w.sent && m.body.SDP_ANSWER? {
          NewAnswers(w, e, m);
        }
      }
    }
  }

  /** Answers go to the participants whose offers they answer in exactly the runs in which each is ready in time. */
  lemma {:induction false} AnswersGoHome(events: seq<Event>)
    ensures AllGoHome(Run(events)) <==> Timely(events)
  {
    if events != [] {
      var n := |events| - 1;
      var w := Run(events[..n]);
      AnswersGoHome(events[..n]);
      if Possible(w, events[n]) {
        StepGoesHome(w, events[n]);
      }
    }
  }

  /** Provenance, for all runs: every answer applied came from the answer peer recorded, which created it from an
      offer sent to it by the offer's author. */
  lemma AppliedAnswersAreGenuine(events: seq<Event>, q: Id, i: nat)
    requires var w := Run(events); q in w.peers && i < |w.peers[q].applied|
    ensures var w := Run(events); var a := w.peers[q].applied[i];
      && a.recorded == Some(a.answer.from) && a.answer.body.SDP_ANSWER? && a.answer.body.creator == a.answer.from
      && Offered(w, a.answer.body.origin, a.answer.from)
  {
    RunTraced(events);
  }

  /** An answer is late only at an offer peer, and its offer's author has left. */
  lemma LateAnswers(events: seq<Event>, e: Event)
    requires !TimelyAt(Run(events), e)
    ensures var w := Run(events); w.peers[e.id].state.Connected? && w.peers[e.id].isOffer && e.origin in w.departed
  {
    RunMatches(events);
    RunServes(events);
    assert Shape(Run(events), e.id) && JobFits(Run(events), e.id, e.origin);
  }

  /** An answer is ready at an offer peer whose live opponent is an offer peer to it too, or will be by a CONNECT in
      flight. */
  ghost predicate Astray(w: World, e: Event)
  {
    e.AnswerReady? && Possible(w, e) && w.peers[e.id].opponent.Some? &&
      var to := w.peers[e.id].opponent.value;
      && PairedWith(w, e.id, to) && to in w.peers
      && (Crossed(w, e.id, to) || Packet(e.id, to, CONNECT) in w.net)
  }

  ghost predicate NoneAstray(events: seq<Event>)
  {
    events == [] || (NoneAstray(events[..|events| - 1]) && !Astray(Run(events[..|events| - 1]), events[|events| - 1]))
  }

  /** `to` is not an offer peer to `from` and never will be. */
  ghost predicate NeverPaired(w: World, from: Id, to: Id)
  {
    && from in w.joined && to in w.joined
    && (to in w.peers ==>
         && !PairedWith(w, to, from) && Packet(from, to, CONNECT) !in w.net
         && (from in w.peers ==> w.peers[from].state.Connected? && w.peers[from].opponent == Some(to)))
  }

  lemma DeliverKeepsNeverPaired(w: World, m: Packet, from: Id, to: Id)
    requires m in w.net && NeverPaired(w, from, to)
    ensures NeverPaired(Step(w, Deliver(m)), from, to)
  {
    if m.to in w.peers {
      MessagePairs(m.to, w.peers[m.to], m);
      MessageSends(m.to, w.peers[m.to], m);
      assert m.to == to ==> m != Packet(from, to, CONNECT);
    }
  }

  lemma HungUpKeepsNeverPaired(w: World, at: Id, other: Id, from: Id, to: Id)
    requires at in w.peers && other !in w.peers && NeverPaired(w, from, to)
    ensures NeverPaired(Update(w, at, OnHungUp(at, w.peers[at], other)), from, to)
  {
  }

  lemma StepKeepsNeverPaired(w: World, e: Event, from: Id, to: Id)
    requires Matching(w) && Possible(w, e) && NeverPaired(w, from, to)
    ensures NeverPaired(Step(w, e), from, to)
  {
    match e
    case Deliver(m) => DeliverKeepsNeverPaired(w, m, from, to);
    case HungUp(at, other) => HungUpKeepsNeverPaired(w, at, other, from, to);
    case Registered(at, other, fits) =>
      if !fits {
        HungUpKeepsNeverPaired(w, at, other, from, to);
      }
    case _ =>
  }

  ghost predicate StraysNeverPair(w: World)
  {
    forall m :: m in w.net && !GoesHome(m) ==> NeverPaired(w, m.from, m.to)
  }

  ghost predicate AppliedOwn(w: World)
  {
    forall q, i :: q in w.peers && 0 <= i < |w.peers[q].applied| ==> GoesHome(w.peers[q].applied[i].answer)
  }

  /** A packet that does not go home is new only where an answer is ready. */
  lemma NewStray(w: World, e: Event, m: Packet)
    requires Matching(w) && Serving(w) && NoSelf(w) && Possible(w, e) && !Astray(w, e)
    requires m in Step(w, e).net && m !in w.net && !GoesHome(m)
    ensures NeverPaired(Step(w, e), m.from, m.to)
  {
    NewAnswers(w, e, m);
    assert Shape(w, e.id) && JobFits(w, e.id, e.origin);
    assert NeverPaired(w, m.from, m.to);
  }

  lemma StepKeepsStrays(w: World, e: Event)
    requires Matching(w) && Serving(w) && NoSelf(w) && Possible(w, e) && !Astray(w, e) && StraysNeverPair(w)
    ensures StraysNeverPair(Step(w, e))
  {
    forall m | m in Step(w, e).net && !GoesHome(m) ensures NeverPaired(Step(w, e), m.from, m.to) {
      if m in w.net {
        StepKeepsNeverPaired(w, e, m.from, m.to);
      } else {
        NewStray(w, e, m);
      }
    }
  }

  lemma UpdateKeepsOwn(w: World, id: Id, r: Reaction)
    requires AppliedOwn(w) && id in w.peers && r.peer.applied == w.peers[id].applied
    ensures AppliedOwn(Update(w, id, r))
  {
  }

  lemma MessageKeepsOwn(w: World, m: Packet)
    requires Matching(w) && AppliedOwn(w) && m.to in w.peers && m in w.net
    requires !GoesHome(m) ==> NeverPaired(w, m.from, m.to)
    ensures AppliedOwn(Step(w, Deliver(m)))
  {
    var p := w.peers[m.to];
    var r := OnMessage(m.to, p, m);
    MessageApplies(m.to, p, m);
    assert Shape(w, m.to);
    if r.peer.applied != p.applied {
      assert PairedWith(w, m.to, m.from);
    }
  }

  lemma StepKeepsOwn(w: World, e: Event)
    requires Matching(w) && AppliedOwn(w) && Possible(w, e) && StraysNeverPair(w)
    ensures AppliedOwn(Step(w, e))
  {
    match e
    case Deliver(m) =>
      if m.to in w.peers {
        MessageKeepsOwn(w, m);
      }
    case Join(_, _) =>
    case Depart(_) =>
    case Begin(id) => UpdateKeepsOwn(w, id, SetConnecting(id, w.peers[id]));
    case AnswerReady(id, origin) => UpdateKeepsOwn(w, id, OnAnswerReady(id, w.peers[id], origin));
    case Registered(at, other, fits) => UpdateKeepsOwn(w, at, OnRegistered(at, w.peers[at], other, fits));
    case HungUp(at, other) => UpdateKeepsOwn(w, at, OnHungUp(at, w.peers[at], other));
  }

  lemma {:induction false} RunKeepsOwn(events: seq<Event>)
    requires NoneAstray(events)
    ensures StraysNeverPair(Run(events)) && AppliedOwn(Run(events))
  {
    if events != [] {
      var n := |events| - 1;
      var w := Run(events[..n]);
      RunKeepsOwn(events[..n]);
      if Possible(w, events[n]) {
        RunMatches(events[..n]);
        RunServes(events[..n]);
        RunNoSelf(events[..n]);
        StepKeepsStrays(w, events[n]);
        StepKeepsOwn(w, events[n]);
      }
    }
  }

  /** In a run in which no answer goes astray, every answer that `q` applies came from the answer peer it had recorded,
      which created it from the offer that `q` itself had sent to it. */
  lemma AppliedAnswersAreOwn(events: seq<Event>, q: Id, i: nat)
    requires NoneAstray(events)
    requires var w := Run(events); q in w.peers && i < |w.peers[q].applied|
    ensures var w := Run(events); var a := w.peers[q].applied[i];
      && a.recorded == Some(a.answer.from)
      && a.answer.body == SDP_ANSWER(a.answer.from, q)
      && Offered(w, q, a.answer.from)
  {
    RunTraced(events);
    RunKeepsOwn(events);
    assert GoesHome(Run(events).peers[q].applied[i].answer);
  }

  // ---------- An answer in time ----------

  /** An answer that is ready while its creator answers the author of the offer is sent there, once, and is done. */
  lemma AnswerInTimeIsSent(events: seq<Event>, p: Id, q: Id)
    requires var w := Run(events); AnswerTo(w, p, q) && q in w.peers[p].jobs
    ensures var w := Run(events); var e := AnswerReady(p, q);
      && Possible(w, e)
      && Step(w, e).net == w.net + multiset{Packet(p, q, SDP_ANSWER(p, q))}
      && Step(w, e).peers == w.peers[p := w.peers[p].(jobs := w.peers[p].jobs - multiset{q})]
  {
  }

  /** An answer peer takes the offer of its opponent. */
  lemma OfferIsTaken(events: seq<Event>, p: Id, q: Id) returns (longer: seq<Event>)
    requires var w := Run(events); AnswerTo(w, p, q) && Packet(q, p, SDP_OFFER(q)) in w.net
    ensures var w := Run(events); var v := Run(longer);
      && AnswerTo(v, p, q) && v.peers == w.peers[p := w.peers[p].(jobs := w.peers[p].jobs + multiset{q})]
  {
    RunMatches(events);
    assert Shape(Run(events), p);
    longer := Go(events, Deliver(Packet(q, p, SDP_OFFER(q))));
  }

  /** Completion: whenever an answer peer is at work for its live opponent, the run can go on so that the opponent,
      which is its offer peer, applies the answer. */
  lemma AnswerCanBeApplied(events: seq<Event>, p: Id, q: Id) returns (longer: seq<Event>)
    requires var w := Run(events); AnswerTo(w, p, q) && q in w.peers && q in w.peers[p].jobs
    ensures AnswerTo(Run(longer), p, q) && PairedWith(Run(longer), q, p)
    ensures HasApplied(Run(longer), q, SDP_ANSWER(p, q))
  {
    RunMatches(events);
    AnswerInTimeIsSent(events, p, q);
    var m := Packet(p, q, SDP_ANSWER(p, q));
    longer := Go(events, AnswerReady(p, q));
    RunMatches(longer);
    longer := GoApply(longer, m);
    assert Applied(m, Some(p)) in Run(longer).peers[q].applied;
  }

  /** Completion, from the offer on. */
  lemma ExchangeCanComplete(events: seq<Event>, p: Id, q: Id) returns (longer: seq<Event>)
    requires var w := Run(events); AnswerTo(w, p, q) && q in w.peers && Packet(q, p, SDP_OFFER(q)) in w.net
    ensures AnswerTo(Run(longer), p, q) && PairedWith(Run(longer), q, p)
    ensures HasApplied(Run(longer), q, SDP_ANSWER(p, q))
  {
    longer := OfferIsTaken(events, p, q);
    longer := AnswerCanBeApplied(longer, p, q);
  }

  /** Completion, from the CONNECT on: two waiting participants can pair and finish their exchange. */
  lemma PairCanComplete(events: seq<Event>, from: Id, to: Id) returns (longer: seq<Event>)
    requires var w := Run(events);
      from != to && Waiting(w, from) && Waiting(w, to) && Packet(from, to, CONNECT) in w.net
    ensures AnswerTo(Run(longer), from, to) && PairedWith(Run(longer), to, from)
    ensures HasApplied(Run(longer), to, SDP_ANSWER(from, to))
  {
    longer := GoPair(events, from, to);
    longer := ExchangeCanComplete(longer, from, to);
  }

  // ---------- An answer that goes astray can be applied ----------

  ghost predicate NoSelf(w: World)
  {
    && (forall p :: p in w.peers ==> p !in w.peers[p].participants && w.peers[p].opponent != Some(p))
    && (forall m :: m in w.net ==> m.from != m.to)
  }

  lemma UpdateKeepsNoSelf(w: World, id: Id, r: Reaction)
    requires NoSelf(w) && id in w.peers && id !in r.peer.participants && r.peer.opponent != Some(id)
    requires forall m :: m in r.sent ==> m.from != m.to
    ensures NoSelf(Update(w, id, r))
  {
  }

  lemma MessageIsNotToSelf(me: Id, p: Peer, m: Packet)
    requires m.from != me && p.opponent != Some(me)
    ensures var r := OnMessage(me, p, m);
      r.peer.opponent != Some(me) && r.peer.participants == p.participants && forall k :: k in r.sent ==> k.from != k.to
  {
    var r := OnMessage(me, p, m);
    if p.state.Connected? {
      MessagePairs(me, p, m);
      assert r.sent == multiset{};
    } else if p.state.Connecting? {
      assert r in {SetConnected(me, p, m.from, true), SetConnected(me, p, m.from, false), Still(p)};
    }
  }

  lemma DeliverKeepsNoSelf(w: World, m: Packet)
    requires m in w.net && NoSelf(w)
    ensures NoSelf(Step(w, Deliver(m)))
  {
    var rest := w.(net := w.net - multiset{m});
    assert NoSelf(rest);
    if m.to in w.peers {
      MessageIsNotToSelf(m.to, w.peers[m.to], m);
      UpdateKeepsNoSelf(rest, m.to, OnMessage(m.to, w.peers[m.to], m));
    }
  }

  lemma HungUpKeepsNoSelf(w: World, at: Id, other: Id)
    requires at in w.peers && NoSelf(w)
    ensures NoSelf(Update(w, at, OnHungUp(at, w.peers[at], other)))
  {
    UpdateKeepsNoSelf(w, at, OnHungUp(at, w.peers[at], other));
  }

  lemma StepKeepsNoSelf(w: World, e: Event)
    requires Matching(w) && Possible(w, e) && NoSelf(w)
    ensures NoSelf(Step(w, e))
  {
    match e
    case Deliver(m) => DeliverKeepsNoSelf(w, m);
    case Join(_, _) =>
    case Depart(_) =>
    case Begin(id) => UpdateKeepsNoSelf(w, id, SetConnecting(id, w.peers[id]));
    case AnswerReady(id, origin) => UpdateKeepsNoSelf(w, id, OnAnswerReady(id, w.peers[id], origin));
    case Registered(at, other, fits) =>
      if fits {
        UpdateKeepsNoSelf(w, at, OnRegistered(at, w.peers[at], other, fits));
      } else {
        HungUpKeepsNoSelf(w, at, other);
      }
    case HungUp(at, other) => HungUpKeepsNoSelf(w, at, other);
  }

  lemma {:induction false} RunNoSelf(events: seq<Event>)
    ensures NoSelf(Run(events))
  {
    if events != [] {
      var n := |events| - 1;
      RunNoSelf(events[..n]);
      RunMatches(events[..n]);
      if Possible(Run(events[..n]), events[n]) {
        StepKeepsNoSelf(Run(events[..n]), events[n]);
      }
    }
  }

  lemma GoLeave(events: seq<Event>, at: Id, other: Id) returns (longer: seq<Event>)
    requires var w := Run(events);
      at in w.peers && at != other && w.peers[at].state.Connected? && w.peers[at].opponent == Some(other)
    ensures Waiting(Run(longer), at) && Run(events).net <= Run(longer).net
  {
    longer := events;
    if other in Run(events).peers {
      longer := Go(longer, Depart(other));
    }
    longer := Go(longer, HungUp(at, other));
  }

  /** A CONNECT in flight can make its receiver an offer peer, whatever that one is doing. */
  lemma GoTake(events: seq<Event>, from: Id, to: Id, kept: Packet) returns (longer: seq<Event>)
    requires var w := Run(events);
      to in w.peers && Packet(from, to, CONNECT) in w.net && kept in w.net && !kept.body.CONNECT?
    ensures var v := Run(longer); PairedWith(v, to, from) && kept in v.net
  {
    RunMatches(events);
    RunNoSelf(events);
    assert Shape(Run(events), to);
    longer := events;
    if Run(events).peers[to].state.Connected? {
      longer := GoLeave(events, to, Run(events).peers[to].opponent.value);
    } else if Run(events).peers[to].state.Idle? {
      longer := GoBegin(events, to);
    }
    longer := GoOffer(longer, from, to);
  }

  lemma GoApply(events: seq<Event>, m: Packet) returns (longer: seq<Event>)
    requires var w := Run(events); m in w.net && m.body.SDP_ANSWER? && PairedWith(w, m.to, m.from)
    ensures var w := Run(events); var p := w.peers[m.to];
      Run(longer).peers == w.peers[m.to := p.(applied := p.applied + [Applied(m, Some(m.from))])]
  {
    RunMatches(events);
    assert Shape(Run(events), m.to);
    longer := Go(events, Deliver(m));
  }

  ghost predicate HasApplied(w: World, q: Id, answer: Body)
  {
    q in w.peers && exists a :: a in w.peers[q].applied && a.answer.body == answer
  }

  /** The condition is needed: whenever an answer goes astray, the run can go on so that it is applied by a
      participant whose offer it does not answer. */
  lemma AstrayAnswerCanBeApplied(events: seq<Event>, e: Event) returns (longer: seq<Event>)
    requires Astray(Run(events), e)
    ensures exists q :: q != e.origin && HasApplied(Run(longer), q, SDP_ANSWER(e.id, e.origin))
  {
    RunMatches(events);
    RunServes(events);
    assert Shape(Run(events), e.id) && JobFits(Run(events), e.id, e.origin);
    var to := Run(events).peers[e.id].opponent.value;
    var m := Packet(e.id, to, SDP_ANSWER(e.id, e.origin));
    longer := Go(events, e);
    assert m in OnAnswerReady(e.id, Run(events).peers[e.id], e.origin).sent;
    if !PairedWith(Run(longer), to, e.id) {
      longer := GoTake(longer, e.id, to, m);
    }
    longer := GoApply(longer, m);
    assert Applied(m, Some(e.id)) in Run(longer).peers[to].applied;
    assert HasApplied(Run(longer), to, m.body);
  }

  // ---------- A stray answer ----------

  lemma SecondIsAnswering() returns (events: seq<Event>)
    ensures var w := Run(events);
      && w.peers.Keys == {1, 2} && w.joined == {1, 2} && AnswerTo(w, 2, 1) && 1 in w.peers[2].jobs
  {
    events := TwoParticipantsPair();
    events := Go(events, Deliver(Packet(1, 2, SDP_OFFER(1))));
  }

  /** Participant 2 is about to answer participant 1 when that one leaves. */
  lemma AnswererLosesItsOpponent() returns (events: seq<Event>)
    ensures var w := Run(events);
      && Waiting(w, 2) && Waiting(w, 3) && 1 in w.peers[2].jobs && w.peers[3].applied == []
      && Packet(2, 3, CONNECT) in w.net && Packet(3, 2, CONNECT) in w.net
  {
    events := SecondIsAnswering();
    events := GoJoin(events, 3);
    assert Packet(3, 2, CONNECT) in ConnectAll(3, {1, 2});
    events := GoLearn(events, 2, 3);
    var rest := Run(events).peers[2].participants - {1};
    assert 3 in rest && Packet(2, 3, CONNECT) in ConnectAll(2, rest);
    events := GoLose(events, 2, 1);
  }

  lemma AnswererCrosses() returns (events: seq<Event>)
    ensures var w := Run(events); Crossed(w, 2, 3) && 1 in w.peers[2].jobs && w.peers[3].applied == []
  {
    events := AnswererLosesItsOpponent();
    events := GoOffer(events, 2, 3);
    events := GoOffer(events, 3, 2);
    assert Run(events).peers[3].opponent == Some(2);
  }

  /** An answer that is ready too late: 3 applies an answer of 2 to the offer of 1. */
  lemma StrayAnswerIsApplied() returns (events: seq<Event>)
    ensures var w := Run(events);
      3 in w.peers && |w.peers[3].applied| == 1 && w.peers[3].applied[0].answer.body == SDP_ANSWER(2, 1)
    ensures !Timely(events) && !NoneAstray(events)
  {
    events := AnswererCrosses();
    events := Go(events, AnswerReady(2, 1));
    var stray := Packet(2, 3, SDP_ANSWER(2, 1));
    assert stray in Run(events).net;
    events := GoApply(events, stray);
    if NoneAstray(events) {
      AppliedAnswersAreOwn(events, 3, 0);
    }
    AnswersGoHome(events);
    RunTraced(events);
    assert Run(events).peers[3].applied[0].answer in Run(events).sent;
  }
}
