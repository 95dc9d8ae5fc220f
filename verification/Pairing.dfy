/** Pairing of any number of call participants over an asynchronous signal server, and the exchange of
    session descriptions that follows it. */
module Pairing {
  import opened Bytes

  type Id = int

  datatype Body =
    | CONNECT
    | ACCEPT
    | SDP_OFFER(origin: Id)                 // the one offer that `origin` has created
    | SDP_ANSWER(creator: Id, origin: Id)   // created by `creator` from the offer of `origin`
    | BUFFER

  datatype Packet = Packet(from: Id, to: Id, body: Body)

  datatype Phase = Idle | Connecting | Connected

  /** Idle is the time between the "ready" event and the first setStateConnecting. `jobs` are the offers whose
      answers the present WebRTC peer is still creating; `applied` are the answers given to setAnswer. */
  datatype Peer = Peer(state: Phase, opponent: Option<Id>, participants: set<Id>,
                       isOffer: bool, offerId: Option<Id>, isAnswer: bool, answerId: Option<Id>,
                       jobs: multiset<Id>, applied: seq<Applied>)

  // an answer given to setAnswer, and the answer peer recorded at that moment
  datatype Applied = Applied(answer: Packet, recorded: Option<Id>)

  datatype Reaction = Reaction(peer: Peer, sent: multiset<Packet>)

  // ---------- One participant ----------

  function NewPeer(participants: set<Id>): Peer {
    Peer(Idle, None, participants, false, None, false, None, multiset{}, [])
  }

  function ConnectAll(me: Id, participants: set<Id>): multiset<Packet> {
    multiset(set p | p in participants :: Packet(me, p, CONNECT))
  }

  function SetConnecting(me: Id, p: Peer): Reaction {
    Reaction(p.(state := Connecting, opponent := None), ConnectAll(me, p.participants))
  }

  /** An answer peer starts over with a new WebRTC peer, so that answers still being created are never ready. An offer
      peer keeps the one it has. */
  function SetConnected(me: Id, p: Peer, other: Id, sendAccept: bool): Reaction {
    var q := p.(state := Connected, opponent := Some(other));
    if sendAccept then
      Reaction(q.(isOffer := true, offerId := Some(me), isAnswer := false, answerId := Some(other)),
               multiset{Packet(me, other, ACCEPT), Packet(me, other, SDP_OFFER(me))})
    else
      Reaction(q.(isOffer := false, offerId := Some(other), isAnswer := true, answerId := Some(me), jobs := multiset{}),
               multiset{})
  }

  function Still(p: Peer): Reaction {
    Reaction(p, multiset{})
  }

  function OnMessage(me: Id, p: Peer, packet: Packet): Reaction {
    var from := packet.from;
    match p.state
    case Idle => Still(p)
    case Connecting =>
      (match packet.body
       case CONNECT => if p.opponent.None? then SetConnected(me, p, from, true) else Still(p)
       case ACCEPT => if p.opponent.None? then SetConnected(me, p, from, false) else Still(p)
       case _ => Still(p))
    case Connected =>
      (match packet.body
       case SDP_OFFER(origin) =>
         if p.isAnswer && p.offerId == Some(from) then Still(p.(jobs := p.jobs + multiset{origin})) else Still(p)
       case SDP_ANSWER(_, _) =>
         if p.isOffer && p.answerId == Some(from) then Still(p.(applied := p.applied + [Applied(packet, p.answerId)]))
         else Still(p)
       case _ => Still(p))
  }

  /** A message makes no CONNECT and no answer go out. */
  lemma MessageSends(me: Id, p: Peer, m: Packet)
    ensures forall k :: k in OnMessage(me, p, m).sent ==>
      !k.body.CONNECT? && !k.body.SDP_ANSWER? && (k.body.SDP_OFFER? ==> k.body.origin == k.from)
  {
  }

  /** An answer is applied, if it comes from the answer peer recorded. */
  lemma MessageApplies(me: Id, p: Peer, m: Packet)
    ensures var r := OnMessage(me, p, m);
      r.peer.applied == p.applied
      || (m.body.SDP_ANSWER? && r.peer.applied == p.applied + [Applied(m, Some(m.from))])
  {
  }

  /** An offer to answer is new only at an answer peer that gets it from the offer peer recorded; whoever becomes an
      answer peer has none. */
  lemma MessageJobs(me: Id, p: Peer, m: Packet)
    ensures var r := OnMessage(me, p, m);
      && (forall q :: q in r.peer.jobs && q !in p.jobs ==>
            m.body == SDP_OFFER(q) && p.state.Connected? && p.isAnswer && p.offerId == Some(m.from))
      && (!(p.state.Connected? && p.isAnswer) && r.peer.state.Connected? && r.peer.isAnswer ==>
            r.peer.jobs == multiset{})
  {
  }

  /** A message leaves a connected participant with its opponent, and makes an offer peer only if it is a CONNECT. */
  lemma MessagePairs(me: Id, p: Peer, m: Packet)
    ensures var r := OnMessage(me, p, m);
      && (p.state.Connected? ==>
            r.peer.state == p.state && r.peer.opponent == p.opponent
            && r.peer.isOffer == p.isOffer && r.peer.isAnswer == p.isAnswer)
      && (!p.state.Connected? && r.peer.state.Connected? && r.peer.isOffer ==>
            m.body.CONNECT? && r.peer.opponent == Some(m.from))
  {
  }

  /** The answer to `origin`'s offer is ready: it goes to whoever is the opponent now. */
  function OnAnswerReady(me: Id, p: Peer, origin: Id): Reaction {
    Reaction(p.(jobs := p.jobs - multiset{origin}),
             if p.opponent.Some? then multiset{Packet(me, p.opponent.value, SDP_ANSWER(me, origin))} else multiset{})
  }

  function OnHungUp(me: Id, p: Peer, other: Id): Reaction {
    var q := p.(participants := p.participants - {other});
    if q.state.Connected? && q.opponent == Some(other) then SetConnecting(me, q) else Still(q)
  }

  /** A notification whose attributes do not fit falls through into the case of "hungup". */
  function OnRegistered(me: Id, p: Peer, other: Id, fits: bool): Reaction {
    if fits then Still(p.(participants := p.participants + {other})) else OnHungUp(me, p, other)
  }

  // ---------- All participants and the network ----------

  /** `peers` are the live participants, `joined` everyone who has ever joined. Packets in `net` are delivered in
      any order; `sent` remembers every packet there has been. */
  datatype World = World(peers: map<Id, Peer>, departed: set<Id>, joined: set<Id>,
                         net: multiset<Packet>, sent: set<Packet>)

  const EMPTY: World := World(map[], {}, {}, multiset{}, {})

  datatype Event =
    | Join(id: Id, gone: set<Id>)            // `gone`: departed participants that the server still lists
    | Begin(id: Id)
    | Deliver(packet: Packet)
    | AnswerReady(id: Id, origin: Id)
    | Registered(at: Id, other: Id, fits: bool)
    | HungUp(at: Id, other: Id)
    | Depart(id: Id)

  /** What the signal server and the participants may do. Ids are never reused; "hungup" is about someone who is
      not there, and so is a "registered-peer" of a foreign kind; no "registered-peer" is about the one that gets it. */
  predicate Possible(w: World, e: Event) {
    match e
    case Join(id, gone) => id !in w.joined && gone <= w.departed
    case Begin(id) => id in w.peers && w.peers[id].state.Idle?
    case Deliver(packet) => packet in w.net
    case AnswerReady(id, origin) => id in w.peers && origin in w.peers[id].jobs
    case Registered(at, other, fits) =>
      at in w.peers && at != other && (if fits then other in w.joined else other !in w.peers)
    case HungUp(at, other) => at in w.peers && other !in w.peers
    case Depart(id) => id in w.peers
  }

  function Update(w: World, id: Id, r: Reaction): World {
    w.(peers := w.peers[id := r.peer], net := w.net + r.sent, sent := w.sent + set m | m in r.sent)
  }

  function Step(w: World, e: Event): World
    requires match e
             case Begin(id) => id in w.peers
             case AnswerReady(id, _) => id in w.peers
             case Registered(at, _, _) => at in w.peers
             case HungUp(at, _) => at in w.peers
             case _ => true
  {
    match e
    case Join(id, gone) => w.(peers := w.peers[id := NewPeer(w.peers.Keys + gone)], joined := w.joined + {id})
    case Begin(id) => Update(w, id, SetConnecting(id, w.peers[id]))
    case Deliver(packet) =>
      var rest := w.(net := w.net - multiset{packet});
      if packet.to in w.peers then Update(rest, packet.to, OnMessage(packet.to, w.peers[packet.to], packet)) else rest
    case AnswerReady(id, origin) => Update(w, id, OnAnswerReady(id, w.peers[id], origin))
    case Registered(at, other, fits) => Update(w, at, OnRegistered(at, w.peers[at], other, fits))
    case HungUp(at, other) => Update(w, at, OnHungUp(at, w.peers[at], other))
    case Depart(id) => w.(peers := w.peers - {id}, departed := w.departed + {id})
  }

  function Run(events: seq<Event>): World {
    if events == [] then EMPTY
    else
      var w := Run(events[..|events| - 1]);
      var e := events[|events| - 1];
      if Possible(w, e) then Step(w, e) else w
  }

  /** What becomes of one participant. */
  function PeerAfter(w: World, e: Event, p: Id): Peer
    requires p in w.peers
  {
    var peer := w.peers[p];
    match e
    case Begin(id) => if id == p then SetConnecting(p, peer).peer else peer
    case Deliver(m) => if m.to == p then OnMessage(p, peer, m).peer else peer
    case AnswerReady(id, origin) => if id == p then OnAnswerReady(p, peer, origin).peer else peer
    case Registered(at, other, fits) => if at == p then OnRegistered(p, peer, other, fits).peer else peer
    case HungUp(at, other) => if at == p then OnHungUp(p, peer, other).peer else peer
    case _ => peer
  }

  lemma StepsPeer(w: World, e: Event, p: Id)
    requires Possible(w, e) && p in w.peers && p in w.joined
    ensures p in Step(w, e).peers <==> e != Depart(p)
    ensures p in Step(w, e).peers ==> Step(w, e).peers[p] == PeerAfter(w, e, p)
  {
  }

  /** A connected participant stays connected as it is, unless its opponent is gone. */
  lemma StaysConnected(w: World, e: Event, p: Id)
    requires Possible(w, e) && p in w.peers && w.peers[p].state.Connected?
    ensures var peer := w.peers[p]; var after := PeerAfter(w, e, p);
      if after.state.Connected? then
        after.opponent == peer.opponent && after.isOffer == peer.isOffer && after.isAnswer == peer.isAnswer
      else peer.opponent.Some? && peer.opponent.value !in w.peers
  {
    if e.Deliver? {
      MessagePairs(p, w.peers[p], e.packet);
    }
  }

  // ---------- Matching ----------

  ghost predicate PairedWith(w: World, offer: Id, answer: Id)
  {
    && offer in w.peers
    && w.peers[offer].state.Connected? && w.peers[offer].opponent == Some(answer) && w.peers[offer].isOffer
  }

  ghost predicate Shape(w: World, id: Id)
    requires id in w.peers
  {
    var p := w.peers[id];
    && (p.state.Connected? <==> p.opponent.Some?)
    && (p.state.Connected? ==> p.isOffer != p.isAnswer && p.opponent.value in w.joined)
    && (p.state.Connected? && p.isOffer ==> p.offerId == Some(id) && p.answerId == p.opponent)
    && (p.state.Connected? && p.isAnswer ==> p.answerId == Some(id) && p.offerId == p.opponent)
  }

  ghost predicate AnswerTo(w: World, answer: Id, offer: Id)
  {
    && answer in w.peers
    && w.peers[answer].state.Connected? && w.peers[answer].opponent == Some(offer) && w.peers[answer].isAnswer
  }

  ghost predicate Matching(w: World)
  {
    && (forall id :: id in w.joined <==> id in w.peers || id in w.departed)
    && (forall id :: id in w.departed ==> id !in w.peers)
    && (forall id :: id in w.peers ==> Shape(w, id))
    && (forall m :: m in w.net ==> m.from in w.joined)
    && (forall m :: m in w.net && m.body.ACCEPT? && m.from in w.peers && m.to !in w.departed ==>
          m.to in w.joined && PairedWith(w, m.from, m.to))
    && (forall p, q :: AnswerTo(w, p, q) && q in w.peers ==> PairedWith(w, q, p))
  }

  // `other` counts on `id` to stay paired with it
  ghost predicate CountsOn(w: World, other: Id, id: Id)
  {
    && other in w.peers
    && (AnswerTo(w, other, id) || Packet(id, other, ACCEPT) in w.net)
  }

  lemma UpdateKeepsMatching(w: World, id: Id, r: Reaction)
    requires Matching(w) && id in w.peers
    requires Shape(Update(w, id, r), id)
    requires forall m :: m in r.sent ==> m.from == id
    requires forall m :: m in r.sent && m.body.ACCEPT? ==> m.to in w.joined && PairedWith(Update(w, id, r), id, m.to)
    requires forall other :: other != id && CountsOn(w, other, id) ==> PairedWith(Update(w, id, r), id, other)
    requires Packet(id, id, ACCEPT) in w.net ==> PairedWith(Update(w, id, r), id, id)
    requires forall q :: AnswerTo(Update(w, id, r), id, q) && q in w.peers ==> PairedWith(Update(w, id, r), q, id)
    ensures Matching(Update(w, id, r))
  {
    var v := Update(w, id, r);
    forall m | m in v.net && m.body.ACCEPT? && m.from in v.peers && m.to !in v.departed
      ensures m.to in v.joined && PairedWith(v, m.from, m.to)
    {
      if m !in r.sent {
        assert m in w.net && PairedWith(w, m.from, m.to);
        if m.from == id {
          assert m == Packet(id, m.to, ACCEPT);
        }
      }
    }
    forall p, q | AnswerTo(v, p, q) && q in v.peers ensures PairedWith(v, q, p) {
      if p != id {
        assert AnswerTo(w, p, q);
      }
    }
  }

  lemma CountedOn(w: World, id: Id)
    requires Matching(w) && id in w.peers
    ensures forall other :: CountsOn(w, other, id) ==> PairedWith(w, id, other)
  {
    forall other | CountsOn(w, other, id) ensures PairedWith(w, id, other) {
      if !AnswerTo(w, other, id) {
        assert Packet(id, other, ACCEPT) in w.net;
      }
    }
  }

  lemma NotLeavingKeepsMatching(w: World, id: Id, r: Reaction)
    requires Matching(w) && id in w.peers
    requires var p := w.peers[id];
      r.peer.state == p.state && r.peer.opponent == p.opponent && r.peer.isOffer == p.isOffer
      && r.peer.isAnswer == p.isAnswer && r.peer.offerId == p.offerId && r.peer.answerId == p.answerId
    requires forall m :: m in r.sent ==> m.from == id && !m.body.ACCEPT?
    ensures Matching(Update(w, id, r))
  {
    var v := Update(w, id, r);
    assert forall a, b :: PairedWith(v, a, b) <==> PairedWith(w, a, b);
    assert forall a, b :: AnswerTo(v, a, b) <==> AnswerTo(w, a, b);
    CountedOn(w, id);
    UpdateKeepsMatching(w, id, r);
  }

  lemma MessageKeepsMatching(w: World, m: Packet)
    requires Matching(w) && m.to in w.peers && m.from in w.joined
    requires m.body.ACCEPT? && m.from in w.peers ==> PairedWith(w, m.from, m.to)
    ensures Matching(Update(w, m.to, OnMessage(m.to, w.peers[m.to], m)))
  {
    var me := m.to;
    var r := OnMessage(me, w.peers[me], m);
    if r.peer.state == w.peers[me].state {
      NotLeavingKeepsMatching(w, me, r);
    } else {
      var v := Update(w, me, r);
      CountedOn(w, me);
      if m.body.ACCEPT? && m.from in w.peers {
        assert m.from != me;
        assert PairedWith(v, m.from, me);
      }
      UpdateKeepsMatching(w, me, r);
    }
  }

  lemma DeliverKeepsMatching(w: World, m: Packet)
    requires Matching(w) && m in w.net
    ensures Matching(Step(w, Deliver(m)))
  {
    var rest := w.(net := w.net - multiset{m});
    assert forall a, b :: PairedWith(w, a, b) <==> PairedWith(rest, a, b);
    assert forall a, b :: AnswerTo(w, a, b) <==> AnswerTo(rest, a, b);
    assert Matching(rest);
    if m.to in w.peers {
      MessageKeepsMatching(rest, m);
    }
  }

  lemma HungUpKeepsMatching(w: World, at: Id, other: Id)
    requires Matching(w) && at in w.peers
    requires !CountsOn(w, other, at)
    ensures at != other ==> Matching(Update(w, at, OnHungUp(at, w.peers[at], other)))
  {
    var r := OnHungUp(at, w.peers[at], other);
    var v := Update(w, at, r);
    if w.peers[at].state.Connected? && w.peers[at].opponent == Some(other) && at != other {
      CountedOn(w, at);
      assert forall x :: CountsOn(w, x, at) ==> x == other;
      UpdateKeepsMatching(w, at, r);
    } else if at != other {
      NotLeavingKeepsMatching(w, at, r);
    }
  }

  lemma JoinKeepsMatching(w: World, id: Id, gone: set<Id>)
    requires Matching(w) && Possible(w, Join(id, gone))
    ensures Matching(Step(w, Join(id, gone)))
  {
    var v := Step(w, Join(id, gone));
    assert forall a, b :: PairedWith(w, a, b) ==> PairedWith(v, a, b);
    assert forall a, b :: AnswerTo(v, a, b) ==> AnswerTo(w, a, b);
  }

  lemma DepartKeepsMatching(w: World, id: Id)
    requires Matching(w) && Possible(w, Depart(id))
    ensures Matching(Step(w, Depart(id)))
  {
    var v := Step(w, Depart(id));
    assert forall a, b :: PairedWith(w, a, b) && a != id ==> PairedWith(v, a, b);
    assert forall a, b :: AnswerTo(v, a, b) ==> AnswerTo(w, a, b);
  }

  lemma BeginKeepsMatching(w: World, id: Id)
    requires Matching(w) && Possible(w, Begin(id))
    ensures Matching(Step(w, Begin(id)))
  {
    CountedOn(w, id);
    UpdateKeepsMatching(w, id, SetConnecting(id, w.peers[id]));
  }

  lemma StepKeepsMatching(w: World, e: Event)
    requires Matching(w) && Possible(w, e)
    ensures Matching(Step(w, e))
  {
    match e
    case Join(id, gone) => JoinKeepsMatching(w, id, gone);
    case Begin(id) => BeginKeepsMatching(w, id);
    case Deliver(m) => DeliverKeepsMatching(w, m);
    case AnswerReady(id, origin) => NotLeavingKeepsMatching(w, id, OnAnswerReady(id, w.peers[id], origin));
    case Registered(at, other, fits) =>
      if fits {
        NotLeavingKeepsMatching(w, at, OnRegistered(at, w.peers[at], other, fits));
      } else {
        HungUpKeepsMatching(w, at, other);
      }
    case HungUp(at, other) => HungUpKeepsMatching(w, at, other);
    case Depart(id) => DepartKeepsMatching(w, id);
  }

  lemma {:induction false} RunMatches(events: seq<Event>)
    ensures Matching(Run(events))
  {
    if events != [] {
      var w := Run(events[..|events| - 1]);
      RunMatches(events[..|events| - 1]);
      if Possible(w, events[|events| - 1]) {
        StepKeepsMatching(w, events[|events| - 1]);
      }
    }
  }

  /** Matching over every run: a live answer peer's live opponent is connected back to it as an offer peer. So no two
      answer peers share an opponent, none face each other, and being connected means having an opponent. */
  lemma AnswerPeersAreMatched(events: seq<Event>, p: Id, q: Id)
    ensures var w := Run(events);
      && (AnswerTo(w, p, q) && q in w.peers ==> PairedWith(w, q, p) && !AnswerTo(w, q, p))
      && (forall other :: AnswerTo(w, p, q) && AnswerTo(w, other, q) && q in w.peers ==> other == p)
      && (p in w.peers ==> (w.peers[p].state.Connected? <==> w.peers[p].opponent.Some?))
  {
    RunMatches(events);
    var w := Run(events);
    if AnswerTo(w, p, q) && q in w.peers {
      assert PairedWith(w, q, p) && Shape(w, q);
    }
  }

  /** The fall-through into "hungup" keeps the matching exactly when nobody live counts on the pairing it ends. */
  lemma MisfitNotification(w: World, at: Id, other: Id)
    requires Matching(w) && at in w.peers && at != other
    ensures Matching(Step(w, Registered(at, other, false))) <==> !CountsOn(w, other, at)
  {
    if CountsOn(w, other, at) {
      var v := Step(w, Registered(at, other, false));
      CountedOn(w, at);
      assert PairedWith(w, at, other) && !PairedWith(v, at, other);
      if !AnswerTo(w, other, at) {
        assert Packet(at, other, ACCEPT) in v.net;
      } else {
        assert AnswerTo(v, other, at);
      }
    } else {
      HungUpKeepsMatching(w, at, other);
    }
  }

  // ---------- Who is listed ----------

  /** What the server has told a participant: who was there when it joined, and since then who has registered and not
      hung up, a misfit counting as hung up. */
  function Told(events: seq<Event>, p: Id): set<Id> {
    if events == [] then {}
    else
      var w := Run(events[..|events| - 1]);
      var before := Told(events[..|events| - 1], p);
      var e := events[|events| - 1];
      if !Possible(w, e) then before
      else
        match e
        case Join(id, gone) => if id == p then w.peers.Keys + gone else before
        case Registered(at, other, fits) =>
          if at != p then before else if fits then before + {other} else before - {other}
        case HungUp(at, other) => if at == p then before - {other} else before
        case _ => before
  }

  lemma MessageTellsNothing(me: Id, p: Peer, m: Packet)
    ensures OnMessage(me, p, m).peer.participants == p.participants
  {
  }

  /** A participant lists exactly whom it was told of. */
  lemma {:induction false} ParticipantsAreTold(events: seq<Event>, p: Id)
    ensures p in Run(events).peers ==> Run(events).peers[p].participants == Told(events, p)
  {
    if events != [] {
      var n := |events| - 1;
      var w := Run(events[..n]);
      ParticipantsAreTold(events[..n], p);
      if Possible(w, events[n]) && p in w.peers {
        RunMatches(events[..n]);
        StepsPeer(w, events[n], p);
        if events[n].Deliver? {
          MessageTellsNothing(p, w.peers[p], events[n].packet);
        }
      } else if Possible(w, events[n]) {
        if p in Step(w, events[n]).peers {
          OnlyJoinsAreNew(w, events[n], p);
        }
      }
    }
  }

  lemma OnlyJoinsAreNew(w: World, e: Event, p: Id)
    requires Possible(w, e) && p !in w.peers && p in Step(w, e).peers
    ensures e.Join? && e.id == p && Step(w, e).peers[p] == NewPeer(w.peers.Keys + e.gone)
  {
  }

  // ---------- Particular runs ----------

  lemma Go(events: seq<Event>, e: Event) returns (longer: seq<Event>)
    requires Possible(Run(events), e)
    ensures longer == events + [e] && Run(longer) == Step(Run(events), e)
  {
    longer := events + [e];
    assert longer[..|events|] == events;
  }

  ghost predicate Waiting(w: World, id: Id)
  {
    id in w.peers && w.peers[id].state.Connecting? && w.peers[id].opponent.None?
  }

  lemma GoEnter(events: seq<Event>, id: Id, known: set<Id>) returns (longer: seq<Event>)
    requires id !in Run(events).joined && Run(events).peers.Keys == known
    ensures var w := Run(events);
      && longer == events + [Join(id, {})]
      && Run(longer) == w.(peers := w.peers[id := NewPeer(known)], joined := w.joined + {id})
  {
    longer := Go(events, Join(id, {}));
    assert known + {} == known;
  }

  lemma GoLearn(events: seq<Event>, at: Id, other: Id) returns (longer: seq<Event>)
    requires var w := Run(events); at in w.peers && at != other && other in w.joined
    ensures var w := Run(events); var v := Run(longer); var p := w.peers[at];
      && longer == events + [Registered(at, other, true)]
      && v.peers == w.peers[at := p.(participants := p.participants + {other})]
      && v.net == w.net && v.joined == w.joined && v.departed == w.departed
  {
    longer := Go(events, Registered(at, other, true));
    assert Run(events).net + multiset{} == Run(events).net;
  }

  /** A participant's opponent leaves, and the participant is told. */
  lemma GoLose(events: seq<Event>, at: Id, other: Id) returns (longer: seq<Event>)
    requires var w := Run(events);
      && at != other && at in w.peers && other in w.peers
      && w.peers[at].state.Connected? && w.peers[at].opponent == Some(other)
    ensures var w := Run(events); var v := Run(longer); var rest := w.peers[at].participants - {other};
      && v.peers == (w.peers - {other})[at := w.peers[at].(state := Connecting, opponent := None, participants := rest)]
      && v.net == w.net + ConnectAll(at, rest) && v.joined == w.joined
  {
    longer := Go(events, Depart(other));
    longer := Go(longer, HungUp(at, other));
  }

  lemma GoBegin(events: seq<Event>, id: Id) returns (longer: seq<Event>)
    requires id in Run(events).peers && Run(events).peers[id].state.Idle?
    ensures var w := Run(events); var v := Run(longer); var sent := ConnectAll(id, w.peers[id].participants);
      && longer == events + [Begin(id)]
      && v.peers == w.peers[id := w.peers[id].(state := Connecting, opponent := None)]
      && v.net == w.net + sent && v.joined == w.joined && v.departed == w.departed
  {
    longer := Go(events, Begin(id));
  }

  /** A newcomer that begins at once. */
  lemma GoJoin(events: seq<Event>, id: Id) returns (longer: seq<Event>)
    requires id !in Run(events).joined && id !in Run(events).peers
    ensures var w := Run(events); var v := Run(longer);
      && v.peers.Keys == w.peers.Keys + {id} && v.joined == w.joined + {id} && v.departed == w.departed
      && (forall p :: p in w.peers ==> v.peers[p] == w.peers[p])
      && Waiting(v, id) && v.peers[id].participants == w.peers.Keys
      && v.peers[id].jobs == multiset{} && v.peers[id].applied == []
      && v.net == w.net + ConnectAll(id, w.peers.Keys)
  {
    longer := GoEnter(events, id, Run(events).peers.Keys);
    longer := GoBegin(longer, id);
  }

  /** The two packets that pair a waiting `to` with a waiting `from`. */
  lemma GoPair(events: seq<Event>, from: Id, to: Id) returns (longer: seq<Event>)
    requires var w := Run(events);
      from != to && Waiting(w, from) && Waiting(w, to) && Packet(from, to, CONNECT) in w.net
    ensures var w := Run(events); var v := Run(longer);
      && v.peers.Keys == w.peers.Keys && v.joined == w.joined && v.departed == w.departed
      && (forall p :: p in w.peers && p != from && p != to ==> v.peers[p] == w.peers[p])
      && PairedWith(v, to, from) && v.peers[to].answerId == Some(from)
      && AnswerTo(v, from, to) && v.peers[from].offerId == Some(to)
      && v.peers[from].participants == w.peers[from].participants && v.peers[from].jobs == multiset{}
      && v.peers[to].applied == w.peers[to].applied
      && v.net == w.net - multiset{Packet(from, to, CONNECT)} + multiset{Packet(to, from, SDP_OFFER(to))}
  {
    longer := Go(events, Deliver(Packet(from, to, CONNECT)));
    assert Packet(to, from, ACCEPT) in Run(longer).net;
    longer := Go(longer, Deliver(Packet(to, from, ACCEPT)));
  }

  lemma SecondCallsTheFirst() returns (events: seq<Event>)
    ensures var w := Run(events);
      && w.peers.Keys == {1, 2} && w.joined == {1, 2} && w.departed == {} && Waiting(w, 1) && Waiting(w, 2)
      && w.peers[2].participants == {1} && w.net == multiset{Packet(2, 1, CONNECT)}
  {
    events := GoJoin([], 1);
    assert ConnectAll(1, {}) == multiset{};
    events := GoJoin(events, 2);
    assert ConnectAll(2, {1}) == multiset{Packet(2, 1, CONNECT)};
  }

  lemma TwoParticipantsPair() returns (events: seq<Event>)
    ensures var w := Run(events);
      && w.peers.Keys == {1, 2} && w.joined == {1, 2} && w.departed == {}
      && AnswerTo(w, 2, 1) && w.peers[2].offerId == Some(1) && w.peers[2].participants == {1}
      && w.net == multiset{Packet(1, 2, SDP_OFFER(1))}
  {
    events := SecondCallsTheFirst();
    events := GoPair(events, 2, 1);
  }

  /** A participant can have several peers, and each registers with attributes of its own: a second peer of a live
      participant, of another platform, makes its opponent drop it while it goes on counting on the pairing. */
  lemma MisfitBreaksThePairing() returns (events: seq<Event>)
    ensures PairedWith(Run(events), 1, 2)
    ensures var v := Step(Run(events), Registered(1, 2, false)); AnswerTo(v, 2, 1) && !PairedWith(v, 1, 2)
  {
    events := TwoParticipantsPair();
    RunMatches(events);
  }

  // ---------- Crossing CONNECTs ----------

  /** Two offer peers that face each other: each took the other's CONNECT. */
  ghost predicate Crossed(w: World, p: Id, q: Id)
  {
    p != q && PairedWith(w, p, q) && PairedWith(w, q, p)
  }

  /** Two participants that are connected to each other are exactly one of: p answers q, q answers p, crossed. */
  lemma MutualPairs(events: seq<Event>, p: Id, q: Id)
    requires var w := Run(events);
      && p != q && p in w.peers && q in w.peers
      && w.peers[p].opponent == Some(q) && w.peers[q].opponent == Some(p)
    ensures var w := Run(events);
      && (Crossed(w, p, q) <==> !AnswerTo(w, p, q) && !AnswerTo(w, q, p))
      && (AnswerTo(w, p, q) ==> PairedWith(w, q, p) && !AnswerTo(w, q, p))
      && (AnswerTo(w, q, p) ==> PairedWith(w, p, q) && !AnswerTo(w, p, q))
  {
    RunMatches(events);
    var w := Run(events);
    assert Shape(w, p) && Shape(w, q);
  }

  predicate LeavesAlone(e: Event, p: Id, q: Id) {
    e.Depart? ==> e.id != p && e.id != q
  }

  lemma PairedStays(w: World, e: Event, p: Id, q: Id)
    requires Matching(w) && Possible(w, e) && PairedWith(w, p, q) && q in w.peers && LeavesAlone(e, p, q)
    ensures PairedWith(Step(w, e), p, q)
  {
    StepsPeer(w, e, p);
    StaysConnected(w, e, p);
  }

  /** They stay so, whatever is under way, until one of them leaves. */
  lemma {:induction false} CrossedStays(events: seq<Event>, more: seq<Event>, p: Id, q: Id)
    requires Crossed(Run(events), p, q) && forall e :: e in more ==> LeavesAlone(e, p, q)
    ensures Crossed(Run(events + more), p, q)
  {
    if more == [] {
      assert events + [] == events;
    } else {
      var n := |more| - 1;
      assert (events + more)[..|events + more| - 1] == events + more[..n];
      CrossedStays(events, more[..n], p, q);
      var w := Run(events + more[..n]);
      if Possible(w, more[n]) {
        RunMatches(events + more[..n]);
        PairedStays(w, more[n], p, q);
        PairedStays(w, more[n], q, p);
      }
    }
  }

  ghost predicate NoAnswersUnderWay(w: World, p: Id, q: Id)
    requires p in w.peers
  {
    w.peers[p].jobs == multiset{} && forall m :: m in w.net && m.from == p && m.to == q ==> !m.body.SDP_ANSWER?
  }

  /** A crossed pair with no answer on its way between the two. */
  ghost predicate Stuck(w: World, p: Id, q: Id)
  {
    Crossed(w, p, q) && NoAnswersUnderWay(w, p, q) && NoAnswersUnderWay(w, q, p)
  }

  /** An offer peer ignores everything but an answer of its opponent. */
  lemma OfferPeerIgnores(me: Id, p: Peer, m: Packet)
    requires p.state.Connected? && p.isOffer && !p.isAnswer && !(m.body.SDP_ANSWER? && p.answerId == Some(m.from))
    ensures OnMessage(me, p, m) == Still(p)
  {
  }

  lemma StuckDelivered(w: World, m: Packet, p: Id, q: Id)
    requires Matching(w) && m in w.net && Stuck(w, p, q)
    ensures var v := Step(w, Deliver(m)); p in v.peers && v.peers[p] == w.peers[p]
  {
    if m.to == p {
      assert Shape(w, p);
      OfferPeerIgnores(p, w.peers[p], m);
    }
  }

  /** Such a pair ignores each other's ACCEPT and offer, answers nothing and applies nothing. */
  lemma StuckPeerStays(w: World, e: Event, p: Id, q: Id)
    requires Matching(w) && Possible(w, e) && Stuck(w, p, q) && LeavesAlone(e, p, q)
    ensures var v := Step(w, e); p in v.peers && v.peers[p] == w.peers[p].(participants := v.peers[p].participants)
  {
    match e
    case Deliver(m) => StuckDelivered(w, m, p, q);
    case AnswerReady(id, _) => assert id != p;
    case _ =>
  }

  /** An answer is sent in one place only. */
  lemma NewAnswers(w: World, e: Event, m: Packet)
    requires Possible(w, e) && m.body.SDP_ANSWER?
    requires var v := Step(w, e); (m in v.sent && m !in w.sent) || (m in v.net && m !in w.net)
    ensures e.AnswerReady? && w.peers[e.id].opponent == Some(m.to)
    ensures m.from == e.id && m.body == SDP_ANSWER(e.id, e.origin)
  {
    if e.Deliver? {
      DeliverSendsNoAnswer(w, e.packet, m);
    }
  }

  lemma DeliverSendsNoAnswer(w: World, k: Packet, m: Packet)
    requires k in w.net
    requires var v := Step(w, Deliver(k)); (m in v.sent && m !in w.sent) || (m in v.net && m !in w.net)
    ensures !m.body.SDP_ANSWER?
  {
    assert k.to in w.peers;
    MessageSends(k.to, w.peers[k.to], k);
    assert m in OnMessage(k.to, w.peers[k.to], k).sent;
  }

  lemma StuckStays(w: World, e: Event, p: Id, q: Id)
    requires Matching(w) && Possible(w, e) && Stuck(w, p, q) && LeavesAlone(e, p, q)
    ensures Stuck(Step(w, e), p, q)
    ensures var v := Step(w, e);
      v.peers[p].applied == w.peers[p].applied && v.peers[q].applied == w.peers[q].applied
  {
    StuckPeerStays(w, e, p, q);
    StuckPeerStays(w, e, q, p);
    forall m | m in Step(w, e).net && m !in w.net && m.from in {p, q} ensures !m.body.SDP_ANSWER? {
      if m.body.SDP_ANSWER? {
        NewAnswers(w, e, m);
      }
    }
  }

  /** With none under way between the two, they do not apply any answer at all. */
  lemma {:induction false} StuckPairsApplyNothing(events: seq<Event>, more: seq<Event>, p: Id, q: Id)
    requires Stuck(Run(events), p, q) && forall e :: e in more ==> LeavesAlone(e, p, q)
    ensures Stuck(Run(events + more), p, q)
    ensures var w := Run(events); var v := Run(events + more);
      v.peers[p].applied == w.peers[p].applied && v.peers[q].applied == w.peers[q].applied
  {
    if more == [] {
      assert events + [] == events;
    } else {
      var n := |more| - 1;
      assert (events + more)[..|events + more| - 1] == events + more[..n];
      StuckPairsApplyNothing(events, more[..n], p, q);
      if Possible(Run(events + more[..n]), more[n]) {
        RunMatches(events + more[..n]);
        StuckStays(Run(events + more[..n]), more[n], p, q);
      }
    }
  }

  lemma TwoKnowEachOther() returns (events: seq<Event>)
    ensures Run(events).peers == map[1 := NewPeer({2}), 2 := NewPeer({1})]
    ensures Run(events).net == multiset{}
  {
    events := GoEnter([], 1, {});
    events := GoEnter(events, 2, {1});
    events := GoLearn(events, 1, 2);
    assert {} + {2} == {2};
  }

  lemma TwoWaitForEachOther() returns (events: seq<Event>)
    ensures var w := Run(events);
      && Waiting(w, 1) && Waiting(w, 2) && w.peers[1].jobs == multiset{} && w.peers[2].jobs == multiset{}
      && w.net == multiset{Packet(1, 2, CONNECT), Packet(2, 1, CONNECT)}
  {
    events := TwoKnowEachOther();
    events := GoBegin(events, 1);
    assert ConnectAll(1, {2}) == multiset{Packet(1, 2, CONNECT)};
    events := GoBegin(events, 2);
    assert ConnectAll(2, {1}) == multiset{Packet(2, 1, CONNECT)};
  }

  lemma GoOffer(events: seq<Event>, from: Id, to: Id) returns (longer: seq<Event>)
    requires Waiting(Run(events), to) && Packet(from, to, CONNECT) in Run(events).net
    ensures var w := Run(events); var v := Run(longer);
      && PairedWith(v, to, from) && v.peers == w.peers[to := v.peers[to]]
      && v.peers[to].jobs == w.peers[to].jobs && v.peers[to].applied == w.peers[to].applied
      && v.net == w.net - multiset{Packet(from, to, CONNECT)}
                  + multiset{Packet(to, from, ACCEPT), Packet(to, from, SDP_OFFER(to))}
  {
    longer := Go(events, Deliver(Packet(from, to, CONNECT)));
  }

  /** Two participants that know of each other and begin at the same time. */
  lemma CrossingConnects() returns (events: seq<Event>)
    ensures Stuck(Run(events), 1, 2)
  {
    events := TwoWaitForEachOther();
    events := GoOffer(events, 2, 1);
    events := GoOffer(events, 1, 2);
  }
}
