/** The transport object of one call participant: VkWebRTCTransport, and without the roles and session
    descriptions also VkCallSignalServerTransport. */
module Participants {
  import opened Bytes
  import opened Pairing

  lemma ConnectOneMore(me: Id, some: set<Id>, other: Id)
    requires other !in some
    ensures ConnectAll(me, some + {other}) == ConnectAll(me, some) + multiset{Packet(me, other, CONNECT)}
  {
    var before := set p | p in some :: Packet(me, p, CONNECT);
    var after := set p | p in some + {other} :: Packet(me, p, CONNECT);
    assert after == before + {Packet(me, other, CONNECT)};
    assert Packet(me, other, CONNECT) !in before;
  }

  method Pick<T>(s: set<T>) returns (x: T)
    requires s != {}
    ensures x in s
  {
    x :| x in s;
  }

  lemma TwoSent(sent: multiset<Packet>, first: Packet, second: Packet)
    ensures sent + multiset{first} + multiset{second} == sent + multiset{first, second}
  {
  }

  class Participant {
    const me: Id
    var state: Phase
    var opponent: Option<Id>            // opponentParticipantId
    var participants: set<Id>
    var isOfferPeer: bool
    var offerParticipantId: Option<Id>
    var isAnswerPeer: bool
    var answerParticipantId: Option<Id>
    var jobs: multiset<Id>              // offers handed to createAnswer and not answered yet
    var applied: seq<Applied>
    var outbox: seq<Packet>             // custom-data commands sent so far

    ghost function View(): Peer
      reads this
    {
      Peer(state, opponent, participants, isOfferPeer, offerParticipantId, isAnswerPeer, answerParticipantId,
           jobs, applied)
    }

    twostate predicate Follows(r: Reaction)
      reads this
    {
      View() == r.peer && multiset(outbox) == old(multiset(outbox)) + r.sent
    }

    /** The signal server is ready and lists the call's participants. */
    constructor (me: Id, listed: set<Id>)
      ensures this.me == me && View() == NewPeer(listed - {me}) && outbox == []
    {
      this.me := me;
      state, opponent, participants := Idle, None, listed - {me};
      isOfferPeer, offerParticipantId, isAnswerPeer, answerParticipantId := false, None, false, None;
      jobs, applied, outbox := multiset{}, [], [];
    }

    method SendMessageToParticipant(to: Id, body: Body)
      modifies `outbox
      ensures multiset(outbox) == old(multiset(outbox)) + multiset{Packet(me, to, body)}
    {
      outbox := outbox + [Packet(me, to, body)];
    }

    method SendConnectToOpponentParticipants()
      modifies `outbox
      ensures multiset(outbox) == old(multiset(outbox)) + ConnectAll(me, participants)
    {
      var left := participants;
      while left != {}
        invariant left <= participants
        invariant multiset(outbox) == old(multiset(outbox)) + ConnectAll(me, participants - left)
        decreases left
      {
        var other := Pick(left);
        ConnectOneMore(me, participants - left, other);
        assert participants - (left - {other}) == participants - left + {other};
        SendMessageToParticipant(other, CONNECT);
        left := left - {other};
      }
      assert participants - {} == participants;
    }

    method SetStateConnecting()
      modifies `state, `opponent, `outbox
      ensures Follows(SetConnecting(me, old(View())))
    {
      state := Connecting;
      opponent := None;
      SendConnectToOpponentParticipants();
    }

    method SetStateConnected(other: Id, sendAccept: bool)
      modifies `state, `opponent, `isOfferPeer, `offerParticipantId, `isAnswerPeer, `answerParticipantId, `jobs, `outbox
      ensures Follows(SetConnected(me, old(View()), other, sendAccept))
    {
      state := Connected;
      opponent := Some(other);
      if sendAccept {
        SendMessageToParticipant(other, ACCEPT);
        BecomeOfferPeer(other);
        TwoSent(old(multiset(outbox)), Packet(me, other, ACCEPT), Packet(me, other, SDP_OFFER(me)));
      } else {
        BecomeAnswerPeer(other);
      }
    }

    method BecomeOfferPeer(other: Id)
      requires opponent == Some(other)
      modifies `isOfferPeer, `offerParticipantId, `isAnswerPeer, `answerParticipantId, `outbox
      ensures View() == old(View()).(isOffer := true, offerId := Some(me), isAnswer := false, answerId := Some(other))
      ensures multiset(outbox) == old(multiset(outbox)) + multiset{Packet(me, other, SDP_OFFER(me))}
    {
      isOfferPeer := true;
      offerParticipantId := Some(me);
      isAnswerPeer := false;
      answerParticipantId := Some(other);
      StartOfferConnection();
    }

    method BecomeAnswerPeer(other: Id)
      modifies `isOfferPeer, `offerParticipantId, `isAnswerPeer, `answerParticipantId, `jobs
      ensures View() == old(View()).(isOffer := false, offerId := Some(other), isAnswer := true, answerId := Some(me),
                                     jobs := multiset{})
    {
      isOfferPeer := false;
      offerParticipantId := Some(other);
      isAnswerPeer := true;
      answerParticipantId := Some(me);
      StartAnswerConnection();
    }

    /** The offer created earlier is emitted at once, and goes to the opponent. */
    method StartOfferConnection()
      requires opponent.Some?
      modifies `outbox
      ensures multiset(outbox) == old(multiset(outbox)) + multiset{Packet(me, opponent.value, SDP_OFFER(me))}
    {
      SendMessageToParticipant(opponent.value, SDP_OFFER(me));
    }

    /** The WebRTC peer is destroyed and replaced; createAnswer calls that wait on it never finish. */
    method StartAnswerConnection()
      modifies `jobs
      ensures jobs == multiset{}
    {
      jobs := multiset{};
    }

    method HandleOnParticipantMessage(from: Id, body: Body)
      modifies this
      ensures Follows(OnMessage(me, old(View()), Packet(from, me, body)))
    {
      match state {
        case Idle =>
        case Connecting => HandleWhileConnecting(from, body);
        case Connected => HandleWhileConnected(from, body);
      }
    }

    method HandleWhileConnecting(from: Id, body: Body)
      requires state == Connecting
      modifies this
      ensures Follows(OnMessage(me, old(View()), Packet(from, me, body)))
    {
      match body {
        case CONNECT =>
          if opponent == None {
            SetStateConnected(from, true);
          }
        case ACCEPT =>
          if opponent == None {
            SetStateConnected(from, false);
          }
        case _ =>
      }
    }

    method HandleWhileConnected(from: Id, body: Body)
      requires state == Connected
      modifies `jobs, `applied
      ensures Follows(OnMessage(me, old(View()), Packet(from, me, body)))
    {
      match body {
        case SDP_OFFER(origin) =>
          if isAnswerPeer && offerParticipantId == Some(from) {
            jobs := jobs + multiset{origin};
          }
        case SDP_ANSWER(_, _) =>
          if isOfferPeer && answerParticipantId == Some(from) {
            applied := applied + [Applied(Packet(from, me, body), answerParticipantId)];
          }
        case _ =>
      }
    }

    /** createAnswer has finished; the answer goes to the current opponent. */
    method HandleOnSdpAnswer(origin: Id)
      requires origin in jobs
      modifies `jobs, `outbox
      ensures Follows(OnAnswerReady(me, old(View()), origin))
    {
      jobs := jobs - multiset{origin};
      if opponent.Some? {
        SendMessageToParticipant(opponent.value, SDP_ANSWER(me, origin));
      }
    }

    method HandleHungUp(other: Id)
      modifies `participants, `state, `opponent, `outbox
      ensures Follows(OnHungUp(me, old(View()), other))
    {
      participants := participants - {other};
      if state.Connected? && opponent == Some(other) {
        SetStateConnecting();
      }
    }

    method HandleRegisteredPeer(other: Id, fits: bool)
      modifies `participants, `state, `opponent, `outbox
      ensures Follows(OnRegistered(me, old(View()), other, fits))
    {
      if fits {
        participants := participants + {other};
      } else {
        HandleHungUp(other);
      }
    }
  }
}
