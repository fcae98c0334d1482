/**
  A room: the local participant's identity, the participants it holds for
  remote peers, and the routing of inbound signaling events to them.
 */
module Rooms {
  import opened Signaling
  import opened Participants
  import opened Membership

  /** What the room's own dispatcher announces: a newly created participant. */
  datatype RoomNote = NewParticipant(participant: Participant)

  /** Whether `onSignalingEvent(e)` throws to its caller, given the keys it holds. */
  predicate Throws(keys: set<string>, roomId: string, e: SignalingEvent) {
    && e.room.id == roomId
    && match e.caller
       case None => e.kind != OFFER
       case Some(caller) =>
         && caller.id in keys
         && ((e.kind == ANSWER && DescriptionOf(e.payload).None?) || (e.kind == CANDIDATE && CandidateOf(e.payload).None?))
  }

  /** A participant as its constructor leaves it. */
  predicate IsNew(p: Participant)
    reads p
  {
    p.peer == FreshConnection && p.channel == None && p.notes == []
  }

  class Room {
    const id: string
    const participantId: string
    const outbox: Outbox
    var participants: map<string, Participant>
    var notes: seq<RoomNote>

    /** Each participant is keyed by its own id and belongs to this room and its outbox. */
    ghost predicate Valid()
      reads this
    {
      forall k | k in participants :: participants[k].id == k && participants[k].roomId == id && participants[k].outbox == outbox
    }

    /** `participantId` is the fresh identifier the source draws from `uuidv4()`. */
    constructor (id: string, participantId: string, outbox: Outbox)
      modifies outbox
      ensures this.id == id && this.participantId == participantId && this.outbox == outbox
      ensures Valid() && participants == map[] && notes == []
      ensures outbox.events == old(outbox.events) + [RoomEvent(CONNECT, participantId, id)]
    {
      this.id := id;
      this.participantId := participantId;
      this.outbox := outbox;
      participants := map[];
      notes := [];
      new;
      outbox.Dispatch(RoomEvent(CONNECT, participantId, id));
    }

    /**
      `send`: every participant is handed `data`, until one channel throws;
      that error leaves `send`. `reply(k)` is how participant `k`'s channel
      reacts. Which participants were served before the throw depends on the
      map's iteration order, which is not modelled; each was either served or
      left as it was.
     */
    method Send(data: string, reply: string -> Reply) returns (c: Completion)
      requires Valid()
      modifies participants.Values
      ensures forall p | p in participants.Values :: p.peer == old(p.peer) && p.notes == old(p.notes)
      ensures forall p | p in participants.Values :: p.channel == Delivered(old(p.channel), data) || p.channel == old(p.channel)
      ensures forall p | p in participants.Values && Refuses(old(p.channel), reply(p.id)) :: p.channel == old(p.channel)
      ensures c == Returned <==> forall p | p in participants.Values :: !Refuses(old(p.channel), reply(p.id))
      ensures c == Returned ==> forall p | p in participants.Values :: p.channel == Delivered(old(p.channel), data)
      ensures c.Threw? ==> exists p | p in participants.Values :: Refuses(old(p.channel), reply(p.id)) && c == Threw(reply(p.id).error)
    {
      c := Returned;
      var pending := participants.Keys;
      while pending != {}
        invariant pending <= participants.Keys && c == Returned
        invariant forall k | k in participants :: participants[k].peer == old(participants[k].peer) && participants[k].notes == old(participants[k].notes)
        invariant forall k | k in participants && k !in pending :: participants[k].channel == Delivered(old(participants[k].channel), data) && !Refuses(old(participants[k].channel), reply(k))
        invariant forall k | k in pending :: participants[k].channel == old(participants[k].channel)
        decreases pending
      {
        var k :| k in pending;
        var participant := participants[k];
        c := participant.Send(data, reply(k));
        if c.Threw? {
          return;
        }
        pending := pending - {k};
      }
      forall p | p in participants.Values
        ensures !Refuses(old(p.channel), reply(p.id))
      {
        var k :| k in participants && participants[k] == p;
      }
    }

    /**
      `disconnect`: one DISCONNECT is sent, then every participant held on
      entry is removed and closed once.
     */
    method Disconnect()
      requires Valid()
      modifies this, outbox, participants.Values
      ensures Valid() && participants == map[] && notes == old(notes)
      ensures outbox.events == old(outbox.events) + [RoomEvent(DISCONNECT, participantId, id)]
      ensures forall p | p in old(participants.Values) :: p.ClosedOnce()
    {
      outbox.Dispatch(RoomEvent(DISCONNECT, participantId, id));
      var keys := participants.Keys;
      while keys != {}
        invariant keys == participants.Keys <= old(participants.Keys)
        invariant forall k | k in participants :: participants[k] == old(participants[k])
        invariant Valid() && notes == old(notes)
        invariant outbox.events == old(outbox.events) + [RoomEvent(DISCONNECT, participantId, id)]
        invariant forall k | k in old(participants) && k !in keys :: old(participants[k]).ClosedOnce()
        invariant forall k | k in keys :: unchanged(participants[k])
        decreases keys
      {
        var key :| key in keys;
        var participant := participants[key];
        participants := participants - {key};
        participant.Close();
        keys := keys - {key};
      }
    }

    /** `onSignalingEvent`: events of this room only, dispatched on their type. */
    method OnSignalingEvent(event: SignalingEvent, h: HandleReplies) returns (c: Completion)
      requires Valid()
      modifies this, outbox, participants.Values
      ensures Valid()
      ensures event.room.id != id ==>
        && c == Returned && participants == old(participants) && notes == old(notes)
        && outbox.events == old(outbox.events) && forall p | p in old(participants.Values) :: unchanged(p)
      ensures event.room.id == id ==>
        match event.kind
        case CONNECT => ConnectHandled(event, c)
        case OFFER => c == Returned && OfferHandled(event, h)
        case DISCONNECT => DisconnectHandled(event, c, old(participants))
        case _ => ForwardHandled(event, h, c)
      ensures Summarized(event, c, old(participants))
    {
      c := Returned;
      if id != event.room.id {
        return;
      }
      match event.kind
      case CONNECT => c := OnConnect(event);
      case OFFER => OnOffer(event, h);
      case DISCONNECT => c := OnDisconnect(event);
      case _ => c := Forward(event, h);
    }

    /**
      What every `onSignalingEvent` guarantees whatever the event: the keys
      follow `NextKeys`, a 'participant' notification is fired exactly when a
      participant is created, the call throws exactly when `Throws` says, and
      no participant but the caller's is touched.
     */
    twostate predicate Summarized(event: SignalingEvent, c: Completion, held: map<string, Participant>)
      requires held == old(participants)
      reads this, participants.Values, held.Values
    {
      && participants.Keys == NextKeys(held.Keys, id, event)
      && notes == old(notes) + (if Announces(held.Keys, id, event) then [NewParticipant(participants[event.caller.value.id])] else [])
      && c == (if Throws(held.Keys, id, event) then Threw(TypeError) else Returned)
      && forall p | p in held.Values && (event.room.id != id || event.caller != Some(Identifiable(p.id))) :: unchanged(p)
    }

    /**
      The effect of `onConnect`: a caller without a participant gets a new
      one, announced once; a known caller changes nothing; no caller throws.
     */
    twostate predicate ConnectHandled(e: SignalingEvent, c: Completion)
      reads this, participants.Values, outbox
    {
      && outbox.events == old(outbox.events)
      && match e.caller
      case None => c == Threw(TypeError) && participants == old(participants) && notes == old(notes)
      case Some(caller) =>
        && c == Returned
        && caller.id in participants
        && participants == old(participants)[caller.id := participants[caller.id]]
        && if caller.id in old(participants) then
             participants == old(participants) && notes == old(notes) && unchanged(participants[caller.id])
           else
             && fresh(participants[caller.id])
             && IsNew(participants[caller.id])
             && notes == old(notes) + [NewParticipant(participants[caller.id])]
    }

    method OnConnect(e: SignalingEvent) returns (c: Completion)
      requires Valid()
      modifies this
      ensures Valid() && ConnectHandled(e, c)
      ensures e.room.id == id && e.kind == CONNECT ==> Summarized(e, c, old(participants))
    {
      if e.caller.None? {
        return Threw(TypeError);
      }
      c := Returned;
      var _ := Admit(e.caller.value.id);
    }

    /**
      The participant for remote peer `k`: the one held, or else a new one,
      stored under `k` and announced as 'participant'.
     */
    method Admit(k: string) returns (p: Participant)
      requires Valid()
      modifies this
      ensures Valid() && participants == old(participants)[k := p]
      ensures p.id == k && p.roomId == id && p.outbox == outbox
      ensures k in old(participants) ==> p == old(participants[k]) && notes == old(notes)
      ensures k !in old(participants) ==> fresh(p) && IsNew(p) && notes == old(notes) + [NewParticipant(p)]
    {
      if k in participants {
        return participants[k];
      }
      p := new Participant(k, id, outbox);
      participants := participants[p.id := p];
      notes := notes + [NewParticipant(p)];
    }

    /**
      The effect of `onOffer`: the caller's participant, created and
      announced if there is none, renegotiates with the offered description.
      A payload that is no description, or a missing caller, rejects the
      handler's promise before anything happens.
     */
    twostate predicate OfferHandled(e: SignalingEvent, h: HandleReplies)
      reads this, participants.Values, outbox
    {
      if DescriptionOf(e.payload).Some? && e.caller.Some? then
        var d, k := DescriptionOf(e.payload).value, e.caller.value.id;
        && k in participants
        && participants == old(participants)[k := participants[k]]
        && outbox.events == old(outbox.events) + Emitted(k, id, Some(d), h)
        && var p := participants[k];
           if k in old(participants) then
             && p == old(participants[k])
             && notes == old(notes)
             && p.peer == Negotiated(old(p.peer), Some(d), h)
             && p.notes == old(p.notes) + Caught(Settle(ChainOf(Some(d), h)))
             && p.channel == old(p.channel)
           else
             && fresh(p)
             && notes == old(notes) + [NewParticipant(p)]
             && p.peer == Negotiated(FreshConnection, Some(d), h)
             && p.notes == Caught(Settle(ChainOf(Some(d), h)))
             && p.channel == None
      else
        && participants == old(participants) && notes == old(notes) && outbox.events == old(outbox.events)
        && forall k | k in participants :: unchanged(participants[k])
    }

    method OnOffer(e: SignalingEvent, h: HandleReplies)
      requires Valid()
      modifies this, outbox, participants.Values
      ensures Valid() && OfferHandled(e, h)
      ensures e.room.id == id && e.kind == OFFER ==> Summarized(e, Returned, old(participants))
    {
      var desc := DescriptionOf(e.payload);
      if desc.None? || e.caller.None? {
        return;
      }
      var participant := Admit(e.caller.value.id);
      participant.Renegotiate(desc, h, "");
    }

    /**
      The effect of `onDisconnect`: a known caller's participant is removed
      and closed once; an unknown caller changes nothing; no caller throws.
     */
    twostate predicate DisconnectHandled(e: SignalingEvent, c: Completion, held: map<string, Participant>)
      requires held == old(participants)
      reads this, held.Values, outbox
    {
      && outbox.events == old(outbox.events)
      && match e.caller
      case None => c == Threw(TypeError) && participants == held && notes == old(notes)
      case Some(caller) =>
        && c == Returned
        && notes == old(notes)
        && participants == held - {caller.id}
        && (caller.id in held ==> held[caller.id].ClosedOnce())
    }

    method OnDisconnect(e: SignalingEvent) returns (c: Completion)
      requires Valid()
      modifies this, participants.Values
      ensures Valid() && DisconnectHandled(e, c, old(participants))
      ensures e.room.id == id && e.kind == DISCONNECT ==> Summarized(e, c, old(participants))
    {
      if e.caller.None? {
        return Threw(TypeError);
      }
      c := Returned;
      var caller := e.caller.value;
      if caller.id in participants {
        var participant := participants[caller.id];
        participants := participants - {caller.id};
        participant.Close();
      }
    }

    /** The ANSWER and CANDIDATE branch of `onSignalingEvent`. */
    method Forward(e: SignalingEvent, h: HandleReplies) returns (c: Completion)
      requires Valid()
      modifies participants.Values
      ensures ForwardHandled(e, h, c)
      ensures e.room.id == id && (e.kind == ANSWER || e.kind == CANDIDATE) ==> Summarized(e, c, old(participants))
    {
      if e.caller.None? {
        return Threw(TypeError);
      }
      c := Returned;
      var caller := e.caller.value;
      if caller.id in participants {
        c := participants[caller.id].OnSignalingEvent(e, h);
      }
    }

    /**
      The effect of an ANSWER or CANDIDATE: handed to the caller's
      participant when there is one, dropped otherwise; the map, the
      announcements and the outbox never change.
     */
    twostate predicate ForwardHandled(e: SignalingEvent, h: HandleReplies, c: Completion)
      reads this, participants.Values, outbox
    {
      && participants == old(participants)
      && notes == old(notes)
      && outbox.events == old(outbox.events)
      && match e.caller
         case None => c == Threw(TypeError)
         case Some(caller) =>
           if caller.id in participants then
             && (e.kind == ANSWER ==> participants[caller.id].AnswerApplied(e, h.setRemote, c))
             && (e.kind == CANDIDATE ==> participants[caller.id].CandidateAdded(e, h.addCandidate, c))
           else c == Returned
    }
  }
}
