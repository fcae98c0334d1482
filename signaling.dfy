/**
  Wire-level vocabulary shared by a room and its participants: the signaling
  event, its payloads, the outbound 'send' channel of the process-wide event
  dispatcher, and the promise chains run against a peer connection.
 */
module Signaling {

  datatype Option<+T> = None | Some(value: T)

  /** The five signaling message kinds. */
  datatype EventType = CONNECT | DISCONNECT | OFFER | ANSWER | CANDIDATE

  /** `{ id: string }`: the reference used for caller, callee and room. */
  datatype Identifiable = Identifiable(id: string)

  datatype SdpType = SdpOffer | SdpPrAnswer | SdpAnswer | SdpRollback

  /** A session description; its SDP text is never interpreted here. */
  datatype SessionDescription = SessionDescription(sdpType: SdpType, sdp: string)

  /** An ICE candidate; its text is never interpreted here. */
  datatype IceCandidate = IceCandidate(candidate: string, sdpMid: string, sdpMLineIndex: nat)

  /** The untyped `payload` of an event: null, a description, a candidate or other data. */
  datatype Payload = Null | Sdp(description: SessionDescription) | Ice(iceCandidate: IceCandidate) | Data(data: string)

  /** A signaling message; `kind` is the event's `type`. */
  datatype SignalingEvent = SignalingEvent(
    kind: EventType,
    caller: Option<Identifiable>,
    callee: Option<Identifiable>,
    room: Identifiable,
    payload: Payload)

  /** How a call into the source returns: normally, or by throwing. */
  datatype Completion = Returned | Threw(error: string)

  const TypeError := "TypeError"

  /** `new RTCSessionDescription(payload)`: only a description payload converts; anything else throws a TypeError. */
  function DescriptionOf(p: Payload): Option<SessionDescription> {
    if p.Sdp? then Some(p.description) else None
  }

  /** `new RTCIceCandidate(payload)`: only a candidate payload converts; anything else throws a TypeError. */
  function CandidateOf(p: Payload): Option<IceCandidate> {
    if p.Ice? then Some(p.iceCandidate) else None
  }

  /** An event a room sends about itself: its own id as caller, no callee, no payload. */
  function RoomEvent(kind: EventType, participantId: string, roomId: string): SignalingEvent {
    SignalingEvent(kind, Some(Identifiable(participantId)), None, Identifiable(roomId), Null)
  }

  /** An event a participant sends to its remote peer: a null caller and the peer as callee. */
  function PeerEvent(kind: EventType, calleeId: string, roomId: string, payload: Payload): SignalingEvent {
    SignalingEvent(kind, None, Some(Identifiable(calleeId)), Identifiable(roomId), payload)
  }

  /**
    The 'send' event of the process-wide dispatcher: every event handed to
    it, in order. The transport that subscribes to it is not modelled.
   */
  class Outbox {
    var events: seq<SignalingEvent>

    constructor ()
      ensures events == []
    {
      events := [];
    }

    method Dispatch(e: SignalingEvent)
      modifies this
      ensures events == old(events) + [e]
    {
      events := events + [e];
    }
  }

  /** How the peer connection settles one asynchronous request. */
  datatype Reply = Resolved | Rejected(error: string)

  /**
    The settled value of a promise chain `a.then(b).then(c)...`: the steps
    run in order and the first rejection skips every later step.
   */
  function Settle(chain: seq<Reply>): (r: Reply)
    ensures r.Resolved? <==> forall i | 0 <= i < |chain| :: chain[i].Resolved?
    ensures r.Rejected? ==> exists i | 0 <= i < |chain| :: chain[i] == r && forall j | 0 <= j < i :: chain[j].Resolved?
  {
    if chain == [] then Resolved
    else if chain[0].Rejected? then chain[0]
    else
      var rest := Settle(chain[1..]);
      assert forall i | 0 <= i < |chain| - 1 :: chain[1..][i] == chain[i + 1];
      rest
  }

  /** A chain of one step settles as that step. */
  lemma SingleStep(step: Reply)
    ensures Settle([step]) == step
  {
  }

  /** Appending steps to a chain: the later steps only matter when the earlier ones all resolve. */
  lemma {:induction false} SettleAppend(a: seq<Reply>, b: seq<Reply>)
    ensures Settle(a + b) == if Settle(a).Rejected? then Settle(a) else Settle(b)
  {
    if a != [] {
      assert (a + b)[0] == a[0];
      assert (a + b)[1..] == a[1..] + b;
      SettleAppend(a[1..], b);
    } else {
      assert a + b == b;
    }
  }
}
