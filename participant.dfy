/**
  One remote peer of a room: its peer connection, its optional data channel
  and its own notification log ('disconnected', 'error', 'message').
 */
module Participants {
  import opened Signaling

  /** `RTCDataChannel.readyState`. */
  datatype ReadyState = Connecting | Open | Closing | Closed

  /** A data channel: its label, its state and every payload handed to its `send`. */
  datatype DataChannel = DataChannel(channelLabel: string, readyState: ReadyState, sent: seq<string>)

  /** The parts of an `RTCPeerConnection` that the participant's requests change. */
  datatype PeerConnection = PeerConnection(
    localDescription: Option<SessionDescription>,
    remoteDescription: Option<SessionDescription>,
    remoteCandidates: seq<IceCandidate>,
    closed: bool)

  const FreshConnection := PeerConnection(None, None, [], false)

  /** `RTCPeerConnection.connectionState`. */
  datatype ConnectionState = ConnNew | ConnConnecting | ConnConnected | ConnDisconnected | ConnFailed | ConnClosed

  /** `RTCPeerConnection.iceConnectionState`. */
  datatype IceConnectionState = IceNew | IceChecking | IceConnected | IceCompleted | IceDisconnected | IceFailed | IceClosed

  /** What the participant's own dispatcher announces to the application. */
  datatype ParticipantNote = Disconnected | Error(error: string) | Message(data: string)

  /**
    How the peer connection answers the requests of one handler run:
    `setRemoteDescription`, `createOffer`/`createAnswer` (resolving with
    `created`), `setLocalDescription` and `addIceCandidate`.
   */
  datatype HandleReplies = HandleReplies(
    setRemote: Reply,
    create: Reply,
    created: SessionDescription,
    setLocal: Reply,
    addCandidate: Reply)

  /** What an incoming event makes the participant do. */
  datatype Action = Ignore | ApplyAnswer | AddCandidate

  /** The caller filter and type switch of `onSignalingEvent`. */
  function Route(id: string, e: SignalingEvent): (a: Action)
    ensures a != Ignore <==> e.caller == Some(Identifiable(id)) && (e.kind == ANSWER || e.kind == CANDIDATE)
    ensures a == ApplyAnswer <==> e.caller == Some(Identifiable(id)) && e.kind == ANSWER
  {
    if e.caller.None? || e.caller.value.id != id then Ignore
    else match e.kind
      case ANSWER => ApplyAnswer
      case CANDIDATE => AddCandidate
      case _ => Ignore
  }

  /** The guard of `send`: a channel exists and is open. */
  predicate CanSend(channel: Option<DataChannel>) {
    channel.Some? && channel.value.readyState == Open
  }

  /** `channel.send` throws: the guard of `send` passed and the channel rejected the payload. */
  predicate Refuses(channel: Option<DataChannel>, reply: Reply) {
    CanSend(channel) && reply.Rejected?
  }

  /** The channel after `send(data)`. */
  function Delivered(channel: Option<DataChannel>, data: string): (r: Option<DataChannel>)
    ensures !CanSend(channel) ==> r == channel
    ensures CanSend(channel) ==> r.Some? && r.value.channelLabel == channel.value.channelLabel && CanSend(r)
    ensures CanSend(channel) ==> |r.value.sent| == |channel.value.sent| + 1
    ensures CanSend(channel) ==> r.value.sent[..|channel.value.sent|] == channel.value.sent && r.value.sent[|channel.value.sent|] == data
  {
    if CanSend(channel) then Some(channel.value.(sent := channel.value.sent + [data])) else channel
  }

  /** The channel after `channel.close()`: an open or connecting channel starts closing. */
  function Shut(channel: Option<DataChannel>): Option<DataChannel> {
    match channel
    case None => None
    case Some(ch) => if ch.readyState == Closing || ch.readyState == Closed then channel else Some(ch.(readyState := Closing))
  }

  /** A channel that `createDataChannel(label)` has just returned. */
  function NewChannel(channelLabel: string): DataChannel {
    DataChannel(channelLabel, Connecting, [])
  }

  /** Apply a remote description, create an answer, apply it locally. */
  function AnswerChain(h: HandleReplies): seq<Reply> {
    [h.setRemote, h.create, h.setLocal]
  }

  /** Create an offer, apply it locally. */
  function OfferChain(h: HandleReplies): seq<Reply> {
    [h.create, h.setLocal]
  }

  /** The chain that `init`/`renegotiate` run: an answer to a remote description, else an offer. */
  function ChainOf(remote: Option<SessionDescription>, h: HandleReplies): seq<Reply> {
    if remote.Some? then AnswerChain(h) else OfferChain(h)
  }

  /** The peer connection after a chain: each resolved `set...Description` has taken effect. */
  function Negotiated(pc: PeerConnection, remote: Option<SessionDescription>, h: HandleReplies): PeerConnection {
    var remoteApplied := remote.Some? && h.setRemote.Resolved?;
    pc.(remoteDescription := if remoteApplied then remote else pc.remoteDescription,
        localDescription := if Settle(ChainOf(remote, h)).Resolved? then Some(h.created) else pc.localDescription)
  }

  /** The event sent at the end of a chain: an ANSWER to a remote description, else an OFFER. */
  function Emitted(id: string, roomId: string, remote: Option<SessionDescription>, h: HandleReplies): seq<SignalingEvent> {
    if Settle(ChainOf(remote, h)).Resolved? then
      [PeerEvent(if remote.Some? then ANSWER else OFFER, id, roomId, Sdp(h.created))]
    else []
  }

  /** `.catch(e => dispatcher.dispatch('error', e))`. */
  function Caught(r: Reply): seq<ParticipantNote> {
    if r.Rejected? then [Error(r.error)] else []
  }

  /** 'disconnected', 'failed' and 'closed' are the terminal connection states. */
  predicate Terminal(s: ConnectionState) {
    s == ConnDisconnected || s == ConnFailed || s == ConnClosed
  }

  /** 'disconnected', 'failed' and 'closed' are the terminal ICE connection states. */
  predicate IceTerminal(s: IceConnectionState) {
    s == IceDisconnected || s == IceFailed || s == IceClosed
  }

  /**
    A renegotiation ends in exactly one of two ways: every step resolves and
    one ANSWER or OFFER carrying the new local description is sent, or a step
    is rejected and that step's error, the first one, is reported once.
   */
  lemma RenegotiationSettlesOnce(id: string, roomId: string, pc: PeerConnection, remote: Option<SessionDescription>, h: HandleReplies)
    ensures |Emitted(id, roomId, remote, h)| + |Caught(Settle(ChainOf(remote, h)))| == 1
    ensures |Emitted(id, roomId, remote, h)| == 1 <==> forall i | 0 <= i < |ChainOf(remote, h)| :: ChainOf(remote, h)[i].Resolved?
    ensures |Emitted(id, roomId, remote, h)| == 1 ==>
      Emitted(id, roomId, remote, h)[0].kind == (if remote.Some? then ANSWER else OFFER) &&
      Emitted(id, roomId, remote, h)[0].callee == Some(Identifiable(id)) &&
      Emitted(id, roomId, remote, h)[0].room == Identifiable(roomId) &&
      Emitted(id, roomId, remote, h)[0].caller.None? &&
      Some(Emitted(id, roomId, remote, h)[0].payload.description) == Negotiated(pc, remote, h).localDescription
    ensures Settle(ChainOf(remote, h)) ==
      if remote.Some? && h.setRemote.Rejected? then h.setRemote
      else if h.create.Rejected? then h.create
      else h.setLocal
  {
    SingleStep(h.setRemote);
    SingleStep(h.create);
    SingleStep(h.setLocal);
    assert OfferChain(h) == [h.create] + [h.setLocal];
    SettleAppend([h.create], [h.setLocal]);
    assert AnswerChain(h) == [h.setRemote] + OfferChain(h);
    SettleAppend([h.setRemote], OfferChain(h));
  }

  /** Once a participant is closed its channel can no longer deliver, and `send` can no longer throw. */
  lemma SendAfterClose(channel: Option<DataChannel>, data: string, reply: Reply)
    ensures !CanSend(Shut(channel)) && !Refuses(Shut(channel), reply)
    ensures Delivered(Shut(channel), data) == Shut(channel)
  {
  }

  class Participant {
    const id: string
    const roomId: string
    const outbox: Outbox
    var peer: PeerConnection
    var channel: Option<DataChannel>
    var notes: seq<ParticipantNote>

    /** A participant for remote peer `id` of room `roomId`, with a new peer connection and no channel. */
    constructor (id: string, roomId: string, outbox: Outbox)
      ensures this.id == id && this.roomId == roomId && this.outbox == outbox
      ensures peer == FreshConnection && channel == None && notes == []
    {
      this.id := id;
      this.roomId := roomId;
      this.outbox := outbox;
      peer := FreshConnection;
      channel := None;
      notes := [];
    }

    /**
      `send`: forwarded once to an open channel, otherwise nothing happens.
      `reply` is how `RTCDataChannel.send` reacts: it throws (an oversized
      message, a full send buffer) and then nothing is sent.
     */
    method Send(data: string, reply: Reply) returns (c: Completion)
      modifies this`channel
      ensures c == (if Refuses(old(channel), reply) then Threw(reply.error) else Returned)
      ensures channel == (if c.Returned? then Delivered(old(channel), data) else old(channel))
    {
      c := Returned;
      if channel.None? || channel.value.readyState != Open {
        return;
      }
      if reply.Rejected? {
        return Threw(reply.error);
      }
      channel := Some(channel.value.(sent := channel.value.sent + [data]));
    }

    /** The effect of one `close`: channel closing, connection closed, one 'disconnected'. */
    twostate predicate ClosedOnce()
      reads this
    {
      && channel == Shut(old(channel))
      && peer == old(peer).(closed := true)
      && notes == old(notes) + [Disconnected]
    }

    method Close()
      modifies this`channel, this`peer, this`notes
      ensures ClosedOnce()
      ensures !CanSend(channel)
    {
      if channel.Some? {
        channel := Shut(channel);
      }
      peer := peer.(closed := true);
      notes := notes + [Disconnected];
    }

    /** `onSignalingEvent`: only this peer's ANSWER and CANDIDATE events act. */
    method OnSignalingEvent(e: SignalingEvent, h: HandleReplies) returns (c: Completion)
      modifies this`peer, this`notes
      ensures Route(id, e) == Ignore ==> c == Returned && peer == old(peer) && notes == old(notes) && channel == old(channel)
      ensures Route(id, e) == ApplyAnswer ==> AnswerApplied(e, h.setRemote, c)
      ensures Route(id, e) == AddCandidate ==> CandidateAdded(e, h.addCandidate, c)
    {
      c := Returned;
      match Route(id, e)
      case Ignore =>
      case ApplyAnswer => c := OnAnswer(e, h.setRemote);
      case AddCandidate => c := OnCandidate(e, h.addCandidate);
    }

    /**
      The effect of `onAnswer`: a payload that is no description throws;
      otherwise it becomes the remote description, or the rejection is reported.
     */
    twostate predicate AnswerApplied(e: SignalingEvent, reply: Reply, c: Completion)
      reads this
    {
      match DescriptionOf(e.payload)
      case None => c == Threw(TypeError) && peer == old(peer) && notes == old(notes) && channel == old(channel)
      case Some(d) =>
        && c == Returned
        && channel == old(channel)
        && peer == old(peer).(remoteDescription := if reply.Resolved? then Some(d) else old(peer.remoteDescription))
        && notes == old(notes) + Caught(reply)
    }

    method OnAnswer(e: SignalingEvent, reply: Reply) returns (c: Completion)
      modifies this`peer, this`notes
      ensures AnswerApplied(e, reply, c)
    {
      var d := DescriptionOf(e.payload);
      if d.None? {
        return Threw(TypeError);
      }
      c := Returned;
      if reply.Resolved? {
        peer := peer.(remoteDescription := d);
      } else {
        notes := notes + Caught(reply);
      }
    }

    /**
      The effect of `onCandidate`: a payload that is no candidate throws;
      otherwise it is added to the connection, or the rejection is reported.
     */
    twostate predicate CandidateAdded(e: SignalingEvent, reply: Reply, c: Completion)
      reads this
    {
      match CandidateOf(e.payload)
      case None => c == Threw(TypeError) && peer == old(peer) && notes == old(notes) && channel == old(channel)
      case Some(cand) =>
        && c == Returned
        && channel == old(channel)
        && peer == old(peer).(remoteCandidates := old(peer.remoteCandidates) + if reply.Resolved? then [cand] else [])
        && notes == old(notes) + Caught(reply)
    }

    method OnCandidate(e: SignalingEvent, reply: Reply) returns (c: Completion)
      modifies this`peer, this`notes
      ensures CandidateAdded(e, reply, c)
    {
      var cand := CandidateOf(e.payload);
      if cand.None? {
        return Threw(TypeError);
      }
      c := Returned;
      if reply.Resolved? {
        peer := peer.(remoteCandidates := peer.remoteCandidates + [cand.value]);
      } else {
        notes := notes + Caught(reply);
      }
    }

    /**
      The promise chain shared by `init` and `renegotiate`: with a remote
      description, apply it, create an answer and send it as ANSWER;
      without one, create an offer and send it as OFFER. The chain's settled
      value is returned.
     */
    method Negotiate(remote: Option<SessionDescription>, h: HandleReplies) returns (r: Reply)
      modifies this`peer, outbox
      ensures r == Settle(ChainOf(remote, h))
      ensures peer == Negotiated(old(peer), remote, h)
      ensures outbox.events == old(outbox.events) + Emitted(id, roomId, remote, h)
    {
      RenegotiationSettlesOnce(id, roomId, peer, remote, h);
      if remote.Some? {
        r := h.setRemote;
        if r.Rejected? {
          return;
        }
        peer := peer.(remoteDescription := remote);
      }
      r := h.create;
      if r.Rejected? {
        return;
      }
      r := h.setLocal;
      if r.Rejected? {
        return;
      }
      peer := peer.(localDescription := Some(h.created));
      var kind := if remote.Some? then ANSWER else OFFER;
      outbox.Dispatch(PeerEvent(kind, id, roomId, Sdp(peer.localDescription.value)));
    }

    /**
      `init`: like `renegotiate`, but a rejected step rejects the returned
      promise instead of being reported.
     */
    method Init(remote: Option<SessionDescription>, h: HandleReplies, channelLabel: string) returns (r: Reply)
      modifies this`peer, this`channel, outbox
      ensures r == Settle(ChainOf(remote, h))
      ensures channel == if remote.Some? then old(channel) else Some(NewChannel(channelLabel))
      ensures peer == Negotiated(old(peer), remote, h)
      ensures outbox.events == old(outbox.events) + Emitted(id, roomId, remote, h)
    {
      if remote.None? {
        channel := Some(NewChannel(channelLabel));
      }
      r := Negotiate(remote, h);
    }

    /**
      `renegotiate`: answers a remote description or, without one, opens a new
      data channel and offers; a rejected step becomes one 'error'.
     */
    method Renegotiate(remote: Option<SessionDescription>, h: HandleReplies, channelLabel: string)
      modifies this`peer, this`channel, this`notes, outbox
      ensures channel == if remote.Some? then old(channel) else Some(NewChannel(channelLabel))
      ensures peer == Negotiated(old(peer), remote, h)
      ensures outbox.events == old(outbox.events) + Emitted(id, roomId, remote, h)
      ensures notes == old(notes) + Caught(Settle(ChainOf(remote, h)))
    {
      if remote.None? {
        channel := Some(NewChannel(channelLabel));
      }
      var r := Negotiate(remote, h);
      notes := notes + Caught(r);
    }

    /** `onIceCandidate`: a gathered candidate goes to the peer; the end-of-candidates null sends nothing. */
    method OnIceCandidate(candidate: Option<IceCandidate>)
      modifies outbox
      ensures outbox.events == old(outbox.events) + if candidate.Some? then [PeerEvent(CANDIDATE, id, roomId, Ice(candidate.value))] else []
    {
      if candidate.Some? {
        outbox.Dispatch(PeerEvent(CANDIDATE, id, roomId, Ice(candidate.value)));
      }
    }

    /** `onConnectionStateChange`, with `state` the connection's current `connectionState`. */
    method OnConnectionStateChange(state: ConnectionState)
      modifies this`notes
      ensures notes == old(notes) + if Terminal(state) then [Disconnected] else []
    {
      match state
      case ConnConnected =>
      case ConnDisconnected => notes := notes + [Disconnected];
      case ConnFailed => notes := notes + [Disconnected];
      case ConnClosed => notes := notes + [Disconnected];
      case _ =>
    }

    /** `onIceConnectionStateChange`, with `state` the connection's current `iceConnectionState`. */
    method OnIceConnectionStateChange(state: IceConnectionState)
      modifies this`notes
      ensures notes == old(notes) + if IceTerminal(state) then [Disconnected] else []
    {
      match state
      case IceDisconnected => notes := notes + [Disconnected];
      case IceFailed => notes := notes + [Disconnected];
      case IceClosed => notes := notes + [Disconnected];
      case _ =>
    }

    /** `onDataChannel`: a channel opened by the remote side replaces the current one. */
    method OnDataChannel(ch: DataChannel)
      modifies this`channel
      ensures channel == Some(ch)
    {
      channel := Some(ch);
    }

    /** `onMessage`: a received payload is announced as 'message'. */
    method OnMessage(data: string)
      modifies this`notes
      ensures notes == old(notes) + [Message(data)]
    {
      notes := notes + [Message(data)];
    }
  }
}
