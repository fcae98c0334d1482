# peer-data signaling and routing engine in Dafny

This project models the core of peer-data: the `Room` that routes signaling
events to its participants, and the `Participant` that drives one remote
peer's connection. It then proves what these two classes promise.

- `Room` is a class. It holds `participants: map<string, Participant>`, its own
  `notes` log (the room dispatcher's 'participant' notifications) and a
  reference to a shared `Outbox`.
- `Outbox` is the process-wide dispatcher's 'send' event. It is the sequence of
  every outbound `SignalingEvent`, in order.
- `Participant` is a class. It holds the peer connection, the optional data
  channel and its own `notes` log ('disconnected', 'error', 'message').
- The peer connection (`RTCPeerConnection`) is a value, `PeerConnection`. It
  records the local and remote descriptions, the remote candidates added and
  whether it is closed.
- Every asynchronous request to the connection settles as `Resolved` or
  `Rejected(error)`. A `HandleReplies` parameter gives the outcome of each
  request for one handler run.
- A promise chain `.then(...).then(...).catch(...)` is a sequence of replies.
  `Settle` gives its result: the first rejection, or success.

Files:
- `signaling.dfy`: the wire types, `Outbox` and the promise-chain model.
- `participant.dfy`: `Participant`.
- `membership.dfy`: the participant key set as a pure function of the events
  received, and lemmas over whole event sequences.
- `room.dfy`: `Room`.

Behaviour of the code that the model keeps as it is:
- Events a participant sends (OFFER, ANSWER, CANDIDATE) carry a null caller,
  not the local participant id. Only the room's own CONNECT and DISCONNECT
  carry the local id.
- `renegotiate` answers any remote description it is given, with no rollback
  and no glare handling.
- `renegotiate()` without a description always replaces the data channel. It
  does so even when a channel already exists.
- `onSignalingEvent` can throw to its caller, so delegated failures are not all
  caught. A missing caller on CONNECT, DISCONNECT, ANSWER or CANDIDATE throws a
  TypeError. So does an ANSWER or CANDIDATE for a known caller whose payload
  does not convert to a description or a candidate. An OFFER never throws: its
  handler is `async`, so a bad payload or a missing caller only rejects an
  unobserved promise.
- `send` does not catch what `RTCDataChannel.send` throws (an oversized message,
  a full send buffer). The error leaves `participant.send` and stops
  `room.send`, so later participants are not served.

## Model

| member | source | states |
|---|---|---|
| Signaling.Settle | src/app/Participant.ts:114-143 | a promise chain resolves exactly when every step resolves; otherwise it settles with the first rejection, and every earlier step resolved |
| Signaling.SettleAppend | src/app/Participant.ts:114-143 | steps appended to a chain matter only when every earlier step resolved |
| Participants.Route | src/app/Participant.ts:65-80 | the participant acts only on events whose caller is its own id, and then only on ANSWER (apply) and CANDIDATE (add); every other event is ignored |
| Participants.Delivered | src/app/Participant.ts:44-52 | with no channel, or a channel that is not open, nothing changes; with an open channel exactly one message is appended, the unchanged payload, and nothing else changes |
| Participants.RenegotiationSettlesOnce | src/app/Participant.ts:82-143 | a negotiation chain produces exactly one of: one ANSWER/OFFER (iff every step resolves) or one error; the event is an ANSWER when answering a remote description and an OFFER otherwise, and has a null caller, this peer as callee, this room, and the new local description as payload; the error reported is the first rejected step's |
| Participants.SendAfterClose | src/app/Participant.ts:44-63 | after `close` the channel cannot send, so `send` is a no-op and cannot throw |
| Participants.Participant.constructor | src/app/Participant.ts:15-34 | a new participant has a fresh connection, no channel and no notifications |
| Participants.Participant.Send | src/app/Participant.ts:44-52 | without an open channel nothing happens and nothing is thrown; with one, the channel's rejection is thrown and nothing is sent, else the channel becomes `Delivered(old channel, data)`; the connection and notifications are untouched |
| Participants.Participant.Close | src/app/Participant.ts:54-63 | each call closes the channel if one is present, closes the connection and appends exactly one 'disconnected'; afterwards the channel cannot send |
| Participants.Participant.OnSignalingEvent | src/app/Participant.ts:65-80 | an ignored event changes nothing; an ANSWER has the effect of `onAnswer`; a CANDIDATE has the effect of `onCandidate` |
| Participants.Participant.OnAnswer | src/app/Participant.ts:154-158 | a payload that is not a description throws a TypeError and changes nothing; otherwise it becomes the remote description, or the rejection is appended as one 'error' |
| Participants.Participant.OnCandidate | src/app/Participant.ts:160-164 | a payload that is not a candidate throws a TypeError and changes nothing; otherwise it is added to the connection, or the rejection is appended as one 'error' |
| Participants.Participant.Negotiate | src/app/Participant.ts:82-143 | returns the chain's settled value; the connection holds each description whose `set` call resolved; the outbox gains the ANSWER/OFFER only on success |
| Participants.Participant.Init | src/app/Participant.ts:82-112 | emits like `renegotiate`, but returns a rejection to its caller instead of appending 'error'; without a remote description it replaces the channel with a new one |
| Participants.Participant.Renegotiate | src/app/Participant.ts:114-143 | with a description: one ANSWER if every step resolves, else exactly one 'error'. Without one: the channel is always replaced, then one OFFER or one 'error' |
| Participants.Participant.OnIceCandidate | src/app/Participant.ts:166-178 | a gathered candidate appends exactly one CANDIDATE (null caller, this peer as callee, this room, the candidate as payload); the end-of-candidates null appends nothing |
| Participants.Participant.OnConnectionStateChange | src/app/Participant.ts:180-193 | 'disconnected', 'failed' and 'closed' append exactly one 'disconnected'; 'connected' and every other state append nothing |
| Participants.Participant.OnIceConnectionStateChange | src/app/Participant.ts:195-203 | 'disconnected', 'failed' and 'closed' append exactly one 'disconnected'; every other ICE state appends nothing |
| Participants.Participant.OnDataChannel | src/app/Participant.ts:205-208 | a channel opened by the remote side replaces the current one |
| Participants.Participant.OnMessage | src/app/Participant.ts:210-212 | a received payload is appended as one 'message' |
| Membership.NextKeys | src/app/Room.ts:76-152 | only the caller's key can change; events for another room, events without a caller, ANSWER and CANDIDATE change no key; a join adds the caller and a leave removes it; an event that neither creates nor removes a participant leaves the keys as they were |
| Membership.LastSignal | src/app/Room.ts:76-152 | finds the last event that joins or removes `k`, and none comes after it; it returns nothing exactly when no event decides `k` |
| Membership.MembershipFollowsLastSignal | src/app/Room.ts:76-152 | after any event sequence the room holds `k` iff the last CONNECT/OFFER/DISCONNECT from `k` in this room was a join, or, if there was none, iff it held `k` before |
| Membership.InertEventsKeepKeys | src/app/Room.ts:76-99 | a sequence of other rooms' events, ANSWERs and CANDIDATEs creates, announces and removes no participant |
| Membership.ParticipantsAccounted | src/app/Room.ts:105-152 | over any event sequence: participants held + removed = participants held at the start + 'participant' notifications |
| Rooms.Room.constructor | src/app/Room.ts:17-31 | the room starts empty and appends exactly one event, CONNECT, with the local id as caller, no callee, this room and a null payload |
| Rooms.Room.Send | src/app/Room.ts:49-53 | it returns normally iff no participant's open channel rejects the payload, and then every participant's channel becomes `Delivered(old channel, payload)`; otherwise it throws the error of a participant whose channel rejected it; a participant whose channel rejects is never served; every other participant is either served or left as it was; the map, connections and notifications are untouched |
| Rooms.Room.Disconnect | src/app/Room.ts:55-74 | appends exactly one DISCONNECT (local id as caller); every participant held on entry is closed exactly once; the map is empty afterwards |
| Rooms.Room.OnSignalingEvent | src/app/Room.ts:76-103 | another room's event changes nothing; otherwise the handler for the type has its effect, and CONNECT, DISCONNECT, ANSWER and CANDIDATE send nothing; the keys follow `NextKeys`; a 'participant' notification fires exactly when a participant is created; it throws exactly in the `Throws` cases; no participant but the caller's is touched |
| Rooms.Room.OnConnect | src/app/Room.ts:131-140 | an unknown caller gets one new participant under its id and one 'participant' notification; a known caller changes nothing, its participant included; a missing caller throws; nothing is sent |
| Rooms.Room.Admit | src/app/Room.ts:109-121 | returns the held participant for the key, or stores and announces a new one under that key |
| Rooms.Room.OnOffer | src/app/Room.ts:105-129 | an unknown caller gets one new participant, announced once, which renegotiates; a known caller's participant only renegotiates and the map is unchanged; a bad payload or a missing caller changes nothing, no participant included |
| Rooms.Room.OnDisconnect | src/app/Room.ts:142-152 | a known caller's key is removed and its participant closed exactly once; the other entries stay; an unknown caller changes nothing; nothing is sent |
| Rooms.Room.Forward | src/app/Room.ts:91-99 | an ANSWER or CANDIDATE reaches only the caller's participant; for an unknown caller it is dropped; it never creates a participant, sends nothing and leaves the channel as it was |

## Left out

- The HTTP and socket relay in `examples/socket-channel/server.js`, because it is I/O plumbing over a library that is not shown.
- The internals of `RTCPeerConnection` and `RTCDataChannel`, because they are browser APIs. This covers SDP contents, ICE gathering, DTLS/SCTP and channel state changes other than `close`. Each request's outcome is a parameter instead.
- Asynchronous interleaving of the promise chains, because each chain is modelled as one atomic step run with its given replies.
- The `try/catch` around `renegotiate` in `Room.onOffer`, which would dispatch the room's 'error'. It never fires, because `renegotiate` returns nothing and catches internally.
- `uuidv4()` for the local id and the `Math.random` data channel label, because they are random. Both are parameters.
- `createDataChannel` is assumed to succeed. On a closed connection the real call throws.
- Handler registration (`on`), the getters, `Configuration` and the `EventDispatcher` class, which are not part of this model. The dispatchers are the `Outbox` and `notes` logs, and the room's dispatcher is assumed to be the process-wide one that participants use.
- Media tracks (`addTrack` in the participant constructor and the 'track' passthrough), because they are media plumbing with no logic.
- The order in which `Map.forEach` and the `disconnect` key snapshot visit participants. The model visits a set. Each participant's effect is independent of the others, so the order is not observable, except in `send` when a channel throws (next line).
- Rooms.Room.Send: when a channel throws, it does not say which of the participants whose channels accept were served before the throw, since that depends on the map's insertion order; it says only that each was either served or left as it was. A participant whose channel rejects is never served.
- Participants.Participant.Send / Rooms.Room.Send: the payload is a string. The source accepts any value `RTCDataChannel.send` takes (string, Blob, ArrayBuffer, view); the model does not distinguish them.
- Rooms.Room.OnOffer: does not state that the 'participant' notification precedes the renegotiation. The notification goes to the room's log and the renegotiation changes only the participant and the outbox, so that order cannot be observed in the model's state.
- Rooms.Room.Disconnect: states that DISCONNECT is appended and that every participant is closed, but not that the append happens before the first close. Closing a participant appends no outbound event, so that order cannot be observed in the model's state.
- Participant.room: the back-reference is modelled as the room id that the participant reads from it (`getId()`).
- `new RTCIceCandidate(payload)`: only a candidate payload converts. The browser's own check (it rejects a candidate with neither `sdpMid` nor `sdpMLineIndex`) is not modelled.
