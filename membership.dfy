/**
  Which remote peers a room holds a participant for, as a function of the
  signaling events it has received: the key set of `Room.participants`.
 */
module Membership {
  import opened Signaling

  /** A CONNECT, or an OFFER whose payload is a description, from a caller in this room. */
  predicate Joins(roomId: string, e: SignalingEvent) {
    && e.room.id == roomId
    && e.caller.Some?
    && (e.kind == CONNECT || (e.kind == OFFER && DescriptionOf(e.payload).Some?))
  }

  /** A DISCONNECT from a caller in this room. */
  predicate Leaves(roomId: string, e: SignalingEvent) {
    e.room.id == roomId && e.caller.Some? && e.kind == DISCONNECT
  }

  /** `e` decides whether the room holds a participant for `k`. */
  predicate Decides(roomId: string, e: SignalingEvent, k: string) {
    (Joins(roomId, e) || Leaves(roomId, e)) && e.caller.value.id == k
  }

  /** `e` creates a participant and fires one 'participant' notification. */
  predicate Announces(keys: set<string>, roomId: string, e: SignalingEvent) {
    Joins(roomId, e) && e.caller.value.id !in keys
  }

  /** `e` removes and closes an existing participant. */
  predicate Removes(keys: set<string>, roomId: string, e: SignalingEvent) {
    Leaves(roomId, e) && e.caller.value.id in keys
  }

  /** The participant keys after `onSignalingEvent(e)`. */
  function NextKeys(keys: set<string>, roomId: string, e: SignalingEvent): (r: set<string>)
    ensures e.room.id != roomId || e.caller.None? || e.kind == ANSWER || e.kind == CANDIDATE ==> r == keys
    ensures e.caller.Some? ==> r - {e.caller.value.id} == keys - {e.caller.value.id}
    ensures Joins(roomId, e) ==> e.caller.value.id in r
    ensures Leaves(roomId, e) ==> e.caller.value.id !in r
    ensures !Announces(keys, roomId, e) && !Removes(keys, roomId, e) ==> r == keys
  {
    if Joins(roomId, e) then keys + {e.caller.value.id}
    else if Leaves(roomId, e) then keys - {e.caller.value.id}
    else keys
  }

  /** The participant keys after the room has handled `evs` in order. */
  function RunKeys(keys: set<string>, roomId: string, evs: seq<SignalingEvent>): set<string> {
    if evs == [] then keys
    else NextKeys(RunKeys(keys, roomId, evs[..|evs| - 1]), roomId, evs[|evs| - 1])
  }

  /** How many 'participant' notifications the room fires while handling `evs`. */
  function Announcements(keys: set<string>, roomId: string, evs: seq<SignalingEvent>): nat {
    if evs == [] then 0
    else
      var before := evs[..|evs| - 1];
      Announcements(keys, roomId, before) +
        if Announces(RunKeys(keys, roomId, before), roomId, evs[|evs| - 1]) then 1 else 0
  }

  /** How many participants the room removes and closes while handling `evs`. */
  function Removals(keys: set<string>, roomId: string, evs: seq<SignalingEvent>): nat {
    if evs == [] then 0
    else
      var before := evs[..|evs| - 1];
      Removals(keys, roomId, before) +
        if Removes(RunKeys(keys, roomId, before), roomId, evs[|evs| - 1]) then 1 else 0
  }

  /** The index of the last event of `evs` that decides `k`, if any. */
  function LastSignal(roomId: string, evs: seq<SignalingEvent>, k: string): (r: Option<nat>)
    ensures r.None? <==> forall i | 0 <= i < |evs| :: !Decides(roomId, evs[i], k)
    ensures r.Some? ==> r.value < |evs| && Decides(roomId, evs[r.value], k)
    ensures r.Some? ==> forall j | r.value < j < |evs| :: !Decides(roomId, evs[j], k)
  {
    if evs == [] then None
    else if Decides(roomId, evs[|evs| - 1], k) then Some(|evs| - 1)
    else
      var r := LastSignal(roomId, evs[..|evs| - 1], k);
      assert forall i | 0 <= i < |evs| - 1 :: evs[..|evs| - 1][i] == evs[i];
      r
  }

  /**
    The room holds a participant for `k` exactly when the last join or
    leave signal from `k` was a join, or, when `k` sent none, when it held
    one before: answers, candidates, other rooms' events and malformed
    offers never create or remove a participant.
   */
  lemma {:induction false} MembershipFollowsLastSignal(keys: set<string>, roomId: string, evs: seq<SignalingEvent>, k: string)
    ensures k in RunKeys(keys, roomId, evs) <==>
      match LastSignal(roomId, evs, k)
      case None => k in keys
      case Some(i) => Joins(roomId, evs[i])
  {
    if evs != [] {
      var before := evs[..|evs| - 1];
      MembershipFollowsLastSignal(keys, roomId, before, k);
      if !Decides(roomId, evs[|evs| - 1], k) {
        assert LastSignal(roomId, evs, k) == LastSignal(roomId, before, k);
        var last := LastSignal(roomId, before, k);
        if last.Some? {
          assert before[last.value] == evs[last.value];
        }
      }
    }
  }

  /** Events for another room, ANSWERs and CANDIDATEs leave the participant keys as they were. */
  lemma {:induction false} InertEventsKeepKeys(keys: set<string>, roomId: string, evs: seq<SignalingEvent>)
    requires forall i | 0 <= i < |evs| :: evs[i].room.id != roomId || evs[i].kind == ANSWER || evs[i].kind == CANDIDATE
    ensures RunKeys(keys, roomId, evs) == keys
    ensures Announcements(keys, roomId, evs) == 0 && Removals(keys, roomId, evs) == 0
  {
    if evs != [] {
      var before := evs[..|evs| - 1];
      assert forall i | 0 <= i < |before| :: before[i] == evs[i];
      InertEventsKeepKeys(keys, roomId, before);
    }
  }

  /**
    Every participant the room holds was announced once, and every one it
    announced is still held or was removed: held = initial + announced - removed.
   */
  lemma {:induction false} ParticipantsAccounted(keys: set<string>, roomId: string, evs: seq<SignalingEvent>)
    ensures |RunKeys(keys, roomId, evs)| + Removals(keys, roomId, evs) == |keys| + Announcements(keys, roomId, evs)
  {
    if evs != [] {
      ParticipantsAccounted(keys, roomId, evs[..|evs| - 1]);
    }
  }
}
