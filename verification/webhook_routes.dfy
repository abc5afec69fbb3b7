/**
 * The LiveKit webhook: when the host leaves or the room finishes, the room
 * leaves the room set and its host key is deleted.
 */
module WebhookRoutes {
  import opened Wrappers
  import opened Entities
  import opened Store

  /** The two event types the handler compares `event` against. */
  const ParticipantLeft := "participant_left"
  const RoomFinished := "room_finished"

  /** A webhook event after signature validation: its `event` string,
      `room.name` and `participant?.identity`. */
  datatype WebhookEvent = WebhookEvent(eventType: string, room: string, participant: Option<string>)

  /** The teardown condition: a `participant_left` whose identity equals the
      stored host (a missing host key never matches), or any `room_finished`. */
  predicate EndsRoom(s: State, e: WebhookEvent)
    ensures e.eventType != RoomFinished && e.eventType != ParticipantLeft ==> !EndsRoom(s, e)
    ensures e.eventType != RoomFinished && (e.room !in s.hostOf || e.participant.None?) ==> !EndsRoom(s, e)
    ensures EndsRoom(s, e) && e.eventType == ParticipantLeft ==>
      e.room in s.hostOf && e.participant == Some(s.hostOf[e.room])
  {
    || e.eventType == RoomFinished
    || (e.eventType == ParticipantLeft && e.participant.Some? && e.room in s.hostOf
        && e.participant.value == s.hostOf[e.room])
  }

  /** `srem livekit:room_set room` then `del livekit:host:room`; both are
      no-ops on what is already absent. */
  function Deactivate(s: State, room: string): (r: State)
    ensures r.roomSet == s.roomSet - {room} && r.hostOf.Keys == s.hostOf.Keys - {room}
    ensures forall other :: other in r.hostOf ==> r.hostOf[other] == s.hostOf[other]
    ensures r.pending == s.pending && r.approved == s.approved
    ensures r.filter == s.filter && r.added == s.added
    ensures Inv(s) ==> Inv(r)
  {
    s.(roomSet := s.roomSet - {room}, hostOf := s.hostOf - {room})
  }

  /** The handler. `received` is None when `receiver.receive` rejects the
      payload or its signature: 403 and nothing changes. A validated event is
      acknowledged with 200, after the teardown when it ends the room. */
  function Webhook(s: State, received: Option<WebhookEvent>): (r: Outcome)
    ensures received.None? ==> r == Outcome(s, Response(StatusForbidden, StatusOnly))
    ensures received.Some? ==> r.response == Response(StatusOk, StatusOnly)
    ensures received.Some? && EndsRoom(s, received.value) ==>
      r.state.roomSet == s.roomSet - {received.value.room} && r.state.hostOf == s.hostOf - {received.value.room}
    ensures received.Some? && !EndsRoom(s, received.value) ==> r.state == s
    ensures r.state.pending == s.pending && r.state.approved == s.approved
    ensures r.state.filter == s.filter && r.state.added == s.added
    ensures Inv(s) ==> Inv(r.state)
  {
    match received
    case None => Outcome(s, Response(StatusForbidden, StatusOnly))
    case Some(e) =>
      if EndsRoom(s, e) then Outcome(Deactivate(s, e.room), Response(StatusOk, StatusOnly))
      else Outcome(s, Response(StatusOk, StatusOnly))
  }

  /** Delivering the same event twice leaves the state the first delivery left:
      a host-left event no longer matches once the host key is gone, and a
      repeated teardown removes nothing more. */
  lemma WebhookIdempotent(s: State, e: WebhookEvent)
    ensures var once := Webhook(s, Some(e));
      Webhook(once.state, Some(e)) == once
  {
  }
}
