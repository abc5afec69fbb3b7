/**
 * The two room-name availability checks: `/check-room` consults the Bloom
 * filter first and the room set only on a filter hit; the database route
 * consults the room set alone. Both answer `success` when the name is free.
 */
module RoomChecks {
  import opened Entities
  import opened Store

  const Free := Availability("success")
  const Taken := Availability("failure")

  /** POST `/check-room`. */
  function CheckRoom(s: State, name: string): (r: Response)
    ensures r.status == StatusOk && (r.body == Free || r.body == Taken)
    ensures r.body == Taken <==> name in s.filter && name in s.roomSet
  {
    if name !in s.filter then Response(StatusOk, Free)
    else if name !in s.roomSet then Response(StatusOk, Free)
    else Response(StatusOk, Taken)
  }

  /** POST `/` of the database router. */
  function SetOnlyCheck(s: State, name: string): (r: Response)
    ensures r.status == StatusOk && (r.body == Free || r.body == Taken)
    ensures r.body == Free <==> name !in s.roomSet
  {
    if name !in s.roomSet then Response(StatusOk, Free) else Response(StatusOk, Taken)
  }

  /** A filter miss answers `success` whatever the room set holds. */
  lemma FilterMissIsFree(s: State, name: string, rooms: set<string>)
    requires name !in s.filter
    ensures CheckRoom(s.(roomSet := rooms), name) == Response(StatusOk, Free)
  {
  }

  /** The set-only check does not depend on the filter. */
  lemma SetOnlyCheckIgnoresFilter(s: State, name: string, filter: set<string>, added: set<string>)
    ensures SetOnlyCheck(s.(filter := filter, added := added), name) == SetOnlyCheck(s, name)
  {
  }

  /** Under the invariant the filter has no false negatives for active rooms,
      so both checks agree and say `failure` exactly for active rooms. */
  lemma ChecksAgree(s: State, name: string)
    requires Inv(s)
    ensures CheckRoom(s, name) == SetOnlyCheck(s, name)
    ensures CheckRoom(s, name).body == Taken <==> name in s.roomSet
  {
  }
}
