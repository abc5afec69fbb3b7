/**
 * POST `/` of the token router: a host request activates a room and records
 * its host; a guest request for an active room is queued for approval.
 */
module TokenRoutes {
  import opened Wrappers
  import opened Entities
  import opened Store

  /** The request body `{ roomName, identity, isHost }`; `isHost` is read for
      its truthiness. */
  datatype TokenRequest = TokenRequest(roomName: Option<string>, identity: Option<string>, isHost: bool)

  const MissingFields := "Missing roomName or identity"
  const RoomNotFound := "Room not found or not active"
  const JoinRequested := "Request to join sent. Waiting for host approval."

  /** The link returned to the host: `${url}/${roomName}?host=true`. */
  function HostUrl(baseUrl: string, room: string): (url: string)
    ensures |url| == |baseUrl| + |room| + 11
    ensures url[..|baseUrl|] == baseUrl && url[|baseUrl|] == '/'
    ensures url[|baseUrl| + 1..|baseUrl| + 1 + |room|] == room
    ensures url[|baseUrl| + 1 + |room|..] == "?host=true"
  {
    baseUrl + "/" + room + "?host=true"
  }

  /** The host link names its room: two rooms get the same link only if they
      are the same room. */
  lemma HostUrlIdentifiesRoom(baseUrl: string, r1: string, r2: string)
    requires HostUrl(baseUrl, r1) == HostUrl(baseUrl, r2)
    ensures r1 == r2
  {
  }

  /** The host branch: set the host key (overwriting any earlier host), add the
      room to the room set and to the filter, and hand out a host token. The
      addition may turn further names into false positives of the filter; which
      ones depends on its hashing and is given as `collisions`. */
  function HostJoin(s: State, room: string, identity: string, collisions: set<string>, baseUrl: string): (r: Outcome)
    ensures r.response == Response(StatusOk, HostJoined(Mint(HostGrant(identity, room)), room, HostUrl(baseUrl, room)))
    ensures r.state.roomSet == s.roomSet + {room}
    ensures r.state.hostOf == s.hostOf[room := identity]
    ensures r.state.added == s.added + {room} && s.filter + {room} <= r.state.filter
    ensures r.state.pending == s.pending && r.state.approved == s.approved
    ensures Inv(s) ==> Inv(r.state)
  {
    var s' := s.(hostOf := s.hostOf[room := identity],
                 roomSet := s.roomSet + {room},
                 filter := s.filter + {room} + collisions,
                 added := s.added + {room});
    Outcome(s', Response(StatusOk, HostJoined(Mint(HostGrant(identity, room)), room, HostUrl(baseUrl, room))))
  }

  /** The guest branch: a room the filter rules out, or that is not in the room
      set, is not found; otherwise the caller's record is appended to the room's
      waiting list. */
  function GuestJoin(s: State, room: string, user: Claims): (r: Outcome)
    ensures r.response.status == StatusNotFound <==> room !in s.filter || room !in s.roomSet
    ensures r.response.status == StatusNotFound ==>
      r == Outcome(s, Response(StatusNotFound, Error(RoomNotFound)))
    ensures r.response.status != StatusNotFound ==>
      && r.response == Response(StatusAccepted, Message(JoinRequested))
      && PendingOf(r.state, room) == PendingOf(s, room) + [WaitingRecord(user)]
    ensures forall other :: other != room ==> PendingOf(r.state, other) == PendingOf(s, other)
    ensures r.state.roomSet == s.roomSet && r.state.hostOf == s.hostOf
    ensures r.state.filter == s.filter && r.state.added == s.added && r.state.approved == s.approved
  {
    if room !in s.filter || room !in s.roomSet then
      Outcome(s, Response(StatusNotFound, Error(RoomNotFound)))
    else
      var s' := s.(pending := s.pending[room := PendingOf(s, room) + [WaitingRecord(user)]]);
      Outcome(s', Response(StatusAccepted, Message(JoinRequested)))
  }

  /** The whole handler (run after the middleware has set `user`). */
  function PostToken(s: State, req: TokenRequest, user: Claims, collisions: set<string>, baseUrl: string): (r: Outcome)
    ensures !Truthy(req.roomName) || !Truthy(req.identity) ==>
      r == Outcome(s, Response(StatusBadRequest, Error(MissingFields)))
    ensures Truthy(req.roomName) && Truthy(req.identity) && req.isHost ==>
      && r.response.status == StatusOk
      && req.roomName.value in r.state.roomSet
      && req.roomName.value in r.state.hostOf
      && r.state.hostOf[req.roomName.value] == req.identity.value
      && req.roomName.value in r.state.added
    ensures Truthy(req.roomName) && Truthy(req.identity) && req.isHost ==>
      r == HostJoin(s, req.roomName.value, req.identity.value, collisions, baseUrl)
    ensures Truthy(req.roomName) && Truthy(req.identity) && !req.isHost ==>
      r == GuestJoin(s, req.roomName.value, user)
    ensures Inv(s) ==> Inv(r.state)
  {
    if !Truthy(req.roomName) || !Truthy(req.identity) then
      Outcome(s, Response(StatusBadRequest, Error(MissingFields)))
    else if req.isHost then
      HostJoin(s, req.roomName.value, req.identity.value, collisions, baseUrl)
    else
      GuestJoin(s, req.roomName.value, user)
  }

  /** Under the invariant the filter never hides an active room, so a guest is
      told "not found" exactly when the room is not active. */
  lemma GuestNotFoundIffInactive(s: State, room: string, user: Claims)
    requires Inv(s)
    ensures GuestJoin(s, room, user).response.status == StatusNotFound <==> room !in s.roomSet
  {
  }

  /** Requests are not deduplicated: the same guest asking twice waits twice. */
  lemma GuestJoinTwice(s: State, room: string, user: Claims)
    requires room in s.filter && room in s.roomSet
    ensures var s1 := GuestJoin(s, room, user).state;
      PendingOf(GuestJoin(s1, room, user).state, room) == PendingOf(s, room) + [WaitingRecord(user), WaitingRecord(user)]
  {
  }

  /** The waiting records of a run of guest requests, in request order. */
  function Records(users: seq<Claims>): (r: seq<PendingUser>)
    ensures |r| == |users|
    ensures forall k :: 0 <= k < |users| ==> r[k] == WaitingRecord(users[k])
  {
    if users == [] then [] else Records(users[..|users| - 1]) + [WaitingRecord(users[|users| - 1])]
  }

  /** The state after a run of guest requests for one room. */
  function GuestJoins(s: State, room: string, users: seq<Claims>): State
  {
    if users == [] then s else GuestJoin(GuestJoins(s, room, users[..|users| - 1]), room, users[|users| - 1]).state
  }

  /** Guest requests for an active room queue their records in arrival order,
      and touch no other room. */
  lemma {:induction false} GuestJoinsQueueInOrder(s: State, room: string, users: seq<Claims>)
    requires room in s.filter && room in s.roomSet
    ensures PendingOf(GuestJoins(s, room, users), room) == PendingOf(s, room) + Records(users)
    ensures GuestJoins(s, room, users).roomSet == s.roomSet
    ensures GuestJoins(s, room, users).filter == s.filter
    decreases |users|
  {
    if users != [] {
      var front := users[..|users| - 1];
      GuestJoinsQueueInOrder(s, room, front);
      assert PendingOf(s, room) + Records(users)
          == PendingOf(s, room) + Records(front) + [WaitingRecord(users[|users| - 1])];
    }
  }
}
