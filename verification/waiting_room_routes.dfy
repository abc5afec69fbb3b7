/**
 * The waiting-room router: list a room's waiting guests, approve or reject
 * one (by name), and the guest's one-shot claim of its approved token.
 */
module WaitingRoomRoutes {
  import opened Wrappers
  import opened Entities
  import opened Store

  const NotWaiting := "Participant not found in waiting list."
  const Approved := "Participant approved"
  const Rejected := "Participant rejected"
  const NoToken := "Token not found or expired."

  /** GET `/pending/:roomName`: the room's waiting list as stored. */
  function ListPending(s: State, room: string): (r: Response)
    ensures r.status == StatusOk && r.body.PendingList?
    ensures |r.body.users| == |PendingOf(s, room)|
    ensures forall k :: 0 <= k < |r.body.users| ==> r.body.users[k] == PendingOf(s, room)[k]
  {
    Response(StatusOk, PendingList(PendingOf(s, room)))
  }

  /** The waiting list with the first entry named `identity` taken out by
      `lrem` (unchanged when there is none). */
  function WithoutFirst(list: seq<PendingUser>, identity: string): (r: seq<PendingUser>)
    ensures IndexOfName(list, identity).None? ==> r == list
    ensures IndexOfName(list, identity).Some? ==>
      var i := IndexOfName(list, identity).value;
      r == list[..i] + list[i + 1..]
  {
    match FirstByName(list, identity)
    case None => list
    case Some(u) =>
      RemoveFirstByName(list, identity);
      LRem1(list, u)
  }

  /** POST `/approve`: with no waiting entry of that name, 404 and nothing
      changes; otherwise that entry leaves the list and a guest token for
      (identity, room) is stored with a 300-second expiry, replacing any earlier
      one. Whether the room is active is not checked. */
  function Approve(s: State, room: string, identity: string, now: int): (r: Outcome)
    ensures IndexOfName(PendingOf(s, room), identity).None? ==>
      r == Outcome(s, Response(StatusNotFound, Message(NotWaiting)))
    ensures IndexOfName(PendingOf(s, room), identity).Some? ==>
      && r.response == Response(StatusOk, Message(Approved))
      && PendingOf(r.state, room) == WithoutFirst(PendingOf(s, room), identity)
      && r.state.approved == s.approved[TokenKey(identity, room) := Approval(Mint(GuestGrant(identity, room)), now + TokenTtl)]
    ensures forall other :: other != room ==> PendingOf(r.state, other) == PendingOf(s, other)
    ensures r.state.roomSet == s.roomSet && r.state.hostOf == s.hostOf
    ensures r.state.filter == s.filter && r.state.added == s.added
  {
    var list := PendingOf(s, room);
    match FirstByName(list, identity)
    case None => Outcome(s, Response(StatusNotFound, Message(NotWaiting)))
    case Some(u) =>
      var token := Mint(GuestGrant(identity, room));
      var s' := s.(pending := s.pending[room := LRem1(list, u)],
                   approved := s.approved[TokenKey(identity, room) := Approval(token, now + TokenTtl)]);
      Outcome(s', Response(StatusOk, Message(Approved)))
  }

  /** POST `/reject`: the first entry named `identity` leaves the list if there
      is one; the reply is success either way and no token is written. */
  function Reject(s: State, room: string, identity: string): (r: Outcome)
    ensures r.response == Response(StatusOk, Message(Rejected))
    ensures PendingOf(r.state, room) == WithoutFirst(PendingOf(s, room), identity)
    ensures forall other :: other != room ==> PendingOf(r.state, other) == PendingOf(s, other)
    ensures r.state.approved == s.approved
    ensures r.state.roomSet == s.roomSet && r.state.hostOf == s.hostOf
    ensures r.state.filter == s.filter && r.state.added == s.added
  {
    var list := PendingOf(s, room);
    match FirstByName(list, identity)
    case None => Outcome(s, Response(StatusOk, Message(Rejected)))
    case Some(u) => Outcome(s.(pending := s.pending[room := LRem1(list, u)]), Response(StatusOk, Message(Rejected)))
  }

  /** GET `/token/:roomName/:identity`: a live token is returned and deleted;
      otherwise 404 and nothing changes. */
  function Claim(s: State, room: string, identity: string, now: int): (r: Outcome)
    ensures Live(s, identity, room, now) ==>
      && r.response == Response(StatusOk, ApprovedToken(s.approved[TokenKey(identity, room)].token))
      && r.state == s.(approved := s.approved - {TokenKey(identity, room)})
    ensures !Live(s, identity, room, now) ==>
      r == Outcome(s, Response(StatusNotFound, Error(NoToken)))
  {
    if Live(s, identity, room, now) then
      var token := s.approved[TokenKey(identity, room)].token;
      Outcome(s.(approved := s.approved - {TokenKey(identity, room)}), Response(StatusOk, ApprovedToken(token)))
    else
      Outcome(s, Response(StatusNotFound, Error(NoToken)))
  }

  /** The waiting-room routes leave the room set, the hosts and the filter alone,
      so they keep the store invariant. */
  lemma WaitingRoomKeepsInv(s: State, room: string, identity: string, now: int)
    requires Inv(s)
    ensures Inv(Approve(s, room, identity, now).state)
    ensures Inv(Reject(s, room, identity).state)
    ensures Inv(Claim(s, room, identity, now).state)
  {
  }

  /** A token is handed out at most once: right after a successful claim, a
      second claim, at any time, finds nothing. */
  lemma ClaimAtMostOnce(s: State, room: string, identity: string, now: int, later: int)
    requires Claim(s, room, identity, now).response.status == StatusOk
    ensures Claim(Claim(s, room, identity, now).state, room, identity, later).response.status == StatusNotFound
  {
  }

  /** After an approval at `now`, the guest's claim yields the guest token while
      it is younger than 300 seconds, and nothing afterwards. */
  lemma ApproveThenClaim(s: State, room: string, identity: string, now: int, at: int)
    requires IndexOfName(PendingOf(s, room), identity).Some?
    ensures var c := Claim(Approve(s, room, identity, now).state, room, identity, at);
      && (at < now + TokenTtl ==> c.response == Response(StatusOk, ApprovedToken(Mint(GuestGrant(identity, room)))))
      && (at >= now + TokenTtl ==> c.response.status == StatusNotFound)
  {
  }

  /** Reject followed by approve of a guest who waited once: the approve finds
      nothing, so no token is minted for a rejected guest. */
  lemma RejectThenApprove(s: State, room: string, identity: string, now: int, i: nat)
    requires IndexOfName(PendingOf(s, room), identity) == Some(i)
    requires IndexOfName(PendingOf(s, room)[i + 1..], identity).None?
    ensures var s1 := Reject(s, room, identity).state;
      Approve(s1, room, identity, now) == Outcome(s1, Response(StatusNotFound, Message(NotWaiting)))
  {
  }

  /** The slot is one interpolated key, so (identity "a:b", room "c") and
      (identity "a", room "b:c") share it: a claim by the second pair receives,
      and deletes, the token approved for the first. */
  lemma SharedTokenSlot(s: State, t: int)
    requires IndexOfName(PendingOf(s, "c"), "a:b").Some?
    ensures TokenKey("a:b", "c") == TokenKey("a", "b:c")
    ensures Claim(Approve(s, "c", "a:b", t).state, "b:c", "a", t).response
         == Response(StatusOk, ApprovedToken(Mint(GuestGrant("a:b", "c"))))
  {
    assert TokenKey("a:b", "c") == TokenKey("a", "b:c");
  }
}
