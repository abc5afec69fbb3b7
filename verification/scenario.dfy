/**
 * A whole admission round trip on a fresh store, chaining the route functions:
 * a host opens a room, a guest asks to join and is listed, the host approves,
 * the guest claims the token once, the room finishes, and a later guest is
 * turned away.
 */
module Scenario {
  import opened Wrappers
  import opened Entities
  import opened Store
  import opened TokenRoutes
  import opened WaitingRoomRoutes
  import opened WebhookRoutes
  import opened RoomChecks

  lemma RoomLifecycle(room: string, host: string, guest: Claims, late: Claims,
                                         collisions: set<string>, baseUrl: string, t: int)
    requires room != "" && host != "" && guest.name != "" && late.name != ""
    ensures
      var s1 := PostToken(Initial(), TokenRequest(Some(room), Some(host), true), guest, collisions, baseUrl);
      var s2 := PostToken(s1.state, TokenRequest(Some(room), Some(guest.name), false), guest, collisions, baseUrl);
      var s3 := Approve(s2.state, room, guest.name, t);
      var c1 := Claim(s3.state, room, guest.name, t + 1);
      var c2 := Claim(c1.state, room, guest.name, t + 2);
      var s4 := Webhook(c2.state, Some(WebhookEvent(RoomFinished, room, None)));
      var s5 := PostToken(s4.state, TokenRequest(Some(room), Some(late.name), false), late, collisions, baseUrl);
      && s1.response.status == StatusOk
      && CheckRoom(s1.state, room).body == Taken
      && s2.response.status == StatusAccepted
      && ListPending(s2.state, room).body == PendingList([WaitingRecord(guest)])
      && s3.response.status == StatusOk
      && ListPending(s3.state, room).body == PendingList([])
      && c1.response == Response(StatusOk, ApprovedToken(Mint(GuestGrant(guest.name, room))))
      && c2.response.status == StatusNotFound
      && s4.response.status == StatusOk
      && CheckRoom(s4.state, room).body == Free
      && s5.response.status == StatusNotFound
  {
  }
}
