/**
 * The admission store as one mutable object: the Redis keys the routes read
 * and write and the Bloom filter they share. Each route handler is a method
 * whose effect is the route's function in TokenRoutes, WaitingRoomRoutes,
 * WebhookRoutes or RoomChecks, and which keeps the store invariant.
 */
module Server {
  import opened Wrappers
  import opened Entities
  import opened Store
  import TokenRoutes
  import WaitingRoomRoutes
  import WebhookRoutes
  import RoomChecks

  /** `pendingList.find(p => p.name === name)`, scanning from the front. */
  method FindByName(list: seq<PendingUser>, name: string) returns (found: Option<PendingUser>)
    ensures found == FirstByName(list, name)
    ensures found.Some? ==> found.value in list && found.value.name == name
  {
    var i := 0;
    while i < |list|
      invariant 0 <= i <= |list|
      invariant forall j :: 0 <= j < i ==> list[j].name != name
    {
      if list[i].name == name {
        return Some(list[i]);
      }
      i := i + 1;
    }
    return None;
  }

  class RoomStore {
    var roomSet: set<string>
    var hostOf: map<string, string>
    var pending: map<string, seq<PendingUser>>
    var approved: map<string, Approval>
    var filter: set<string>
    ghost var bloomAdded: set<string>

    ghost function Abstract(): State
      reads this
    {
      State(roomSet, hostOf, pending, approved, filter, bloomAdded)
    }

    ghost predicate Valid()
      reads this
    {
      Inv(Abstract())
    }

    constructor ()
      ensures Valid() && Abstract() == Initial()
    {
      roomSet, hostOf, pending, approved, filter := {}, map[], map[], map[], {};
      bloomAdded := {};
    }

    /** `bloomFilter.has(name)`: never false for a name that was added. */
    predicate MayContain(name: string)
      requires Valid()
      reads this
      ensures name in bloomAdded ==> MayContain(name)
    {
      name in filter
    }

    /** POST `/` of the token router. */
    method PostToken(req: TokenRoutes.TokenRequest, user: Claims, collisions: set<string>, baseUrl: string)
      returns (res: Response)
      requires Valid()
      modifies this
      ensures Valid()
      ensures Outcome(Abstract(), res) == TokenRoutes.PostToken(old(Abstract()), req, user, collisions, baseUrl)
    {
      if !Truthy(req.roomName) || !Truthy(req.identity) {
        return Response(StatusBadRequest, Error(TokenRoutes.MissingFields));
      }
      var room, identity := req.roomName.value, req.identity.value;
      if req.isHost {
        var token := Mint(HostGrant(identity, room));
        hostOf := hostOf[room := identity];
        roomSet := roomSet + {room};
        filter := filter + {room} + collisions;
        bloomAdded := bloomAdded + {room};
        return Response(StatusOk, HostJoined(token, room, TokenRoutes.HostUrl(baseUrl, room)));
      }
      if !MayContain(room) || room !in roomSet {
        return Response(StatusNotFound, Error(TokenRoutes.RoomNotFound));
      }
      var list := if room in pending then pending[room] else [];
      pending := pending[room := list + [WaitingRecord(user)]];
      return Response(StatusAccepted, Message(TokenRoutes.JoinRequested));
    }

    /** GET `/pending/:roomName`. */
    method ListPending(room: string) returns (res: Response)
      ensures res == WaitingRoomRoutes.ListPending(Abstract(), room)
    {
      var list := if room in pending then pending[room] else [];
      return Response(StatusOk, PendingList(list));
    }

    /** POST `/approve`. */
    method Approve(room: string, identity: string, now: int) returns (res: Response)
      requires Valid()
      modifies this
      ensures Valid()
      ensures Outcome(Abstract(), res) == WaitingRoomRoutes.Approve(old(Abstract()), room, identity, now)
    {
      var list := if room in pending then pending[room] else [];
      var found := FindByName(list, identity);
      if found.None? {
        return Response(StatusNotFound, Message(WaitingRoomRoutes.NotWaiting));
      }
      pending := pending[room := LRem1(list, found.value)];
      var token := Mint(GuestGrant(identity, room));
      approved := approved[TokenKey(identity, room) := Approval(token, now + TokenTtl)];
      return Response(StatusOk, Message(WaitingRoomRoutes.Approved));
    }

    /** POST `/reject`. */
    method Reject(room: string, identity: string) returns (res: Response)
      requires Valid()
      modifies this
      ensures Valid()
      ensures Outcome(Abstract(), res) == WaitingRoomRoutes.Reject(old(Abstract()), room, identity)
    {
      var list := if room in pending then pending[room] else [];
      var found := FindByName(list, identity);
      if found.Some? {
        pending := pending[room := LRem1(list, found.value)];
      }
      return Response(StatusOk, Message(WaitingRoomRoutes.Rejected));
    }

    /** GET `/token/:roomName/:identity`. */
    method ClaimToken(room: string, identity: string, now: int) returns (res: Response)
      requires Valid()
      modifies this
      ensures Valid()
      ensures Outcome(Abstract(), res) == WaitingRoomRoutes.Claim(old(Abstract()), room, identity, now)
    {
      var key := TokenKey(identity, room);
      if key in approved && now < approved[key].expiresAt {
        var token := approved[key].token;
        approved := approved - {key};
        return Response(StatusOk, ApprovedToken(token));
      }
      return Response(StatusNotFound, Error(WaitingRoomRoutes.NoToken));
    }

    /** POST `/` of the webhook router. */
    method Webhook(received: Option<WebhookRoutes.WebhookEvent>) returns (res: Response)
      requires Valid()
      modifies this
      ensures Valid()
      ensures Outcome(Abstract(), res) == WebhookRoutes.Webhook(old(Abstract()), received)
    {
      if received.None? {
        return Response(StatusForbidden, StatusOnly);
      }
      var e := received.value;
      var host := if e.room in hostOf then Some(hostOf[e.room]) else None;
      if || (e.eventType == WebhookRoutes.ParticipantLeft && e.participant.Some? && host.Some?
             && e.participant.value == host.value)
         || e.eventType == WebhookRoutes.RoomFinished
      {
        roomSet := roomSet - {e.room};
        hostOf := hostOf - {e.room};
      }
      return Response(StatusOk, StatusOnly);
    }

    /** POST `/check-room`. */
    method CheckRoom(name: string) returns (res: Response)
      requires Valid()
      ensures res == RoomChecks.CheckRoom(Abstract(), name)
    {
      if !MayContain(name) {
        return Response(StatusOk, RoomChecks.Free);
      }
      var cached := name in roomSet;
      if !cached {
        return Response(StatusOk, RoomChecks.Free);
      }
      return Response(StatusOk, RoomChecks.Taken);
    }

    /** POST `/` of the database router. */
    method SetOnlyCheck(name: string) returns (res: Response)
      ensures res == RoomChecks.SetOnlyCheck(Abstract(), name)
    {
      var cached := name in roomSet;
      return if cached then Response(StatusOk, RoomChecks.Taken) else Response(StatusOk, RoomChecks.Free);
    }
  }
}
