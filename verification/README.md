# MeetAI room admission bookkeeping, modelled in Dafny

This project models the server-side admission control of MeetAI, a LiveKit-based
meeting app. It covers:

- how a host activates a room;
- how a guest's join request is checked against the Bloom filter and the Redis
  room set and then queued;
- how the host lists, approves and rejects waiting guests;
- how an approved guest claims its one-shot, 300-second token;
- how the LiveKit webhook tears a room down when its host leaves or it finishes;
- the two room-name availability checks;
- the `verifyToken` middleware;
- the client-side merge of live caption segments.

Layout, one module per source file or concept:

- `entities.dfy` (`Entities`): the decoded caller claims, waiting records, LiveKit grants and tokens, HTTP responses.
- `store.dfy` (`Store`): the shared state as a value, `State`. It holds the Redis keys `livekit:room_set`, `livekit:host:<room>`, `pending:participants:<room>` and `approved:token:<identity>:<room>`, plus the Bloom filter. The file also defines the store invariant `Inv` and the Redis list operations (`find`, `lrem` with count 1).
- `token_routes.dfy`, `waiting_room_routes.dfy`, `webhook_routes.dfy`, `room_checks.dfy`: each route as a function from the old state and the request to the new state and the reply.
- `server.dfy` (`Server.RoomStore`): the store as a mutable object, with one method per route. Each method is proved to have exactly the effect of its route function and to keep `Inv`.
- `middleware.dfy` (`Middleware`): header splitting, the 401/403/next decision, and the middleware as a method on a request object.
- `live_captions.dfy` (`LiveCaptions`): the id-keyed merge as a loop, proved against a fold, with its properties.
- `scenario.dfy` (`Scenario`): one full admission round trip across the routes.

The store invariant `Inv` has three parts:

- every name added to the Bloom filter is reported as possibly present;
- every active room was added to the filter;
- exactly the active rooms have a host key.

From it follow two results:

- a guest is told "not found" exactly when the room is inactive;
- `/check-room` and the set-only check agree.

The Bloom filter is two fields:

- `filter`: the names for which `has` answers true;
- `bloomAdded`: a ghost field, the names ever added.

Which extra names become false positives when a name is added depends on the filter's hashing. The host route therefore takes those names as a parameter, `collisions`.

The model follows the route code as written. Some consequences that a reader might not expect:

- Approve and reject remove only the FIRST waiting entry with the name (`lrem` with count 1), not every matching entry.
- Approving a name that is not waiting answers 404, not a no-op success.
- A host request never fails for an already active room. It overwrites the stored host, with no existence check.
- A claim with no token answers 404.
- The webhook only cleans Redis. It does not force-end the LiveKit session.
- The approved-token slot is the single string key `approved:token:<identity>:<room>`. Two (identity, room) pairs whose names contain `:` can share it: one pair's claim then returns and deletes the other's token, and one pair's approve overwrites the other's token.
- The webhook compares the event type as a string, so any event whose type is exactly `room_finished` tears the room down.

## Model

| member | source | states |
|---|---|---|
| `TokenRoutes.PostToken` | server/routes/tokenRoutes.js:11-63 | a missing or empty `roomName` or `identity` gives 400 and the state is unchanged; a host request with both fields succeeds, leaving the room in the room set, in the filter's added names, and hosted by `identity`; with both fields, a truthy `isHost` has exactly the effect of `TokenRoutes.HostJoin` and a falsy one exactly that of `TokenRoutes.GuestJoin`; the store invariant is preserved |
| `TokenRoutes.HostUrl` | server/routes/tokenRoutes.js:37-41 | definition of the host link `${url}/${roomName}?host=true`; its ensures only locate the parts, which `TokenRoutes.HostUrlIdentifiesRoom` uses |
| `TokenRoutes.HostUrlIdentifiesRoom` | server/routes/tokenRoutes.js:37-41 | for one base URL, two rooms get the same host link only if they are the same room |
| `Store.Truthy` | server/routes/tokenRoutes.js:14 | definition: a body field is truthy for the missing-field test (`!roomName`, `!identity`) exactly when it is present and not the empty string |
| `Entities.HostGrant` | server/routes/tokenRoutes.js:21-32 | definition: the host's grant for (identity, room) may create, join, publish and subscribe |
| `Entities.WaitingRecord` | server/routes/tokenRoutes.js:50-54 | definition: the waiting entry copies `name`, `email` and `photoURL` from the caller's claims |
| `Entities.GuestGrant` | server/routes/waitingRoomRoutes.js:31-41 | definition: an approved guest's grant for (identity, room) may join, publish and subscribe but not create |
| `Store.PendingOf` | server/routes/waitingRoomRoutes.js:13 | definition: `lrange` of a room's waiting list, which reads as empty when the key is absent |
| `TokenRoutes.HostJoin` | server/routes/tokenRoutes.js:19-42 | the host request always answers 200 with a room-creating host token for (identity, room) and the `?host=true` link; the room joins the room set; the host key is overwritten with `identity` whatever was there; the room is added to the filter; the waiting lists and approved tokens are untouched; the invariant is preserved |
| `TokenRoutes.GuestJoin` | server/routes/tokenRoutes.js:43-57 | 404 exactly when the filter rejects the room or it is not in the room set, and then nothing changes; otherwise 202 and exactly one record (name, email, photoURL copied from the caller's claims, not from the body) is appended to that room's list; other rooms' lists, the room set, hosts, filter and tokens never change |
| `TokenRoutes.GuestNotFoundIffInactive` | server/routes/tokenRoutes.js:45-47 | under the invariant, a guest request gets 404 if and only if the room is not in the room set |
| `TokenRoutes.GuestJoinTwice` | server/routes/tokenRoutes.js:50-55 | the same guest asking twice is queued twice (no deduplication) |
| `TokenRoutes.GuestJoinsQueueInOrder` | server/routes/tokenRoutes.js:55 | a run of guest requests for an active room appends their records in arrival order (`rpush`) and leaves the room set and filter unchanged |
| `Server.RoomStore.PostToken` | server/routes/tokenRoutes.js:11-63 | the handler's in-place updates (`set` host, `sadd`, filter `add`, `rpush`) produce exactly the state and reply of `TokenRoutes.PostToken` and keep the invariant |
| `WaitingRoomRoutes.ListPending` | server/routes/waitingRoomRoutes.js:11-16 | answers 200 with the room's waiting list element for element, in stored order (empty for an absent list) |
| `Server.RoomStore.ListPending` | server/routes/waitingRoomRoutes.js:11-16 | reads the room's list without changing the store and returns the reply of `WaitingRoomRoutes.ListPending` |
| `Store.IndexOfName` | server/routes/waitingRoomRoutes.js:23 | the index found is the first entry whose name matches; none is found exactly when no entry has the name |
| `Store.FirstByName` | server/routes/waitingRoomRoutes.js:23 | `find` returns nothing exactly when no entry has the name, and otherwise the entry at the first matching index |
| `Server.FindByName` | server/routes/waitingRoomRoutes.js:23 | the front-to-back scan returns the same entry as `Store.FirstByName`, which is in the list and carries the name |
| `Store.LRem1` | server/routes/waitingRoomRoutes.js:26 | `lrem` with count 1 leaves the list unchanged when the value is absent, and otherwise shortens it by exactly one |
| `Store.LRem1Multiset` | server/routes/waitingRoomRoutes.js:26 | `lrem` with count 1 takes exactly one copy of the value out of the list's multiset (none when absent) |
| `Store.LRem1At` | server/routes/waitingRoomRoutes.js:26 | removing the first occurrence of the value at position i gives the list without position i, with the rest in order |
| `Store.RemoveFirstByName` | server/routes/waitingRoomRoutes.js:22-26 | `lrem` of the entry `find` returned removes exactly the first entry with the name; all other entries keep their relative order |
| `WaitingRoomRoutes.WithoutFirst` | server/routes/waitingRoomRoutes.js:22-26 | with no matching entry the list is unchanged; otherwise it is the list minus the first matching position |
| `Store.TokenKey` | server/routes/waitingRoomRoutes.js:43 | definition of the approved-token key `approved:token:${identity}:${roomName}`, used by approve and claim alike |
| `Store.TokenKeyInjective` | server/routes/waitingRoomRoutes.js:43-67 | when neither identity contains `:`, two (identity, room) pairs share a key only if they are the same pair, so a shared slot needs a `:` in an identity |
| `Store.Live` | server/routes/waitingRoomRoutes.js:65-66 | definition: live iff the key `approved:token:<identity>:<room>` is present and `now < expiresAt`; the 300-second expiry is proved by `WaitingRoomRoutes.ApproveThenClaim` |
| `WaitingRoomRoutes.Approve` | server/routes/waitingRoomRoutes.js:19-46 | with no matching entry: 404, no token written, state unchanged; otherwise: the first matching entry leaves the list and a guest token for (identity, room) expiring at now + 300 is stored under the string key `approved:token:<identity>:<room>`, replacing whatever that key held; room activity is not checked; other lists, the room set, hosts and filter are unchanged |
| `Server.RoomStore.Approve` | server/routes/waitingRoomRoutes.js:19-46 | the `lrange`/`find`/`lrem`/`set EX 300` sequence has exactly the effect and reply of `WaitingRoomRoutes.Approve` and keeps the invariant |
| `WaitingRoomRoutes.Reject` | server/routes/waitingRoomRoutes.js:49-60 | always answers 200 "Participant rejected"; removes the first entry with the name if there is one; never writes a token; room set, hosts, filter and other lists are unchanged |
| `Server.RoomStore.Reject` | server/routes/waitingRoomRoutes.js:49-60 | the handler has exactly the effect and reply of `WaitingRoomRoutes.Reject` and keeps the invariant |
| `WaitingRoomRoutes.Claim` | server/routes/waitingRoomRoutes.js:63-72 | a live token under the string key `approved:token:<identity>:<room>` is returned and that key deleted, nothing else changes; with no live token the answer is 404 and nothing changes |
| `Server.RoomStore.ClaimToken` | server/routes/waitingRoomRoutes.js:63-72 | the `get` then `del` on the string key `approved:token:<identity>:<room>` has exactly the effect and reply of `WaitingRoomRoutes.Claim`: a live token is returned and deleted, otherwise 404 with nothing changed; the store invariant is kept |
| `WaitingRoomRoutes.SharedTokenSlot` | server/routes/waitingRoomRoutes.js:43-68 | ("a:b", "c") and ("a", "b:c") share one key, so after approving "a:b" in room "c", a claim by "a" for room "b:c" gets 200 with the token minted for ("a:b", "c") |
| `WaitingRoomRoutes.WaitingRoomKeepsInv` | server/routes/waitingRoomRoutes.js:11-72 | approve, reject and claim preserve the store invariant (they never touch room set, hosts or filter) |
| `WaitingRoomRoutes.ClaimAtMostOnce` | server/routes/waitingRoomRoutes.js:65-68 | after a successful claim, a second claim at any time answers 404 |
| `WaitingRoomRoutes.ApproveThenClaim` | server/routes/waitingRoomRoutes.js:43-70 | after an approval at time t, a claim before t + 300 returns the join-only guest token for (identity, room); from t + 300 on it answers 404 |
| `WaitingRoomRoutes.RejectThenApprove` | server/routes/waitingRoomRoutes.js:22-59 | a guest that waited once and was rejected is no longer found by approve, which answers 404 and changes nothing |
| `WebhookRoutes.Deactivate` | server/routes/webHookRoutes.js:27-28 | `srem` and `del` remove the room from the room set and its host key, keep every other host, and do not touch lists, tokens or filter; the invariant is preserved |
| `WebhookRoutes.EndsRoom` | server/routes/webHookRoutes.js:21-26 | an event type other than the two strings `room_finished` and `participant_left` never ends a room; a room with no host key, or an event with no participant, is ended only by `room_finished`; a `participant_left` that ends a room carries exactly the stored host identity |
| `WebhookRoutes.Webhook` | server/routes/webHookRoutes.js:15-39 | a payload that fails validation gives 403 and nothing changes; a validated event gives 200; a host's `participant_left` or any `room_finished` removes the room from the room set and deletes exactly its host key, keeping every other host; any other event, or a non-host leaving, changes nothing; lists, tokens and filter never change; the invariant is preserved |
| `WebhookRoutes.WebhookIdempotent` | server/routes/webHookRoutes.js:21-28 | delivering the same event twice gives the same state and reply as delivering it once |
| `Server.RoomStore.Webhook` | server/routes/webHookRoutes.js:15-39 | the host lookup and conditional `srem`/`del` have exactly the effect and reply of `WebhookRoutes.Webhook` and keep the invariant |
| `RoomChecks.CheckRoom` | server/routes/roomRoutes.js:14-29 | always 200 with `success` or `failure`; `failure` exactly when both the filter and the room set contain the name |
| `RoomChecks.FilterMissIsFree` | server/routes/roomRoutes.js:18-20 | when the filter misses the name, the answer is `success` whatever the room set holds |
| `RoomChecks.ChecksAgree` | server/routes/roomRoutes.js:18-28 | under the invariant check-room equals the set-only check and says `failure` exactly for active rooms |
| `Server.RoomStore.CheckRoom` | server/routes/roomRoutes.js:14-29 | the filter-then-set test returns the reply of `RoomChecks.CheckRoom` without changing the store |
| `Server.RoomStore.MayContain` | server/routes/roomRoutes.js:18 | `bloomFilter.has` is true for every name ever added (no false negatives) |
| `RoomChecks.SetOnlyCheck` | server/routes/dbRoutes.js:7-19 | always 200; `success` exactly when the name is not in the room set, `failure` otherwise |
| `RoomChecks.SetOnlyCheckIgnoresFilter` | server/routes/dbRoutes.js:14 | the set-only answer does not depend on the filter |
| `Server.RoomStore.SetOnlyCheck` | server/routes/dbRoutes.js:7-19 | the `sismember` test returns the reply of `RoomChecks.SetOnlyCheck` without changing the store |
| `Middleware.Split` | server/middleware/verifyToken.js:5 | `split(' ')` yields at least one field and no field contains the separator |
| `Middleware.JoinSplit` | server/middleware/verifyToken.js:5 | joining the fields of a split with the separator gives back the header |
| `Middleware.SplitJoin` | server/middleware/verifyToken.js:5 | splitting a join of separator-free fields gives back the fields |
| `Middleware.SplitWord` | server/middleware/verifyToken.js:5 | a separator-free word followed by the separator is split off as the first field |
| `Middleware.SplitLastWord` | server/middleware/verifyToken.js:5 | a separator-free string is a single field |
| `Middleware.BearerToken` | server/middleware/verifyToken.js:4-5 | a token found is non-empty and contains no space |
| `Middleware.BearerTokenOf` | server/middleware/verifyToken.js:5 | for any scheme word, the field after the first space is the token (so `"X abc"` yields `"abc"`) |
| `Middleware.BearerTokenShape` | server/middleware/verifyToken.js:5-7 | conversely, a header yields token t only if it is a space-free scheme, one space, t, then nothing or a space |
| `Middleware.NoSpaceNoToken` | server/middleware/verifyToken.js:5-7 | a header with no space yields no token |
| `Middleware.DoubleSpaceNoToken` | server/middleware/verifyToken.js:5-7 | a double space after the scheme leaves an empty second field, so no token |
| `Middleware.Authenticate` | server/middleware/verifyToken.js:3-16 | 401 exactly when there is no token; 403 exactly when there is a token and verification fails; otherwise passes on the decoded claims |
| `Middleware.SchemeNotChecked` | server/middleware/verifyToken.js:5-12 | with any scheme word, the decision depends only on verifying the token after it |
| `Middleware.VerifyToken` | server/middleware/verifyToken.js:3-17 | 401 or 403 replies call `next` zero times and leave `req.user` alone; on success, no reply is sent, `req.user` is the decoded value and `next` is called exactly once |
| `LiveCaptions.Merged` | client/src/components/LiveCaptions.jsx:23-30 | the reference fold: an empty batch yields `prev`, and no key of `prev` is lost |
| `LiveCaptions.UpdateTranscriptions` | client/src/components/LiveCaptions.jsx:22-32 | the copy-then-overwrite loop yields the left fold `Merged(prev, batch)`; `prev` is a value and is not changed |
| `LiveCaptions.MergedKeys` | client/src/components/LiveCaptions.jsx:23-30 | the merged keys are the previous keys plus the batch's ids (no key is lost) |
| `LiveCaptions.MergedKeepsOthers` | client/src/components/LiveCaptions.jsx:23-30 | a key not in the batch keeps its previous segment |
| `LiveCaptions.MergedLastWins` | client/src/components/LiveCaptions.jsx:28-30 | each id maps to the last segment of the batch with that id |
| `LiveCaptions.LastOccurrence` | client/src/components/LiveCaptions.jsx:28-30 | every id of a batch has a last occurrence in it |
| `LiveCaptions.MergeIdempotent` | client/src/components/LiveCaptions.jsx:28-30 | merging the same batch twice equals merging it once |
| `Scenario.RoomLifecycle` | server/routes/tokenRoutes.js:11-63 | it also runs server/routes/waitingRoomRoutes.js:11-72, server/routes/webHookRoutes.js:15-39 and server/routes/roomRoutes.js:14-29; on a fresh store, the full chain behaves as designed: host creates (check-room then says `failure`); a guest is queued (202) and listed; approve (200) empties the list; the first claim returns the guest token and the second gets 404; `room_finished` (200) frees the name; a later guest gets 404 |

## Left out

- Store failures: the `catch` branch answering 500 (server/routes/tokenRoutes.js:59-62) is not modelled; every Redis call succeeds.
- Concurrency: every handler runs as one atomic step. Approve (`lrange`, `lrem`, `set`) and claim (`get`, `del`) are not atomic in the source, and their interleavings are not modelled.
- Persistence of the Bloom filter (`saveFilter`, `loadFilter`, `resetFilter` in server/micro_services/bloom-filter.js) is MongoDB I/O and is left out. Its hashing is not modelled either: the names that become false positives on an add are a parameter.
- TokenRoutes.HostJoin: says only that the filter grows by at least the room, because the extra false positives depend on hashing that is not modelled.
- Token cryptography: `AccessToken.toJwt` is represented by the grant the token carries (`Entities.Mint`), with no signing, API key or timestamps. `jwt.verify` is an abstract partial function passed in as `verify`. The webhook signature check (`receiver.receive`) is represented by its result: `None` when it throws.
- Environment: the base URL chosen from `PLATFORM` is a parameter (`baseUrl`).
- The middleware and the routes are modelled separately. A route function receives the caller's decoded claims as if `verifyToken` had already passed. Only the token POST uses those claims.
- JSON: waiting entries are stored as records, not as `JSON.stringify` text. Comparing stored strings is taken to be the same as comparing records.
- JavaScript values: `isHost` is reduced to a boolean (its truthiness). `roomName` and `identity` are optional strings, and so are the claims' `email`, `photoURL` and `password`; other value types are not modelled. Names and identities in the waiting room are always strings, so the `undefined === undefined` match is not modelled.
- Webhook events always carry a room name, and the event type is its string. The `room?.name` undefined path, which would read the key `livekit:host:undefined`, is not modelled.
- Redis housekeeping: an expired token stays in `approved` but no claim can see it. A list emptied by `lrem` stays as `[]` under its key. Both are invisible to every route.
- Time is an integer `now` (seconds) passed to approve and claim. A token is live while `now < expiresAt`.
- `remove-participant` (server/routes/roomRoutes.js:31-40) is left out because it calls the LiveKit service. The room-closing service and the transcription agent are external services and are left out too.
- The OAuth and sign-up routes, the Mongoose models and the server bootstrap are not part of this model.
- Client UI: everything other than the caption merge is not part of this model. This includes the polling loops, navigation, modals, the render-time sort by `startTime`, `TextDecoder` and `JSON.parse` of the payload.
