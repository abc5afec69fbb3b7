/**
 * The shared state behind the admission routes, as a value: the Redis keys
 * `livekit:room_set`, `livekit:host:<room>`, `pending:participants:<room>` and
 * `approved:token:<identity>:<room>`, and the in-memory Bloom filter of room
 * names. Also the Redis list operations the waiting room relies on.
 */
module Store {
  import opened Wrappers
  import opened Entities

  /** Seconds an approved guest token lives (`EX 300`). */
  const TokenTtl := 300

  datatype State = State(
    roomSet: set<string>,                      // livekit:room_set
    hostOf: map<string, string>,               // livekit:host:<room>
    pending: map<string, seq<PendingUser>>,    // pending:participants:<room>
    approved: map<string, Approval>,           // approved:token:<identity>:<room>
    filter: set<string>,                       // names bloomFilter.has answers true for
    added: set<string>)                        // names ever passed to bloomFilter.add

  /** What a route handler produces: the new state and the reply it sends. */
  datatype Outcome = Outcome(state: State, response: Response)

  /** Every name ever added is reported as possibly present (no false negatives),
      every active room was added to the filter, and exactly the active rooms have a host. */
  ghost predicate Inv(s: State)
  {
    && s.added <= s.filter
    && s.roomSet <= s.added
    && s.hostOf.Keys == s.roomSet
  }

  /** The state of a fresh deployment: every key absent, the filter empty. */
  function Initial(): (s: State)
    ensures Inv(s)
  {
    State({}, map[], map[], map[], {}, {})
  }

  /** `lrange key 0 -1`: an absent list reads as empty. */
  function PendingOf(s: State, room: string): seq<PendingUser>
  {
    if room in s.pending then s.pending[room] else []
  }

  /** The Redis key of the approved-token slot, `approved:token:${identity}:${roomName}`.
      Different (identity, room) pairs can share a key when a name contains ':'. */
  function TokenKey(identity: string, room: string): string
  {
    "approved:token:" + identity + ":" + room
  }

  /** Only a `:` inside the identity lets two pairs share a slot: identities
      without one get distinct keys unless both identity and room agree. */
  lemma TokenKeyInjective(i1: string, r1: string, i2: string, r2: string)
    requires ':' !in i1 && ':' !in i2
    requires TokenKey(i1, r1) == TokenKey(i2, r2)
    ensures i1 == i2 && r1 == r2
  {
    var p := "approved:token:";
    var k := TokenKey(i1, r1);
    assert k == p + i1 + ":" + r1 && k == p + i2 + ":" + r2;
    assert k[|p| + |i1|] == ':' && k[|p| + |i2|] == ':';
    assert i1 == k[|p|..|p| + |i1|] == i2;
    assert r1 == k[|p| + |i1| + 1..] == r2;
  }

  /** The slot of (identity, room) holds a token that has not yet expired at
      `now` (Redis drops a key `EX 300` seconds after it was set). */
  predicate Live(s: State, identity: string, room: string, now: int)
  {
    TokenKey(identity, room) in s.approved && now < s.approved[TokenKey(identity, room)].expiresAt
  }

  /** JavaScript truthiness of an optional string body field. */
  predicate Truthy(field: Option<string>)
  {
    field.Some? && field.value != ""
  }

  /** The index of the first entry whose name is `name` (what `find` visits). */
  function IndexOfName(list: seq<PendingUser>, name: string): (r: Option<nat>)
    ensures r.Some? ==> r.value < |list| && list[r.value].name == name
    ensures r.Some? ==> forall j :: 0 <= j < r.value ==> list[j].name != name
    ensures r.None? <==> forall j :: 0 <= j < |list| ==> list[j].name != name
  {
    if list == [] then None
    else if list[0].name == name then Some(0)
    else match IndexOfName(list[1..], name)
      case None => None
      case Some(i) => Some(i + 1)
  }

  /** `pendingList.find(p => p.name === name)`. */
  function FirstByName(list: seq<PendingUser>, name: string): (r: Option<PendingUser>)
    ensures r.None? <==> IndexOfName(list, name).None?
    ensures r.Some? ==> r.value == list[IndexOfName(list, name).value]
  {
    match IndexOfName(list, name)
    case None => None
    case Some(i) => Some(list[i])
  }

  /** `lrem key 1 v`: remove the first entry equal to `v`, if any. */
  function LRem1(list: seq<PendingUser>, v: PendingUser): (r: seq<PendingUser>)
    ensures v !in list ==> r == list
    ensures v in list ==> |r| == |list| - 1
  {
    if list == [] then []
    else
      assert list == [list[0]] + list[1..];
      if list[0] == v then list[1..]
      else [list[0]] + LRem1(list[1..], v)
  }

  /** `lrem` with count 1 takes exactly one copy of the value out of the list,
      when there is one. */
  lemma {:induction false} LRem1Multiset(list: seq<PendingUser>, v: PendingUser)
    ensures multiset(LRem1(list, v)) == multiset(list) - multiset{v}
    decreases |list|
  {
    if list != [] {
      assert list == [list[0]] + list[1..];
      if list[0] != v {
        LRem1Multiset(list[1..], v);
      }
    }
  }

  /** Removing the first entry equal to a value drops exactly the first
      position holding it. */
  lemma {:induction false} LRem1At(list: seq<PendingUser>, i: nat)
    requires i < |list|
    requires list[i] !in list[..i]
    ensures LRem1(list, list[i]) == list[..i] + list[i + 1..]
    decreases i
  {
    if i == 0 {
      assert list[..0] + list[1..] == list[1..];
    } else {
      var tail := list[1..];
      assert list[..i] == [list[0]] + tail[..i - 1];
      assert list[0] != list[i] && list[i] !in tail[..i - 1];
      assert tail[i - 1] == list[i];
      LRem1At(tail, i - 1);
      calc {
        LRem1(list, list[i]);
        [list[0]] + LRem1(tail, list[i]);
        [list[0]] + (tail[..i - 1] + tail[i..]);
        { assert tail[i..] == list[i + 1..]; }
        list[..i] + list[i + 1..];
      }
    }
  }

  /** Approve and reject remove exactly the first waiting entry with the name:
      the entry `find` returns is the first one equal to itself, so `lrem` with
      count 1 removes it at its own position, and the rest keep their order. */
  lemma RemoveFirstByName(list: seq<PendingUser>, name: string)
    requires IndexOfName(list, name).Some?
    ensures var i := IndexOfName(list, name).value;
      LRem1(list, FirstByName(list, name).value) == list[..i] + list[i + 1..]
  {
  }
}
