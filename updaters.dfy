/**
 The copy-and-return state updaters that the event handlers of
 src/App.tsx pass to `setUsers` and `setMessages`: delete a key from a copy,
 spread-merge, spread-upsert, and prepend to the chat log.
 */
module Updaters {
  import opened Protocol

  /** `{ ...users }` followed by `delete newUsers[peer]` (peer left). */
  function Without(users: map<PeerId, User>, peer: PeerId): (r: map<PeerId, User>)
    ensures r.Keys == users.Keys - {peer}
    ensures forall k :: k in r ==> r[k] == users[k]
  {
    users - {peer}
  }

  /** `{ ...users, ...other }`: every key of either map, `other` winning on collision. */
  function Merge(users: map<PeerId, User>, other: map<PeerId, User>): (r: map<PeerId, User>)
    ensures r.Keys == users.Keys + other.Keys
    ensures forall k :: k in other ==> r[k] == other[k]
    ensures forall k :: k in users && k !in other ==> r[k] == users[k]
  {
    users + other
  }

  /** `{ ...users, [id]: user }`: set one entry, keep every other one. */
  function Upsert(users: map<PeerId, User>, id: PeerId, user: User): (r: map<PeerId, User>)
    ensures r.Keys == users.Keys + {id}
    ensures r[id] == user
    ensures forall k :: k in users && k != id ==> r[k] == users[k]
  {
    users[id := user]
  }

  /** `[payload, ...messages]`: the newest entry first, the older ones behind it in their order. */
  function Prepend(messages: seq<Entry>, e: Entry): (r: seq<Entry>)
    ensures |r| == |messages| + 1
    ensures r[0] == e
    ensures forall i :: 0 <= i < |messages| ==> r[i + 1] == messages[i]
  {
    [e] + messages
  }

  /** Removing a key twice is removing it once. */
  lemma WithoutIdempotent(users: map<PeerId, User>, peer: PeerId)
    ensures Without(Without(users, peer), peer) == Without(users, peer)
  {
  }

  /** Removing an absent key changes nothing. */
  lemma WithoutAbsent(users: map<PeerId, User>, peer: PeerId)
    requires peer !in users
    ensures Without(users, peer) == users
  {
    assert Without(users, peer).Keys == users.Keys;
  }

  /** Writing the same entry twice is writing it once. */
  lemma UpsertIdempotent(users: map<PeerId, User>, id: PeerId, user: User)
    ensures Upsert(Upsert(users, id, user), id, user) == Upsert(users, id, user)
  {
  }

  /** An upsert is a merge of a one-entry map. */
  lemma UpsertIsMerge(users: map<PeerId, User>, id: PeerId, user: User)
    ensures Upsert(users, id, user) == Merge(users, map[id := user])
  {
  }

  /** Merging the same map twice is merging it once. */
  lemma MergeIdempotent(users: map<PeerId, User>, other: map<PeerId, User>)
    ensures Merge(Merge(users, other), other) == Merge(users, other)
  {
  }

  /** A merge loses no key, and every incoming entry is present as sent. */
  lemma MergeKeepsEverything(users: map<PeerId, User>, other: map<PeerId, User>)
    ensures users.Keys <= Merge(users, other).Keys
    ensures forall k :: k in other ==> k in Merge(users, other) && Merge(users, other)[k] == other[k]
  {
  }
}
