/**
 * The per-user liked-items store (`LikedProvider` in context/Cartctx.js).
 *
 * A map from user id to that user's ordered list of liked listings, scoped
 * to the signed-in user, with every change written through to a device
 * key-value store under `likedItems_<uid>`. The store's behaviour is first
 * given as pure functions over a `StoreState`; the class `LikedProvider`
 * holds the same state in fields and its methods are proved against them.
 */
module LikedStore {
  import opened Wrappers
  import opened Seqs
  import opened Listing

  /** A liked item is the listing record the details screen passes in. */
  type Item = Product

  const StoragePrefix: string := "likedItems_"

  /** The device-storage key under which a user's list is kept. */
  function StorageKey(uid: string): string
  {
    StoragePrefix + uid
  }

  /** Distinct users never share a storage key. */
  lemma StorageKeyInjective(a: string, b: string)
    requires a != b
    ensures StorageKey(a) != StorageKey(b)
  {
    assert StorageKey(a)[|StoragePrefix|..] == a;
    assert StorageKey(b)[|StoragePrefix|..] == b;
  }

  /** `getLikedItems`: the signed-in user's list, `[]` when signed out or never liked. */
  function ItemsOf(byUser: map<string, seq<Item>>, user: Option<string>): seq<Item>
  {
    if user.None? then []
    else if user.value in byUser then byUser[user.value]
    else []
  }

  /** The test that `removeFromLiked(id)` filters with. */
  function NotId(id: string): Item -> bool
  {
    (it: Item) => it.id != id
  }

  /** The list `removeFromLiked(id)` leaves: every item whose id differs. */
  function RemoveId(items: seq<Item>, id: string): seq<Item>
  {
    Filter(items, NotId(id))
  }

  /** The three per-list changes the store makes. */
  datatype Op = Add(item: Item) | Remove(id: string) | Clear

  /** The current user's list after one change. */
  function Step(items: seq<Item>, op: Op): seq<Item>
  {
    match op
    case Add(item) => items + [item]
    case Remove(id) => RemoveId(items, id)
    case Clear => []
  }

  /** The current user's list after a series of changes, applied in order. */
  function StepAll(items: seq<Item>, ops: seq<Op>): seq<Item>
    decreases |ops|
  {
    if ops == [] then items else StepAll(Step(items, ops[0]), ops[1..])
  }

  /** The in-memory map and the device storage it writes through to. */
  datatype StoreState = StoreState(byUser: map<string, seq<Item>>, storage: map<string, seq<Item>>)

  /**
   * One mutation (`addToLiked`, `removeFromLiked`, `clearLiked`): nothing
   * happens when nobody is signed in; otherwise the user's entry is
   * replaced and, when the storage write succeeds, written under its key.
   */
  function Mutate(s: StoreState, user: Option<string>, op: Op, writeOk: bool): StoreState
  {
    if user.None? then s
    else
      var updated := Step(ItemsOf(s.byUser, user), op);
      StoreState(s.byUser[user.value := updated],
                 if writeOk then s.storage[StorageKey(user.value) := updated] else s.storage)
  }

  /**
   * `loadLikedItems`: when a user is signed in, the read succeeds and a
   * list is stored under their key, that list becomes their entry.
   */
  function LoadState(s: StoreState, user: Option<string>, readFails: bool): StoreState
  {
    if user.Some? && !readFails && StorageKey(user.value) in s.storage
    then StoreState(s.byUser[user.value := s.storage[StorageKey(user.value)]], s.storage)
    else s
  }

  /** A series of mutations by one user, each storage write succeeding or not as `writes` says. */
  function Replay(s: StoreState, user: Option<string>, ops: seq<Op>, writes: seq<bool>): StoreState
    requires |writes| == |ops|
    decreases |ops|
  {
    if ops == [] then s else Replay(Mutate(s, user, ops[0], writes[0]), user, ops[1..], writes[1..])
  }

  /** Does the user's entry (in memory and in storage) look the same in two states? */
  ghost predicate SameEntry(s: StoreState, t: StoreState, uid: string)
  {
    ItemsOf(s.byUser, Some(uid)) == ItemsOf(t.byUser, Some(uid))
    && (uid in s.byUser <==> uid in t.byUser)
    && (StorageKey(uid) in s.storage <==> StorageKey(uid) in t.storage)
    && (StorageKey(uid) in s.storage ==> s.storage[StorageKey(uid)] == t.storage[StorageKey(uid)])
  }

  // ---------------------------------------------------------------------
  // Properties of the list transforms

  /**
   * `removeFromLiked(id)` keeps exactly the items whose id differs, each as
   * often as before and in the original order; every match goes.
   */
  lemma RemoveIdSpec(items: seq<Item>, id: string)
    ensures forall x :: multiset(RemoveId(items, id))[x] == if x.id == id then 0 else multiset(items)[x]
    ensures forall x :: x in RemoveId(items, id) <==> x in items && x.id != id
    ensures IsSubsequence(RemoveId(items, id), items)
  {
    forall x
      ensures multiset(RemoveId(items, id))[x] == if x.id == id then 0 else multiset(items)[x]
      ensures x in RemoveId(items, id) <==> x in items && x.id != id
    {
      FilterMultiplicity(items, NotId(id), x);
      FilterMembership(items, NotId(id), x);
    }
    FilterIsSubsequence(items, NotId(id));
  }

  /** Removing the same id twice is removing it once. */
  lemma RemoveIdIdempotent(items: seq<Item>, id: string)
    ensures RemoveId(RemoveId(items, id), id) == RemoveId(items, id)
  {
    FilterIdempotent(items, NotId(id));
  }

  /** Removing an id nobody has leaves the list as it was. */
  lemma RemoveAbsentId(items: seq<Item>, id: string)
    requires forall i :: 0 <= i < |items| ==> items[i].id != id
    ensures RemoveId(items, id) == items
  {
    FilterAllPass(items, NotId(id));
  }

  // ---------------------------------------------------------------------
  // Properties of the store

  /** What the signed-in user sees after a mutation is the list transform of what they saw. */
  lemma MutateCurrentUser(s: StoreState, uid: string, op: Op, writeOk: bool)
    ensures ItemsOf(Mutate(s, Some(uid), op, writeOk).byUser, Some(uid)) == Step(ItemsOf(s.byUser, Some(uid)), op)
    ensures uid in Mutate(s, Some(uid), op, writeOk).byUser
  {
  }

  /** `addToLiked`: old list plus the item at the end, no duplicate check; absent counts as `[]`. */
  lemma AddAppends(s: StoreState, uid: string, item: Item, writeOk: bool)
    ensures var after := ItemsOf(Mutate(s, Some(uid), Add(item), writeOk).byUser, Some(uid));
            |after| == |ItemsOf(s.byUser, Some(uid))| + 1
            && after[..|after| - 1] == ItemsOf(s.byUser, Some(uid))
            && after[|after| - 1] == item
    ensures uid !in s.byUser ==> ItemsOf(Mutate(s, Some(uid), Add(item), writeOk).byUser, Some(uid)) == [item]
  {
    var before := ItemsOf(s.byUser, Some(uid));
    assert (before + [item])[..|before|] == before;
  }

  /** With nobody signed in, every mutation leaves memory and storage as they were. */
  lemma MutateSignedOutIsNoop(s: StoreState, op: Op, writeOk: bool)
    ensures Mutate(s, None, op, writeOk) == s
  {
  }

  /** A mutation touches only the current user's entry and storage key. */
  lemma MutateIsolatesOtherUsers(s: StoreState, user: Option<string>, op: Op, writeOk: bool, other: string)
    requires user != Some(other)
    ensures SameEntry(s, Mutate(s, user, op, writeOk), other)
  {
    if user.Some? {
      StorageKeyInjective(user.value, other);
    }
  }

  /** After a mutation whose write succeeded, storage holds exactly the new in-memory list. */
  lemma MutatePersists(s: StoreState, uid: string, op: Op)
    ensures var t := Mutate(s, Some(uid), op, true);
            StorageKey(uid) in t.storage && uid in t.byUser && t.storage[StorageKey(uid)] == t.byUser[uid]
  {
  }

  /** `clearLiked` empties the list, and a second call changes nothing more. */
  lemma ClearIdempotent(s: StoreState, user: Option<string>, writeOk: bool)
    ensures user.Some? ==> ItemsOf(Mutate(s, user, Clear, writeOk).byUser, user) == []
    ensures Mutate(Mutate(s, user, Clear, writeOk), user, Clear, writeOk) == Mutate(s, user, Clear, writeOk)
  {
    if user.Some? {
      var once := Mutate(s, user, Clear, writeOk);
      var twice := Mutate(once, user, Clear, writeOk);
      assert twice.byUser == once.byUser;
      assert twice.storage == once.storage;
    }
  }

  /** Loading installs the stored list for the signed-in user and nothing else. */
  lemma LoadEffect(s: StoreState, user: Option<string>, readFails: bool)
    ensures var t := LoadState(s, user, readFails);
            t.storage == s.storage
            && (user.Some? && !readFails && StorageKey(user.value) in s.storage ==>
                  ItemsOf(t.byUser, user) == s.storage[StorageKey(user.value)])
            && (user.None? || readFails || StorageKey(user.value) !in s.storage ==> t == s)
    ensures forall v :: user != Some(v) ==> SameEntry(s, LoadState(s, user, readFails), v)
  {
  }

  /** Under a fixed user, what they see is the net effect of the changes, applied in order. */
  lemma {:induction false} ReplayNetEffect(s: StoreState, uid: string, ops: seq<Op>, writes: seq<bool>)
    requires |writes| == |ops|
    ensures ItemsOf(Replay(s, Some(uid), ops, writes).byUser, Some(uid)) == StepAll(ItemsOf(s.byUser, Some(uid)), ops)
    decreases |ops|
  {
    if ops != [] {
      var next := Mutate(s, Some(uid), ops[0], writes[0]);
      MutateCurrentUser(s, uid, ops[0], writes[0]);
      ReplayNetEffect(next, uid, ops[1..], writes[1..]);
    }
  }

  /**
   * Another user's activity never touches a user's collection: whatever one
   * user (or nobody) does, every other user's entry, in memory and in
   * storage, is as it was.
   */
  lemma {:induction false} ReplayIsolatesOtherUsers(s: StoreState, user: Option<string>, ops: seq<Op>, writes: seq<bool>, other: string)
    requires |writes| == |ops|
    requires user != Some(other)
    ensures SameEntry(s, Replay(s, user, ops, writes), other)
    decreases |ops|
  {
    if ops != [] {
      var next := Mutate(s, user, ops[0], writes[0]);
      MutateIsolatesOtherUsers(s, user, ops[0], writes[0], other);
      ReplayIsolatesOtherUsers(next, user, ops[1..], writes[1..], other);
    }
  }

  /**
   * Persistence round trip: after at least one change whose writes all
   * succeeded, a restart (empty memory, same storage) followed by a load
   * gives the user back exactly the list they had.
   */
  lemma {:induction false} RestartRoundTrip(s: StoreState, uid: string, ops: seq<Op>, writes: seq<bool>)
    requires |writes| == |ops| && ops != []
    requires forall i :: 0 <= i < |writes| ==> writes[i]
    ensures var t := Replay(s, Some(uid), ops, writes);
            ItemsOf(LoadState(StoreState(map[], t.storage), Some(uid), false).byUser, Some(uid))
              == ItemsOf(t.byUser, Some(uid))
    decreases |ops|
  {
    var next := Mutate(s, Some(uid), ops[0], writes[0]);
    if |ops| == 1 {
      assert Replay(next, Some(uid), ops[1..], writes[1..]) == next;
      MutatePersists(s, uid, ops[0]);
    } else {
      RestartRoundTrip(next, uid, ops[1..], writes[1..]);
    }
  }

  /** A user's in-memory entry and stored list agree (both absent, or equal). */
  ghost predicate Synced(s: StoreState, uid: string)
  {
    (uid in s.byUser <==> StorageKey(uid) in s.storage)
    && (uid in s.byUser ==> s.byUser[uid] == s.storage[StorageKey(uid)])
  }

  /** A mutation whose write succeeds leaves the user's memory and storage in step. */
  lemma MutateSyncs(s: StoreState, uid: string, op: Op)
    ensures Synced(Mutate(s, Some(uid), op, true), uid)
  {
    MutatePersists(s, uid, op);
  }

  /** A successful load of a stored list leaves the user's memory and storage in step. */
  lemma LoadSyncs(s: StoreState, uid: string)
    requires StorageKey(uid) in s.storage
    ensures Synced(LoadState(s, Some(uid), false), uid)
  {
  }

  /** One thing the store does while some identity is signed in: a load or a mutation. */
  datatype Event =
    | LoadEvent(user: Option<string>, readFails: bool)
    | ChangeEvent(user: Option<string>, op: Op, writeOk: bool)

  /** The state after one event. */
  function Apply(s: StoreState, e: Event): StoreState
  {
    match e
    case LoadEvent(user, readFails) => LoadState(s, user, readFails)
    case ChangeEvent(user, op, writeOk) => Mutate(s, user, op, writeOk)
  }

  /** The state after a trace of events, applied in order. */
  function Run(s: StoreState, events: seq<Event>): StoreState
    decreases |events|
  {
    if events == [] then s else Run(Apply(s, events[0]), events[1..])
  }

  /** A trace of loads and mutations by other identities (or nobody) touches no entry of `uid`. */
  lemma {:induction false} RunIsolatesOtherUsers(s: StoreState, events: seq<Event>, uid: string)
    requires forall i :: 0 <= i < |events| ==> events[i].user != Some(uid)
    ensures SameEntry(s, Run(s, events), uid)
    decreases |events|
  {
    if events != [] {
      var e := events[0];
      if e.LoadEvent? {
        LoadEffect(s, e.user, e.readFails);
      } else {
        MutateIsolatesOtherUsers(s, e.user, e.op, e.writeOk, uid);
      }
      RunIsolatesOtherUsers(Apply(s, e), events[1..], uid);
    }
  }

  /**
   * Switching away and back: when a user's list was in step with storage,
   * whatever other identities (or nobody) do in between, their own
   * sign-in loads included, the reload that runs when the user signs back
   * in gives them exactly the list they had.
   */
  lemma SwitchBackRestores(s: StoreState, events: seq<Event>, a: string)
    requires forall i :: 0 <= i < |events| ==> events[i].user != Some(a)
    requires Synced(s, a)
    ensures ItemsOf(LoadState(Run(s, events), Some(a), false).byUser, Some(a)) == ItemsOf(s.byUser, Some(a))
  {
    RunIsolatesOtherUsers(s, events, a);
  }

  /**
   * The reload on sign-in replaces the in-memory list with the stored one:
   * an addition whose write failed is lost when the user switches away and back.
   */
  lemma FailedWriteLostOnSwitchBack(x: Item, y: Item)
    ensures var s0 := StoreState(map["A" := []], map[StorageKey("A") := []]);
            var s1 := Mutate(s0, Some("A"), Add(x), false);
            var s2 := Mutate(s1, Some("B"), Add(y), true);
            ItemsOf(s1.byUser, Some("A")) == [x]
            && ItemsOf(LoadState(s2, Some("A"), false).byUser, Some("A")) == []
  {
    var s0 := StoreState(map["A" := []], map[StorageKey("A") := []]);
    var s1 := Mutate(s0, Some("A"), Add(x), false);
    assert ItemsOf(s1.byUser, Some("A")) == [] + [x];
    StorageKeyInjective("A", "B");
  }

  /** The worked example: add p1, add p2, remove p1, clear. */
  lemma ExampleScenario(s: StoreState, p1: Item, p2: Item)
    requires p1.id == "p1" && p2.id == "p2"
    requires ItemsOf(s.byUser, Some("u1")) == []
    ensures var s1 := Mutate(s, Some("u1"), Add(p1), true);
            var s2 := Mutate(s1, Some("u1"), Add(p2), true);
            var s3 := Mutate(s2, Some("u1"), Remove("p1"), true);
            var s4 := Mutate(s3, Some("u1"), Clear, true);
            ItemsOf(s1.byUser, Some("u1")) == [p1]
            && ItemsOf(s2.byUser, Some("u1")) == [p1, p2]
            && ItemsOf(s3.byUser, Some("u1")) == [p2]
            && ItemsOf(s4.byUser, Some("u1")) == []
  {
    var s1 := Mutate(s, Some("u1"), Add(p1), true);
    assert ItemsOf(s1.byUser, Some("u1")) == [] + [p1] == [p1];
    var s2 := Mutate(s1, Some("u1"), Add(p2), true);
    assert ItemsOf(s2.byUser, Some("u1")) == [p1] + [p2] == [p1, p2];
    assert [p1, p2][1..] == [p2];
    assert [p2][1..] == [];
    assert RemoveId([p1, p2], "p1") == RemoveId([p2], "p1") == [p2] + RemoveId([], "p1");
  }

  // ---------------------------------------------------------------------
  // The provider object

  /**
   * `LikedProvider`: the `likedItemsByUser` state cell, the device storage
   * it writes through to, and the identity currently reported by the
   * authentication service.
   */
  class LikedProvider {
    var likedItemsByUser: map<string, seq<Item>>
    var storage: map<string, seq<Item>>
    var currentUser: Option<string>

    ghost function State(): StoreState
      reads this
    {
      StoreState(likedItemsByUser, storage)
    }

    /** A provider mounts with an empty map over whatever the device already stores. */
    constructor (user: Option<string>, stored: map<string, seq<Item>>)
      ensures likedItemsByUser == map[] && storage == stored && currentUser == user
    {
      likedItemsByUser := map[];
      storage := stored;
      currentUser := user;
    }

    /** The authentication service now reports `user` (sign-in, sign-out, switch). */
    method SetCurrentUser(user: Option<string>)
      modifies this`currentUser
      ensures currentUser == user
    {
      currentUser := user;
    }

    /** `getLikedItems`. */
    method GetLikedItems() returns (items: seq<Item>)
      ensures currentUser.None? ==> items == []
      ensures currentUser.Some? && currentUser.value in likedItemsByUser ==> items == likedItemsByUser[currentUser.value]
      ensures currentUser.Some? && currentUser.value !in likedItemsByUser ==> items == []
    {
      if currentUser.None? {
        return [];
      }
      var userId := currentUser.value;
      items := if userId in likedItemsByUser then likedItemsByUser[userId] else [];
    }

    /** `saveLikedItems`: a write that is caught and logged when it fails. */
    method SaveLikedItems(userId: string, items: seq<Item>, writeOk: bool)
      modifies this`storage
      ensures storage == if writeOk then old(storage)[StorageKey(userId) := items] else old(storage)
    {
      if writeOk {
        storage := storage[StorageKey(userId) := items];
      }
    }

    /** `loadLikedItems`, run when the signed-in user changes. */
    method LoadLikedItems(readFails: bool)
      modifies this`likedItemsByUser
      ensures State() == LoadState(old(State()), currentUser, readFails)
    {
      if currentUser.Some? {
        var userId := currentUser.value;
        if !readFails && StorageKey(userId) in storage {
          var storedLikedItems := storage[StorageKey(userId)];
          likedItemsByUser := likedItemsByUser[userId := storedLikedItems];
        }
      }
    }

    /** `addToLiked`. */
    method AddToLiked(item: Item, writeOk: bool)
      modifies this`likedItemsByUser, this`storage
      ensures State() == Mutate(old(State()), currentUser, Add(item), writeOk)
    {
      if currentUser.None? {
        return;
      }
      var userId := currentUser.value;
      var userLikedItems := if userId in likedItemsByUser then likedItemsByUser[userId] else [];
      var updatedItems := userLikedItems + [item];
      SaveLikedItems(userId, updatedItems, writeOk);
      likedItemsByUser := likedItemsByUser[userId := updatedItems];
    }

    /** `removeFromLiked`. */
    method RemoveFromLiked(id: string, writeOk: bool)
      modifies this`likedItemsByUser, this`storage
      ensures State() == Mutate(old(State()), currentUser, Remove(id), writeOk)
    {
      if currentUser.None? {
        return;
      }
      var userId := currentUser.value;
      var userLikedItems := if userId in likedItemsByUser then likedItemsByUser[userId] else [];
      var updatedItems := RemoveId(userLikedItems, id);
      SaveLikedItems(userId, updatedItems, writeOk);
      likedItemsByUser := likedItemsByUser[userId := updatedItems];
    }

    /** `clearLiked`. */
    method ClearLiked(writeOk: bool)
      modifies this`likedItemsByUser, this`storage
      ensures State() == Mutate(old(State()), currentUser, Clear, writeOk)
    {
      if currentUser.None? {
        return;
      }
      var userId := currentUser.value;
      SaveLikedItems(userId, [], writeOk);
      likedItemsByUser := likedItemsByUser[userId := []];
    }
  }
}
