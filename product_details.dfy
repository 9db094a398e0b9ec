/**
 * The "Like" button of the listing details screen (`handleAddToLiked` in
 * screens/ProductDetails.js): a listing whose id is already in the user's
 * liked list is refused with an alert; any other is handed to the store.
 */
module ProductDetails {
  import opened Wrappers
  import opened LikedStore

  /** `LikedItems.some(item => item.id === product.id)`: only ids are compared. */
  function ContainsId(items: seq<Item>, id: string): (b: bool)
    ensures b <==> exists i :: 0 <= i < |items| && items[i].id == id
    decreases |items|
  {
    if items == [] then false
    else items[0].id == id || ContainsId(items[1..], id)
  }

  /** No two items of the list share an id. */
  ghost predicate DistinctIds(items: seq<Item>)
  {
    forall i, j :: 0 <= i < j < |items| ==> items[i].id != items[j].id
  }

  /** What a press of "Like" does. */
  datatype LikeOutcome =
    | AlreadyLiked   // alert "Post already in Liked"; the store is not called
    | Added          // `addToLiked(product)` called once

  /** The decision `handleAddToLiked` takes on the current liked list. */
  function LikeDecision(liked: seq<Item>, product: Item): (r: LikeOutcome)
    ensures r == AlreadyLiked <==> exists i :: 0 <= i < |liked| && liked[i].id == product.id
  {
    if ContainsId(liked, product.id) then AlreadyLiked else Added
  }

  /** The signed-in user's list after one guarded press. */
  function GuardedAdd(liked: seq<Item>, product: Item): seq<Item>
  {
    if LikeDecision(liked, product) == AlreadyLiked then liked else Step(liked, Add(product))
  }

  /**
   * If every addition goes through the guard, ids stay distinct; the list
   * grows by one for a new id and not at all for a known one.
   */
  lemma GuardedAddKeepsIdsDistinct(liked: seq<Item>, product: Item)
    requires DistinctIds(liked)
    ensures DistinctIds(GuardedAdd(liked, product))
    ensures |GuardedAdd(liked, product)| == |liked| + (if ContainsId(liked, product.id) then 0 else 1)
    ensures ContainsId(GuardedAdd(liked, product), product.id)
  {
    var r := GuardedAdd(liked, product);
    if !ContainsId(liked, product.id) {
      assert r == liked + [product];
      assert r[|liked|] == product;
      forall i, j | 0 <= i < j < |r| ensures r[i].id != r[j].id {
        if j == |liked| {
          assert r[i] == liked[i];
        }
      }
    }
  }

  /** A press with no user signed in reaches the store, which ignores it. */
  lemma SignedOutPressIsNoop(s: StoreState, product: Item, writeOk: bool)
    ensures LikeDecision(ItemsOf(s.byUser, None), product) == Added
    ensures Mutate(s, None, Add(product), writeOk) == s
  {
  }

  /** `handleAddToLiked` against the store. */
  method HandleAddToLiked(store: LikedProvider, product: Item, writeOk: bool) returns (outcome: LikeOutcome)
    modifies store`likedItemsByUser, store`storage
    ensures outcome == LikeDecision(old(ItemsOf(store.likedItemsByUser, store.currentUser)), product)
    ensures outcome == AlreadyLiked ==> store.State() == old(store.State())
    ensures outcome == Added ==> store.State() == Mutate(old(store.State()), store.currentUser, Add(product), writeOk)
    ensures store.currentUser.Some? ==>
              ItemsOf(store.likedItemsByUser, store.currentUser)
                == GuardedAdd(old(ItemsOf(store.likedItemsByUser, store.currentUser)), product)
    ensures DistinctIds(old(ItemsOf(store.likedItemsByUser, store.currentUser))) ==>
              DistinctIds(ItemsOf(store.likedItemsByUser, store.currentUser))
  {
    var likedItems := store.GetLikedItems();
    ghost var before := store.State();
    if ContainsId(likedItems, product.id) {
      outcome := AlreadyLiked;
      return;
    }
    store.AddToLiked(product, writeOk);
    outcome := Added;
    if store.currentUser.Some? {
      MutateCurrentUser(before, store.currentUser.value, Add(product), writeOk);
      if DistinctIds(likedItems) {
        GuardedAddKeepsIdsDistinct(likedItems, product);
      }
    }
  }
}
