/**
 * The gallery screen (screens/Home.js): which listings are shown for the
 * selected category and viewer, which image is used as each card's
 * thumbnail, and the fixed texts shown for missing fields.
 */
module Home {
  import opened Wrappers
  import opened Seqs
  import opened Listing

  const AllCategories: string := "All Categories"
  const NoArtistName: string := "No Artist Name"
  const NoDescription: string := "No Description"
  const NoCategory: string := "No Category"

  /** `selectedCategory === 'All Categories' || product.category === selectedCategory`. */
  predicate MatchesCategory(p: Product, selected: string)
  {
    selected == AllCategories || p.category == Some(selected)
  }

  /**
   * `currentUser !== product.userId`, a strict comparison: a signed-out
   * viewer (`null`) differs even from a listing without owner (`undefined`).
   */
  predicate IsNotUserProduct(p: Product, viewer: Option<string>)
  {
    viewer.None? || p.userId != viewer
  }

  /** The test `filteredProducts` applies to each listing. */
  function Shown(selected: string, viewer: Option<string>): Product -> bool
  {
    (p: Product) => MatchesCategory(p, selected) && IsNotUserProduct(p, viewer)
  }

  /** `filteredProducts`. */
  function FilteredProducts(products: seq<Product>, selected: string, viewer: Option<string>): seq<Product>
  {
    Filter(products, Shown(selected, viewer))
  }

  /**
   * A listing is shown iff it is in the feed, its category matches the
   * selection (or the selection is all categories) and the viewer did not
   * post it; each shown listing appears as often as in the feed, and the
   * shown listings keep the feed's order.
   */
  lemma FilteredProductsSpec(products: seq<Product>, selected: string, viewer: Option<string>)
    ensures forall p :: p in FilteredProducts(products, selected, viewer) <==>
              p in products
              && (selected == AllCategories || p.category == Some(selected))
              && !(viewer.Some? && p.userId == viewer)
    ensures forall p :: multiset(FilteredProducts(products, selected, viewer))[p] ==
              if Shown(selected, viewer)(p) then multiset(products)[p] else 0
    ensures IsSubsequence(FilteredProducts(products, selected, viewer), products)
  {
    forall p
      ensures p in FilteredProducts(products, selected, viewer) <==>
                p in products
                && (selected == AllCategories || p.category == Some(selected))
                && !(viewer.Some? && p.userId == viewer)
      ensures multiset(FilteredProducts(products, selected, viewer))[p] ==
                if Shown(selected, viewer)(p) then multiset(products)[p] else 0
    {
      FilterMembership(products, Shown(selected, viewer), p);
      FilterMultiplicity(products, Shown(selected, viewer), p);
    }
    FilterIsSubsequence(products, Shown(selected, viewer));
  }

  /** The viewer's own listings never appear, whatever the category. */
  lemma OwnProductsNeverShown(products: seq<Product>, selected: string, uid: string)
    ensures forall i :: 0 <= i < |FilteredProducts(products, selected, Some(uid))| ==>
              FilteredProducts(products, selected, Some(uid))[i].userId != Some(uid)
  {
    var r := FilteredProducts(products, selected, Some(uid));
    forall i | 0 <= i < |r| ensures r[i].userId != Some(uid) {
      assert r[i] in r;
    }
  }

  /**
   * Selecting all categories switches the category test off: a listing is
   * then shown iff the viewer did not post it, and a signed-out viewer
   * sees the whole feed.
   */
  lemma AllCategoriesIgnoresCategory(products: seq<Product>, viewer: Option<string>)
    ensures forall p :: p in FilteredProducts(products, AllCategories, viewer) <==>
              p in products && IsNotUserProduct(p, viewer)
    ensures viewer.None? ==> FilteredProducts(products, AllCategories, viewer) == products
  {
    FilteredProductsSpec(products, AllCategories, viewer);
    if viewer.None? {
      FilterAllPass(products, Shown(AllCategories, viewer));
    }
  }

  /**
   * `typeof uri === 'string' && uri.match(/\.(jpeg|jpg|gif|png)$/)`:
   * a string ending in one of four lower-case extensions.
   */
  predicate IsImageUri(v: JsValue)
  {
    v.JsString? &&
    (EndsWith(v.s, ".jpeg") || EndsWith(v.s, ".jpg") || EndsWith(v.s, ".gif") || EndsWith(v.s, ".png"))
  }

  /** `imageUris.find(...)`: the first entry that is an image uri. */
  function FindImage(uris: seq<JsValue>): (r: Option<string>)
    ensures r.None? <==> forall i :: 0 <= i < |uris| ==> !IsImageUri(uris[i])
    ensures r.Some? ==> exists i :: 0 <= i < |uris| && uris[i] == JsString(r.value) && IsImageUri(uris[i])
                                    && forall j :: 0 <= j < i ==> !IsImageUri(uris[j])
    decreases |uris|
  {
    if uris == [] then None
    else if IsImageUri(uris[0]) then Some(uris[0].s)
    else
      var r := FindImage(uris[1..]);
      assert forall i :: 1 <= i < |uris| ==> uris[i] == uris[1..][i - 1];
      r
  }

  /** `item.imageUris?.find(...)`: no thumbnail when the field is missing. */
  function Thumbnail(imageUris: Option<seq<JsValue>>): Option<string>
  {
    if imageUris.None? then None else FindImage(imageUris.value)
  }

  /** The suffix test is case-sensitive: upper-case extensions are not images. */
  lemma ImageSuffixIsCaseSensitive()
    ensures IsImageUri(JsString("art.png"))
    ensures !IsImageUri(JsString("art.PNG"))
    ensures !IsImageUri(JsString("art.png?x=1"))
  {
    assert "art.png"[3..] == ".png";
    assert "art.PNG"[3..] == ".PNG";
    assert "art.PNG"[2..] != ".jpeg";
    assert "art.png?x=1"[7..] == "?x=1";
    assert "art.png?x=1"[6..] == "g?x=1";
  }

  /** `value || fallback` on an optional string: missing and empty both fall back. */
  function OrFallback(value: Option<string>, fallback: string): string
  {
    if value.Some? && value.value != "" then value.value else fallback
  }

  /** What one gallery card shows; `image == None` is the "No Image Available" placeholder. */
  datatype Card = Card(image: Option<string>, artist: string, description: string, category: string)

  /** `renderProduct`. */
  function RenderProduct(p: Product): Card
  {
    Card(Thumbnail(p.imageUris),
         OrFallback(p.artistName, NoArtistName),
         OrFallback(p.description, NoDescription),
         OrFallback(p.category, NoCategory))
  }

  /**
   * Every text on a card is non-empty: a missing or empty field shows its
   * fixed placeholder, a present one shows itself.
   */
  lemma CardFallbacks(p: Product)
    ensures var c := RenderProduct(p);
            c.artist != "" && c.description != "" && c.category != ""
            && (p.artistName.Some? && p.artistName.value != "" ==> c.artist == p.artistName.value)
            && (p.description.Some? && p.description.value != "" ==> c.description == p.description.value)
            && (p.category.Some? && p.category.value != "" ==> c.category == p.category.value)
            && (c.artist == NoArtistName <==> p.artistName.None? || p.artistName.value == "" || p.artistName.value == NoArtistName)
            && (p.description.None? || p.description == Some("") ==> c.description == NoDescription)
            && (p.category.None? || p.category == Some("") ==> c.category == NoCategory)
    ensures Thumbnail(p.imageUris).None? <==>
              p.imageUris.None? || forall i :: 0 <= i < |p.imageUris.value| ==> !IsImageUri(p.imageUris.value[i])
  {
  }

  /** A listing posted by a user is never shown to that user in the gallery. */
  lemma PostedListingHiddenFromAuthor(products: seq<Product>, selected: string, id: string, rec: ProductRecord)
    ensures FromRecord(id, rec) !in FilteredProducts(products, selected, Some(rec.userId))
  {
    FilterMembership(products, Shown(selected, Some(rec.userId)), FromRecord(id, rec));
  }

  /**
   * A listing posted through the form (all texts non-empty) is shown with
   * its own texts, and with its first image-like uri as thumbnail.
   */
  lemma PostedListingRendersOwnFields(id: string, rec: ProductRecord)
    requires rec.description != "" && rec.category != "" && rec.artistName != ""
    ensures var c := RenderProduct(FromRecord(id, rec));
            c.artist == rec.artistName && c.description == rec.description && c.category == rec.category
    ensures forall i :: 0 <= i < |rec.imageUris| && IsImageUri(JsString(rec.imageUris[i]))
              ==> RenderProduct(FromRecord(id, rec)).image.Some?
  {
    var uris := FromRecord(id, rec).imageUris.value;
    forall i | 0 <= i < |rec.imageUris| && IsImageUri(JsString(rec.imageUris[i]))
      ensures RenderProduct(FromRecord(id, rec)).image.Some?
    {
      assert uris[i] == JsString(rec.imageUris[i]);
    }
  }
}
