/**
 * The catalogue store: the product list, the filter record, and the filtered view that
 * `setFilters`, `filterByProductType`, `filterBySkinType` and `searchProducts` recompute with
 * one conjunctive predicate over price, keyword and tags.
 */
module ProductSlice {
  import opened Wrappers
  import Lists
  import Text

  /** A field the API may send as a string, leave out, or send as some other value (an array,
      a number). */
  datatype Raw = Missing | Str(s: string) | Opaque

  /** `product_type` / `skin_type`: an array of tags, a single value, or absent. */
  datatype TagField = TagList(tags: seq<string>) | TagValue(tag: string) | NoTag

  /** A numeric field as the JSON record delivers it: a number, `null`, or left out. */
  datatype Number = Num(n: int) | Null | Undefined

  /** The value arithmetic and relational operators see: `null` converts to 0, and a missing
      field to `NaN`, which is `None` here. */
  function ToNumber(x: Number): Option<int> {
    match x
    case Num(n) => Some(n)
    case Null => Some(0)
    case Undefined => None
  }

  /** A product record as the API sends it. */
  datatype Product = Product(
    serialId: Option<string>,   // products_serial_id
    id: Option<string>,         // id
    productId: Option<string>,  // product_id
    name: Option<string>,       // product_name
    description: Option<string>,
    category: Option<string>,
    price: Number,
    stock: Number,
    imageUrl: Option<string>,   // image_url
    productType: TagField,      // product_type
    skinType: TagField,         // skin_type
    features: Raw,
    ingredients: Raw)

  /** The filter record. Only `priceRange`, `searchTerm` and `tags` reach the predicate. */
  datatype Filters = Filters(
    category: string, priceRange: (int, int), searchTerm: string, rating: int,
    sortBy: string, inStockOnly: bool, tags: seq<string>)

  /** The keys `setFilters` reads from its payload; `None` is a key that is undefined or absent.
      Any other key of the payload is ignored. */
  datatype FilterPatch = FilterPatch(
    category: Option<string>, priceRange: Option<(int, int)>, searchTerm: Option<string>,
    rating: Option<int>, sortBy: Option<string>, inStockOnly: Option<bool>,
    tags: Option<seq<string>>)

  const InitialFilters: Filters := Filters("All", (0, 10000), "", 0, "", false, [])

  /** The product-type vocabulary `filterByProductType` replaces. */
  const ProductTypes: seq<string> := ["Japanese", "Korean", "Ayurvedic", "Natural"]

  /** The skin-type vocabulary `filterBySkinType` replaces. */
  const SkinTypes: seq<string> := ["Oily", "Dry", "Sensitive", "Combination", "Normal"]

  /** A payload that sets every key to the value it has in `f`. */
  function FullPatch(f: Filters): FilterPatch {
    FilterPatch(Some(f.category), Some(f.priceRange), Some(f.searchTerm), Some(f.rating),
                Some(f.sortBy), Some(f.inStockOnly), Some(f.tags))
  }

  /** `{...filters, ...(key !== undefined && {key})}` for each key. */
  function Merge(f: Filters, p: FilterPatch): (r: Filters)
    ensures r.category == p.category.GetOr(f.category)
    ensures r.priceRange == p.priceRange.GetOr(f.priceRange)
    ensures r.searchTerm == p.searchTerm.GetOr(f.searchTerm)
    ensures r.rating == p.rating.GetOr(f.rating)
    ensures r.sortBy == p.sortBy.GetOr(f.sortBy)
    ensures r.inStockOnly == p.inStockOnly.GetOr(f.inStockOnly)
    ensures r.tags == p.tags.GetOr(f.tags)
  {
    Filters(
      if p.category.Some? then p.category.value else f.category,
      if p.priceRange.Some? then p.priceRange.value else f.priceRange,
      if p.searchTerm.Some? then p.searchTerm.value else f.searchTerm,
      if p.rating.Some? then p.rating.value else f.rating,
      if p.sortBy.Some? then p.sortBy.value else f.sortBy,
      if p.inStockOnly.Some? then p.inStockOnly.value else f.inStockOnly,
      if p.tags.Some? then p.tags.value else f.tags)
  }

  lemma MergeIdempotent(f: Filters, p: FilterPatch)
    ensures Merge(Merge(f, p), p) == Merge(f, p)
  {
  }

  lemma MergeFullPatch(f: Filters, g: Filters)
    ensures Merge(f, FullPatch(g)) == g
  {
  }

  // ---------------------------------------------------------------- the predicate

  /** The values of one tag field: an array as it is, a non-empty single value as a
      one-element list, otherwise nothing. */
  function TagValues(t: TagField): seq<string> {
    match t
    case TagList(ts) => ts
    case TagValue(v) => if v == "" then [] else [v]
    case NoTag => []
  }

  /** `productTags`: the product types followed by the skin types. */
  function ProductTags(p: Product): (tags: seq<string>)
    ensures forall t :: t in tags <==> t in TagValues(p.productType) || t in TagValues(p.skinType)
  {
    TagValues(p.productType) + TagValues(p.skinType)
  }

  /** `product.price >= minPrice && product.price <= maxPrice` on the converted price: `NaN`
      fails both comparisons. */
  predicate PriceMatches(p: Product, range: (int, int)) {
    var v := ToNumber(p.price);
    v.Some? && range.0 <= v.value <= range.1
  }

  /** The keyword test. `None` when it throws: a non-empty keyword meets a product without
      `product_name`, or one whose name misses and that has no `description`. */
  function KeywordMatch(p: Product, keyword: string): (r: Option<bool>)
    ensures keyword == "" ==> r == Some(true)
    ensures p.name.Some? && p.description.Some? ==> r.Some?
    ensures keyword != "" && p.name.None? ==> r.None?
    ensures r == Some(true) && keyword != "" ==>
      Text.IncludesIgnoringCase(p.name.value, keyword)
      || (p.description.Some? && Text.IncludesIgnoringCase(p.description.value, keyword))
  {
    if keyword == "" then Some(true)
    else if p.name.None? then None
    else if Text.IncludesIgnoringCase(p.name.value, keyword) then Some(true)
    else if p.description.None? then None
    else Some(Text.IncludesIgnoringCase(p.description.value, keyword))
  }

  predicate TagsMatch(p: Product, tags: seq<string>) {
    |tags| == 0 || forall k :: 0 <= k < |tags| ==> tags[k] in ProductTags(p)
  }

  /** Whether a product passes the filters; `None` when evaluating the keyword test throws. */
  function Matches(p: Product, f: Filters): (r: Option<bool>)
    ensures r.Some? <==> KeywordMatch(p, f.searchTerm).Some?
    ensures r == Some(true) <==>
      KeywordMatch(p, f.searchTerm) == Some(true) && PriceMatches(p, f.priceRange) && TagsMatch(p, f.tags)
  {
    var kw := KeywordMatch(p, f.searchTerm);
    if kw.None? then None
    else Some(PriceMatches(p, f.priceRange) && kw.value && TagsMatch(p, f.tags))
  }

  /** A `null` price compares as 0: with an empty keyword and no tags, such a product passes
      exactly the ranges that hold 0, the initial range (0, 10000) among them. */
  lemma NullPricePassesRangesWithZero(p: Product, f: Filters)
    requires p.price.Null? && f.searchTerm == "" && f.tags == []
    ensures Matches(p, f) == Some(true) <==> f.priceRange.0 <= 0 <= f.priceRange.1
    ensures f.priceRange == InitialFilters.priceRange ==> Matches(p, f) == Some(true)
  {
  }

  /** A missing price compares as `NaN` and fails every range. */
  lemma UndefinedPriceNeverPasses(p: Product, f: Filters)
    requires p.price.Undefined?
    ensures Matches(p, f) != Some(true)
  {
  }

  /** `products.filter(...)` with the predicate; `None` when it throws on some product. */
  function FilterProducts(ps: seq<Product>, f: Filters): (r: Option<seq<Product>>)
    ensures r.Some? ==> |r.value| <= |ps| && forall q :: q in r.value ==> q in ps && Matches(q, f) == Some(true)
    ensures r.None? ==> exists k :: 0 <= k < |ps| && Matches(ps[k], f).None?
  {
    if ps == [] then Some([])
    else
      var m := Matches(ps[0], f);
      if m.None? then None
      else
        var rest := FilterProducts(ps[1..], f);
        if rest.None? then None
        else Some((if m.value then [ps[0]] else []) + rest.value)
  }

  /** The predicate as a total test, for the products on which it does not throw. */
  predicate Passes(p: Product, f: Filters) {
    Matches(p, f) == Some(true)
  }

  /** `Passes` as the test handed to `filter`. */
  function PassTest(f: Filters): Product -> bool {
    (p: Product) => Passes(p, f)
  }

  /** Some product makes the predicate throw. */
  predicate SomeThrows(ps: seq<Product>, f: Filters) {
    exists k :: 0 <= k < |ps| && Matches(ps[k], f).None?
  }

  lemma SomeThrowsFront(ps: seq<Product>, f: Filters)
    requires ps != []
    ensures SomeThrows(ps, f) <==> Matches(ps[0], f).None? || SomeThrows(ps[1..], f)
  {
    if SomeThrows(ps, f) {
      var k :| 0 <= k < |ps| && Matches(ps[k], f).None?;
      if k > 0 {
        assert ps[1..][k - 1] == ps[k];
      }
    }
    if SomeThrows(ps[1..], f) {
      var k :| 0 <= k < |ps[1..]| && Matches(ps[1..][k], f).None?;
      assert ps[k + 1] == ps[1..][k];
    }
  }

  /** The filter throws exactly when the predicate throws on some product; otherwise it keeps
      exactly the products that pass, in their order. */
  lemma {:induction false} FilterProductsMeaning(ps: seq<Product>, f: Filters)
    ensures FilterProducts(ps, f).None? <==> SomeThrows(ps, f)
    ensures FilterProducts(ps, f).Some? ==> FilterProducts(ps, f).value == Lists.Filter(ps, PassTest(f))
  {
    if ps != [] {
      FilterProductsMeaning(ps[1..], f);
      SomeThrowsFront(ps, f);
    }
  }

  /** The filtered view is an order-preserving selection of the products, and a product is in
      it exactly when it is a product that passes. */
  lemma FilteredViewIsSelection(ps: seq<Product>, f: Filters)
    requires FilterProducts(ps, f).Some?
    ensures var r := FilterProducts(ps, f).value;
      && Lists.IsSubsequence(r, ps)
      && forall p :: p in r <==> p in ps && Passes(p, f)
  {
    FilterProductsMeaning(ps, f);
    Lists.FilterIsSubsequence(ps, PassTest(f));
  }

  /** With an empty search term, or products that all carry a name and a description, the
      filter never throws. */
  lemma FilterDoesNotThrow(ps: seq<Product>, f: Filters)
    requires f.searchTerm == "" || forall k :: 0 <= k < |ps| ==> ps[k].name.Some? && ps[k].description.Some?
    ensures FilterProducts(ps, f).Some?
  {
    FilterProductsMeaning(ps, f);
  }

  /** Filtering the filtered view again changes nothing. */
  lemma FilterProductsIdempotent(ps: seq<Product>, f: Filters)
    requires FilterProducts(ps, f).Some?
    ensures FilterProducts(FilterProducts(ps, f).value, f) == FilterProducts(ps, f)
  {
    FilterProductsMeaning(ps, f);
    var r := FilterProducts(ps, f).value;
    forall k | 0 <= k < |r| ensures Matches(r[k], f).Some? {
      assert r[k] in r;
    }
    FilterProductsMeaning(r, f);
    Lists.FilterTwice(ps, PassTest(f));
  }

  /** A product passes a non-empty tag selection only if it carries every selected tag. */
  lemma TagsAreConjunctive(p: Product, f: Filters, t: string)
    requires Passes(p, f) && t in f.tags
    ensures t in ProductTags(p)
  {
  }

  // ---------------------------------------------------------------- tag dimensions

  function InVocabulary(vocabulary: seq<string>): string -> bool {
    (t: string) => t in vocabulary
  }

  function OutsideVocabulary(vocabulary: seq<string>): string -> bool {
    (t: string) => t !in vocabulary
  }

  /** `tags.filter(tag => !vocabulary.includes(tag))`. */
  function Without(tags: seq<string>, vocabulary: seq<string>): seq<string> {
    Lists.Filter(tags, OutsideVocabulary(vocabulary))
  }

  /** The tags of one vocabulary, in order. */
  function Within(tags: seq<string>, vocabulary: seq<string>): seq<string> {
    Lists.Filter(tags, InVocabulary(vocabulary))
  }

  /** `filterByProductType`'s new tag list: the selection first, then the tags outside the
      product-type vocabulary. */
  function ProductTypeTags(tags: seq<string>, selected: seq<string>): (r: seq<string>)
    ensures forall t :: t in r <==> t in selected || (t in tags && t !in ProductTypes)
  {
    selected + Without(tags, ProductTypes)
  }

  /** `filterBySkinType`'s new tag list: the tags outside the skin-type vocabulary, then the
      selection. */
  function SkinTypeTags(tags: seq<string>, selected: seq<string>): (r: seq<string>)
    ensures forall t :: t in r <==> t in selected || (t in tags && t !in SkinTypes)
  {
    Without(tags, SkinTypes) + selected
  }

  predicate Disjoint(a: seq<string>, b: seq<string>) {
    forall t :: t in a ==> t !in b
  }

  predicate AllIn(selected: seq<string>, vocabulary: seq<string>) {
    forall k :: 0 <= k < |selected| ==> selected[k] in vocabulary
  }

  lemma VocabulariesDisjoint()
    ensures Disjoint(ProductTypes, SkinTypes) && Disjoint(SkinTypes, ProductTypes)
  {
  }

  /** Dropping one vocabulary keeps the tags of a disjoint one. */
  lemma {:induction false} WithoutKeepsOthers(tags: seq<string>, drop: seq<string>, keep: seq<string>)
    requires Disjoint(keep, drop)
    ensures Within(Without(tags, drop), keep) == Within(tags, keep)
  {
    if tags != [] {
      WithoutKeepsOthers(tags[1..], drop, keep);
      var head := if tags[0] !in drop then [tags[0]] else [];
      var rest := Without(tags[1..], drop);
      assert Without(tags, drop) == head + rest;
      Lists.FilterConcat(head, rest, InVocabulary(keep));
      assert Lists.Filter(head, InVocabulary(keep)) == (if tags[0] in keep then [tags[0]] else []) by {
        if head != [] { assert head[1..] == []; }
      }
    }
  }

  /** The parts of a tag list built from a selection and the tags outside its vocabulary. */
  lemma SelectionParts(tags: seq<string>, selected: seq<string>, vocabulary: seq<string>, other: seq<string>)
    requires AllIn(selected, vocabulary) && Disjoint(other, vocabulary)
    ensures Within(selected, vocabulary) == selected
    ensures Without(selected, vocabulary) == []
    ensures Within(selected, other) == []
    ensures Within(Without(tags, vocabulary), vocabulary) == []
    ensures Without(Without(tags, vocabulary), vocabulary) == Without(tags, vocabulary)
    ensures Within(Without(tags, vocabulary), other) == Within(tags, other)
  {
    Lists.FilterKeepingAll(selected, InVocabulary(vocabulary));
    Lists.FilterKeepingNone(selected, OutsideVocabulary(vocabulary));
    forall k | 0 <= k < |selected| ensures !InVocabulary(other)(selected[k]) {
      assert selected[k] in vocabulary;
    }
    Lists.FilterKeepingNone(selected, InVocabulary(other));
    var outside := Without(tags, vocabulary);
    forall k | 0 <= k < |outside| ensures !InVocabulary(vocabulary)(outside[k]) {
      assert outside[k] in outside;
    }
    Lists.FilterKeepingNone(outside, InVocabulary(vocabulary));
    Lists.FilterTwice(tags, OutsideVocabulary(vocabulary));
    WithoutKeepsOthers(tags, vocabulary, other);
  }

  /** Choosing product types from the vocabulary replaces the product-type tags by the choice
      and keeps every other tag, in order; the skin-type tags in particular are untouched. */
  lemma ProductTypeTagsEffect(tags: seq<string>, selected: seq<string>)
    requires AllIn(selected, ProductTypes)
    ensures Within(ProductTypeTags(tags, selected), ProductTypes) == selected
    ensures Without(ProductTypeTags(tags, selected), ProductTypes) == Without(tags, ProductTypes)
    ensures Within(ProductTypeTags(tags, selected), SkinTypes) == Within(tags, SkinTypes)
  {
    VocabulariesDisjoint();
    var outside := Without(tags, ProductTypes);
    SelectionParts(tags, selected, ProductTypes, SkinTypes);
    Lists.FilterConcat(selected, outside, InVocabulary(ProductTypes));
    Lists.FilterConcat(selected, outside, OutsideVocabulary(ProductTypes));
    Lists.FilterConcat(selected, outside, InVocabulary(SkinTypes));
  }

  /** Choosing skin types from the vocabulary replaces the skin-type tags by the choice and
      keeps every other tag, in order; the product-type tags in particular are untouched. */
  lemma SkinTypeTagsEffect(tags: seq<string>, selected: seq<string>)
    requires AllIn(selected, SkinTypes)
    ensures Within(SkinTypeTags(tags, selected), SkinTypes) == selected
    ensures Without(SkinTypeTags(tags, selected), SkinTypes) == Without(tags, SkinTypes)
    ensures Within(SkinTypeTags(tags, selected), ProductTypes) == Within(tags, ProductTypes)
  {
    VocabulariesDisjoint();
    var outside := Without(tags, SkinTypes);
    SelectionParts(tags, selected, SkinTypes, ProductTypes);
    Lists.FilterConcat(outside, selected, InVocabulary(SkinTypes));
    Lists.FilterConcat(outside, selected, OutsideVocabulary(SkinTypes));
    Lists.FilterConcat(outside, selected, InVocabulary(ProductTypes));
  }

  // ---------------------------------------------------------------- product list operations

  /** `products.findIndex(p => p.products_serial_id === serialId)`. */
  function SerialIndex(ps: seq<Product>, serialId: Option<string>): int {
    Lists.FindIndex(ps, (p: Product) => p.serialId == serialId)
  }

  /** `products.filter(p => p.products_serial_id !== serialId)`. */
  function RemoveSerial(ps: seq<Product>, serialId: Option<string>): (r: seq<Product>)
    ensures |r| <= |ps|
    ensures forall q :: q in r ==> q in ps && q.serialId != serialId
  {
    Lists.Filter(ps, (p: Product) => p.serialId != serialId)
  }

  /** `deleteProduct` removes every product with the serial id and keeps the rest in order. */
  lemma RemoveSerialEffect(ps: seq<Product>, serialId: Option<string>)
    ensures forall p :: p in RemoveSerial(ps, serialId) <==> p in ps && p.serialId != serialId
    ensures Lists.IsSubsequence(RemoveSerial(ps, serialId), ps)
    ensures SerialIndex(ps, serialId) == -1 ==> RemoveSerial(ps, serialId) == ps
  {
    Lists.FilterIsSubsequence(ps, (p: Product) => p.serialId != serialId);
    if SerialIndex(ps, serialId) == -1 {
      Lists.FilterKeepingAll(ps, (p: Product) => p.serialId != serialId);
    }
  }

  // ---------------------------------------------------------------- the store

  class ProductStore {
    var products: seq<Product>
    var filteredProducts: seq<Product>
    var selectedProduct: Option<Product>
    var filters: Filters
    var loading: bool

    constructor ()
      ensures products == [] && filteredProducts == [] && selectedProduct == None
      ensures filters == InitialFilters && !loading
    {
      products, filteredProducts, selectedProduct := [], [], None;
      filters, loading := InitialFilters, false;
    }

    /** `setProducts`: the list and the view become the payload; the filters stay. */
    method SetProducts(list: seq<Product>)
      modifies this
      ensures products == list && filteredProducts == list && !loading
      ensures filters == old(filters) && selectedProduct == old(selectedProduct)
    {
      products, filteredProducts, loading := list, list, false;
    }

    method SetLoading(value: bool)
      modifies this`loading
      ensures loading == value
    {
      loading := value;
    }

    method SetSelectedProduct(p: Option<Product>)
      modifies this`selectedProduct
      ensures selectedProduct == p
    {
      selectedProduct := p;
    }

    /** `addProduct`: append the payload with the fresh id `freshId`, and show every product. */
    method AddProduct(payload: Product, freshId: string)
      modifies this
      ensures products == old(products) + [payload.(id := Some(freshId))]
      ensures filteredProducts == products
      ensures filters == old(filters) && loading == old(loading) && selectedProduct == old(selectedProduct)
    {
      products := products + [payload.(id := Some(freshId))];
      filteredProducts := products;
    }

    /** `updateProduct`: replace the first product with the payload's serial id and show every
        product; without such a product nothing changes. */
    method UpdateProduct(payload: Product)
      modifies this
      ensures var i := SerialIndex(old(products), payload.serialId);
        && (i >= 0 ==> products == old(products)[i := payload] && filteredProducts == products)
        && (i == -1 ==> products == old(products) && filteredProducts == old(filteredProducts))
      ensures filters == old(filters) && loading == old(loading) && selectedProduct == old(selectedProduct)
    {
      var i := SerialIndex(products, payload.serialId);
      if i != -1 {
        products := products[i := payload];
        filteredProducts := products;
      }
    }

    /** `deleteProduct`: drop every product with the serial id and show every product left. */
    method DeleteProduct(serialId: Option<string>)
      modifies this
      ensures products == RemoveSerial(old(products), serialId) && filteredProducts == products
      ensures filters == old(filters) && loading == old(loading) && selectedProduct == old(selectedProduct)
    {
      products := RemoveSerial(products, serialId);
      filteredProducts := products;
    }

    /** `setFilters`: merge the payload, then recompute the view. When the predicate throws the
        reducer is abandoned and the state stays as it was; `ok` says which happened. */
    method SetFilters(patch: FilterPatch) returns (ok: bool)
      modifies this
      ensures var f := Merge(old(filters), patch);
        var view := FilterProducts(old(products), f);
        && ok == view.Some?
        && (ok ==> filters == f && filteredProducts == view.value)
        && (!ok ==> filters == old(filters) && filteredProducts == old(filteredProducts))
      ensures products == old(products) && loading == old(loading) && selectedProduct == old(selectedProduct)
    {
      var f := Merge(filters, patch);
      var view := FilterProducts(products, f);
      ok := view.Some?;
      if ok {
        filters, filteredProducts := f, view.value;
      }
    }

    /** `filterByProductType`: `setFilters` with every filter as it is except the tags. */
    method FilterByProductType(selected: seq<string>) returns (ok: bool)
      modifies this
      ensures var f := old(filters).(tags := ProductTypeTags(old(filters).tags, selected));
        var view := FilterProducts(old(products), f);
        && ok == view.Some?
        && (ok ==> filters == f && filteredProducts == view.value)
        && (!ok ==> filters == old(filters) && filteredProducts == old(filteredProducts))
      ensures products == old(products) && loading == old(loading) && selectedProduct == old(selectedProduct)
    {
      var updated := filters.(tags := ProductTypeTags(filters.tags, selected));
      ok := SetFilters(FullPatch(updated));
    }

    /** `filterBySkinType`: `setFilters` with every filter as it is except the tags. */
    method FilterBySkinType(selected: seq<string>) returns (ok: bool)
      modifies this
      ensures var f := old(filters).(tags := SkinTypeTags(old(filters).tags, selected));
        var view := FilterProducts(old(products), f);
        && ok == view.Some?
        && (ok ==> filters == f && filteredProducts == view.value)
        && (!ok ==> filters == old(filters) && filteredProducts == old(filteredProducts))
      ensures products == old(products) && loading == old(loading) && selectedProduct == old(selectedProduct)
    {
      var updated := filters.(tags := SkinTypeTags(filters.tags, selected));
      ok := SetFilters(FullPatch(updated));
    }

    /** `searchProducts`: only the search term changes, and the view is recomputed with the
        same predicate as `setFilters`. */
    method SearchProducts(term: string) returns (ok: bool)
      modifies this
      ensures var f := old(filters).(searchTerm := term);
        var view := FilterProducts(old(products), f);
        && ok == view.Some?
        && (ok ==> filters == f && filteredProducts == view.value)
        && (!ok ==> filters == old(filters) && filteredProducts == old(filteredProducts))
      ensures products == old(products) && loading == old(loading) && selectedProduct == old(selectedProduct)
    {
      var f := filters.(searchTerm := term);
      var view := FilterProducts(products, f);
      ok := view.Some?;
      if ok {
        filters, filteredProducts := f, view.value;
      }
    }
  }

  /** `searchProducts(term)` leaves the same filters as `setFilters({searchTerm: term})`. */
  lemma SearchIsSetFiltersOnSearchTerm(f: Filters, term: string)
    ensures Merge(f, FilterPatch(None, None, Some(term), None, None, None, None)) == f.(searchTerm := term)
  {
  }

  /** Running `setFilters` twice with the same payload leaves what running it once left. */
  lemma SetFiltersIdempotent(ps: seq<Product>, f: Filters, p: FilterPatch)
    ensures var once := Merge(f, p);
      FilterProducts(ps, Merge(once, p)) == FilterProducts(ps, once) && Merge(once, p) == once
  {
    MergeIdempotent(f, p);
  }
}
