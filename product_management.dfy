/**
 * The product-administration page: the search over the fetched catalogue, the product form
 * (field update, filling it from a product to edit, reset), and the request the submit
 * button builds, with `ingredients` and `features` split on commas.
 */
module ProductManagement {
  import opened Wrappers
  import Lists
  import Text
  import Numbers
  import ProductSlice

  type Product = ProductSlice.Product
  type Raw = ProductSlice.Raw

  /** The search test: the lower-cased `product_name` or `category` contains the lower-cased
      term; a missing field reads as ''. */
  predicate SearchHit(p: Product, term: string) {
    || Text.IncludesIgnoringCase(p.name.GetOr(""), term)
    || Text.IncludesIgnoringCase(p.category.GetOr(""), term)
  }

  function HitTest(term: string): Product -> bool {
    (p: Product) => SearchHit(p, term)
  }

  /** `filteredProducts`. */
  function FilterCatalogue(ps: seq<Product>, term: string): (r: seq<Product>)
    ensures |r| <= |ps|
    ensures forall p :: p in r <==> p in ps && SearchHit(p, term)
  {
    Lists.Filter(ps, HitTest(term))
  }

  /** The filtered list is an order-preserving selection of the products that hit. */
  lemma FilterCatalogueMeaning(ps: seq<Product>, term: string)
    ensures Lists.IsSubsequence(FilterCatalogue(ps, term), ps)
    ensures forall p :: p in FilterCatalogue(ps, term) <==> p in ps && SearchHit(p, term)
  {
    Lists.FilterIsSubsequence(ps, HitTest(term));
  }

  /** An empty term keeps every product, even one without name or category. */
  lemma EmptyTermKeepsAll(ps: seq<Product>)
    ensures FilterCatalogue(ps, "") == ps
  {
    forall k | 0 <= k < |ps| ensures HitTest("")(ps[k]) {
      Text.IncludesIgnoringCaseEmpty(ps[k].name.GetOr(""));
    }
    Lists.FilterKeepingAll(ps, HitTest(""));
  }

  /** A product with neither name nor category is found only by the empty term. */
  lemma MissingFieldsHitOnlyEmpty(p: Product, term: string)
    requires p.name.None? && p.category.None?
    ensures SearchHit(p, term) <==> term == ""
  {
    if term == "" {
      Text.IncludesIgnoringCaseEmpty("");
    } else {
      assert |Text.ToLower(term)| > 0;
    }
  }

  /** The product form. `ingredients` and `features` hold whatever was copied into them, which
      need not be a string. */
  datatype ProductForm = ProductForm(
    name: string, price: string, category: string, description: string,
    ingredients: Raw, features: Raw, stock: string, image: string)

  datatype FormField = NameField | PriceField | CategoryField | DescriptionField
                     | IngredientsField | FeaturesField | StockField | ImageField

  /** The value of one input. */
  function Get(form: ProductForm, f: FormField): Raw {
    match f
    case NameField => ProductSlice.Str(form.name)
    case PriceField => ProductSlice.Str(form.price)
    case CategoryField => ProductSlice.Str(form.category)
    case DescriptionField => ProductSlice.Str(form.description)
    case IngredientsField => form.ingredients
    case FeaturesField => form.features
    case StockField => ProductSlice.Str(form.stock)
    case ImageField => ProductSlice.Str(form.image)
  }

  const InitialForm: ProductForm :=
    ProductForm("", "", "Japanese", "", ProductSlice.Str(""), ProductSlice.Str(""), "", "")

  /** `handleInputChange`: the named input takes the typed text, every other input keeps its
      value. */
  function InputChange(form: ProductForm, f: FormField, value: string): (r: ProductForm)
    ensures Get(r, f) == ProductSlice.Str(value)
    ensures forall g :: g != f ==> Get(r, g) == Get(form, g)
  {
    match f
    case NameField => form.(name := value)
    case PriceField => form.(price := value)
    case CategoryField => form.(category := value)
    case DescriptionField => form.(description := value)
    case IngredientsField => form.(ingredients := ProductSlice.Str(value))
    case FeaturesField => form.(features := ProductSlice.Str(value))
    case StockField => form.(stock := value)
    case ImageField => form.(image := value)
  }

  /** `value || ''` on a raw field: absent and empty read as ''; any other value is kept
      (values that are not strings are taken to be truthy). */
  function OrEmpty(v: Raw): Raw {
    if v.Missing? then ProductSlice.Str("") else v
  }

  /** `x !== undefined ? x.toString() : ''` on a numeric field: decimal text that `parseInt`
      reads back, '' when the field is missing, and `None` for `null`, whose `toString` throws. */
  function NumberText(x: ProductSlice.Number): (r: Option<string>)
    ensures r.None? <==> x.Null?
    ensures x.Undefined? ==> r == Some("")
    ensures x.Num? ==> r.Some? && Numbers.ParseInt(r.value) == Some(x.n)
  {
    match x
    case Num(n) => Numbers.ParseIntText(n); Some(Numbers.IntText(n))
    case Null => None
    case Undefined => Some("")
  }

  /** `handleEdit`'s form: text fields default to '', the category to 'Japanese', price and
      stock are written out as decimal text, and `features` is copied as it is. `None` when
      the price or the stock is `null`, where building the form throws. */
  function EditForm(p: Product): (r: Option<ProductForm>)
    ensures r.None? <==> p.price.Null? || p.stock.Null?
    ensures r.Some? ==> r.value.name == p.name.GetOr("") && r.value.description == p.description.GetOr("")
    ensures r.Some? ==> r.value.image == p.imageUrl.GetOr("")
    ensures r.Some? ==> r.value.category == (if p.category.None? || p.category == Some("") then "Japanese" else p.category.value)
    ensures r.Some? ==> Some(r.value.price) == NumberText(p.price) && Some(r.value.stock) == NumberText(p.stock)
    ensures r.Some? ==> r.value.ingredients == OrEmpty(p.ingredients) && r.value.features == p.features
  {
    var price := NumberText(p.price);
    var stock := NumberText(p.stock);
    if price.None? || stock.None? then None
    else Some(ProductForm(
      p.name.GetOr(""),
      price.value,
      if p.category.None? || p.category == Some("") then "Japanese" else p.category.value,
      p.description.GetOr(""),
      OrEmpty(p.ingredients),
      p.features,
      stock.value,
      p.imageUrl.GetOr("")))
  }

  /** The page's own state: the form, the product being edited, and whether the dialog is open. */
  datatype Page = Page(form: ProductForm, editing: Option<Product>, showModal: bool)

  /** `resetForm`: the initial form, nothing being edited, the dialog closed. */
  function Reset(page: Page): (r: Page)
    ensures r.form == InitialForm && r.editing.None? && !r.showModal
  {
    Page(InitialForm, None, false)
  }

  /** `handleEdit`: remember the product, fill the form from it, open the dialog. When
      building the form throws, the product is already remembered, while the form and the
      dialog stay as they were. */
  function Edit(page: Page, p: Product): (r: Page)
    ensures r.editing == Some(p)
    ensures EditForm(p).Some? ==> r.form == EditForm(p).value && r.showModal
    ensures EditForm(p).None? ==> r.form == page.form && r.showModal == page.showModal
  {
    var form := EditForm(p);
    if form.None? then page.(editing := Some(p))
    else Page(form.value, Some(p), true)
  }

  /** `s.split(',').map(item => item.trim())`. */
  function SplitTrim(s: string): (r: seq<string>)
    ensures |r| == |Text.Split(s, ',')|
    ensures forall k :: 0 <= k < |r| ==> r[k] == Text.Trim(Text.Split(s, ',')[k])
  {
    TrimAll(Text.Split(s, ','))
  }

  function TrimAll(pieces: seq<string>): (r: seq<string>)
    ensures |r| == |pieces| && forall k :: 0 <= k < |r| ==> r[k] == Text.Trim(pieces[k])
  {
    if pieces == [] then [] else [Text.Trim(pieces[0])] + TrimAll(pieces[1..])
  }

  /** There is one piece more than there are commas; every piece is trimmed and holds no comma;
      empty pieces stay. */
  lemma SplitTrimShape(s: string)
    ensures |SplitTrim(s)| == Text.Count(s, ',') + 1
    ensures forall k :: 0 <= k < |SplitTrim(s)| ==>
      Text.Trim(SplitTrim(s)[k]) == SplitTrim(s)[k] && ',' !in SplitTrim(s)[k]
  {
    Text.SplitCount(s, ',');
    Text.SplitPiecesHaveNoSeparator(s, ',');
    var pieces := Text.Split(s, ',');
    forall k | 0 <= k < |pieces|
      ensures Text.Trim(Text.Trim(pieces[k])) == Text.Trim(pieces[k]) && ',' !in Text.Trim(pieces[k])
    {
      Text.TrimIdempotent(pieces[k]);
      TrimKeepsOut(pieces[k], ',');
    }
  }

  lemma TrimKeepsOut(s: string, c: char)
    requires c !in s
    ensures c !in Text.Trim(s)
  {
  }

  /** Empty pieces are kept: two commas in a row give an empty item. */
  lemma EmptyPiecesKept()
    ensures SplitTrim("a, ,b") == ["a", "", "b"]
    ensures SplitTrim("") == [""]
  {
    SplitExample();
    Text.TrimOfTrimmed("a");
    Text.TrimOfTrimmed("b");
    Text.TrimOfTrimmed("");
    assert Text.LeadingSpace(" ") == 1;
    assert Text.Trim(" ") == "";
    assert Text.Split("", ',') == [""];
  }

  /** The pieces of "a, ,b". */
  lemma SplitExample()
    ensures Text.Split("a, ,b", ',') == ["a", " ", "b"]
  {
    assert "a, ,b"[1..] == ", ,b" && ", ,b"[1..] == " ,b" && " ,b"[1..] == ",b" && ",b"[1..] == "b";
    assert "b"[1..] == "";
    var r0 := Text.Split("", ',');
    assert r0 == [""] && r0[1..] == [] && ['b'] + r0[0] == "b";
    var r1 := Text.Split("b", ',');
    assert r1 == ["b"];
    var r2 := Text.Split(",b", ',');
    assert r2 == ["", "b"];
    assert r2[1..] == ["b"] && [' '] + r2[0] == " ";
    var r3 := Text.Split(" ,b", ',');
    assert r3 == [" ", "b"];
    var r4 := Text.Split(", ,b", ',');
    assert r4 == ["", " ", "b"];
    assert r4[1..] == [" ", "b"] && ['a'] + r4[0] == "a";
  }

  /** A list of trimmed items without commas, joined with ',', splits back into the items. */
  lemma SplitTrimOfJoin(items: seq<string>)
    requires items != []
    requires forall k :: 0 <= k < |items| ==> ',' !in items[k] && Text.Trim(items[k]) == items[k]
    ensures SplitTrim(Text.Join(items, ",")) == items
  {
    Text.SplitJoin(items, ',');
  }

  /** What the submit button sends. `price` and `stock` are `None` when `parseInt` gives `NaN`. */
  datatype ProductData = ProductData(
    name: string, price: Option<int>, category: string, description: string,
    ingredients: seq<string>, features: seq<string>, stock: Option<int>, imageUrl: string)

  /** A PUT to the edited product's serial id, or a POST of a new product. */
  datatype Request = Put(serialId: Option<string>, data: ProductData) | Post(data: ProductData)

  /** `productData`; `None` when `ingredients` or `features` is not a string, where `split`
      throws. */
  function Payload(form: ProductForm): (r: Option<ProductData>)
    ensures r.None? <==> !form.ingredients.Str? || !form.features.Str?
    ensures r.Some? ==> r.value.ingredients == SplitTrim(form.ingredients.s) && r.value.features == SplitTrim(form.features.s)
    ensures r.Some? ==> r.value.name == form.name && r.value.category == form.category
    ensures r.Some? ==> r.value.description == form.description && r.value.imageUrl == form.image
    ensures r.Some? ==> r.value.price == Numbers.ParseInt(form.price) && r.value.stock == Numbers.ParseInt(form.stock)
  {
    if form.ingredients.Str? && form.features.Str? then
      Some(ProductData(
        form.name, Numbers.ParseInt(form.price), form.category, form.description,
        SplitTrim(form.ingredients.s), SplitTrim(form.features.s),
        Numbers.ParseInt(form.stock), form.image))
    else None
  }

  /** `handleSubmit`: the request sent and the page after it. It updates exactly when a product
      is being edited. `answered` says whether the request succeeded: only then is the page
      reset; a rejected request throws out of the handler before `resetForm()`, and the form,
      the edited product and the open dialog stay as they were. */
  function Submit(page: Page, answered: bool): (r: Option<(Request, Page)>)
    ensures r.None? <==> Payload(page.form).None?
    ensures r.Some? ==> (r.value.0.Put? <==> page.editing.Some?)
    ensures r.Some? ==> r.value.0.data == Payload(page.form).value
    ensures r.Some? && page.editing.Some? ==> r.value.0.serialId == page.editing.value.serialId
    ensures r.Some? && answered ==> r.value.1 == Reset(page)
    ensures r.Some? && !answered ==> r.value.1 == page
  {
    var data := Payload(page.form);
    var after := if answered then Reset(page) else page;
    if data.None? then None
    else if page.editing.Some? then Some((Put(page.editing.value.serialId, data.value), after))
    else Some((Post(data.value), after))
  }

  /** Editing a product and submitting the form untouched sends the product's own values
      back, when it has them all and its list fields are strings. */
  lemma EditSubmitRoundTrip(page: Page, p: Product, answered: bool)
    requires p.name.Some? && p.description.Some? && p.imageUrl.Some?
    requires p.category.Some? && p.category.value != ""
    requires p.price.Num? && p.stock.Num?
    requires p.ingredients.Str? && p.features.Str?
    ensures var r := Submit(Edit(page, p), answered);
      && r.Some? && r.value.0 == Put(p.serialId, ProductData(
        p.name.value, Some(p.price.n), p.category.value, p.description.value,
        SplitTrim(p.ingredients.s), SplitTrim(p.features.s), Some(p.stock.n), p.imageUrl.value))
  {
  }

  /** A product whose `features` is absent, and whose price and stock are not `null`, is copied
      into the form as absent, and the submit then throws before any request. */
  lemma MissingFeaturesBlockSubmit(page: Page, p: Product, answered: bool)
    requires p.features.Missing? && !p.price.Null? && !p.stock.Null?
    ensures Submit(Edit(page, p), answered).None?
  {
  }

  /** Editing a product whose price or stock is `null` throws while building the form, yet
      remembers the product: the next submit sends the form that was already there as a PUT to
      that product's serial id. */
  lemma NullNumberEditUpdatesWithOldForm(page: Page, p: Product, answered: bool)
    requires p.price.Null? || p.stock.Null?
    ensures var r := Submit(Edit(page, p), answered);
      && (r.None? <==> Payload(page.form).None?)
      && (r.Some? ==> r.value.0 == Put(p.serialId, Payload(page.form).value))
  {
  }
}
