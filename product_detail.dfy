/**
 * The product page: turning the `features` / `ingredients` text the API stores into a list,
 * choosing the related products, and the two cart buttons.
 */
module ProductDetail {
  import opened Wrappers
  import Lists
  import Text
  import ProductSlice
  import CartSlice

  /** What the first `replace` removes: braces, backslash and double quote. */
  const BraceChars: set<char> := {'{', '}', '\\', '"'}

  /** Every character no cleaned element can contain. */
  const Forbidden: set<char> := {'{', '}', '\\', '"', '\'', ','}

  /** The second `replace`: one `[` at the very start and one `]` at the very end, when there. */
  function StripBrackets(s: string): (r: string)
    ensures |s| - 2 <= |r| <= |s|
    ensures s != [] && s[0] != '[' && s[|s| - 1] != ']' ==> r == s
    ensures var a := if s != [] && s[0] == '[' then 1 else 0;
      a + |r| <= |s| && r == s[a..a + |r|]
    ensures var lead := s != [] && s[0] == '[';
      var trail := |s| > (if lead then 1 else 0) && s[|s| - 1] == ']';
      s == (if lead then "[" else "") + r + (if trail then "]" else "")
  {
    var a := if |s| > 0 && s[0] == '[' then 1 else 0;
    var b := if |s| > a && s[|s| - 1] == ']' then |s| - 1 else |s|;
    s[a..b]
  }

  /** One piece after `split(',')`: single quotes removed, then trimmed. */
  function CleanPiece(piece: string): (r: string)
    ensures Text.Trim(r) == r
    ensures forall i :: 0 <= i < |r| ==> r[i] != '\'' && r[i] in piece
  {
    var removed := Text.RemoveChars(piece, {'\''});
    Text.TrimIdempotent(removed);
    Text.Trim(removed)
  }

  /** `pieces.map(CleanPiece)`. */
  function CleanPieces(pieces: seq<string>): (r: seq<string>)
    ensures |r| == |pieces|
    ensures forall k :: 0 <= k < |r| ==> r[k] == CleanPiece(pieces[k])
  {
    if pieces == [] then [] else [CleanPiece(pieces[0])] + CleanPieces(pieces[1..])
  }

  /** `filter(Boolean)` on strings: the non-empty ones. */
  function NonEmpty(xs: seq<string>): seq<string> {
    Lists.Filter(xs, (x: string) => x != "")
  }

  /** `cleanAndParseArray`: anything but a non-empty string gives the empty list. */
  function CleanAndParseArray(input: ProductSlice.Raw): (r: seq<string>)
    ensures !input.Str? || input.s == "" ==> r == []
    ensures forall x :: x in r ==> x != ""
  {
    match input
    case Str(s) =>
      if s == "" then []
      else NonEmpty(CleanPieces(Text.Split(StripBrackets(Text.RemoveChars(s, BraceChars)), ',')))
    case _ => []
  }

  /** Input that is absent, not a string, or empty gives nothing. */
  lemma NonStringGivesNothing(input: ProductSlice.Raw)
    requires !input.Str? || input.s == ""
    ensures CleanAndParseArray(input) == []
  {
  }

  /** Every element is non-empty, its own trim, and free of braces, quotes, backslashes and
      commas. */
  lemma CleanedElements(input: ProductSlice.Raw)
    ensures forall x :: x in CleanAndParseArray(input) ==>
      x != "" && Text.Trim(x) == x && Text.Avoids(x, Forbidden)
  {
    if input.Str? && input.s != "" {
      var s := input.s;
      var removed := Text.RemoveChars(s, BraceChars);
      Text.RemoveCharsAvoids(s, BraceChars, {});
      var stripped := StripBrackets(removed);
      assert Text.Avoids(stripped, BraceChars);
      var pieces := Text.Split(stripped, ',');
      Text.SplitPiecesAvoid(stripped, ',', BraceChars);
      Text.SplitPiecesHaveNoSeparator(stripped, ',');
      var cleaned := CleanPieces(pieces);
      forall k | 0 <= k < |cleaned|
        ensures Text.Trim(cleaned[k]) == cleaned[k] && Text.Avoids(cleaned[k], Forbidden)
      {
        assert Text.Avoids(pieces[k], BraceChars + {','});
        Text.RemoveCharsAvoids(pieces[k], {'\''}, BraceChars + {','});
        assert {'\''} + (BraceChars + {','}) == Forbidden;
        Text.TrimAvoids(Text.RemoveChars(pieces[k], {'\''}), Forbidden);
        Text.TrimIdempotent(Text.RemoveChars(pieces[k], {'\''}));
      }
      forall x | x in CleanAndParseArray(input)
        ensures x != "" && Text.Trim(x) == x && Text.Avoids(x, Forbidden)
      {
        var k :| 0 <= k < |cleaned| && cleaned[k] == x;
      }
    }
  }

  /** What a plain element never contains: the removed and split-on characters, and brackets. */
  const NotInPlain: set<char> := {'{', '}', '\\', '"', '\'', ',', '[', ']'}

  /** A plain element: non-empty, with no white space at either end, and free of `NotInPlain`. */
  predicate PlainElement(x: string) {
    x != [] && !Text.IsSpace(x[0]) && !Text.IsSpace(x[|x| - 1]) && Text.Avoids(x, NotInPlain)
  }

  predicate AllPlain(items: seq<string>) {
    forall k :: 0 <= k < |items| ==> PlainElement(items[k])
  }

  /** Each element in double quotes, as a JSON or database array literal writes it. */
  function Quoted(items: seq<string>): (r: seq<string>)
    ensures |r| == |items|
    ensures forall k :: 0 <= k < |r| ==> r[k] == "\"" + items[k] + "\""
  {
    if items == [] then [] else ["\"" + items[0] + "\""] + Quoted(items[1..])
  }

  /** A plain element survives the per-piece cleaning unchanged. */
  lemma CleanPieceOfPlain(x: string)
    requires PlainElement(x)
    ensures CleanPiece(x) == x
  {
    assert Text.Avoids(x, {'\''});
    Text.RemoveCharsAbsent(x, {'\''});
    Text.TrimOfTrimmed(x);
  }

  lemma CleanPiecesOfPlain(items: seq<string>)
    requires AllPlain(items)
    ensures CleanPieces(items) == items
  {
    var cleaned := CleanPieces(items);
    forall k | 0 <= k < |items| ensures cleaned[k] == items[k] {
      CleanPieceOfPlain(items[k]);
    }
  }

  /** A join of plain elements starts with the first element's first character. */
  lemma JoinStarts(items: seq<string>)
    requires items != [] && items[0] != []
    ensures Text.Join(items, ",") != [] && Text.Join(items, ",")[0] == items[0][0]
  {
    if |items| > 1 {
      assert Text.Join(items, ",") == items[0] + "," + Text.Join(items[1..], ",");
    }
  }

  /** A join ends with the last element's last character. */
  lemma {:induction false} JoinFinishes(items: seq<string>)
    requires items != [] && items[|items| - 1] != []
    ensures var j := Text.Join(items, ",");
      j != [] && j[|j| - 1] == items[|items| - 1][|items[|items| - 1]| - 1]
  {
    if |items| > 1 {
      JoinFinishes(items[1..]);
      assert Text.Join(items, ",") == items[0] + "," + Text.Join(items[1..], ",");
    }
  }

  /** Plain elements joined by commas have no brackets to strip and read back as themselves. */
  lemma JoinedReadsBack(items: seq<string>)
    requires items != [] && AllPlain(items)
    ensures StripBrackets(Text.Join(items, ",")) == Text.Join(items, ",")
    ensures NonEmpty(CleanPieces(Text.Split(Text.Join(items, ","), ','))) == items
  {
    var j := Text.Join(items, ",");
    assert PlainElement(items[0]) && PlainElement(items[|items| - 1]);
    JoinStarts(items);
    JoinFinishes(items);
    assert j[0] in NotInPlain ==> false;
    assert StripBrackets(j) == j;
    forall k | 0 <= k < |items| ensures ',' !in items[k] {
      assert PlainElement(items[k]);
    }
    Text.SplitJoin(items, ',');
    CleanPiecesOfPlain(items);
    Lists.FilterKeepingAll(items, (x: string) => x != "");
  }

  /** Removing braces and double quotes from the joined quoted elements leaves the plain join. */
  lemma {:induction false} UnquoteJoin(items: seq<string>)
    requires forall k :: 0 <= k < |items| ==> Text.Avoids(items[k], BraceChars)
    ensures Text.RemoveChars(Text.Join(Quoted(items), ","), BraceChars) == Text.Join(items, ",")
  {
    if items != [] {
      var q := "\"" + items[0] + "\"";
      Text.RemoveCharsConcat("\"" + items[0], "\"", BraceChars);
      Text.RemoveCharsConcat("\"", items[0], BraceChars);
      Text.RemoveCharsAbsent(items[0], BraceChars);
      assert Text.RemoveChars("\"", BraceChars) == "";
      assert Text.RemoveChars(q, BraceChars) == items[0];
      if |items| > 1 {
        UnquoteJoin(items[1..]);
        assert Quoted(items)[1..] == Quoted(items[1..]);
        var rest := Text.Join(Quoted(items[1..]), ",");
        Text.RemoveCharsConcat(q + ",", rest, BraceChars);
        Text.RemoveCharsConcat(q, ",", BraceChars);
        assert Text.RemoveChars(",", BraceChars) == ",";
      }
    }
  }

  /** Plain elements carry none of the characters the first `replace` removes. */
  lemma PlainAvoidsBraces(items: seq<string>)
    requires AllPlain(items)
    ensures forall k :: 0 <= k < |items| ==> Text.Avoids(items[k], BraceChars)
  {
    forall k | 0 <= k < |items| ensures Text.Avoids(items[k], BraceChars) {
      assert PlainElement(items[k]);
    }
  }

  /** The brace-delimited list text `{"a","b"}` reads back as the list of its elements. */
  lemma QuotedBraceListReadsBack(items: seq<string>)
    requires items != [] && AllPlain(items)
    ensures CleanAndParseArray(ProductSlice.Str("{" + Text.Join(Quoted(items), ",") + "}")) == items
  {
    var inner := Text.Join(Quoted(items), ",");
    PlainAvoidsBraces(items);
    UnquoteJoin(items);
    Text.RemoveCharsConcat("{", inner, BraceChars);
    Text.RemoveCharsConcat("{" + inner, "}", BraceChars);
    assert Text.RemoveChars("{", BraceChars) == "";
    assert Text.RemoveChars("}", BraceChars) == "";
    assert Text.RemoveChars("{" + inner + "}", BraceChars) == Text.Join(items, ",");
    JoinedReadsBack(items);
    CleanOfText("{" + inner + "}");
  }

  /** The bracketed list text `["a","b"]` reads back as the list of its elements. */
  lemma QuotedBracketListReadsBack(items: seq<string>)
    requires items != [] && AllPlain(items)
    ensures CleanAndParseArray(ProductSlice.Str("[" + Text.Join(Quoted(items), ",") + "]")) == items
  {
    var inner := Text.Join(Quoted(items), ",");
    var plain := Text.Join(items, ",");
    var text := "[" + inner + "]";
    assert StripBrackets(Text.RemoveChars(text, BraceChars)) == plain by {
      PlainAvoidsBraces(items);
      UnquoteJoin(items);
      RemoveBracesKeepsBrackets(inner);
      StripWrapped(plain);
    }
    CleanOfText(text);
    JoinedReadsBack(items);
  }

  lemma RemoveBracesKeepsBrackets(inner: string)
    ensures Text.RemoveChars("[" + inner + "]", BraceChars) == "[" + Text.RemoveChars(inner, BraceChars) + "]"
  {
    Text.RemoveCharsConcat("[", inner, BraceChars);
    Text.RemoveCharsConcat("[" + inner, "]", BraceChars);
    assert Text.RemoveChars("[", BraceChars) == "[";
    assert Text.RemoveChars("]", BraceChars) == "]";
  }

  lemma CleanOfText(s: string)
    requires s != ""
    ensures CleanAndParseArray(ProductSlice.Str(s)) ==
      NonEmpty(CleanPieces(Text.Split(StripBrackets(Text.RemoveChars(s, BraceChars)), ',')))
  {
  }

  lemma StripWrapped(x: string)
    ensures StripBrackets("[" + x + "]") == x
  {
    var s := "[" + x + "]";
    assert s[1..|s| - 1] == x;
  }

  /** The example the page is written for: `{"a","b"}` becomes `["a", "b"]`. */
  lemma QuotedExample()
    ensures CleanAndParseArray(ProductSlice.Str("{\"a\",\"b\"}")) == ["a", "b"]
  {
    var items := ["a", "b"];
    assert PlainElement("a") && PlainElement("b");
    assert AllPlain(items);
    var q := Quoted(items);
    assert q[0] == "\"" + "a" + "\"" == "\"a\"";
    assert q[1] == "\"" + "b" + "\"" == "\"b\"";
    assert q == ["\"a\"", "\"b\""];
    assert Text.Join(q, ",") == q[0] + "," + Text.Join(q[1..], ",");
    assert q[1..] == ["\"b\""];
    assert "{" + Text.Join(q, ",") + "}" == "{\"a\",\"b\"}";
    QuotedBraceListReadsBack(items);
  }

  /** Related products: those returned for the category other than the product shown (by
      `id`), the first four of them. */
  function Related(returned: seq<ProductSlice.Product>, current: ProductSlice.Product): (r: seq<ProductSlice.Product>)
    ensures |r| <= 4
    ensures forall p :: p in r ==> p in returned && p.id != current.id
  {
    Lists.Take(Lists.Filter(returned, (p: ProductSlice.Product) => p.id != current.id), 4)
  }

  lemma RelatedEffect(returned: seq<ProductSlice.Product>, current: ProductSlice.Product)
    ensures var r := Related(returned, current);
      var others := Lists.Filter(returned, (p: ProductSlice.Product) => p.id != current.id);
      && |r| <= 4
      && (forall p :: p in r ==> p in returned && p.id != current.id)
      && r == others[..|r|]
      && |r| == (if |others| < 4 then |others| else 4)
      && Lists.IsSubsequence(others, returned)
  {
    var others := Lists.Filter(returned, (p: ProductSlice.Product) => p.id != current.id);
    Lists.FilterIsSubsequence(returned, (p: ProductSlice.Product) => p.id != current.id);
    forall p | p in Related(returned, current) ensures p in others {
    }
  }

  /** `addToCart(product)` with the record as fetched: the line keeps `id`, `price` and
      `category`, while `name` and `image` are absent (the record calls them `product_name`
      and `image_url`). A `null` price is recorded as the 0 that `quantity * price` makes of it. */
  function RawCartProduct(p: ProductSlice.Product): (c: CartSlice.CartProduct)
    requires !p.price.Undefined?
    ensures c.id == p.id && Some(c.price) == ProductSlice.ToNumber(p.price) && c.category == p.category
    ensures p.price.Null? ==> c.price == 0
    ensures c.name == None && c.image == None
  {
    CartSlice.CartProduct(p.id, None, ProductSlice.ToNumber(p.price).value, None, p.category)
  }

  /** The outcome of "buy now": what is added to the cart, if anything, and where the page goes. */
  datatype BuyNowOutcome = BuyNowOutcome(added: Option<CartSlice.CartProduct>, target: string)

  function BuyNow(isAuthenticated: bool, p: ProductSlice.Product): (o: BuyNowOutcome)
    requires isAuthenticated ==> !p.price.Undefined?
    ensures !isAuthenticated <==> o.target == "/login"
    ensures !isAuthenticated ==> o.added == None
    ensures isAuthenticated ==> o.added == Some(RawCartProduct(p)) && o.target == "/checkout"
  {
    if !isAuthenticated then BuyNowOutcome(None, "/login")
    else BuyNowOutcome(Some(RawCartProduct(p)), "/checkout")
  }
}
