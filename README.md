# SkinteliCa storefront: a verified model of the client-side logic

SkinteliCa is a React/Redux skincare shop. Its catalogue, orders and accounts live behind a
remote API. The browser client still holds a set of deterministic routines, and this project
models them in Dafny and proves what they promise:

- the Redux stores:
  - the cart (`CartSlice.CartStore`), with its derived `total`/`itemCount` and the persisted copy;
  - the catalogue with its filter record and conjunctive filter predicate (`ProductSlice`);
  - the sign-in session (`AuthSlice`), the orders (`OrderSlice`) and the user list (`UserSlice`);
- the storefront pages:
  - the checkout wizard (`Checkout.CheckoutPage`) with its per-step validation and the order payload;
  - the cart page's quantity guard (`CartPage`);
  - the product list's checkbox toggles, cart record and filter dispatches (`ProductsPage`);
  - the product page's array-text cleaner and "buy now" (`ProductDetail`);
  - the sign-up form (`Register.RegisterPage`);
- the administration pages:
  - the user list filter, counts, badge colours, add-user guard and CSV export (`UserManagement`);
  - the product list search, product form, comma split and submit request (`ProductManagement`);
  - the nested settings update, the stored-appearance merge and the theme class (`Settings`);
  - the dashboard figures and its sales export (`AdminDashboard`);
- the route table with its `ProtectedRoute` guard (`AppRoutes`).

Some modules are shared helpers:

- `Wrappers`: `Option`.
- `Lists`: `filter`, `findIndex`, `slice(0, n)` and counting.
- `Text`: ASCII `toLowerCase`, `trim` over the ECMAScript white-space set, `includes`, `split` and `join`.
- `Numbers`: `parseInt` without a radix, and `toString` of an integer.
- `Csv`: the CSV text both admin exports build.

How the model represents JavaScript:

- `undefined` and `null` are both `None` in most fields, so the model does not tell them apart where the code compares with `===` (see "## Left out").
- A product's `price` and `stock` are a `Number`: a number, `null` or `undefined`. Comparisons and arithmetic see `null` as 0 and `undefined` as `NaN`.
- A `TypeError` thrown while evaluating, such as `.toLowerCase()` of a missing field or `data[0]` of an empty list, is a `None` result.
- Reducers that change `state` in place are methods of classes whose fields are the slice state.
- `localStorage` is a ghost field `stored`.
- Network answers, fresh ids (`uuidv4`) and dates are parameters.

Where the code and its intended behaviour part ways, the model follows the code:

- `updateQuantity` stores any quantity; only the cart page refuses quantities below 1.
- Checkout calls `removeFromCart()` with no argument. That removes only the lines whose `id` is missing; it does not empty the cart.
- Checkout sets `orderPlaced` without waiting for the order request.
- `setFilters` ignores the `productTypes`/`skinTypes` keys the products page sends.
- A sign-up response with no token counts as a success.
- The user filter throws on a user without `full_name` even when the search term is empty.

## Model

| member | source | states |
|---|---|---|
| CartSlice.CartStore.constructor | src/store/slices/cartSlice.js:4-18 | the initial state is the stored cart when storage holds one, else the empty cart with zero totals |
| CartSlice.CartStore.CalculateTotals | src/store/slices/cartSlice.js:83-86 | the lines stay and `itemCount`/`total` become the sum of quantities and of quantity × price |
| CartSlice.CartStore.AddToCart | src/store/slices/cartSlice.js:37-49 | the lines become `AddItem` of the old lines, the totals agree with them, and storage holds the new state |
| CartSlice.CartStore.UpdateQuantity | src/store/slices/cartSlice.js:52-61 | the first line with the id takes the quantity, with no bound; the totals agree; the state is stored |
| CartSlice.CartStore.RemoveFromCart | src/store/slices/cartSlice.js:64-70 | every line with the id goes; the totals agree; the state is stored |
| CartSlice.CartStore.ClearCart | src/store/slices/cartSlice.js:73-78 | empty lines, zero totals, and the stored record is removed rather than overwritten |
| CartSlice.FindIndex | src/store/slices/cartSlice.js:39 | the loop returns the index of the first line whose id is `===` the given one, or -1 |
| CartSlice.Totals | src/store/slices/cartSlice.js:84-85 | the two reduces return the quantity sum and the price sum |
| CartSlice.SumsOfConcat | src/store/slices/cartSlice.js:84-85 | both sums distribute over concatenation |
| CartSlice.SumsOfSingle | src/store/slices/cartSlice.js:84-85 | one line contributes its quantity and its quantity × price |
| CartSlice.SumsOfUpdate | src/store/slices/cartSlice.js:84-85 | replacing one line changes each sum by that line's difference |
| CartSlice.AddItemToExistingLine | src/store/slices/cartSlice.js:39-42 | with a line for the id, that line gains one unit and no line is added |
| CartSlice.AddItemAppendsNewLine | src/store/slices/cartSlice.js:43-45 | without a line for the id, `{...product, quantity: 1}` is appended |
| CartSlice.AddItemSums | src/store/slices/cartSlice.js:37-47 | adding raises `itemCount` by one and `total` by the price of the line that grew |
| CartSlice.AddItemKeepsIdsUnique | src/store/slices/cartSlice.js:39-45 | a cart without duplicate ids keeps none after adding |
| CartSlice.AddTwiceGivesQuantityTwo | src/store/slices/cartSlice.js:39-45 | adding a new product twice gives one line of quantity 2 |
| CartSlice.AddItemKeepsQuantitiesPositive | src/store/slices/cartSlice.js:39-45 | adding keeps every quantity positive |
| CartSlice.SetQuantityEffect | src/store/slices/cartSlice.js:53-57 | exactly the first line with the id changes, to the given quantity; no match leaves the lines as they were |
| CartSlice.SetQuantityKeepsQuantitiesPositive | src/store/slices/cartSlice.js:53-57 | a quantity of at least 1 keeps every quantity positive |
| CartSlice.SetQuantityHasNoLowerBound | src/store/slices/cartSlice.js:53-57 | a matching id with a quantity below 1 leaves a non-positive line |
| CartSlice.RemoveIdEffect | src/store/slices/cartSlice.js:65-66 | a line survives iff its id differs; order is kept; an absent id changes nothing |
| CartSlice.QuantitySum | src/store/slices/cartSlice.js:84 | the `itemCount` reduce; with every quantity positive it is at least the number of lines |
| CartSlice.PriceSum | src/store/slices/cartSlice.js:85 | the `total` reduce; non-negative when no quantity or price is negative |
| CartSlice.AddItem | src/store/slices/cartSlice.js:39-45 | one line more or none; every existing line keeps its id and price; some line then carries the product's id |
| CartSlice.SetQuantity | src/store/slices/cartSlice.js:54-57 | same length; every line is unchanged or is a line with that id whose quantity became the given one |
| CartSlice.RemoveId | src/store/slices/cartSlice.js:65-66 | never longer; a line is kept iff it was there and its id differs |
| ProductSlice.Merge | src/store/slices/productSlice.js:77-86 | each filter field takes the payload value when it is defined and keeps its value otherwise |
| ProductSlice.MergeIdempotent | src/store/slices/productSlice.js:77-86 | merging the same payload twice equals merging it once |
| ProductSlice.MergeFullPatch | src/store/slices/productSlice.js:77-86 | a payload defining every key replaces the whole filter record |
| ProductSlice.SomeThrowsFront | src/store/slices/productSlice.js:99-125 | the predicate throws on some product iff it throws on the first or on one of the rest |
| ProductSlice.FilterProductsMeaning | src/store/slices/productSlice.js:99-127 | the filter throws iff the predicate throws on some product; otherwise it keeps exactly the passing products |
| ProductSlice.FilteredViewIsSelection | src/store/slices/productSlice.js:99-127 | the view is an order-preserving subsequence, and a product is in it iff it is in the list and passes |
| ProductSlice.FilterDoesNotThrow | src/store/slices/productSlice.js:102-105 | an empty keyword, or products that all have a name and a description, never throw |
| ProductSlice.FilterProductsIdempotent | src/store/slices/productSlice.js:99-127 | filtering the filtered view again gives the same view |
| ProductSlice.TagsAreConjunctive | src/store/slices/productSlice.js:108-122 | a passing product carries every selected tag among its product and skin types |
| ProductSlice.VocabulariesDisjoint | src/store/slices/productSlice.js:131-158 | the product-type and skin-type vocabularies share no tag |
| ProductSlice.WithoutKeepsOthers | src/store/slices/productSlice.js:131-158 | dropping one vocabulary keeps the tags of a disjoint one, in order |
| ProductSlice.SelectionParts | src/store/slices/productSlice.js:131-158 | how a selection and the tags outside its vocabulary split by vocabulary |
| ProductSlice.ProductTypeTagsEffect | src/store/slices/productSlice.js:131-144 | the new tags' product types are exactly the selection, the other tags stay, the skin types stay |
| ProductSlice.SkinTypeTagsEffect | src/store/slices/productSlice.js:145-158 | the new tags' skin types are exactly the selection, the other tags stay, the product types stay |
| ProductSlice.RemoveSerialEffect | src/store/slices/productSlice.js:54-59 | a product survives iff its serial id differs; order is kept; an absent id changes nothing |
| ProductSlice.ProductTags | src/store/slices/productSlice.js:108-119 | a tag belongs to the product iff it is one of its product-type or skin-type values |
| ProductSlice.PriceMatches | src/store/slices/productSlice.js:100 | the price test: the converted price lies in the range, ends included; `null` compares as 0 and `undefined` fails (no contract; used by `Matches`) |
| ProductSlice.NullPricePassesRangesWithZero | src/store/slices/productSlice.js:100 | a `null`-price product with no keyword and no tags passes exactly the ranges holding 0, the initial range among them |
| ProductSlice.UndefinedPriceNeverPasses | src/store/slices/productSlice.js:100 | a product without a price fails every range |
| ProductSlice.KeywordMatch | src/store/slices/productSlice.js:102-105 | an empty keyword matches; a product with name and description never throws; a missing name with a keyword throws; a match means the name or the description contains the keyword |
| ProductSlice.TagsMatch | src/store/slices/productSlice.js:120-122 | the tag test: no tags, or every tag among the product's tags (no contract; `TagsAreConjunctive` states it) |
| ProductSlice.Matches | src/store/slices/productSlice.js:99-125 | throws iff the keyword test throws; passes iff the keyword, price and tag tests all pass |
| ProductSlice.FilterProducts | src/store/slices/productSlice.js:99-125 | a result lists only products of the list that pass; no result means the predicate throws on some product |
| ProductSlice.ProductTypeTags | src/store/slices/productSlice.js:133-136 | a tag is in the new list iff it was selected or was an old tag outside the product-type vocabulary |
| ProductSlice.SkinTypeTags | src/store/slices/productSlice.js:146-149 | a tag is in the new list iff it was selected or was an old tag outside the skin-type vocabulary |
| ProductSlice.RemoveSerial | src/store/slices/productSlice.js:55-57 | never longer; every product kept was listed and has another serial id |
| ProductSlice.ProductStore.constructor | src/store/slices/productSlice.js:4-21 | empty lists, no selection, the initial filters, not loading |
| ProductSlice.ProductStore.SetProducts | src/store/slices/productSlice.js:28-32 | list and view become the payload, loading ends, filters are untouched |
| ProductSlice.ProductStore.SetLoading | src/store/slices/productSlice.js:34-36 | `loading` takes the payload |
| ProductSlice.ProductStore.SetSelectedProduct | src/store/slices/productSlice.js:61-63 | the selection takes the payload |
| ProductSlice.ProductStore.AddProduct | src/store/slices/productSlice.js:38-42 | the payload with a fresh id is appended and the view shows every product |
| ProductSlice.ProductStore.UpdateProduct | src/store/slices/productSlice.js:44-52 | the first product with the serial id is replaced and the view reset; no match changes nothing |
| ProductSlice.ProductStore.DeleteProduct | src/store/slices/productSlice.js:54-59 | every product with the serial id goes and the view shows the rest |
| ProductSlice.ProductStore.SetFilters | src/store/slices/productSlice.js:65-128 | when no product throws, the filters become the merge and the view their filtered list; otherwise the state stays as it was |
| ProductSlice.ProductStore.FilterByProductType | src/store/slices/productSlice.js:131-144 | `setFilters` with the tags replaced by the product-type selection: when no product throws, the filters and the view change together; otherwise the state stays as it was |
| ProductSlice.ProductStore.FilterBySkinType | src/store/slices/productSlice.js:145-158 | `setFilters` with the tags replaced by the skin-type selection: when no product throws, the filters and the view change together; otherwise the state stays as it was |
| ProductSlice.ProductStore.SearchProducts | src/store/slices/productSlice.js:159-200 | when no product throws, only the search term changes and the view is the same predicate's filtered list; otherwise the state stays as it was |
| ProductSlice.SearchIsSetFiltersOnSearchTerm | src/store/slices/productSlice.js:159-200 | `searchProducts(t)` leaves the filters `setFilters({searchTerm: t})` leaves |
| ProductSlice.SetFiltersIdempotent | src/store/slices/productSlice.js:65-128 | running `setFilters` twice with one payload leaves what running it once leaves |
| AuthSlice.OrNull | src/store/slices/authSlice.js:8 | `value \|\| null`: present iff the value is a non-empty string |
| AuthSlice.InitialSession | src/store/slices/authSlice.js:4-13 | user is the stored one, signed in iff stored, admin iff the stored role is 'admin', token only when non-empty |
| AuthSlice.InitialAdminIsAuthenticated | src/store/slices/authSlice.js:9-10 | an initial administrator is always signed in |
| AuthSlice.AuthStore.constructor | src/store/slices/authSlice.js:4-13 | the store starts in the initial session with no loading and no error |
| AuthSlice.AuthStore.LoginStart | src/store/slices/authSlice.js:19-22 | loading starts and the error is cleared |
| AuthSlice.AuthStore.LoginSuccess | src/store/slices/authSlice.js:23-34 | user, token, signed in, admin iff role 'admin', and the user is stored |
| AuthSlice.AuthStore.LoginFailure | src/store/slices/authSlice.js:35-38 | loading ends and the error is the payload |
| AuthSlice.AuthStore.Logout | src/store/slices/authSlice.js:39-49 | every session field is cleared and the stored user removed |
| AuthSlice.AuthStore.ClearError | src/store/slices/authSlice.js:50-52 | the error is cleared |
| OrderSlice.RemoveOrderEffect | src/store/slices/orderSlice.js:98 | an order survives iff its `order_id` differs; order is kept; an absent id changes nothing |
| OrderSlice.RemoveOrder | src/store/slices/orderSlice.js:98 | never longer; every order kept was listed and has another `order_id` |
| OrderSlice.OrderStore.constructor | src/store/slices/orderSlice.js:48-53 | no orders, no current order, not loading, no error |
| OrderSlice.OrderStore.ClearCurrentOrder | src/store/slices/orderSlice.js:55-57 | the current order is cleared |
| OrderSlice.OrderStore.Pending | src/store/slices/orderSlice.js:63-66 | loading starts and the error is cleared |
| OrderSlice.OrderStore.Rejected | src/store/slices/orderSlice.js:71-74 | loading ends and the error is the payload |
| OrderSlice.OrderStore.FetchFulfilled | src/store/slices/orderSlice.js:67-70 | the list becomes the payload |
| OrderSlice.OrderStore.CreateFulfilled | src/store/slices/orderSlice.js:81-85 | the order is appended and becomes the current order |
| OrderSlice.OrderStore.DeleteFulfilled | src/store/slices/orderSlice.js:96-99 | every order with the response's `order_id` goes |
| UserSlice.ReplaceUserEffect | src/store/slices/userSlice.js:56-59 | length kept, only the first user with the id becomes the payload, no match changes nothing |
| UserSlice.SetStatusEffect | src/store/slices/userSlice.js:60-63 | only the status of the first user with the id changes; ids and length are kept |
| UserSlice.RemoveUserEffect | src/store/slices/userSlice.js:64-66 | a user survives iff the id differs; order is kept; an absent id changes nothing |
| UserSlice.ReplaceUser | src/store/slices/userSlice.js:56-59 | same length; each user is unchanged or, where its id is the payload's, the payload |
| UserSlice.SetStatus | src/store/slices/userSlice.js:60-63 | same length; each user is unchanged or a user with that id whose status became the new one |
| UserSlice.RemoveUser | src/store/slices/userSlice.js:64-66 | never longer; every user kept was listed and has another id |
| UserSlice.UserStore.constructor | src/store/slices/userSlice.js:32-38 | no users, not loading, no error |
| UserSlice.UserStore.GetUsersPending | src/store/slices/userSlice.js:42-44 | loading starts and an earlier error stays |
| UserSlice.UserStore.GetUsersFulfilled | src/store/slices/userSlice.js:45-48 | loading ends and the list is the payload |
| UserSlice.UserStore.GetUsersRejected | src/store/slices/userSlice.js:49-52 | loading ends and the error is the failure's message |
| UserSlice.UserStore.AddUserFulfilled | src/store/slices/userSlice.js:53-55 | the user is appended |
| UserSlice.UserStore.UpdateUserFulfilled | src/store/slices/userSlice.js:56-59 | the list becomes `ReplaceUser` of the old list |
| UserSlice.UserStore.UpdateStatusFulfilled | src/store/slices/userSlice.js:60-63 | the list becomes `SetStatus` of the old list |
| UserSlice.UserStore.DeleteUserFulfilled | src/store/slices/userSlice.js:64-66 | the list becomes `RemoveUser` of the old list |
| Checkout.CompleteByCases | src/pages/Checkout.jsx:17-40 | a form with every input name listed is complete |
| Checkout.InitialForm | src/pages/Checkout.jsx:17-40 | name and e-mail from the user or '', country 'India', payment 'card', every other input '' |
| Checkout.RequiredFields | src/pages/Checkout.jsx:60-84 | country, payment method and instructions are never required |
| Checkout.ErrorsOverAdd | src/pages/Checkout.jsx:65-82 | checking one more input adds its message exactly when it is blank after trimming |
| Checkout.StepErrors | src/pages/Checkout.jsx:60-88 | an input has an error iff step `n` requires it and it is blank; each error is that input's message |
| Checkout.StepValidIff | src/pages/Checkout.jsx:86-87 | a step validates iff none of its required inputs is blank |
| Checkout.CountryNeverChecked | src/pages/Checkout.jsx:63-84 | changing the country never changes a step's errors |
| Checkout.OtherPaymentPasses | src/pages/Checkout.jsx:74-84 | a payment method other than card or UPI passes step 2 whatever the form holds |
| Checkout.CheckRequired | src/pages/Checkout.jsx:65-82 | one `if (!x.trim())` line extends the errors by exactly that input |
| Checkout.CollectErrors | src/pages/Checkout.jsx:60-85 | the field-by-field fill yields the step's errors |
| Checkout.PaymentLabel | src/pages/Checkout.jsx:116-118 | card, upi and cod get their labels, and everything else is 'Net Banking' |
| Checkout.BuildOrder | src/pages/Checkout.jsx:102-120 | the payload carries the user id, the contact inputs, the address record, the label, the instructions, the cart and total |
| Checkout.SelectView | src/pages/Checkout.jsx:133-163 | empty-cart view iff the cart is empty and no order is placed; success view iff an order is placed |
| Checkout.PlacedViewWins | src/pages/Checkout.jsx:133-149 | once placed, the success view shows whatever the cart holds |
| Checkout.CheckoutPage.CurrentView | src/pages/Checkout.jsx:133-163 | the success view iff the order is placed; the empty-cart view iff the cart is empty and nothing placed; otherwise the current step |
| Checkout.CheckoutPage.constructor | src/pages/Checkout.jsx:15-42 | step 1, not placed, the initial form, no errors |
| Checkout.CheckoutPage.InputChange | src/pages/Checkout.jsx:44-58 | the input takes the value; a set error of that input is blanked, and other errors stay |
| Checkout.CheckoutPage.ValidateStep | src/pages/Checkout.jsx:60-88 | the errors become the step's errors alone; the result is true iff there are none |
| Checkout.CheckoutPage.NextStep | src/pages/Checkout.jsx:90-94 | the step advances by one exactly when it validates |
| Checkout.CheckoutPage.PreviousStep | src/pages/Checkout.jsx:96-98 | the step goes back by one |
| Checkout.CheckoutPage.PlaceOrder | src/pages/Checkout.jsx:100-131 | if step 2 fails nothing is sent; otherwise the built order is sent, lines without an id leave the cart, and the order is placed |
| CartPage.QuantityChange | src/pages/Cart.jsx:13-16 | nothing is sent iff the quantity is below 1; otherwise `updateQuantity` with that quantity |
| CartPage.MinusEffect | src/pages/Cart.jsx:74 | minus on a line of one does nothing; on a larger line it asks for one less |
| CartPage.PlusEffect | src/pages/Cart.jsx:81 | plus asks for one more |
| CartPage.RemoveItem | src/pages/Cart.jsx:18-20 | removal names exactly that line's id |
| CartPage.GuardKeepsQuantitiesPositive | src/pages/Cart.jsx:13-16 | behind the guard, no quantity change drives a line below 1 |
| CartPage.RemoveKeepsQuantitiesPositive | src/pages/Cart.jsx:18-20 | removing a line keeps the remaining quantities positive |
| CartPage.CheckoutTarget | src/pages/Cart.jsx:22-28 | '/login' iff signed out, '/checkout' iff signed in |
| CartPage.MinusPressed | src/pages/Cart.jsx:74 | what minus sends, if anything, is an update of that line to a smaller quantity of at least 1 |
| CartPage.PlusPressed | src/pages/Cart.jsx:81 | plus always sends, for a non-negative quantity, an update of that line to a larger quantity |
| CartPage.ShowsEmptyCart | src/pages/Cart.jsx:31 | the empty-cart view condition: no lines (no contract) |
| ProductsPage.VocabulariesAgree | src/pages/Products.jsx:27-28 | the page's checkbox vocabularies are the store's |
| ProductsPage.ToggleFlipsMembership | src/pages/Products.jsx:82-88 | the toggled value's membership flips and no other value's changes |
| ProductsPage.ToggleKeepsOthers | src/pages/Products.jsx:82-88 | every other value keeps its place in order |
| ProductsPage.ToggleTwice | src/pages/Products.jsx:82-88 | toggling a value absent from the list twice gives the list back |
| ProductsPage.Toggle | src/pages/Products.jsx:82-88 | the value's membership flips, no other value's does, and an absent value goes at the end |
| ProductsPage.CartProductFor | src/pages/Products.jsx:90-100 | for a product whose price is not missing, the cart record takes `product_id`, name, image, category and the price as arithmetic sees it (0 for `null`) |
| ProductsPage.SameCardTwiceIsOneLine | src/pages/Products.jsx:90-100 | adding one card twice gives one line of quantity 2 |
| ProductsPage.SliderRange | src/pages/Products.jsx:136 | the floor stays 500 and only the ceiling moves |
| ProductsPage.UnifiedPatch | src/pages/Products.jsx:49-58 | the payload defines only price range and search term |
| ProductsPage.UnifiedPatchIgnoresSelections | src/pages/Products.jsx:54-55 | the type selections make no difference to the unified payload |
| ProductsPage.PricePatch | src/pages/Products.jsx:78-80 | the payload defines only the price range |
| ProductsPage.RunFilterEffects | src/pages/Products.jsx:49-80 | after the five dispatches, the filters hold the range, the term and the merged tags, and the view is their filter |
| ProductsPage.EffectsSelectTags | src/pages/Products.jsx:63-75 | after the dispatches the tags hold exactly the selected product types and skin types |
| ProductDetail.StripBrackets | src/pages/ProductDetail.jsx:25 | the text is the result with '[' put back in front iff it began with '[' and ']' put back at the end iff it ended with a ']' other than that first character |
| ProductDetail.CleanPieces | src/pages/ProductDetail.jsx:27 | each piece has its single quotes removed and is trimmed |
| ProductDetail.NonStringGivesNothing | src/pages/ProductDetail.jsx:21 | an absent, non-string or empty input gives the empty list |
| ProductDetail.CleanedElements | src/pages/ProductDetail.jsx:20-34 | every element is non-empty, trimmed, and free of braces, quotes, backslashes and commas |
| ProductDetail.Quoted | src/pages/ProductDetail.jsx:20-34 | each element wrapped in double quotes |
| ProductDetail.CleanPieceOfPlain | src/pages/ProductDetail.jsx:27 | a plain element survives cleaning unchanged |
| ProductDetail.CleanPiecesOfPlain | src/pages/ProductDetail.jsx:27 | plain elements survive cleaning unchanged |
| ProductDetail.JoinStarts | src/pages/ProductDetail.jsx:25 | a join begins with the first element's first character |
| ProductDetail.JoinFinishes | src/pages/ProductDetail.jsx:25 | a join ends with the last element's last character |
| ProductDetail.JoinedReadsBack | src/pages/ProductDetail.jsx:25-28 | plain elements joined by ',' have no brackets to strip and read back as themselves |
| ProductDetail.UnquoteJoin | src/pages/ProductDetail.jsx:24 | removing braces and double quotes from the quoted join leaves the plain join |
| ProductDetail.PlainAvoidsBraces | src/pages/ProductDetail.jsx:24 | plain elements hold none of the removed characters |
| ProductDetail.QuotedBraceListReadsBack | src/pages/ProductDetail.jsx:20-34 | `{"a","b"}` text reads back as its elements |
| ProductDetail.QuotedBracketListReadsBack | src/pages/ProductDetail.jsx:20-34 | `["a","b"]` text reads back as its elements |
| ProductDetail.RemoveBracesKeepsBrackets | src/pages/ProductDetail.jsx:24 | the first replace keeps square brackets |
| ProductDetail.CleanOfText | src/pages/ProductDetail.jsx:23-28 | a non-empty string goes through the replace, split, map and filter chain |
| ProductDetail.StripWrapped | src/pages/ProductDetail.jsx:25 | a bracketed text loses exactly its brackets |
| ProductDetail.QuotedExample | src/pages/ProductDetail.jsx:20-34 | `{"a","b"}` becomes `["a", "b"]` |
| ProductDetail.RelatedEffect | src/pages/ProductDetail.jsx:95-97 | at most four related products, each returned and not the shown one by `id`, in order |
| ProductDetail.CleanPiece | src/pages/ProductDetail.jsx:27 | the cleaned piece is its own trim, holds no single quote, and holds only characters of the piece |
| ProductDetail.CleanAndParseArray | src/pages/ProductDetail.jsx:20-34 | anything but a non-empty string gives []; no element is empty |
| ProductDetail.Related | src/pages/ProductDetail.jsx:95-97 | at most four products, each returned for the category and with an id other than the shown product's |
| ProductDetail.RawCartProduct | src/pages/ProductDetail.jsx:107-116 | for a product whose price is not missing, the record added as fetched keeps `id`, category and the price as arithmetic sees it (0 for `null`) and has no `name`/`image` |
| ProductDetail.BuyNow | src/pages/ProductDetail.jsx:111-118 | signed out, for every product: nothing added and '/login'; signed in: the product is added and '/checkout' |
| Register.CompleteByCases | src/pages/Auth/Register.jsx:15-21 | a form with every input listed is complete |
| Register.EmptyForm | src/pages/Auth/Register.jsx:15-21 | every input starts as '' |
| Register.PlainAddressMatches | src/pages/Auth/Register.jsx:39-40 | `local@domain.suffix` with non-blank parts is accepted |
| Register.EmailShapeNeedsAtAndDot | src/pages/Auth/Register.jsx:39-40 | an accepted address has an '@' before a '.' |
| Register.EmailShapeUnanchored | src/pages/Auth/Register.jsx:39-40 | the unanchored test accepts any text around an accepted address |
| Register.ErrorsOverAdd | src/pages/Auth/Register.jsx:36-44 | checking one more input adds its message exactly when it fails |
| Register.Record | src/pages/Auth/Register.jsx:36-44 | one `if` line extends the errors by exactly that input's message |
| Register.FormValidIff | src/pages/Auth/Register.jsx:34-48 | the form validates iff the name is non-blank, the phone is ten digits, the e-mail is shaped, the password has at least six characters and the confirmation matches |
| Register.PasswordChecksIndependent | src/pages/Auth/Register.jsx:41-44 | an empty password gets its message, and the confirmation error is set iff the two differ |
| Register.PasswordIsNotTrimmed | src/pages/Auth/Register.jsx:41-42 | a password of six spaces passes: it is not trimmed |
| Register.MissingTokenSucceeds | src/pages/Auth/Register.jsx:63 | a success message with no token succeeds; an empty token or no response does not |
| Register.TenDigits | src/pages/Auth/Register.jsx:38 | `/^\d{10}$/`: exactly ten decimal digits (no contract) |
| Register.EmailShape | src/pages/Auth/Register.jsx:40 | `/\S+@\S+\.\S+/` unanchored (no contract; `PlainAddressMatches` and `EmailShapeNeedsAtAndDot` state it) |
| Register.FieldError | src/pages/Auth/Register.jsx:36-44 | a blank name, phone or e-mail has a message; a phone or e-mail without one has the right shape; a password without one has at least 6 characters; the confirmation has none iff it equals the password |
| Register.FormErrors | src/pages/Auth/Register.jsx:34-46 | a field is in the error map iff its test fails, with that test's message |
| Register.Succeeded | src/pages/Auth/Register.jsx:63 | the success test: the expected message and a token other than '' (no contract; `MissingTokenSucceeds` states it) |
| Register.RegisterPage.constructor | src/pages/Auth/Register.jsx:15-25 | the empty form and no errors |
| Register.RegisterPage.Change | src/pages/Auth/Register.jsx:27-32 | the input takes the value; a set error of that input is blanked |
| Register.RegisterPage.ValidateForm | src/pages/Auth/Register.jsx:34-48 | the errors become the form's errors; the result is true iff there are none |
| Register.RegisterPage.Submit | src/pages/Auth/Register.jsx:50-58 | the user data is sent iff the form validates, with name, e-mail, phone and password |
| Register.RegisterPage.Answered | src/pages/Auth/Register.jsx:63-88 | on success the form and errors reset and the target is '/login'; otherwise nothing changes |
| UserManagement.SomeThrowsFront | src/pages/Admin/UserManagement.jsx:20-32 | the filter throws on some user iff on the first or on one of the rest |
| UserManagement.FilterUsersMeaning | src/pages/Admin/UserManagement.jsx:20-32 | the list throws iff some user makes the predicate throw; otherwise it keeps exactly the passing users |
| UserManagement.FilteredUsersAreSelection | src/pages/Admin/UserManagement.jsx:20-32 | the view is an order-preserving selection, and a user is in it iff it is listed and matches term, role and status |
| UserManagement.EmptyTermShowsAll | src/pages/Admin/UserManagement.jsx:20-32 | with the default filters every named user is shown |
| UserManagement.MissingNameThrows | src/pages/Admin/UserManagement.jsx:21-23 | one user without `full_name` makes the list throw, whatever the filters |
| UserManagement.BadgeColors | src/pages/Admin/UserManagement.jsx:34-49 | grey iff the status or role is unrecognised; distinct colours for distinct statuses |
| UserManagement.CountsAreCounts | src/pages/Admin/UserManagement.jsx:138-147 | the Admins and Active cards count matching users one by one, at most the list length |
| UserManagement.EmptyTermMatches | src/pages/Admin/UserManagement.jsx:21-23 | a named user matches the empty term |
| UserManagement.EmptyTermSelects | src/pages/Admin/UserManagement.jsx:20-32 | with an empty term and named users the list is the role-and-status selection |
| UserManagement.ActiveCountIsStatusFilter | src/pages/Admin/UserManagement.jsx:27-29 | the Active card counts what the status filter 'true' shows |
| UserManagement.AdminCountIsRoleFilter | src/pages/Admin/UserManagement.jsx:25 | the Admins card counts what the role filter 'admin' shows |
| UserManagement.SameFilter | src/pages/Admin/UserManagement.jsx:20-32 | two tests agreeing on every user select the same users |
| UserManagement.AddUserRequest | src/pages/Admin/UserManagement.jsx:68-78 | a request iff name, e-mail and role are non-empty; status 'active'; phone null when empty |
| UserManagement.ExportRow | src/pages/Admin/UserManagement.jsx:81-90 | the eight keys in order, 'N/A' for a missing phone and 'Never' for a missing last login |
| UserManagement.ExportRows | src/pages/Admin/UserManagement.jsx:81-90 | one record per shown user |
| UserManagement.ExportFails | src/pages/Admin/UserManagement.jsx:80-94 | the export fails iff the filter throws or shows no one |
| UserManagement.SearchMatch | src/pages/Admin/UserManagement.jsx:21-23 | a missing `full_name` throws; name and e-mail present never throw; a match means the name or the e-mail contains the term |
| UserManagement.FilterUsers | src/pages/Admin/UserManagement.jsx:20-32 | a result lists only users of the list that pass; no result means the test throws on some user |
| UserManagement.StatusColor | src/pages/Admin/UserManagement.jsx:34-41 | grey iff the status is not active, inactive or suspended; the table passes the boolean `is_active`, so its badge is always grey |
| UserManagement.RoleColor | src/pages/Admin/UserManagement.jsx:43-49 | grey iff the role is not admin or user |
| UserManagement.AdminCount | src/pages/Admin/UserManagement.jsx:138-147 | the number of users whose role is 'admin' |
| UserManagement.ActiveCount | src/pages/Admin/UserManagement.jsx:138-147 | the number of users whose `is_active` is true |
| UserManagement.ExportContent | src/pages/Admin/UserManagement.jsx:80-94 | some content iff the filter does not throw and shows someone; the content starts with the data-URI prefix |
| UserManagement.ExportHeader | src/pages/Admin/UserManagement.jsx:92-94 | the content begins with the prefix and the header line of the eight keys |
| UserManagement.ExportStartsWithHeader | src/pages/Admin/UserManagement.jsx:80-94 | every successful export begins with that header line |
| ProductManagement.FilterCatalogueMeaning | src/pages/Admin/ProductManagement.jsx:39-43 | the search keeps, in order, exactly the products whose name or category contains the term |
| ProductManagement.SearchHit | src/pages/Admin/ProductManagement.jsx:40-42 | the search test: the lower-cased name or category, '' when missing, contains the term (no contract) |
| ProductManagement.FilterCatalogue | src/pages/Admin/ProductManagement.jsx:39-43 | never longer; a product is kept iff it is listed and the search test holds |
| ProductManagement.EmptyTermKeepsAll | src/pages/Admin/ProductManagement.jsx:39-43 | the empty term keeps every product |
| ProductManagement.MissingFieldsHitOnlyEmpty | src/pages/Admin/ProductManagement.jsx:39-43 | a product with neither name nor category matches only the empty term |
| ProductManagement.InputChange | src/pages/Admin/ProductManagement.jsx:44-49 | the input takes the value and every other input stays |
| ProductManagement.NumberText | src/pages/Admin/ProductManagement.jsx:80 | a number becomes text that `parseInt` reads back, a missing one '', and `null` throws on `toString` |
| ProductManagement.EditForm | src/pages/Admin/ProductManagement.jsx:78-87 | throws iff the price or the stock is `null`; otherwise each input is the product's field or its default: category 'Japanese', numbers as text, features as sent |
| ProductManagement.Reset | src/pages/Admin/ProductManagement.jsx:104-117 | the initial form, not editing, modal closed |
| ProductManagement.Edit | src/pages/Admin/ProductManagement.jsx:75-89 | editing that product; with the product's form and the modal open, or, when building the form throws, the old form and modal |
| ProductManagement.SplitTrim | src/pages/Admin/ProductManagement.jsx:59-60 | one trimmed piece per comma-separated piece |
| ProductManagement.TrimAll | src/pages/Admin/ProductManagement.jsx:59-60 | each piece trimmed |
| ProductManagement.SplitTrimShape | src/pages/Admin/ProductManagement.jsx:59-60 | commas + 1 pieces, each trimmed and free of commas |
| ProductManagement.TrimKeepsOut | src/pages/Admin/ProductManagement.jsx:59-60 | trimming adds no character |
| ProductManagement.EmptyPiecesKept | src/pages/Admin/ProductManagement.jsx:59-60 | empty pieces are kept: "a, ,b" gives three pieces and "" gives one |
| ProductManagement.SplitExample | src/pages/Admin/ProductManagement.jsx:59 | "a, ,b" splits on ',' into "a", " " and "b" |
| ProductManagement.SplitTrimOfJoin | src/pages/Admin/ProductManagement.jsx:59-60 | trimmed comma-free items joined by ',' split back to themselves |
| ProductManagement.Payload | src/pages/Admin/ProductManagement.jsx:54-63 | it fails iff a list input is not a string; otherwise the lists are split and trimmed and price/stock go through `parseInt` |
| ProductManagement.Submit | src/pages/Admin/ProductManagement.jsx:51-73 | a PUT to the edited serial id when editing, a POST otherwise, carrying the payload; the page is reset when the request succeeds and left as it was when it is rejected |
| ProductManagement.EditSubmitRoundTrip | src/pages/Admin/ProductManagement.jsx:51-89 | editing a complete product and submitting at once sends its own fields back |
| ProductManagement.MissingFeaturesBlockSubmit | src/pages/Admin/ProductManagement.jsx:59-60 | a product without `features` (and without a `null` number) cannot be resubmitted: the split throws |
| ProductManagement.NullNumberEditUpdatesWithOldForm | src/pages/Admin/ProductManagement.jsx:51-89 | after editing a product with a `null` price or stock, the submit sends the form that was already there as a PUT to that product |
| AppRoutes.Protect | src/App.jsx:31-49 | signed out to '/login', a signed-in non-admin on an admin route to '/', otherwise the children |
| AppRoutes.Route | src/App.jsx:57-88 | admin pages need the admin guard and only the checkout needs sign-in |
| AppRoutes.Visit | src/App.jsx:31-88 | blank iff no route matches; a shown page is the routed one, and an admin page shows only to a signed-in admin, the checkout only when signed in; a redirect goes to /login iff signed out |
| AppRoutes.AdminPagesNeedAdmin | src/App.jsx:40-46 | an admin page shows iff signed in as admin; otherwise it redirects to '/login' or '/' |
| AppRoutes.CheckoutNeedsSignIn | src/App.jsx:81-85 | the checkout shows iff signed in, else '/login' |
| AppRoutes.OpenPagesAreShown | src/App.jsx:76-88 | every other page shows to everyone |
| AppRoutes.AdminSeesEverything | src/App.jsx:31-49 | a signed-in admin sees every routed page |
| AppRoutes.Addresses | src/App.jsx:57-88 | the table's addresses select their pages and guards |
| Settings.SettingChange | src/pages/Admin/Settings.jsx:51-59 | the one key of the one category takes the value (the same for `updateSetting`, lines 104-112) |
| Settings.SettingChangeFrame | src/pages/Admin/Settings.jsx:51-59 | every other key and every other category keeps its value |
| Settings.SettingChangesCommute | src/pages/Admin/Settings.jsx:104-112 | changes to different keys commute |
| Settings.SettingChangeOverrides | src/pages/Admin/Settings.jsx:104-112 | a later change of one key overrides an earlier one |
| Settings.MergeStoredAppearanceEffect | src/pages/Admin/Settings.jsx:115-131 | nothing changes without a truthy stored value; it fails iff one is truthy, another is not, and there is no appearance category; each key takes the stored value or keeps its own (an absent category counting as empty) |
| Settings.MergeStoredAppearanceIdempotent | src/pages/Admin/Settings.jsx:115-131 | merging again with the same stored values changes nothing |
| Settings.ThemeClass | src/pages/Admin/Settings.jsx:87-91 | 'auto' follows the preferred scheme; any other theme is its own class |
| Settings.ApplyThemeEffect | src/pages/Admin/Settings.jsx:76-93 | for light, dark and auto the root ends with exactly the chosen one of 'light'/'dark' and keeps other classes |
| Settings.ApplyThemeIdempotent | src/pages/Admin/Settings.jsx:76-93 | applying twice equals applying once |
| Settings.StoredAppearanceWithoutCategory | src/pages/Admin/Settings.jsx:120-128 | with all three values stored and no appearance category, the category is built from the three values and nothing throws |
| Settings.MergeStoredAppearance | src/pages/Admin/Settings.jsx:115-131 | throws iff some stored value is truthy, another is not, and there is no appearance category; with something stored the result has an appearance category, and every other category keeps its value |
| Settings.ApplyTheme | src/pages/Admin/Settings.jsx:76-93 | at most the chosen one of 'light'/'dark' remains, every unrelated class is kept, and a successful add leaves the chosen class |
| AdminDashboard.Revenue | src/pages/Admin/AdminDashboard.jsx:34 | sales added from the left; non-negative for non-negative sales |
| AdminDashboard.RevenueConcat | src/pages/Admin/AdminDashboard.jsx:34 | the total of two runs of months is the sum of their totals |
| AdminDashboard.RevenueSingle | src/pages/Admin/AdminDashboard.jsx:34 | one month totals its sales |
| AdminDashboard.SampleRevenue | src/pages/Admin/AdminDashboard.jsx:12-19 | the revenue card shows 328000 for the sample data |
| AdminDashboard.TotalUsersCounts | src/pages/Admin/AdminDashboard.jsx:36 | the card counts users with role exactly 'user'; with the admins it never exceeds the list |
| AdminDashboard.RolesExclude | src/pages/Admin/AdminDashboard.jsx:36 | no user is counted as both customer and admin |
| AdminDashboard.RecentOrdersShape | src/pages/Admin/AdminDashboard.jsx:39 | the first min(5, n) orders in order; once there are five, a new order never reaches the list |
| AdminDashboard.OrderStatusColors | src/pages/Admin/AdminDashboard.jsx:41-48 | grey iff the status is not one of the four, and distinct colours for distinct statuses |
| AdminDashboard.SalesRow | src/pages/Admin/AdminDashboard.jsx:61-64 | keys month, sales, orders, with the numbers written as `toString` writes them |
| AdminDashboard.SalesRows | src/pages/Admin/AdminDashboard.jsx:61-64 | one record per month |
| AdminDashboard.IntTextIsPlain | src/pages/Admin/AdminDashboard.jsx:61-64 | a written integer holds no ',' or newline |
| AdminDashboard.SalesRowPlain | src/pages/Admin/AdminDashboard.jsx:61-64 | a month whose name has no ',' or newline is a plain record |
| AdminDashboard.SalesRowsPlain | src/pages/Admin/AdminDashboard.jsx:61-64 | such months make plain records |
| AdminDashboard.HeaderText | src/pages/Admin/AdminDashboard.jsx:62-63 | the header line is "month,sales,orders" |
| AdminDashboard.ExportSalesReadsBack | src/pages/Admin/AdminDashboard.jsx:61-64 | the export splits into the header and one line per month, and each line's fields give back the month, sales and orders |
| AdminDashboard.TotalUsers | src/pages/Admin/AdminDashboard.jsx:36 | the number of users whose role is 'user' |
| AdminDashboard.RecentOrders | src/pages/Admin/AdminDashboard.jsx:39 | at most five orders, a prefix of the list, five whenever there are five, all of them otherwise |
| AdminDashboard.OrderStatusColor | src/pages/Admin/AdminDashboard.jsx:41-48 | grey iff the status is not delivered, shipped, processing or pending |
| AdminDashboard.ExportSales | src/pages/Admin/AdminDashboard.jsx:61-64 | no content iff there are no months; the content starts with the data-URI prefix |
| Csv.Keys | src/pages/Admin/AdminDashboard.jsx:63 | `Object.keys`: the keys in order |
| Csv.Values | src/pages/Admin/AdminDashboard.jsx:64 | `Object.values`: the values in order |
| Csv.Lines | src/pages/Admin/AdminDashboard.jsx:64 | one line per record, its values joined by ',' |
| Csv.Content | src/pages/Admin/AdminDashboard.jsx:62-64 | fails iff there are no records, and otherwise begins with the data-URI prefix |
| Csv.JoinAvoids | src/pages/Admin/UserManagement.jsx:92-94 | joining never introduces a character that neither the parts nor the separator hold |
| Csv.LinesReadBack | src/pages/Admin/UserManagement.jsx:92-94 | a plain record's line splits on ',' into its values |
| Csv.HeaderReadsBack | src/pages/Admin/UserManagement.jsx:92-94 | the header splits on ',' into the first record's keys |
| Csv.BodyReadsBack | src/pages/Admin/UserManagement.jsx:92-94 | the body splits on newlines into the header and one line per record |
| Numbers.ParseIntText | src/pages/Admin/ProductManagement.jsx:56 | `parseInt` of an integer's text gives the integer back |
| Numbers.ParseInt | src/pages/Admin/ProductManagement.jsx:56 | `parseInt`: text that is all white space reads as NaN |
| Numbers.IntText | src/pages/Admin/ProductManagement.jsx:80 | `toString` of an integer: non-empty, starting with '-' iff negative |
| Numbers.NatTextValue | src/pages/Admin/ProductManagement.jsx:80 | the digits `toString` writes stand for the number |
| Numbers.NatText | src/pages/Admin/ProductManagement.jsx:85 | non-empty decimal digits without a leading zero, "0" iff zero |
| Numbers.MagnitudeOfDigits | src/pages/Admin/ProductManagement.jsx:56 | a run of digits without a leading zero reads as its value |
| Numbers.ParseIntHexExample | src/pages/Admin/ProductManagement.jsx:56 | a `0x` prefix switches to base 16: "0x10" reads 16 |
| Numbers.ParseIntPrefixExample | src/pages/Admin/ProductManagement.jsx:61 | leading space is skipped and reading stops at a non-digit: " 12ab" reads 12 |
| Numbers.ParseIntNaNExamples | src/pages/Admin/ProductManagement.jsx:56 | no digits reads as `NaN` |
| Text.Trim | src/pages/Admin/ProductManagement.jsx:60 | `trim`: the text between the leading and trailing white space |
| Text.BlankIffAllSpace | src/pages/Checkout.jsx:65 | `!x.trim()` holds iff every character is white space |
| Text.ToLower | src/pages/Admin/UserManagement.jsx:21-23 | `toLowerCase` over ASCII, character by character |
| Text.Split | src/pages/Admin/ProductManagement.jsx:59 | `split` always gives at least one piece |
| Text.SplitJoin | src/pages/Admin/ProductManagement.jsx:59-60 | splitting a join of separator-free parts gives the parts back |
| Text.JoinSplit | src/pages/Admin/ProductManagement.jsx:59-60 | joining the pieces of a split gives the text back |
| Text.TrimIdempotent | src/pages/Admin/ProductManagement.jsx:60 | trimming twice equals trimming once |
| Lists.Filter | src/pages/Admin/UserManagement.jsx:20 | `filter` keeps exactly the passing elements and never lengthens |
| Lists.FilterIsSubsequence | src/pages/Admin/UserManagement.jsx:20 | a filter keeps the order of what it keeps |
| Lists.Take | src/pages/Admin/AdminDashboard.jsx:39 | `slice(0, n)`: the first min(n, length) elements |
| Lists.FilterLength | src/pages/Admin/AdminDashboard.jsx:36 | `filter().length` counts the passing elements |

## Left out

- Network requests, the async thunks and the API modules. Only the reducer transitions on their results are modelled, and each answer is a parameter.
- Real `localStorage` and `JSON.parse`/`stringify`. Storage is the ghost field `stored` in the cart and sign-in stores. The settings page's save and load of the whole record is not modelled.
- Floating point:
  - prices and quantities are integers;
  - `calculateGST`, the checkout tax and the rating stars are not modelled;
  - `parseInt` on text that `toString` writes in exponent form is not modelled.
- Timers and navigation. A navigation is modelled only as a returned target.
- DOM and rendering: the charts, the download anchors, `encodeURI`, and the style writes in the settings page.
- React's effect scheduling. The products page's dispatches run in the order they are declared.
- `uuidv4`: the new product's id is a supplied `freshId`.
- `Text.Trim` and the searches: the model uses the ECMAScript white-space set and ASCII case folding. Unicode case mapping is left out, and lengths count characters, not UTF-16 code units.
- UserManagement.ExportRow: dates are shown through a supplied function, because `toLocaleDateString` depends on the locale. An `is_active` value that is not a boolean is written as an empty field.
- ProductsPage.CartProductFor: requires a price that is not missing. The page also adds a product without a price; its line then has an undefined price and the cart's `total` becomes NaN, which the integer cart does not represent. A `null` price is covered: the line records 0, which is what `quantity * price` and the totals make of `null`, while the source keeps `null` in the line and shows it as empty text.
- ProductDetail.RawCartProduct: requires a price that is not missing, for the same reason; a product without a price is added by both cart buttons of the product page and makes `total` NaN. A `null` price is recorded as 0, as for the products page.
- ProductDetail.BuyNow: requires a price that is not missing only when signed in, where the product is added; the signed-out redirect is proved for every product.
- CartSlice.RemoveId: a missing id matches every line whose id is `undefined` or `null`, while `!==` keeps `null` lines when removing `undefined`. Checkout's `removeFromCart()` therefore also drops lines with a `null` id in the model.
- CartSlice.AddItem: a product with a `null` id joins a line whose id is `undefined`, and the reverse, which `===` does not do.
- ProductManagement.Submit: the page dispatches the whole axios response to `updateProduct` and `addProduct` (src/pages/Admin/ProductManagement.jsx:64-69), not the product it sent. The store then appends the response object with a fresh id, and the update matches no serial id. The model returns the request only, and the store operations are stated for a product payload.
- AdminDashboard.ExportSales: the orders export writes records whose fields the order model does not hold, so only the sales export is modelled.
- AppRoutes.Route: paths are lists of non-empty segments. Trailing slashes, encoded characters and the catch-all behaviour of the router are left out.
- The dashboard's category and order-status charts are constant data and are not modelled. The Analytics page, the home page, the header, the footer, the toast helper, the forgot-password page and the store set-up are not part of this model.
