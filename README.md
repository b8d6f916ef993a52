# Sneaker storefront: a verified model of the store logic

This project models the business logic of a small sneaker storefront in Dafny. The store
holds three collections:

- **products**: name, model, colorway, description, price, brand, owner, stock, condition,
  release date, images, sizes, category, timestamps;
- **reviews**: one per user and product, rated 1 to 5, with an optional comment;
- **per-user carts**: lines of product, quantity and the price when the line was added.

It also models the client-side helpers that build the server's inputs or use its answers.

The modules follow the source files:

| module | file | what it models |
|---|---|---|
| `ProductModel` | `product_model.dfy` | the Product schema: enums, defaults, bounds, trimming, validation |
| `ReviewModel` | `review_model.dfy` | the Review schema: rating bounds, trimmed comment |
| `Validate` | `validate.dfy` | the `requireFields` middleware |
| `Catalog` | `catalog.dfy` | `getProducts` (filter, sort, page, then rating filter) and `getProductById` |
| `Inventory` | `inventory.dfy` | the product table with `createProduct`, `deleteProduct`, `purchaseProduct` |
| `Cart` | `cart.dfy` | a user's cart with `addToCart`, `updateCartItem`, `removeFromCart` |
| `Ratings`, `Reviews` | `ratings.dfy`, `reviews.dfy` | `getRatingSummary`; the review store with `addReview` and `getReviewsByProduct` |
| `CartContext` | `cart_context.dfy` | the client's cart state and its `total` |
| `Home` | `home.dfy` | the catalog page's query builder and Clear Filters |
| `SellPage` | `sell_page.dfy` | the listing form, `onChange` and the create payload |
| `CartPage` | `cart_page.dfy` | line price, subtotal, item count, and `handleBuy` |

`Wrappers`, `Seqs`, `Text` and `Sorting` hold the shared vocabulary:

- option and result values;
- filtering, sums and subsequences;
- JavaScript's `trim`, `toLowerCase`, `split` and `join`;
- the store's sort order: missing values, then numbers, then strings, each ascending or
  descending.

Code that edits state in place is written as classes whose methods modify fields:
`Inventory.ProductTable`, `Cart.UserCart`, `Reviews.ReviewLedger`, `CartContext.CartProvider`
and `Home.FilterPanel`. Each method's postcondition gives the new state in terms of a pure
function of the old state. The lemmas about those functions carry the properties.

The cart page's `handleBuy` is a method over a product table, a server cart and the client
cart. It purchases first and removes the line only after the purchase succeeds.

Query parameters reach the model already parsed:

- `None` stands for a parameter that is absent. The price, brand, search and rating
  filters are also skipped when their value is empty, which JavaScript treats as false, so
  an empty value of those is `None` too.
- `Some(v)` stands for one that is present. The code tests the raw query string, so a
  parameter of `"0"` counts as given: `minPrice=0` sets a lower bound of 0 because the
  handler tests the raw query string (`backend/src/controllers/productController.js:18-21`).
- The destructuring defaults of `sort`, `order`, `page` and `limit` replace only a missing
  value. An empty `page` or `limit` arrives as `Some(0)`, since `Number('')` is 0, and an
  empty `sort` or `order` as `Some("")`. An empty `page` then gives a negative skip and the
  query fails, and an empty `limit` means no limit and `pages` of null, as in the code.

The purchase route is wrapped in `protect` (`backend/src/routes/productRoutes.js:21`). The
model takes the requester as a parameter wherever the handler uses it.

## Model

| member | source | states |
|---|---|---|
| Validate.RequireFields | backend/src/middleware/validate.js:1-8 | the request passes on exactly when every listed field is present. Undefined, null and "" are missing; 0 and false are present. Otherwise the answer is 400 naming the first missing field in list order, so an empty list always passes |
| ProductModel.ParseBrand | backend/src/models/Product.js:10 | a brand string is accepted only when it is one of the five brand names, and an accepted brand prints back to that string |
| ProductModel.ParseBrandName | backend/src/models/Product.js:10 | every brand parses back from its name |
| ProductModel.BrandNameShape | backend/src/models/Product.js:10 | every brand name is non-empty, lower-case, trimmed and free of commas |
| ProductModel.ParseConditionAndCategoryNames | backend/src/models/Product.js:13-17 | every condition and category parses back from its name |
| ProductModel.Violations | backend/src/models/Product.js:5-17 | validation fails exactly when one of these holds: a required text field is missing or blank (name and model after trimming); the price is missing or negative; the brand is not one of the five; the stock is negative; the condition or category is not an allowed value |
| ProductModel.Create | backend/src/models/Product.js:5-19 | a draft is stored exactly when it has no violation. The stored product is valid (trimmed non-empty name and model, price ≥ 0, stock ≥ 0), carries the given id and owner, and has both timestamps set to the creation time |
| ProductModel.CreateAppliesDefaults | backend/src/models/Product.js:12-17 | an absent stock becomes 0, an absent condition new, an absent category lifestyle; given values are kept |
| ProductModel.CreateTrimsNameAndModel | backend/src/models/Product.js:5-10 | name and model are stored trimmed; colorway, description, price and brand are stored as given |
| ProductModel.IndexOfId | backend/src/controllers/productController.js:64 | the position of the first product with the id, or -1 exactly when there is none |
| ProductModel.FindById | backend/src/controllers/productController.js:64-65 | finds a stored product with the id exactly when one exists |
| ReviewModel.Violations | backend/src/models/Review.js:5-7 | a review is refused exactly when the product, the user or the rating is missing, or the rating lies outside 1..5 |
| ReviewModel.Create | backend/src/models/Review.js:3-11 | a review is stored exactly when it has no violation, with the given product, user and rating, the comment trimmed, and `createdAt` set to the creation time |
| Ratings.ReviewsOf | backend/src/controllers/reviewController.js:28 | holds exactly the reviews of the product |
| Ratings.AvgRating | backend/src/controllers/reviewController.js:27-33 | as written, the mean of the product's ratings and 0 without reviews; its properties are stated by AverageBounds and AverageTimesCount |
| Ratings.Breakdown | backend/src/controllers/reviewController.js:22-35 | has a key exactly for each rating that occurs, mapped to the number of its occurrences |
| Ratings.RatingSummary | backend/src/controllers/reviewController.js:20-37 | the count is the number of the product's reviews, the average is their mean, and every breakdown entry (0 when absent) is the number of the product's reviews with that rating, each present one positive |
| Ratings.EmptySummary | backend/src/controllers/reviewController.js:31-35 | a product without reviews has average 0, count 0 and an empty breakdown |
| Ratings.BreakdownCounts | backend/src/controllers/reviewController.js:24 | the breakdown entry of a rating, 0 when absent, is its number of occurrences |
| Ratings.StarCountsSum | backend/src/models/Review.js:7 | for ratings in 1..5 the five star counts add up to the number of ratings |
| Ratings.BreakdownSumsToCount | backend/src/controllers/reviewController.js:24-35 | for valid reviews the breakdown counts add up to the review count |
| Ratings.StarSumBounds | backend/src/models/Review.js:7 | ratings in 1..5 sum to between the count and five times the count |
| Ratings.AverageBounds | backend/src/controllers/reviewController.js:29-33 | for valid reviews the average lies in 1..5 when there is a review, and is 0 when there is none |
| Ratings.AverageTimesCount | backend/src/controllers/reviewController.js:29 | the average times the count is the sum of the ratings |
| Ratings.StarExampleBreakdown | backend/src/controllers/reviewController.js:24-35 | ratings 5, 5, 4, 3 give the breakdown {3: 1, 4: 1, 5: 2} |
| Ratings.FourReviewsExample | backend/src/controllers/reviewController.js:20-37 | ratings 5, 5, 4, 3 give average 4.25, count 4 and that breakdown |
| Reviews.AppendKeepsUniquePairs | backend/src/controllers/reviewController.js:5-7 | adding a review for a (product, user) pair without one keeps every pair unique |
| Reviews.ReviewLedger.AddReview | backend/src/controllers/reviewController.js:3-9 | an existing review by the user for the product gives a duplicate and no change. An out-of-range rating is refused with no change. Otherwise exactly one review is appended (product, user, rating, trimmed comment, timestamp) and pairs stay unique |
| Reviews.ListForProduct | backend/src/controllers/reviewController.js:11-18 | lists exactly the product's reviews, each as often as stored, newest first |
| Reviews.SummaryAfterAdd | backend/src/controllers/reviewController.js:3-37 | a new review raises its own product's review count by one and leaves every other product's summary unchanged |
| Text.Trim | backend/src/controllers/productController.js:26 | the result is trimmed and is the input with only whitespace removed from its two ends |
| Text.Split | backend/src/controllers/productController.js:25 | gives at least one piece; no piece holds the separator; joining the pieces gives back the input |
| Text.SplitJoin | backend/src/controllers/productController.js:25 | splitting a join of separator-free pieces gives back the pieces |
| Text.ContainsIgnoringCaseOfTerm | backend/src/controllers/productController.js:31-33 | two search terms that lower-case alike match the same texts |
| Sorting.SortBy | backend/src/controllers/productController.js:39 | the result holds exactly the input's elements and is ordered by the key in the requested direction |
| Catalog.ParseBrandList | backend/src/controllers/productController.js:23-28 | every entry of the parsed brand list is non-empty, trimmed, lower-case and comma-free, and there is at most one more entry than there are commas |
| Catalog.PriceFilterInclusive | backend/src/controllers/productController.js:18-22 | both price bounds are inclusive and a missing bound does not constrain: every listed product lies within each bound given, and every stored product within the bounds that passes the brand and search filters is among the matches |
| Catalog.BrandFilterIsMembership | backend/src/controllers/productController.js:23-29 | without a brand every product passes; with a non-empty parsed list a product passes exactly when its brand is in it, so every listed product has a listed brand |
| Catalog.ListedProductsMatch | backend/src/controllers/productController.js:37-41 | every listed product, rated or not, is a stored product that passes the price, brand and search filters |
| Catalog.WindowMembers | backend/src/controllers/productController.js:39-40 | a skip/limit window holds only elements of the sequence it is cut from |
| Catalog.EmptyPagingParameters | backend/src/controllers/productController.js:11-14 | an empty `page` (0) with a positive limit makes the query fail on its negative skip; an empty `limit` (0) lets it succeed with no limit and null `pages` |
| Catalog.SearchMatchesOwnName | backend/src/controllers/productController.js:30-35 | a search term matches a product whose name is that term, in any case |
| Catalog.Matching | backend/src/controllers/productController.js:17-38 | holds exactly the stored products that pass the price, brand and search filters |
| Catalog.Matches | backend/src/controllers/productController.js:17-35 | as written, the conjunction of the price, brand and search conditions; its properties are stated by Matching, PriceFilterInclusive, BrandFilterIsMembership and SearchMatchesOwnName |
| Catalog.Ordered | backend/src/controllers/productController.js:11-39 | holds exactly the matches, ordered by the sort field (default createdAt); ascending only for order "asc", descending otherwise (the default) |
| Catalog.Window | backend/src/controllers/productController.js:37-41 | a negative skip is an error. Otherwise the result is the slice from skip of length limit; limit 0 means no limit and a negative limit counts as its absolute value |
| Catalog.TimesIsProduct | backend/src/controllers/productController.js:37 | the skip, written as repeated addition, is exactly `(page - 1) * limit` |
| Catalog.GetProductsCounts | backend/src/controllers/productController.js:37-60 | the listing fails exactly for a negative skip. Otherwise `total` is the number of structural matches and `pages` is computed from it and the limit |
| Catalog.GetProducts | backend/src/controllers/productController.js:4-61 | as written: filter, sort, skip and limit, then the rating filter on the page; its properties are stated by GetProductsCounts, PlainPageIsSlice, PlainPageIsSorted, RatedPageIsFilteredPage, TotalIgnoresRating, PriceFilterInclusive, BrandFilterIsMembership and ListedProductsMatch |
| Catalog.CeilDiv | backend/src/controllers/productController.js:60 | for a positive limit, the least number of pages of that size that hold the total |
| Catalog.PageCount | backend/src/controllers/productController.js:60 | as written, null for a limit of 0 and `Math.ceil(total / limit)` otherwise; its properties are stated by CeilDiv, GetProductsCounts and EmptyPagingParameters |
| Catalog.PlainPageIsSlice | backend/src/controllers/productController.js:13-42 | without minRating the items are exactly the ordered matches from (page-1)·limit, at most limit of them |
| Catalog.PlainPageIsSorted | backend/src/controllers/productController.js:39-42 | without minRating the items come in the requested order |
| Catalog.RatedPageIsFilteredPage | backend/src/controllers/productController.js:44-57 | with minRating the items are an order-preserving subsequence of the page, each carrying its average (0 without reviews). Each has at least minRating, and every page product with at least minRating is kept |
| Catalog.MatchingIgnoresRating | backend/src/controllers/productController.js:17-38 | the structural matches do not depend on minRating |
| Catalog.TotalIgnoresRating | backend/src/controllers/productController.js:59-60 | total counts every structural match and pages is ceil(total/limit), whether or not minRating is given |
| Catalog.PageShrinksBelowLimit | backend/src/controllers/productController.js:37-60 | with minRating 4.5 and limit 2, page 1 of three matches (only the oldest rated 5) has no items while total is 3 and pages is 2 |
| Catalog.GetProductsRatedFirst | backend/src/controllers/productController.js:44-60 | the corrected listing: the rating threshold is applied before sorting and paging (its properties are in the two lemmas below) |
| Catalog.RatedFirstPagesAreFull | backend/src/controllers/productController.js:44-60 | in the corrected listing total counts the products passing every filter, each item passes every filter, and every page before the last holds exactly limit items |
| Catalog.RatedFirstAgreesWithoutRating | backend/src/controllers/productController.js:4-61 | without minRating the corrected listing equals the listing as written |
| Catalog.RatedFirstExample | backend/src/controllers/productController.js:44-60 | on the same example the corrected listing returns the one 5-star product, total 1, one page |
| Catalog.GetProductById | backend/src/controllers/productController.js:63-72 | 404 exactly for an unknown id; otherwise the product with its average rating and review count |
| Catalog.DetailWithoutReviews | backend/src/controllers/productController.js:70-71 | a product without reviews is shown with average 0 and count 0 |
| Inventory.PurchaseDecision | backend/src/controllers/productController.js:186-187 | the purchase is refused exactly when the stock is below the quantity; otherwise the new stock is the old minus the quantity, never below 0 |
| Inventory.PurchaseNeverOversells | backend/src/controllers/productController.js:186-187 | from a non-negative stock a sale never leaves it negative, a non-negative quantity never raises it, and any quantity up to the stock is sold |
| Inventory.NegativeQuantityRestocks | backend/src/controllers/productController.js:183-187 | a negative quantity passes the check and raises the stock |
| Inventory.CheckedPurchaseDecision | backend/src/controllers/productController.js:183-187 | the corrected rule sells exactly when 1 ≤ quantity ≤ stock, and subtracts the quantity |
| Inventory.CheckedPurchaseLowersStock | backend/src/controllers/productController.js:183-187 | under the corrected rule a sale lowers the stock and keeps it ≥ 0, and for positive quantities it agrees with the rule as written |
| Inventory.RemoveId | backend/src/controllers/productController.js:179 | keeps exactly the products with other ids, in their order |
| Inventory.RemoveIdRemovesOne | backend/src/controllers/productController.js:179 | with unique ids, removing a present id removes exactly one product |
| Inventory.FilterKeepsUniqueIds | backend/src/controllers/productController.js:179 | removing products keeps the ids unique |
| Inventory.ProductTable.Create | backend/src/controllers/productController.js:166-170 | a valid body is appended with the requester as owner (none when anonymous) and a fresh id. A refused body leaves the store unchanged. The table invariant (valid products, unique ids) is kept |
| Inventory.ProductTable.Delete | backend/src/controllers/productController.js:172-180 | unknown id: not found. No owner, or an owner other than the requester: forbidden. Both leave the store unchanged; otherwise exactly that product is removed |
| Inventory.ProductTable.Purchase | backend/src/controllers/productController.js:182-190 | quantity defaults to 1. Unknown id: not found; stock below quantity: refused; both leave the store unchanged. Otherwise only that product's stock drops by the quantity, its `updatedAt` becomes the time unless the quantity is 0 (an unchanged document keeps its update time), and `remaining` is the new stock |
| Cart.LineIndex | backend/src/controllers/cartController.js:14 | the first line for the product, or -1 exactly when the cart has none |
| Cart.AddLine | backend/src/controllers/cartController.js:14-19 | as written: merge into the product's line or append a new one; its properties are stated by AddMergesRepeat, AddAppendsNew, AddKeepsOneLinePerProduct and AddTwiceMerges |
| Cart.SetQuantity | backend/src/controllers/cartController.js:27-29 | as written: none without a line, otherwise that line's quantity set; its properties are stated by SetQuantityChangesOneLine and SetQuantityKeepsOneLinePerProduct |
| Cart.RemoveLines | backend/src/controllers/cartController.js:37 | as written: the lines for other products; its properties are stated by RemoveLinesProperties and RemoveLinesIdempotent |
| Cart.AddMergesRepeat | backend/src/controllers/cartController.js:14-16 | adding a product already in the cart adds no line; that line's quantity rises by the added amount with price unchanged; other lines are unchanged |
| Cart.AddAppendsNew | backend/src/controllers/cartController.js:17-18 | adding a new product appends exactly one line with the quantity and the current price, after the unchanged old lines |
| Cart.AddKeepsOneLinePerProduct | backend/src/controllers/cartController.js:14-19 | adding keeps at most one line per product |
| Cart.AddTwiceMerges | backend/src/controllers/cartController.js:14-19 | two adds of a new product give one line with both quantities at the first add's price |
| Cart.SetQuantityChangesOneLine | backend/src/controllers/cartController.js:27-29 | updating fails exactly when the product has no line; otherwise only that line's quantity becomes the given value, unchecked |
| Cart.SetQuantityKeepsOneLinePerProduct | backend/src/controllers/cartController.js:27-29 | updating keeps at most one line per product |
| Cart.RemoveLinesProperties | backend/src/controllers/cartController.js:37 | removal leaves no line for the product, keeps every other line in order, and leaves a cart without the product unchanged |
| Cart.RemoveLinesIdempotent | backend/src/controllers/cartController.js:37 | removing twice is removing once |
| Cart.FilterKeepsOneLinePerProduct | backend/src/controllers/cartController.js:37 | removing lines keeps at most one line per product |
| Cart.AddRaisesTotal | backend/src/controllers/cartController.js:14-18 | adding raises the cart's value by the quantity times the line's price: the snapshot for an existing line, the current price for a new one |
| Cart.UserCart.FindLine | backend/src/controllers/cartController.js:14 | the loop finds the first line of the product, or -1 |
| Cart.UserCart.AddToCart | backend/src/controllers/cartController.js:9-22 | unknown product: 404 and no change. Otherwise the quantity (default 1) is merged or appended as above, the answer is the new cart, and the one-line-per-product invariant is kept |
| Cart.UserCart.UpdateCartItem | backend/src/controllers/cartController.js:24-32 | no line for the product: 404 and no change. Otherwise that line's quantity is set and the invariant is kept |
| Cart.UserCart.RemoveFromCart | backend/src/controllers/cartController.js:34-40 | every line of the product is removed; the answer is the new cart |
| CartContext.TotalIgnoresIncompleteLines | frontend/src/state/CartContext.jsx:41 | a line with a missing or zero price or quantity adds nothing to the total; an empty cart or a non-array gives 0 |
| CartContext.Total | frontend/src/state/CartContext.jsx:41 | as written, the sum of `(price||0)*(quantity||0)` and 0 for a non-array; its properties are stated by TotalIgnoresIncompleteLines and TotalOfServerCart |
| CartContext.TotalOfServerCart | frontend/src/state/CartContext.jsx:41 | the client total of a cart the server sent is the sum of price × quantity over its lines |
| CartContext.CartProvider.OnToken | frontend/src/state/CartContext.jsx:12-26 | signed out: the cart empties. Signed in: the fetched array replaces it, and a failed fetch or a non-array empties it |
| CartContext.CartProvider.Add | frontend/src/state/CartContext.jsx:28-31 | the quantity defaults to 1. On success the items become the server's new cart and the total rises by the added amount at the line's price; on failure nothing changes |
| CartContext.CartProvider.Update | frontend/src/state/CartContext.jsx:32-35 | succeeds exactly when the product has a line. On success the items become the server's cart with that quantity set; otherwise nothing changes |
| CartContext.CartProvider.Remove | frontend/src/state/CartContext.jsx:36-39 | the items become the server's cart without the product's lines |
| CartPage.PurchaseId | frontend/src/pages/CartPage.jsx:11-15 | the populated product's id, else the referenced id, else the line's own id, else none |
| CartPage.PurchaseQuantity | frontend/src/pages/CartPage.jsx:18 | the line's quantity, or 1 when it is missing or 0; never 0 |
| CartPage.LinePrice | frontend/src/pages/CartPage.jsx:55 | the line's non-zero price snapshot, else the populated product's price, else 0 |
| CartPage.SubtotalsAddUpToTotal | frontend/src/pages/CartPage.jsx:55-56 | when every line has a non-zero price snapshot, the subtotals add up to the grand total |
| CartPage.SubtotalWithoutSnapshot | frontend/src/pages/CartPage.jsx:55-56 | a line without a snapshot but with a populated product shows a subtotal that the grand total leaves out |
| CartPage.ItemCountOfServerCart | frontend/src/pages/CartPage.jsx:136 | the item count of a cart the server sent is the sum of its quantities |
| CartPage.HandleBuy | frontend/src/pages/CartPage.jsx:10-26 | without an id nothing is requested or changed. Otherwise the purchase runs with the line's quantity (or 1). Only a successful purchase removes the product's line and replaces the client cart; the table then holds that product with its stock lowered by the quantity and `updatedAt` set to the time, every other product unchanged. A failed purchase (404 or 400) changes nothing |
| Home.SelectedNamesAreChecked | frontend/src/pages/Home.jsx:22 | the selected names are exactly the names of the checked brands, and empty exactly when none is checked |
| Home.BrandListRoundTrip | frontend/src/pages/Home.jsx:26 | the server's brand parsing of the comma-joined brand names gives back exactly those names |
| Home.QueryFields | frontend/src/pages/Home.jsx:22-26 | the query sets maxPrice when non-zero, minRating when above 0, and brand to the joined selected names when any; nothing else |
| Home.BuildQuery | frontend/src/pages/Home.jsx:22-26 | as written, the three conditional parameters; its properties are stated by QueryFields, QueryReachesServer and BrandFilterFollowsCheckboxes |
| Home.QueryReachesServer | frontend/src/pages/Home.jsx:22-27 | the catalog handler receives those values, and its brand list parses to exactly the checked brands |
| Home.BrandFilterFollowsCheckboxes | frontend/src/pages/Home.jsx:22-26 | the server's brand filter then keeps a product exactly when its brand is checked, or every product when none is |
| Home.InitialQuery | frontend/src/pages/Home.jsx:11-14 | the initial filters ask only for maxPrice 500 |
| Home.FilterPanel.ClearFilters | frontend/src/pages/Home.jsx:286-290 | Clear Filters restores the initial state: maxPrice 500, minRating 0, no brand checked, and so the initial query |
| SellPage.OnChangeTouchesOneField | frontend/src/pages/SellPage.jsx:13 | onChange sets the named field to the typed text and leaves every other field unchanged |
| SellPage.OnChange | frontend/src/pages/SellPage.jsx:13 | as written, the form with one field replaced; its property is stated by OnChangeTouchesOneField |
| SellPage.Pieces | frontend/src/pages/SellPage.jsx:31-32 | splitting gives one more piece than there are commas, none holding a comma |
| SellPage.CommaList | frontend/src/pages/SellPage.jsx:31-32 | every entry is non-empty and trimmed |
| SellPage.CommaListEntries | frontend/src/pages/SellPage.jsx:31-32 | the entries are the non-empty trimmed pieces in input order. None holds a comma, and there are at most one more than the commas |
| SellPage.CommaListRoundTrip | frontend/src/pages/SellPage.jsx:31-32 | non-empty trimmed comma-free entries survive joining and re-parsing unchanged |
| SellPage.PayloadDefaults | frontend/src/pages/SellPage.jsx:20-33 | a blank stock is sent as 0, a blank release date is left out, blank lists are empty, and brand, condition and category are sent as chosen |
| SellPage.Payload | frontend/src/pages/SellPage.jsx:20-33 | as written, the request body built from the form; its properties are stated by PayloadDefaults, CommaListEntries and InitialFormIsAccepted |
| SellPage.InitialFormIsAccepted | frontend/src/pages/SellPage.jsx:9-33 | from the initial form with the text fields filled and a non-negative price, the store accepts the listing: nike, stock 1, new, lifestyle, no images or sizes, no release date |

## Left out

- Concurrency. The read-check-save of `purchaseProduct` and the find-then-create of
  `addReview` are races across requests; each operation is modelled as one sequential step.
- Storage I/O. `lean`, `save`, `countDocuments` and the aggregation pipelines are not
  modelled; each collection is a sequence in memory and every operation sees it whole.
- `getCart` and the `populate` joins are not modelled, including dangling references to
  deleted products. The client's line type still allows a populated, bare or null product.
- Search patterns. `$regex` metacharacters are not modelled; search is a case-insensitive
  substring match.
- Case folding. The `toLowerCase` of the brand list in `getProducts` and the case-insensitive
  search match are both modelled by `Text.ToLower`, which folds ASCII letters only. Characters such as U+212A KELVIN SIGN, which JavaScript lowers to `k`,
  are left as they are.
- Catalog.SortKey: sorting by `owner`, `images` or `sizes`, which the store orders by object
  id and by array values, is modelled as if every product lacked the field, so such a sort
  keeps the matches in the order the insertion sort leaves them.
- Number formatting. `toFixed(1)` in `getProductById` is not modelled; the average is an
  exact rational number. The client's rounding and percentage displays are not modelled either.
- `Number(...)` coercion and NaN. Query parameters and request bodies are taken as parsed
  integers and rationals. The sell form takes a `toNumber` function for `Number` on typed
  text. A quantity that arrives as a string, which `+=` would concatenate, is not modelled.
- Dates. `new Date(releaseDate)` is not modelled; the release date is kept as typed text and
  sorts as text.
- Identifiers. Object ids are natural numbers, and comparisons through `String(...)` are
  equality. The cart line's own sub-document id is not produced by the server model.
- Authentication. JWT handling, `protect` and the auth pages are not modelled; the requester
  is a parameter.
- Wiring and fixtures. Routes, `index.js`, `db.js`, the error middleware (its 500 for schema
  errors appears as the status functions), `seedProducts`, `seed.js` and the brand catalogs
  are not modelled. `customizeProduct`, which `productRoutes.js` imports, is not defined
  by the controller and is not part of this model.
- UI. Rendering, alerts, the `buying` and `loading` flags, the debounce timer and the filter
  setters other than Clear Filters are not modelled. `remove` after a purchase is not awaited
  in the page; the model runs it to completion.
- Sorting.SortBy: the store leaves the order of equal keys unspecified. The model sorts by
  insertion and promises only the key order and the same elements.
- Reviews.ListForProduct: promises the product's reviews newest first, not an order among
  reviews with equal timestamps. The user-name join is not modelled.
- Cart.UserCart.UpdateCartItem: takes the quantity as an integer; an update without a
  quantity is not modelled.
- Reviews.ReviewLedger.AddReview: takes product id and rating as given; the field check in
  front of the route is `Validate.RequireFields`.

## Findings

| source | as written | input that shows it | evidently intended | confidence | as-written member | corrected member |
|---|---|---|---|---|---|---|
| backend/src/controllers/productController.js:44-60 | the rating filter runs on the page after skip and limit, while `total` and `pages` count every structural match | minRating 4.5, limit 2, three matching products of which only the oldest averages 4.5 or more: page 1 has no items, total 3, pages 2 | apply the rating threshold before paging and count what passes, so every page before the last is full | medium; not executed | Catalog.PageShrinksBelowLimit | Catalog.GetProductsRatedFirst |
| backend/src/controllers/productController.js:183-187 | `stock < quantity` is the only check, so a negative quantity passes and `stock -= quantity` raises the stock | stock 3, quantity -5: answer 200 with remaining 8. The cart page sends the line's quantity, and `updateCartItem` accepts -5 without a range check | refuse quantities below 1 | medium; not executed | Inventory.NegativeQuantityRestocks | Inventory.CheckedPurchaseDecision |
