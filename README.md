# mystore storefront core, modelled in Dafny

This project models the two parts of the mystore storefront client that hold state and rules:

- **The catalog query on the product listing page** (`src/pages/Home.tsx`). The selected categories and the sort order live in the URL query. `fetchProducts` sends one request for the whole catalog when no category is selected, and otherwise one request per selected category. It waits for all of them. It joins the responses in selection order, keeping duplicates, and sorts a copy by price: ascending when the sort value is `asc`, descending for any other value. A failed request leaves the listing as it was. `toggleCategory` and `handleSortChange` rewrite the query.
- **The cart page and the cart badge** (`src/pages/Cart.tsx`, `src/components/Navbar.tsx`). The cart page shows the total, price times quantity summed over the lines. It also runs a two-step removal flow: `itemToRemove` is Idle (`null`) or Pending(id). The badge shows the sum of the quantities, or 0 when there is no cart context.

Modules, one per file:

| file | module | models |
|---|---|---|
| `wrappers.dfy` | `Wrappers` | `Option`, used for `null`/`undefined` and for failed requests |
| `search_params.dfy` | `SearchParams` | the browser's `URLSearchParams` as an ordered list of name/value pairs, with `getAll`, `get`, `append`, `delete`, `set` as the URL Standard defines them |
| `stable_sort.dfy` | `StableSort` | `Array.prototype.sort` for a comparator `key(a) - key(b)`, which is stable from the 2019 edition of ECMA-262 on |
| `home.dfy` | `Home` | `Home.tsx`: selection state, the fetch pipeline, toggling, sort change, and the page state as a class |
| `cart.dfy` | `Cart` | `Cart.tsx`: the `total` fold and the removal state machine as a class |
| `navbar.dfy` | `Navbar` | `Navbar.tsx`: the badge count |

Modelling choices:

- Prices are integer cents, so `a.price - b.price` is exact.
- The comparator `sort === 'asc' ? a.price - b.price : b.price - a.price` is the difference of a key: the price, or its negation. The sort is modelled as a stable sort by that key. `StableSort.StableSortIsUnique` shows that the result does not depend on how the sort is done. Any permutation that is ordered by the key and keeps each group of equal keys in input order is this same list.
- Stability is stated per price: for every price `c`, the products priced `c` come in the same order before and after sorting (`Home.PricedAt`).
- The catalog service is a parameter `service: Request -> Option<seq<Product>>`. `None` is a failed request. `Promise.all` is `Home.AwaitAll`: it gives every response in request order, or `None` if any request fails.
- `new URLSearchParams(searchParams.toString())` is modelled as a copy of the pair list. A serialise-then-parse round trip keeps the pairs.
- The cart store (`CartContext`) is not part of this model. Its `removeFromCart` is a parameter of `Cart.CartPage.ConfirmRemove`, and the page records each call in `removeCalls`. `Cart.RemoveLine` is an **assumed** body for it: delete the lines with that id, whatever their quantity.

Where the description of the system and the code differ, the model follows the code:

- `get('sort') || 'asc'` also maps an empty `sort=` to `asc`, not only an absent one.
- `toggleCategory` removes every occurrence of a selected category. If the URL repeats a category, all copies go. It rewrites the `category` pairs by deleting them and appending the rest, so they move to the end of the query. The `getAll` view keeps its order.
- `handleConfirmRemove` does not check that the pending id is still in the cart. It calls `removeFromCart` with any pending id.

## Model

| member | source | states |
|---|---|---|
| `SearchParams.Get` | src/pages/Home.tsx:17 | `get(name)` is the first value `getAll(name)` lists, or none when there is none |
| `SearchParams.Append` | src/pages/Home.tsx:67 | `append` adds the value at the end of that name's values and changes no other name |
| `SearchParams.Delete` | src/pages/Home.tsx:64 | `delete` leaves no value under that name and changes no other name |
| `SearchParams.Set` | src/pages/Home.tsx:74 | `set` leaves exactly the one new value under that name and changes no other name |
| `SearchParams.AppendAll` | src/pages/Home.tsx:65 | the `forEach` of appends adds the values in order after that name's values and changes no other name |
| `SearchParams.GetAllConcat` | src/pages/Home.tsx:16 | the values under any name in joined lists are those of the first list, then those of the second |
| `StableSort.SortBy` | src/pages/Home.tsx:35-37 | the sort's result is a permutation of its input, ordered by non-decreasing key, and every group of equal keys keeps its input order |
| `StableSort.StableSortIsUnique` | src/pages/Home.tsx:35-37 | any list with those three properties is exactly `SortBy`'s result |
| `StableSort.StableOrderUnique` | src/pages/Home.tsx:35-37 | two sorted permutations of each other with the same key groups are equal |
| `Home.SortDefaultsToAscending` | src/pages/Home.tsx:17 | without a `sort` value, or with an empty one, the order is ascending; it is ascending exactly when the first `sort` value is absent, empty or `asc` |
| `Home.CompareIsKeyDifference` | src/pages/Home.tsx:35-37 | the comparator is the difference of the sort key, the price under `asc` and its negation otherwise |
| `Home.KeyGroupIsPriceGroup` | src/pages/Home.tsx:35-37 | the products with one key are the products with one price, in both orders |
| `Home.SortProducts` | src/pages/Home.tsx:35-37 | the sorted copy is a permutation of the list, never has a later product ahead by the comparator, has non-decreasing prices for `asc` and non-increasing prices otherwise, and keeps each group of equal prices in list order |
| `Home.SortProductsIsTheStableSort` | src/pages/Home.tsx:35-37 | any permutation ordered by the comparator that keeps each price group in order is exactly `SortProducts`'s result |
| `Home.SortExampleAscending` | src/pages/Home.tsx:35-37 | prices 20, 5, 5, 15 sort ascending to 5, 5, 15, 20 with the two 5s in input order |
| `Home.SortExampleDescending` | src/pages/Home.tsx:35-37 | the same prices sort descending to 20, 15, 5, 5 with the two 5s still in input order |
| `Home.PricedAtConcat` | src/pages/Home.tsx:29 | the price group of joined lists is the first list's group followed by the second's |
| `Home.AwaitAll` | src/pages/Home.tsx:25-28 | waiting on all requests succeeds exactly when every request succeeds, and then gives each response at its request's position |
| `Home.AwaitSingle` | src/pages/Home.tsx:31 | the single whole-catalog request gives its response, or fails |
| `Home.ConcatAppend` | src/pages/Home.tsx:29 | `flatMap` over joined response lists joins the two merged lists |
| `Home.ConcatSplit` | src/pages/Home.tsx:29 | in the merged list each response appears whole and in order, after all earlier responses and before all later ones; nothing is removed |
| `Home.ConcatSingle` | src/pages/Home.tsx:29-32 | merging a single response gives that response |
| `Home.FetchFailsIffARequestFails` | src/pages/Home.tsx:24-43 | the fetch produces no listing exactly when one of its requests fails |
| `Home.FetchWithoutSelection` | src/pages/Home.tsx:24-33 | with nothing selected there is exactly one request, for the whole catalog, and the listing is the sort of its response |
| `Home.FetchWithSelection` | src/pages/Home.tsx:24-29 | with categories selected there is one request per category in selection order, and the listing is a permutation of the merged responses that keeps each price group in merged order |
| `Home.TwoCategoriesTieOrder` | src/pages/Home.tsx:25-37 | with categories a then b selected, at each price the products of a's response come before those of b's response |
| `Home.FetchOrder` | src/pages/Home.tsx:35-37 | the listing's prices are non-decreasing when the sort value is `asc` and non-increasing for any other value |
| `Home.Without` | src/pages/Home.tsx:63 | the filtered selection holds exactly the other categories |
| `Home.WithoutConcat` | src/pages/Home.tsx:63 | filtering joined lists joins the two filtered lists |
| `Home.WithoutAbsent` | src/pages/Home.tsx:63 | filtering out a category that is not there changes nothing |
| `Home.RemoveSingleOccurrence` | src/pages/Home.tsx:62-63 | removing a category that occurs once leaves the others in their order |
| `Home.WithoutKeepsDistinct` | src/pages/Home.tsx:63 | filtering keeps a repeat-free selection repeat-free |
| `Home.ToggleKeepsDistinct` | src/pages/Home.tsx:59-70 | toggling keeps a repeat-free selection repeat-free |
| `Home.ToggleTwiceRestores` | src/pages/Home.tsx:59-70 | toggling an unselected category on and off restores the selection |
| `Home.ToggleSelectedTwiceMovesLast` | src/pages/Home.tsx:59-70 | toggling a selected category off and on moves it to the end of the selection |
| `Home.ToggleParams` | src/pages/Home.tsx:59-70 | a toggle appends an absent category or removes a present one, and leaves every other query value, `sort` included, unchanged |
| `Home.ToggleParamsTwiceRestores` | src/pages/Home.tsx:59-70 | toggling an unselected category twice restores every value of the query |
| `Home.SortChangeParams` | src/pages/Home.tsx:72-76 | a sort change leaves exactly the new `sort` value and keeps the selection and every other value |
| `Home.HomePage.constructor` | src/pages/Home.tsx:10-13 | the page starts with the given query, no products and not loading |
| `Home.HomePage.FetchProducts` | src/pages/Home.tsx:19-44 | `fetchProducts` issues the requests for the selection, sets `products` to the sorted merge when every request succeeds and leaves it unchanged otherwise, and ends with `loading` false |
| `Home.HomePage.ToggleCategory` | src/pages/Home.tsx:59-70 | `toggleCategory` sets the query to the toggled query and changes nothing else |
| `Home.HomePage.HandleSortChange` | src/pages/Home.tsx:72-76 | `handleSortChange` sets only the `sort` value of the query |
| `Cart.ReduceIsSum` | src/pages/Cart.tsx:13 | the left fold from a start value adds the sum of the lines to it |
| `Cart.SumAppend` | src/pages/Cart.tsx:13 | the sum over joined carts is the sum of the two sums |
| `Cart.SumPermutation` | src/pages/Cart.tsx:13 | the sum does not depend on the order of the lines |
| `Cart.Total` | src/pages/Cart.tsx:13 | `total` is the sum of price times quantity over the lines |
| `Cart.TotalOfLines` | src/pages/Cart.tsx:13 | the total of an empty cart is 0, and a further line adds its price times its quantity |
| `Cart.TotalOrderIndependent` | src/pages/Cart.tsx:13 | reordering the lines keeps the total |
| `Cart.TotalExample` | src/pages/Cart.tsx:13 | one line of 1000 cents and three of 550 cents total 2650 cents |
| `Cart.RemoveLine` | src/pages/Cart.tsx:17 | the assumed store removal keeps exactly the lines with other ids, whatever the removed line's quantity |
| `Cart.RemoveLineTotal` | src/pages/Cart.tsx:13-17 | under that assumption the total drops by exactly the value of the removed lines |
| `Cart.CartPage.constructor` | src/pages/Cart.tsx:8 | the page starts Idle, with no store calls |
| `Cart.CartPage.ClickRemove` | src/pages/Cart.tsx:59 | Remove on a line makes that line's id pending, replacing any earlier pending id, opens the dialog (shown when `itemToRemove` is not null), and changes neither the cart nor the store calls |
| `Cart.CartPage.Cancel` | src/pages/Cart.tsx:103 | Cancel returns to Idle, closes the dialog and changes neither the cart nor the store calls |
| `Cart.CartPage.ConfirmRemove` | src/pages/Cart.tsx:15-20 | Confirm while Pending(id) calls `removeFromCart(id)` exactly once and returns to Idle; Confirm while Idle changes nothing |
| `Navbar.TotalItems` | src/components/Navbar.tsx:8 | the badge is the sum of the quantities, and 0 without a cart context |
| `Navbar.BadgeAdditive` | src/components/Navbar.tsx:8 | an empty cart shows 0, and a further line raises the count by its quantity |
| `Navbar.BadgeOrderIndependent` | src/components/Navbar.tsx:8 | reordering the lines keeps the count |
| `Navbar.BadgeCountsUnits` | src/components/Navbar.tsx:8 | with every quantity at least 1, the count is at least the number of lines |
| `Navbar.BadgeExample` | src/components/Navbar.tsx:8 | lines of quantities 1 and 3 show 4, not the 2 distinct lines |

## Left out

- HTTP: the axios calls and the fakestoreapi addresses are replaced by the `service` parameter. Their responses are given inputs.
- Concurrency: `Promise.all` runs its requests at once. Only its all-or-nothing outcome is modelled. Overlapping `fetchProducts` calls and their stale-response race are not modelled. `Home.HomePage.FetchProducts` runs as one atomic step. The `loading` value `true` that the page shows while waiting is set but not observable in the model.
- `useEffect` wiring: `fetchProducts` runs again whenever the query changes, and `fetchCategories` runs on mount. These scheduling rules are not modelled.
- `fetchCategories`: a single request with no logic and no error handling.
- Logging: `console.error` on the failure path.
- The cart store `src/context/CartContext` is not part of this model. That covers `addToCart`, its quantity increment and its snapshot copy, and the internals of `removeFromCart`. `Cart.RemoveLine` is labelled as an assumption.
- `src/pages/ProductDetail.tsx`: a fetch, a null guard around the store's `addToCart`, and navigation.
- Floating point and formatting: prices are integer cents, so `toFixed(2)` and float rounding are not modelled.
- The cart page's "Cart context not available" fallback and all rendering, animation, routing, the loading and empty-state helpers, and the Cypress test.
- Percent-encoding of query values: `toString` followed by re-parsing is taken as the identity on the pair list.
