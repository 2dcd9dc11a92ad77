# Teslo shop cart and catalog helpers in Dafny

This project models the cart state store of the storefront and the image
rewrite of its catalog read helpers:

- `CartTypes` (`cart_types.dfy`): the cart line (`CartProduct`), the shipping
  address, the cart state (`CartState`: loaded flag, lines, item count,
  subtotal, tax, total, optional address) and the `(id, size)` key of a line.
- `CartReducer` (`cart_reducer.dfy`): the eight reducer actions as a datatype
  and `Reduce`, the reducer, as one `match`; the `map` of the quantity change
  (`ReplaceLines`) and the `filter` of the remove (`RemoveLines`).
- `CartProvider` (`cart_provider.dfy`): the initial state, the totals the
  summary effect computes (`NumberOfItems`, `SubTotal`, `ComputeSummary`), the
  merge-or-append upsert of `addProductToCart` (`UpsertLine`), the order body
  and result of `createOrder`, and the provider as a state machine: `Handle`
  applies one provider event (cookie load, add, quantity change, remove,
  address update, order placement) and then the summary effect whenever the
  cart changed.
- `DbProducts` (`db_products.dfy`): the substring test `Includes`, the
  rewrite `NormalizeImage(host, image)` and its lifting over an image list, a
  product and a product list, and the two query helpers around it.
- `Wrappers` (`wrappers.dfy`): `Option` and `Result`.

Prices, the subtotal, the tax and the tax rate are `real`; quantities and the
item count are `int`. So `total == subTotal + tax` holds exactly. The tax rate
(`NEXT_PUBLIC_TAX_RATE`, 0 when unset) and the host (`HOST_NAME`) are
parameters.

Behaviour of the code worth noting:

- Loading the address from cookies overwrites the address unconditionally,
  exactly like an explicit address update. It does not first check that no
  address is present.
- A quantity change replaces each matching line by the payload as a whole,
  including its price and title. A quantity of 0 (or a negative one) keeps the
  line.
- The merge in `addProductToCart` adds the quantity to every line with the
  product's `(id, size)`. When keys are unique, as the upsert itself keeps
  them, that is exactly one line.
- `size: p.size!` in the order body is a type assertion with no run-time
  effect. The order items are the cart lines as they are; an absent size is
  not rejected.
- The reducer's `default` branch cannot be reached, because the action
  datatype is closed. `Reduce` has no such case.

## Model

| member | source | states |
|---|---|---|
| CartReducer.ReplaceLines | context/cart/cartReducer.ts:41-47 | same length; a line whose id and size both equal the payload's becomes the payload; every other line is kept |
| CartReducer.RemoveLines | context/cart/cartReducer.ts:53 | the result holds exactly the lines not matching the payload's (id, size); its length drops by the number of matching lines |
| CartReducer.Reduce | context/cart/cartReducer.ts:23-81 | across all eight actions: the loaded flag ends true exactly when it was true or the action is the cookie load; only the two address actions change the address; the address and summary actions keep the cart; only the summary and order complete actions change the totals |
| CartReducer.ReplaceKeepsNoDuplicates | context/cart/cartReducer.ts:38-48 | a quantity change keeps every line's (id, size), so a cart without duplicate keys has none afterwards |
| CartReducer.RemoveKeepsNoDuplicates | context/cart/cartReducer.ts:50-54 | a remove keeps a subsequence of the lines, so a cart without duplicate keys has none afterwards |
| CartReducer.LoadCartReplacesCart | context/cart/cartReducer.ts:25-30 | loading sets `isLoaded` true and the cart to exactly the payload, keeps totals and address; loading twice with the same payload equals loading once |
| CartReducer.UpdateCartReplacesCart | context/cart/cartReducer.ts:32-36 | the cart becomes the payload; loaded flag, totals and address are unchanged |
| CartReducer.ChangeQuantitySetsMatchingLines | context/cart/cartReducer.ts:38-48 | cart length kept; non-matching lines unchanged; each matching line becomes the payload with the payload's quantity; nothing but the cart changes |
| CartReducer.ChangeQuantityAbsentIsNoOp | context/cart/cartReducer.ts:38-48 | a quantity change for an (id, size) the cart does not hold leaves the whole state unchanged |
| CartReducer.ChangeQuantityToZeroKeepsLine | context/cart/cartReducer.ts:45-46 | setting a held line's quantity to 0 keeps the line, with quantity 0, at the same position |
| CartReducer.RemoveLinesConcat | context/cart/cartReducer.ts:53 | removal distributes over concatenation, so the kept lines stay in their original order |
| CartReducer.RemoveKeepsOtherLines | context/cart/cartReducer.ts:50-54 | remove keeps exactly the non-matching lines; a single line is dropped if and only if it matches; removing an absent pair leaves the state unchanged; other fields are kept |
| CartReducer.UpdateSummarySetsTotals | context/cart/cartReducer.ts:56-60 | the four totals become the payload's; cart, loaded flag and address are preserved |
| CartReducer.AddressActionsOverwrite | context/cart/cartReducer.ts:62-67 | both address actions set the address to the payload and change nothing else, and both give the same state |
| CartReducer.OrderCompleteClearsCart | context/cart/cartReducer.ts:69-77 | order complete empties the cart and zeroes all four totals, keeping the address and the loaded flag |
| CartProvider.InitialStateIsEmpty | context/cart/CartProvider.tsx:20-28 | the initial state is unloaded, with an empty cart, zero totals and no address, and its totals agree with the cart for every tax rate |
| CartProvider.NumberOfItems | context/cart/CartProvider.tsx:71 | the item count of an empty cart is 0, and it is non-negative when every quantity is |
| CartProvider.SubTotal | context/cart/CartProvider.tsx:72 | the subtotal of an empty cart is 0 |
| CartProvider.TotalsFoldLeft | context/cart/CartProvider.tsx:71-72 | both sums equal the left fold `reduce` performs: the sum over all lines but the last plus the last line's quantity, or price times quantity |
| CartProvider.TotalsNonNegative | context/cart/CartProvider.tsx:71-72 | with non-negative prices and quantities, the item count and the subtotal are non-negative |
| CartProvider.TotalsConcat | context/cart/CartProvider.tsx:71-72 | the item count and the subtotal are 0 on an empty cart, one line's quantity and price times quantity on a single line, and add up over concatenation |
| CartProvider.ComputeSummary | context/cart/CartProvider.tsx:71-81 | the item count is the sum of the quantities, the subtotal the sum of price times quantity, the tax the subtotal times the tax rate, and `total == subTotal + tax`; with a tax rate of 0 the tax is 0 and the total is the subtotal; the empty cart gives four zeros |
| CartProvider.RefreshSummary | context/cart/CartProvider.tsx:70-84 | after the summary effect the totals agree with the cart: the item count is the sum of quantities and the subtotal the sum of line totals, the tax the subtotal times the tax rate and the total their sum; cart, flag and address are kept |
| CartProvider.AccumulateLines | context/cart/CartProvider.tsx:106-114 | same length; each line with the product's id and size gains the product's quantity and keeps its other fields; every other line is unchanged |
| CartProvider.UpsertLine | context/cart/CartProvider.tsx:98-115 | an absent id appends the product at the end; a present id without the same size also appends; a present (id, size) keeps the length, raises the matching lines' quantity and leaves the rest unchanged |
| CartProvider.UpsertMergesAt | context/cart/CartProvider.tsx:106-115 | with unique keys, the merge changes exactly the one matching line, by adding the product's quantity |
| CartProvider.UpsertKeepsNoDuplicates | context/cart/CartProvider.tsx:98-115 | a cart without duplicate (id, size) pairs has none after an add |
| CartProvider.UpsertKeys | context/cart/CartProvider.tsx:98-115 | an add puts the product's (id, size) among the cart's keys and adds no other key |
| CartProvider.UpsertAddsQuantity | context/cart/CartProvider.tsx:98-115 | with unique keys, an add raises the item count by exactly the product's quantity, and the quantity of the product's key by that amount, while all other keys keep theirs |
| CartProvider.UpsertSubTotalAppended | context/cart/CartProvider.tsx:98-103 | an appended product raises the subtotal by its own price times its quantity |
| CartProvider.UpsertSubTotalMerged | context/cart/CartProvider.tsx:106-115 | a merged add raises the subtotal by the merged line's own price times the added quantity |
| CartProvider.AddAllMergesByKey | context/cart/CartProvider.tsx:88-116 | after successive adds there are no duplicate keys, one line per distinct (id, size), and each key's quantity is its earlier quantity plus the sum added for it |
| CartProvider.AddProductRaisesItemCount | context/cart/CartProvider.tsx:88-116 | on a duplicate-free cart with current totals, `addProductToCart` followed by the summary effect raises `numberOfItems` by exactly the product's quantity and keeps keys unique |
| CartProvider.ScenarioFirstAdd | context/cart/CartProvider.tsx:98-99 | adding A/M (price 10, quantity 1) to an empty cart gives one line, 1 item, subtotal 10 |
| CartProvider.ScenarioSameSizeMerges | context/cart/CartProvider.tsx:106-115 | adding 2 more of A/M merges into that line: quantity 3, subtotal 30 |
| CartProvider.ScenarioOtherSizeAppends | context/cart/CartProvider.tsx:102-103 | adding A/L next appends a second line: 4 items, subtotal 40 |
| CartProvider.OrderBody | context/cart/CartProvider.tsx:139-155 | fails with "No hay dirección de entrega" if and only if there is no address; otherwise the items are the cart lines in order, the address and the four totals are copied and `isPaid` is false |
| CartProvider.CreateOrder | context/cart/CartProvider.tsx:139-179 | no address gives the thrown error and posts nothing; otherwise the posted body is `OrderBody`'s; on success the reply is the new order id without error, and the cart and totals are cleared; on a transport error the reply carries its message, otherwise the fixed fallback message; on both errors the state is unchanged |
| CartProvider.StoredItems | context/cart/CartProvider.tsx:39-46 | the LoadCart payload is the parsed lines, or empty when the cookie is missing or does not parse |
| CartProvider.Handle | context/cart/CartProvider.tsx:39-179 | the loaded flag ends true exactly when it was true or the event read the cart cookie; the cookie read sets the cart to the stored lines, an add to the upsert, a quantity change and a remove to the reducer's map and filter; both address events set the address and change nothing else, and no other event touches it; an order without an address or without success leaves the state unchanged, a successful one empties the cart and sets all four totals (count, subtotal, tax, total) to 0 |
| CartProvider.Run | context/cart/CartProvider.tsx:39-137 | after a run of events the cart counts as loaded exactly when it was before or some event read the cart cookie |
| CartProvider.HandleKeepsNoDuplicates | context/cart/CartProvider.tsx:39-179 | every event keeps the (id, size) keys unique when they were, provided a cookie read brings lines with unique keys |
| CartProvider.RunKeepsNoDuplicates | context/cart/CartProvider.tsx:39-137 | a run keeps the keys unique when every cookie it reads holds lines with unique keys |
| CartProvider.ScenarioDuplicateLinesBothAccumulate | context/cart/CartProvider.tsx:106-115 | on a cart holding A/M twice, adding one A/M accumulates into both lines, so the item count rises by 2 |
| CartProvider.HandleKeepsTotalsConsistent | context/cart/CartProvider.tsx:65-137 | each provider event, followed by the summary effect when it changed the cart, leaves the totals agreeing with the cart |
| CartProvider.RunKeepsTotalsConsistent | context/cart/CartProvider.tsx:65-137 | any sequence of events keeps the totals agreeing with the cart |
| CartProvider.RunFromInitialState | context/cart/CartProvider.tsx:20-84 | from the initial state, the totals agree with the cart after every sequence of events |
| DbProducts.Includes | database/dbProducts.ts:18 | the empty string is included in every string, and a match needs `sub` no longer than `s` |
| DbProducts.IncludesIffOccurs | database/dbProducts.ts:18 | `Includes(s, sub)` holds exactly when `sub` occurs at some position of `s` |
| DbProducts.NormalizeImage | database/dbProducts.ts:18 | an image containing "http" is returned unchanged; any other becomes host + "products/" + image; the image is always a suffix of the result |
| DbProducts.NormalizeImageIdempotent | database/dbProducts.ts:18 | when the host contains "http", every result contains "http" and normalising twice equals normalising once |
| DbProducts.NormalizeImages | database/dbProducts.ts:17-19 | the image list keeps its length and order, and each image is normalised in place |
| DbProducts.NormalizeProduct | database/dbProducts.ts:17-19 | the product's images are normalised and no other field changes |
| DbProducts.NormalizeProducts | database/dbProducts.ts:67-73 | the product list keeps its length and order; each product has its images normalised and all other fields unchanged |
| DbProducts.GetProductBySlug | database/dbProducts.ts:4-22 | a missing product gives null; a found one is returned with its images normalised and nothing else changed |
| DbProducts.LowerCase | database/dbProducts.ts:38 | the term keeps its length, each character is lower-cased, and no ASCII upper-case letter remains |
| DbProducts.LowerCaseIdempotent | database/dbProducts.ts:38 | lower-casing twice equals lower-casing once |
| DbProducts.GetProductsByTerm | database/dbProducts.ts:37-58 | the search receives the lower-cased term; the results keep their length and order and each has only its images normalised |

## Left out

- `components/admin/AdminNavbar.tsx`: presentation only. It wires a button to the side-menu toggle.
- Cookie persistence: writing the `cart` cookie on every cart change, the eight address cookies in `updateAddress`, and reading them back. The cookie read is an input: `StoredCart` says whether the cookie was missing, malformed or parsed. The address read is the event `AddressCookiesRead`; its `firstName` guard and `|| ''` defaults are cookie handling and are not modelled. So the write-then-read round trip of the mirror is not modelled either.
- React scheduling: `useReducer`, the `useEffect` dependency arrays and the context provider markup. The summary effect is modelled as running right after every event that gives the state a new cart.
- The POST to `/orders` and the classification of its errors. The outcome is an input (`OrderOutcome`). The reply's id (`data._id!`) is taken to be present.
- MongoDB connect, disconnect, `findOne`, `find`, `$text` search: every query result is an input, and the text search is a function parameter.
- The `.select` projections. `getProductsByTerm` really returns only title, images, price, inStock and slug. The model keeps whole records.
- `getAllProductSlugs`: a projection of a query, with no rewrite. `getAllProducts` is `NormalizeProducts` of the query result and `getProductBySlug` is `GetProductBySlug` of it. Both also pass the records through a JSON round trip (`dbProducts.ts:21`, `:75`), which turns the ObjectId `_id` and the Date fields into strings. `Product` holds that already-serialised form, with `id` a string, so the round trip is the identity on it and is not modelled as a step.
- Environment reads. The tax rate and `HOST_NAME` are parameters. An unset `HOST_NAME` turns into the text "undefined", and a non-numeric tax rate turns into NaN; neither is modelled.
- Duplicate keys from the cookie. The parsed `cart` cookie is loaded as it is, so it may hold two lines with the same `(id, size)`. On such a cart one add raises every matching line, so the item count rises by the product's quantity times the number of matching lines (`ScenarioDuplicateLinesBothAccumulate`). Unique keys are proved only for runs whose cookie reads bring unique keys.
- Interleaving during `createOrder`. The source awaits the POST (`CartProvider.tsx:158`) after building the body (`:144`) and before dispatching "Order complete" (`:161`). Events that run meanwhile would have their lines cleared without being posted. The model treats `PlaceOrder` as atomic: no event runs during the POST.
- IEEE floating point: prices and totals are exact reals.
- Aliasing. In the source, `item.quantity += product.quantity` in `addProductToCart` and `product.quantity = ...` in the quantity-change case also change the line objects of the previous state. So does reassigning `product.images` on the records a query returned. The model builds new values, so a line shared with an older state is not seen to change.
- DbProducts.LowerCase: lower-cases ASCII `A`–`Z` only. JavaScript's `toLowerCase` also maps non-ASCII letters, and Dafny has no Unicode case tables.
- The field lists of `ICartProduct`, `ShippingAddress`, `IOrder` and `IProduct`: the interfaces are not part of this model. The fields here are the ones the core reads, plus display fields.
- The commented-out code: the "Nivel 1/2" variants in `CartProvider.tsx` and the reducer snippet template.
