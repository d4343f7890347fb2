# NBM Shop client: a Dafny model of its state layer and page logic

NBM Shop is a React storefront. Its client state is a Redux store with five
slices, which this project models:

- `cart`: a client-local list of lines keyed by product and size;
- `wishlist`: a server-synced list of products;
- `orders`: order creation and the order history;
- `products`: a cached catalogue page, one current product and the add-product submission;
- `auth`: the signed-in user, mirrored in the browser's local storage.

It also models the decision logic of eight pages:

- the cart page;
- checkout: form validation, phone prefixing and the order it posts;
- the catalogue filter and sort;
- add-to-cart guards and the quantity stepper on the product page;
- the add-product form;
- the registration checks;
- the "newest 12" list;
- the order page: its loading fallback, displayed total and payment patch.

How the model is organised:

- **Slices are classes.** Each slice is a Dafny `class` whose fields are the slice's state.
  - Each reducer case (`pending`, `fulfilled`, `rejected`, plain reducers) is a `method` that changes those fields in place.
  - A `Dispatch…` method runs one thunk from `pending` to its settled case.
  - Every method is specified by a pure function of the old state.
  - The properties the code promises are lemmas about those functions.
- **Network answers are inputs.** An operation's network answer is a parameter of type `Outcome<T>`: a body, or one of three failure kinds (the server answered with an error status, nothing came back, or the request could not be built). A `Settled<T>` result also records whether a request was sent at all.
- **Local storage** is a class holding a `map<string, string>`. The auth thunks update it with `SetItem` and `RemoveItem`.
- **Page logic** is written as functions and lemmas, as the pages themselves are.
- **JavaScript falsiness** is written out:
  - `""` stands for an empty, `null` or `undefined` string;
  - a numeric `0` is falsy where the code tests a number;
  - `Or(a, b)` is `a || b` on strings.

Some behaviours of the code may surprise a reader; the model keeps them as written:

- `register.fulfilled` and `login.fulfilled` do not set the slice's `token` field; only the initial state and `logout` touch it (`AuthSlice.AuthState.SignInFulfilled`).
  - So, within one session, a signed-in user can have `isAuthenticated` true and `token` null.
  - After a failed session restore the reverse holds: `token` is still set while `isAuthenticated` is false (`AuthSlice.AuthState.CurrentUserRejected`).
- A response without token or user is reported with the operation's default message. It is not a failure kind of its own (`AuthSlice.SignInResult`).
- A failed session restore clears storage whatever the failure was, including a lost connection (`AuthSlice.CurrentUserStorage`).
- Some rejections put the raw server error body into the state rather than a message: `removeFromWishlist`, `fetchWishlist` and `addProduct` (`WishlistSlice.RawErrorData`, `ProductsSlice.AddProduct`).
- Only a stock of exactly `0` blocks add-to-cart (`ProductDetailPage.HandleAddToCart`).

## Model

| member | source | states |
|---|---|---|
| CartSlice.FindLine | src/features/cart/cartSlice.js:13-15 | `find` by (productId, size): the first matching index, or the length exactly when no line has the key |
| CartSlice.CartState.constructor | src/features/cart/cartSlice.js:5-9 | the initial cart is empty, not loading, without error |
| CartSlice.CartState.AddToCart | src/features/cart/cartSlice.js:11-29 | the new lines are `AddLine` of the old ones; unique keys stay unique; `loading` and `error` untouched |
| CartSlice.CartState.UpdateCartItemQuantity | src/features/cart/cartSlice.js:30-38 | the new lines are `SetQuantity` of the old ones; the line count is unchanged; unique keys stay unique; `loading` and `error` untouched |
| CartSlice.CartState.RemoveFromCart | src/features/cart/cartSlice.js:39-44 | the new lines are `RemoveKey` of the old ones, and no line with the key remains; unique keys stay unique; `loading` and `error` untouched |
| CartSlice.CartState.ClearCart | src/features/cart/cartSlice.js:45-47 | `items` becomes empty; `loading` and `error` untouched |
| CartSlice.FindLineUnique | src/features/cart/cartSlice.js:13-15 | with unique keys, looking up line j's key finds j |
| CartSlice.AddMergesExisting | src/features/cart/cartSlice.js:17-18 | an existing key: that line's quantity grows by the added amount; the count and every other line are unchanged |
| CartSlice.AddAppendsNew | src/features/cart/cartSlice.js:19-28 | a new key: exactly the payload line is appended at the end |
| CartSlice.AddKeepsUniqueKeys | src/features/cart/cartSlice.js:11-29 | adding keeps (productId, size) keys unique |
| CartSlice.NoKeyInTail | src/features/cart/cartSlice.js:13-15 | a key absent from a list is absent from its tail |
| CartSlice.FindLineAtEnd | src/features/cart/cartSlice.js:13-15 | a key absent from the list is found at the line just appended |
| CartSlice.AddTwiceMerges | src/features/cart/cartSlice.js:11-29 | two adds of the same new key give one line whose quantity is the sum |
| CartSlice.SetQuantityOnlyMatching | src/features/cart/cartSlice.js:30-38 | only the matching line gets the new quantity, even one below 1; the others are unchanged |
| CartSlice.SetQuantityKeepsUniqueKeys | src/features/cart/cartSlice.js:30-38 | setting a quantity keeps the (productId, size) keys unique |
| CartSlice.SetQuantityAbsent | src/features/cart/cartSlice.js:35-37 | an absent key changes nothing |
| CartSlice.RemoveKeyDrops | src/features/cart/cartSlice.js:39-44 | after removal no line has the key, and exactly the other lines remain |
| CartSlice.RemoveKeyKeepsUniqueKeys | src/features/cart/cartSlice.js:39-44 | removing a key keeps the (productId, size) keys unique |
| CartSlice.ReduceKeepsUniqueKeys | src/features/cart/cartSlice.js:10-48 | every reducer of the slice (`Reduce`, one case per action) keeps the (productId, size) keys unique |
| CartSlice.RemoveKeyAppend | src/features/cart/cartSlice.js:41-43 | removal distributes over concatenation, so the kept lines keep their order |
| CartSlice.RemoveKeyAbsent | src/features/cart/cartSlice.js:41-43 | removing an absent key changes nothing |
| CartSlice.RemoveKeyIdempotent | src/features/cart/cartSlice.js:39-44 | removing twice equals removing once |
| WishlistSlice.AddFailureMessage | src/features/wishlist/wishlistSlice.js:15-19 | the add rejection message is `details`, else `message`, else the default, and never empty |
| WishlistSlice.AddToWishlist | src/features/wishlist/wishlistSlice.js:5-22 | on success resolves with the product it was given; on failure with the chosen message |
| WishlistSlice.RawErrorData | src/features/wishlist/wishlistSlice.js:32 | the rejection carries the server's error body, and nothing when there is none |
| WishlistSlice.RemoveFromWishlist | src/features/wishlist/wishlistSlice.js:25-35 | resolves with the id it was given, or rejects with the raw error body |
| WishlistSlice.FetchWishlist | src/features/wishlist/wishlistSlice.js:38-48 | resolves with the server's list, or rejects with the raw error body |
| WishlistSlice.WishlistState.constructor | src/features/wishlist/wishlistSlice.js:52-56 | the initial wishlist is empty, not loading, without error |
| WishlistSlice.WishlistState.Pending | src/features/wishlist/wishlistSlice.js:61-64 | loading on, error cleared, items unchanged (all three operations) |
| WishlistSlice.WishlistState.Rejected | src/features/wishlist/wishlistSlice.js:72-75 | loading off, the payload becomes the error, items unchanged (all three operations) |
| WishlistSlice.WishlistState.AddFulfilled | src/features/wishlist/wishlistSlice.js:65-71 | appends the product only when its id is absent; a duplicate-free list stays duplicate-free |
| WishlistSlice.WishlistState.RemoveFulfilled | src/features/wishlist/wishlistSlice.js:82-85 | items become `WithoutId` of the old items |
| WishlistSlice.WishlistState.FetchFulfilled | src/features/wishlist/wishlistSlice.js:96-99 | items are replaced wholesale |
| WishlistSlice.WishlistState.DispatchAddToWishlist | src/features/wishlist/wishlistSlice.js:5-22 | a success adds the product if its id is absent; a failure leaves items and records the message |
| WishlistSlice.WishlistState.DispatchRemoveFromWishlist | src/features/wishlist/wishlistSlice.js:25-35 | a success drops the id; a failure leaves items and records the raw body |
| WishlistSlice.WishlistState.DispatchFetchWishlist | src/features/wishlist/wishlistSlice.js:38-48 | a success replaces items; a failure leaves them and records the raw body |
| WishlistSlice.AddIfAbsentContents | src/features/wishlist/wishlistSlice.js:65-71 | after an add the id is listed; the list grows by one exactly when the id was absent; earlier products stay in place |
| WishlistSlice.AddKeepsNoDuplicates | src/features/wishlist/wishlistSlice.js:67-70 | a list without duplicate ids stays without after an add |
| WishlistSlice.WithoutIdDrops | src/features/wishlist/wishlistSlice.js:84 | after removal no product has the id, and exactly the others remain |
| WishlistSlice.WithoutIdAppend | src/features/wishlist/wishlistSlice.js:84 | removal distributes over concatenation: the rest keep their order |
| WishlistSlice.WithoutAbsentId | src/features/wishlist/wishlistSlice.js:84 | removing an unlisted id changes nothing |
| OrdersSlice.CreateFailureMessage | src/features/orders/ordersSlice.js:21-25 | the creation error message is `data.message`, else `data.error`, else the error's message, else the default |
| OrdersSlice.CreateOrder | src/features/orders/ordersSlice.js:5-33 | no order lines rejects with 'Aucun article dans la commande' and no request; otherwise the server's order, or `{message, status, details}` |
| OrdersSlice.FetchFailureMessage | src/features/orders/ordersSlice.js:46-49 | a fetch rejection message is `data.message`, else the operation's default |
| OrdersSlice.FetchUserOrders | src/features/orders/ordersSlice.js:37-52 | resolves with the server's list, or rejects with the message |
| OrdersSlice.FetchOrderById | src/features/orders/ordersSlice.js:55-68 | resolves with the server's order, or rejects with the message |
| OrdersSlice.EmptyOrderIgnoresNetwork | src/features/orders/ordersSlice.js:12-14 | without order lines, creation sends nothing and its outcome does not depend on the network |
| OrdersSlice.OrdersState.constructor | src/features/orders/ordersSlice.js:70-76 | the initial state: no orders, no current order, not loading, no error, no success |
| OrdersSlice.OrdersState.ClearOrderError | src/features/orders/ordersSlice.js:82-84 | only `error` changes, to null |
| OrdersSlice.OrdersState.ClearOrderSuccess | src/features/orders/ordersSlice.js:85-87 | only `success` changes, to false |
| OrdersSlice.OrdersState.CreatePending | src/features/orders/ordersSlice.js:92-96 | loading on; error and success cleared |
| OrdersSlice.OrdersState.CreateFulfilled | src/features/orders/ordersSlice.js:97-101 | the order becomes current and `success` is set; the history is untouched |
| OrdersSlice.OrdersState.CreateRejected | src/features/orders/ordersSlice.js:102-106 | the payload becomes the error and `success` is false |
| OrdersSlice.OrdersState.FetchPending | src/features/orders/ordersSlice.js:108-111 | loading on, error cleared (both fetches) |
| OrdersSlice.OrdersState.FetchUserOrdersFulfilled | src/features/orders/ordersSlice.js:112-115 | replaces the history only |
| OrdersSlice.OrdersState.FetchOrderByIdFulfilled | src/features/orders/ordersSlice.js:125-128 | replaces the current order only |
| OrdersSlice.OrdersState.FetchRejected | src/features/orders/ordersSlice.js:116-119 | the payload becomes the error (both fetches) |
| OrdersSlice.OrdersState.DispatchCreateOrder | src/features/orders/ordersSlice.js:5-33 | `success` holds exactly when the order had lines and the server accepted it; then the order is current |
| OrdersSlice.OrdersState.DispatchFetchUserOrders | src/features/orders/ordersSlice.js:37-52 | a success replaces the history; a failure keeps it and records the message |
| OrdersSlice.OrdersState.DispatchFetchOrderById | src/features/orders/ordersSlice.js:55-68 | a success replaces the current order; a failure keeps it and records the message |
| ProductsSlice.ClassifyFailure | src/features/products/productsSlice.js:62-82 | a server error gives `{message, status}`; no response gives 'Aucune réponse du serveur'; otherwise the error's message |
| ProductsSlice.FetchProducts | src/features/products/productsSlice.js:5-85 | missing data, missing `products` and a non-array each reject with their own message; a failure is classified |
| ProductsSlice.MalformedProductsFound | src/features/products/productsSlice.js:44-46 | the filter is non-empty exactly when some product lacks name, price or category |
| ProductsSlice.FetchProductsValidation | src/features/products/productsSlice.js:43-57 | one malformed product rejects the batch; otherwise all products with `totalPages` (or 1) and `currentPage` (or the page asked) |
| ProductsSlice.ImageEntries | src/features/products/productsSlice.js:96-100 | one 'images' entry per file, in order |
| ProductsSlice.FormDataFailurePersists | src/features/products/productsSlice.js:95-107 | once a key fails to serialise, the whole record does |
| ProductsSlice.BuildFormData | src/features/products/productsSlice.js:92-107 | the appending loop builds exactly `FormDataOf` of the record |
| ProductsSlice.FormDataShape | src/features/products/productsSlice.js:95-107 | each image under 'images', the sizes as one JSON entry, every other key with its value; nothing else |
| ProductsSlice.FormDataSucceeds | src/features/products/productsSlice.js:96-100 | the form is built exactly when every 'images' value is a list of files |
| ProductsSlice.AddProduct | src/features/products/productsSlice.js:88-120 | a request is sent exactly when the form builds; resolves with the created product, else the error body or the default |
| ProductsSlice.FetchProductById | src/features/products/productsSlice.js:123-133 | resolves with the product, or rejects with `data.message` or the default |
| ProductsSlice.FetchProductsByCategory | src/features/products/productsSlice.js:136-150 | resolves with `data.products` as it is, a missing or non-array value included; missing data or a failure rejects with the message or the default |
| ProductsSlice.CategoryListResolved | src/features/products/productsSlice.js:136-145 | a body's product list is resolved unvalidated, and a body without `products` still resolves |
| ProductsSlice.ProductsState.constructor | src/features/products/productsSlice.js:154-163 | the initial state: no items, 0 pages, page 1, nothing selected |
| ProductsSlice.ProductsState.SetSelectedCategory | src/features/products/productsSlice.js:165-167 | only the selected category changes |
| ProductsSlice.ProductsState.Pending | src/features/products/productsSlice.js:171-174 | loading on, error cleared, the cached page kept (all four operations) |
| ProductsSlice.ProductsState.Rejected | src/features/products/productsSlice.js:181-184 | only `loading` and `error` change (all four operations) |
| ProductsSlice.ProductsState.FetchProductsFulfilled | src/features/products/productsSlice.js:175-180 | the page replaces items, totalPages and currentPage |
| ProductsSlice.ProductsState.AddProductFulfilled | src/features/products/productsSlice.js:191-195 | the created product is appended and `productToAdd` cleared |
| ProductsSlice.ProductsState.FetchProductByIdFulfilled | src/features/products/productsSlice.js:206-209 | only the current product is replaced |
| ProductsSlice.ProductsState.FetchByCategoryFulfilled | src/features/products/productsSlice.js:220-223 | items are replaced by a list payload (a non-list payload leaves no items); the pagination, `productToAdd`, the category and the current product are not touched |
| ProductsSlice.ProductsState.DispatchFetchProducts | src/features/products/productsSlice.js:5-85 | a valid page replaces the cache; any rejection keeps it and records the error; `productToAdd`, the category and the current product are kept |
| ProductsSlice.ProductsState.DispatchAddProduct | src/features/products/productsSlice.js:88-120 | a success appends the product and clears `productToAdd`; a failure keeps the items and `productToAdd` and records the error; pagination, category and current product are kept |
| ProductsSlice.ProductsState.DispatchFetchProductById | src/features/products/productsSlice.js:123-133 | a success sets the current product; a failure keeps it and records the message; items, pagination, `productToAdd` and the category are kept |
| ProductsSlice.ProductsState.DispatchFetchProductsByCategory | src/features/products/productsSlice.js:136-150 | a success replaces the items (none for a non-list payload); a failure keeps them and records the message; pagination, `productToAdd`, category and current product are kept |
| AuthSlice.LocalStorage.constructor | src/features/auth/authSlice.js:141-156 | storage holds the given entries |
| AuthSlice.LocalStorage.GetItem | src/features/auth/authSlice.js:142 | the stored string for a key, or null when absent |
| AuthSlice.LocalStorage.SetItem | src/features/auth/authSlice.js:13 | one key is set; the others are kept |
| AuthSlice.LocalStorage.RemoveItem | src/features/auth/authSlice.js:105-106 | one key is removed; the others are kept |
| AuthSlice.StoredToken | src/features/auth/authSlice.js:118-121 | a truthy stored token, exactly when 'token' holds a non-empty string |
| AuthSlice.AuthMessage | src/features/auth/authSlice.js:31-35 | `data.message`, else `data.errors[0].msg`, else the default; never empty |
| AuthSlice.CleanUser | src/features/auth/authSlice.js:16-22 | the user restricted to id, username, email, firstName and lastName, with their values |
| AuthSlice.SignInResult | src/features/auth/authSlice.js:5-38 | succeeds exactly with both token and user, giving the cleaned user; otherwise the default or extracted message |
| AuthSlice.SignInStorage | src/features/auth/authSlice.js:12-28 | token and cleaned user are written only for an accepted response; otherwise storage is untouched |
| AuthSlice.SignIn | src/features/auth/authSlice.js:41-74 | the step-by-step writes leave `SignInStorage`, and the result is `SignInResult` |
| AuthSlice.SignInStoresWhatItReturns | src/features/auth/authSlice.js:12-25 | after a sign-in storage holds the token and exactly the allow-listed user returned; a rejection wrote nothing |
| AuthSlice.UpdateResult | src/features/auth/authSlice.js:77-100 | resolves with the server's user, or the extracted message with the update default |
| AuthSlice.UpdateStorage | src/features/auth/authSlice.js:89 | the whole returned user replaces 'user'; a failure writes nothing |
| AuthSlice.UpdateUserProfile | src/features/auth/authSlice.js:77-100 | the writes leave `UpdateStorage`, and the result is `UpdateResult` |
| AuthSlice.SignedOut | src/features/auth/authSlice.js:103-111 | both session keys are gone, no token is left, the other keys are kept |
| AuthSlice.Logout | src/features/auth/authSlice.js:103-111 | logout's removals leave `SignedOut` storage |
| AuthSlice.CurrentUser | src/features/auth/authSlice.js:114-137 | no stored token rejects 'Aucun token trouvé' with no request; otherwise the user, or the fixed message |
| AuthSlice.CurrentUserStorage | src/features/auth/authSlice.js:118-135 | storage is cleared only when a request was sent and failed |
| AuthSlice.GetCurrentUser | src/features/auth/authSlice.js:114-137 | the step-by-step version meets `CurrentUser` and `CurrentUserStorage` |
| AuthSlice.FailedRestoreSignsOut | src/features/auth/authSlice.js:130-135 | after a failed restore no session keys remain, and the next restore rejects without a request |
| AuthSlice.HydratedUser | src/features/auth/authSlice.js:142-151 | the initial user is the parsed stored user; null when absent or unparsable |
| AuthSlice.HydratedStorage | src/features/auth/authSlice.js:142-151 | only an unparsable stored user is removed; the token is untouched |
| AuthSlice.ReadStoredUser | src/features/auth/authSlice.js:142-151 | reading the stored user gives `HydratedUser` and leaves `HydratedStorage` |
| AuthSlice.AuthState.constructor | src/features/auth/authSlice.js:141-156 | `isAuthenticated` is true exactly when a token is stored; the user is hydrated |
| AuthSlice.AuthState.Pending | src/features/auth/authSlice.js:161-164 | loading on, error cleared, the session kept |
| AuthSlice.AuthState.SignInFulfilled | src/features/auth/authSlice.js:165-170 | the user is set and authenticated; `token` is left as it was |
| AuthSlice.AuthState.SignInRejected | src/features/auth/authSlice.js:171-176 | signed out with the error, whatever the prior state |
| AuthSlice.AuthState.UpdateFulfilled | src/features/auth/authSlice.js:201-204 | the user is replaced; authentication untouched |
| AuthSlice.AuthState.UpdateRejected | src/features/auth/authSlice.js:205-208 | the error is recorded; the session is kept |
| AuthSlice.AuthState.LogoutFulfilled | src/features/auth/authSlice.js:212-217 | user, token, authentication and error all cleared |
| AuthSlice.AuthState.CurrentUserPending | src/features/auth/authSlice.js:220-222 | loading on; the error is not reset |
| AuthSlice.AuthState.CurrentUserFulfilled | src/features/auth/authSlice.js:223-227 | the user is set and authenticated |
| AuthSlice.AuthState.CurrentUserRejected | src/features/auth/authSlice.js:228-231 | signed out; token and error left as they were |
| AuthSlice.AuthState.DispatchRegister | src/features/auth/authSlice.js:5-38 | storage and state follow `SignInResult` with the registration default |
| AuthSlice.AuthState.DispatchLogin | src/features/auth/authSlice.js:41-74 | storage and state follow `SignInResult` with the login default |
| AuthSlice.AuthState.DispatchUpdateUserProfile | src/features/auth/authSlice.js:77-100 | a success replaces the user; a failure keeps it and records the message |
| AuthSlice.AuthState.DispatchLogout | src/features/auth/authSlice.js:103-111 | storage signed out and state cleared; it always fulfils |
| AuthSlice.AuthState.DispatchGetCurrentUser | src/features/auth/authSlice.js:114-137 | a restored user is authenticated; any rejection signs out |
| Sorting.InsertPermutation | src/pages/ProductList.jsx:49 | an insertion adds exactly that element |
| Sorting.SortPermutation | src/pages/ProductList.jsx:49 | the sort is a permutation of its input |
| Sorting.InsertSortedByKey | src/pages/ProductList.jsx:49-62 | with a key-difference comparator, inserting keeps key order |
| Sorting.SortSortedByKey | src/pages/ProductList.jsx:49-62 | with a key-difference comparator, the sort is ordered by key |
| Sorting.SortAllEqual | src/pages/ProductList.jsx:59-60 | a comparator that always answers 0 keeps the order (the sort is stable) |
| CartPage.QuantityChange | src/pages/Cart.jsx:12-18 | a quantity below 1 dispatches removal of that key; any other dispatches an update |
| CartPage.Total | src/pages/Cart.jsx:24-26 | the empty cart totals 0 |
| CartPage.TotalSingle | src/pages/Cart.jsx:24-26 | a one-line cart totals price × quantity; with `TotalAppend`, the total is the sum of price × quantity over the lines |
| CartPage.CheckoutRoute | src/pages/Cart.jsx:28-34 | '/checkout' exactly when authenticated, '/login' otherwise |
| CartPage.QuantityChangeKeepsPositive | src/pages/Cart.jsx:12-18 | whatever quantity the page gets, every line keeps a quantity of at least 1 |
| CartPage.ButtonsKeepPositive | src/pages/Cart.jsx:85-96 | the +/- buttons (`Decrement`, `Increment`) never leave a line below 1; minus on a line at 1 removes it |
| CartPage.RemoveItemRemovesLine | src/pages/Cart.jsx:20-22 | the remove button (`RemoveItem`) drops exactly the lines with that key |
| CartPage.TotalAppend | src/pages/Cart.jsx:24-26 | the total of a concatenation is the sum of the totals |
| CartPage.TotalUpdate | src/pages/Cart.jsx:24-26 | replacing a line changes the total by that line's difference |
| CartPage.AddToCartTotal | src/pages/Cart.jsx:24-26 | an add raises the total by the added quantity at the price of the line it lands on |
| CartPage.TotalNonNegative | src/pages/Cart.jsx:24-26 | non-negative prices and quantities give a non-negative total |
| CheckoutPage.FindCountryIn | src/pages/Checkout.jsx:135-137 | `find` by name: the first country with that name, or none exactly when no country has it |
| CheckoutPage.InitialForm | src/pages/Checkout.jsx:40-52 | the form starts with France and '+33' and the eight address fields |
| CheckoutPage.InputChange | src/pages/Checkout.jsx:70-95 | the edited field is set; a country also sets its code, or '+33' when unknown; the rest is kept |
| CheckoutPage.MissingIn | src/pages/Checkout.jsx:119-122 | no field is missing exactly when every required field is non-empty |
| CheckoutPage.WithCountryCode | src/pages/Checkout.jsx:144-153 | a '+' number is kept; another loses at most one leading '0' and gets the code in front |
| CheckoutPage.FormatPhoneNumber | src/pages/Checkout.jsx:144-153 | the reassignments give `WithCountryCode`: the code, then the number with at most one '0' dropped |
| CheckoutPage.ToOrderItems | src/pages/Checkout.jsx:160-165 | one order item per cart line, in order, with the line's product, size, quantity and price |
| CheckoutPage.Validate | src/pages/Checkout.jsx:112-176 | required fields, then e-mail, then country, then phone are checked in order, each failure giving its own message; once the first three pass, the order is ready exactly when the formatted phone number is valid; a ready order has the cart's items |
| CheckoutPage.PayloadMessage | src/pages/Checkout.jsx:197-200 | the rejection's `message`, else the generic order message; never empty |
| CheckoutPage.Send | src/pages/Checkout.jsx:178-206 | an invalid form sends nothing; a valid one is placed exactly when the server accepts it |
| CheckoutPage.SubmittedOrderMatchesCart | src/pages/Checkout.jsx:160-176 | the posted order is the cart line for line, with its total and the formatted phone and code |
| CheckoutPage.CartClearedOnlyWhenPlaced | src/pages/Checkout.jsx:178-206 | the cart is emptied exactly when the order is placed |
| CheckoutPage.SubmitClearsCartOnlyWhenPlaced | src/pages/Checkout.jsx:112-206 | for a whole submission (`Submit`: `Validate` then `Send`) and the cart left after it (`CartAfter`), the cart is emptied exactly when the form is valid and the server accepts |
| ProductListPage.Lower | src/pages/ProductList.jsx:38 | `toLowerCase` keeps the length and lowers each character |
| ProductListPage.FilterProducts | src/pages/ProductList.jsx:35-47 | the filtered list is no longer than the catalogue and every product in it passes `Keep` |
| ProductListPage.FilterIsSubsequence | src/pages/ProductList.jsx:35-47 | the filtered list (`FilterProducts`) keeps catalogue order, holding exactly the products that pass |
| ProductListPage.KeptProductsMatch | src/pages/ProductList.jsx:37-46 | unfolding the filter predicate `Keep`, a kept product matches every set control: category, brand, price range, name search |
| ProductListPage.NoFiltersKeepAll | src/pages/ProductList.jsx:14-20 | with all controls unset, nothing is filtered out |
| ProductListPage.ViewIsPermutationOfFiltered | src/pages/ProductList.jsx:49-62 | whatever `Comparator` `sortBy` picks, the view (`View`) is a permutation of the filtered list |
| ProductListPage.PriceAscending | src/pages/ProductList.jsx:51-52 | 'price-asc' gives non-decreasing prices |
| ProductListPage.PriceDescending | src/pages/ProductList.jsx:53-54 | 'price-desc' gives non-increasing prices |
| ProductListPage.UnknownSortKeepsOrder | src/pages/ProductList.jsx:59-60 | any other sort key keeps the filtered order |
| ProductDetailPage.FindSize | src/pages/ProductDetail.jsx:27 | `find` by size: a matching entry, or none exactly when no entry has that size |
| ProductDetailPage.HandleAddToCart | src/pages/ProductDetail.jsx:21-40 | no size is refused first; a size not in the product throws; a stock of 0 is refused; exactly a found size with non-zero stock adds one line with the product's fields and the quantity |
| ProductDetailPage.AddedLineInCart | src/pages/ProductDetail.jsx:33-40 | an added line for a new key lands at the end of the cart with the chosen size and quantity |
| ProductDetailPage.PressesStayInRange | src/pages/ProductDetail.jsx:207-216 | from any quantity in 1..10, any presses (`Press`) keep it in 1..10 |
| ProductDetailPage.StepperBounds | src/pages/ProductDetail.jsx:207-216 | one press of minus or plus (`Decrement`, `Increment`) moves the quantity by at most one and stops at 1 and 10 |
| ProductDetailPage.StepperQuantityPositive | src/pages/ProductDetail.jsx:14 | starting from 1, the quantity always stays in 1..10 |
| AddProductPage.AddSize | src/pages/AddProduct.jsx:37-48 | with both inputs filled, one size is appended and the inputs cleared; otherwise nothing changes |
| AddProductPage.WithoutIndexSpec | src/pages/AddProduct.jsx:53 | the index filter (`WithoutIndex`) drops exactly that index; an index out of range changes nothing |
| AddProductPage.RemoveSize | src/pages/AddProduct.jsx:50-55 | exactly size i is removed and the other fields are kept |
| AddProductPage.Submit | src/pages/AddProduct.jsx:57-83 | an empty name, description or price aborts; a success resets the form; a failure keeps it |
| AddProductPage.CompleteFormIsPosted | src/pages/AddProduct.jsx:61-67 | a complete form's record (`Record`) is posted with its images, its sizes as JSON and its name |
| RegisterPage.HandleChange | src/pages/auth/Register.jsx:21-23 | the edited field is set and the others kept; the six fields stay present |
| RegisterPage.Payload | src/pages/auth/Register.jsx:43 | the sent data is the form without `confirmPassword`, every other field unchanged |
| RegisterPage.Check | src/pages/auth/Register.jsx:29-41 | a mismatch is reported first, then a password under 6 characters; otherwise the form may be sent |
| RegisterPage.RejectionToast | src/pages/auth/Register.jsx:53-57 | a string payload is shown as is; any other is replaced by the generic message |
| RegisterPage.Submit | src/pages/auth/Register.jsx:25-57 | a refused form sends nothing; registration succeeds exactly for an accepted response, with the cleaned user |
| RegisterPage.Route | src/pages/auth/Register.jsx:48-52 | the page goes to '/' exactly after a successful registration |
| RegisterPage.MismatchBeforeLength | src/pages/auth/Register.jsx:29-41 | mismatched passwords are reported even when also too short |
| RegisterPage.SentOnlyWhenValid | src/pages/auth/Register.jsx:29-43 | only matching passwords of at least 6 characters are sent, without the confirmation |
| RegisterPage.RejectionToastIsSliceMessage | src/pages/auth/Register.jsx:53-57 | register always rejects with a string, so the toast is the slice's message |
| NouveautePage.Newest | src/pages/Nouveaute.jsx:19-21 | the list has min(12, n) products |
| NouveautePage.Update | src/pages/Nouveaute.jsx:16-25 | an empty catalogue keeps the previous list; otherwise the newest list, non-empty and at most 12 |
| NouveautePage.SortedNewestFirst | src/pages/Nouveaute.jsx:20 | the sorted catalogue never increases in creation date |
| NouveautePage.NewestIsOrdered | src/pages/Nouveaute.jsx:19-21 | the list shown is newest first |
| NouveautePage.NewestComesFromProducts | src/pages/Nouveaute.jsx:19-21 | every shown product comes from the catalogue; up to 12 products are shown whole |
| NouveautePage.PrefixIsNewest | src/pages/Nouveaute.jsx:20-21 | in a newest-first list, nothing past position n is newer than anything before it |
| NouveautePage.LeftOutAreNoNewer | src/pages/Nouveaute.jsx:19-21 | no product left out is newer than a product shown |
| OrderDetailsPage.Loaded | src/pages/OrderDetails.jsx:129-155 | a body replaces the order; a missing body becomes the empty order; a failure records `data.message` or the default |
| OrderDetailsPage.DisplayTotal | src/pages/OrderDetails.jsx:157-160 | the total plus shipping, a missing amount counting as 0 |
| OrderDetailsPage.Render | src/pages/OrderDetails.jsx:162-330 | spinner, then error, then not-found for an empty id; the pay button shows exactly when unpaid |
| OrderDetailsPage.PaymentSuccess | src/pages/OrderDetails.jsx:199-208 | the modal closes and the order is paid, 'Payée', dated now; every other field kept |
| OrderDetailsPage.EmptyResponseNotFound | src/pages/OrderDetails.jsx:134-145 | a response without a body renders the not-found view |
| OrderDetailsPage.FailedLoadShowsError | src/pages/OrderDetails.jsx:147-151 | a failed load renders its message |
| OrderDetailsPage.PaymentHidesPayButton | src/pages/OrderDetails.jsx:199-208 | after payment the order is shown paid, with the same total and no pay button |
| OrderDetailsPage.PaymentSuccessTwice | src/pages/OrderDetails.jsx:199-208 | a repeated payment notification only moves the payment date |

## Left out

- ProductsSlice.ProductsState.FetchByCategoryFulfilled: when `fetchProductsByCategory` resolves with a `products` value that is missing or not an array, the code stores that value as `items`; the model's `items` is always a list, so it stores the empty list instead.
- ProductsSlice.ProductsState.DispatchFetchProductsByCategory: follows `FetchByCategoryFulfilled`, so a resolved non-list `products` value leaves the empty list rather than that value.
- Network calls, the HTTP instance and its interceptors (src/utils/axios.js, including the stray request it makes when loaded). Every answer is a parameter.
- The ordering of concurrent thunks. The last one to settle wins, which is asynchronous scheduling. Each `Dispatch…` method runs one thunk from pending to settled without interruption.
- The store wiring in src/app/store.js. The stale duplicate slice in src/features/product/productSlice.js is not wired into the store and is not part of this model.
- Console logging and toasts. A toast's text is modelled where the code chooses it; its display is not.
- The Stripe payment form of the order page, currency formatting with `Intl.NumberFormat`, `toFixed`, and the cents conversion with `Math.round`. The pay button's amount in that form adds the two prices without the `|| 0` fallback; that form is not part of this model.
- Regular expressions are parameters: the e-mail pattern, the per-country phone patterns, and the leading-'0' replacement, which is written out.
- `localeCompare` is a parameter. Only the two price sorts are proved sorted; the name sorts are proved to be permutations, as is every sort.
- `Array.prototype.sort` is modelled as a stable insertion sort. Its behaviour with an inconsistent comparator is not modelled.
- Number parsing is not modelled:
  - `parseFloat` and `parseInt` of the size inputs are parameters (`AddProductPage.AddSize`);
  - `Number` on the price range is taken as already parsed (`ProductListPage.PriceRange`);
  - a `NaN` price or date is not modelled.
- CheckoutPage.ToOrderItems: the size is sent as the cart line's string. The code sends `parseFloat(size)`, and `parseInt(quantity)` and `parseFloat(price)` are identities on the integer amounts the model uses.
- Prices are integers. Fractional prices (the add-product form takes cents) and the floating-point rounding of the `reduce` totals in the cart and checkout pages are not modelled; the exact sums of `CartPage.TotalAppend` and `CartPage.TotalUpdate` hold for integers.
- Dates are integer timestamps; `new Date()` is the `now` parameter of `OrderDetailsPage.PaymentSuccess`.
- `JSON.stringify` and `JSON.parse` of the stored user are parameters. `CleanUser` leaves out a field the response lacks, which is what serialising `undefined` does.
- ProductListPage.Lower: only ASCII letters are lowered. `toLowerCase` also lowers other letters.
- RegisterPage.Check: a password's length is counted in characters. JavaScript counts UTF-16 code units, so a password with characters outside the Basic Multilingual Plane can differ.
- RegisterPage.Submit: the `catch` branch (lines 63-71) is not modelled. A dispatched thunk settles rather than throws, so that branch cannot run.
- `typeof` tests other than the ones modelled: a `Sizes` list under the key 'images' stands for any value without `forEach` (`ProductsSlice.FieldEntries`).
- The page-local `handleInputChange` and `handleImageChange` of the add-product page are record updates and are not modelled separately.
- Presentation-only pages and components, and the contact form's raw post.
