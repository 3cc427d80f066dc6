# Storefront cart, order and payment model

This project is a Dafny model of the core of a skincare storefront. The
storefront has an Express/Mongoose back end and a React front end.

Back end:
- The per-user **cart** routes: fetch the cart (creating it when missing),
  add a product, set a line's quantity, remove a line, clear the cart.
- The **order** routes: list the caller's orders newest first, fetch one
  order, and create an order from the cart. Creating an order prices the
  cart's lines from the live catalog, applies the shipping rule and empties
  the cart.
- The **payment** routes: create a gateway order and store a pending order
  for it; verify the gateway's HMAC signature and mark that order
  completed.
- The **Product** and **Order** document schemas: required paths,
  enumerations, minimums, trimming and defaults.

Front end:
- The API client: base URL, headers, how a response is classified, how
  network errors are rewritten, the product query string.
- The shared cart state: refresh, the four mutators, the badge count.
- The cart page (stepper, visible lines, summary) and the checkout page
  (totals, initial address, redirect, payment request).
- The shop page's category and URL-parameter handling, and the
  favourites toggle it shares with the featured-products section.
- The skin quiz and its recommendations, the product modal's reviews,
  average rating and add-to-cart button, and the registration form's
  checks.

One rule runs through three places: shipping is free strictly above 150
and a flat 15 otherwise. The order route, the cart page and the checkout
page all apply it. `Pricing` states it once, and lemmas connect the
three. `CheckoutPage.SubmittedMatchesServerOrder` proves that, for a cart
showing the server's lines, the amount checkout requests equals the total
of the order the order route would create.

State the source updates in place is modelled by classes:
- `CartRoutes.CartCollection`: a map from user to cart lines, plus the
  next line id.
- `OrderRoutes.OrderCollection`: the stored orders, plus the next order id.
- `CartContext.CartState`, `ShopPage.ShopState`, `QuizPage.QuizState`,
  `ProductModal.ReviewPanel` and `Favorites.FavoriteSet`: React component
  state.

Their methods change the fields named in `modifies` and state the whole new
state. Logic that only computes is modelled by functions and lemmas.

Some inputs become parameters:
- HMAC-SHA-256 (RFC 2104 over FIPS 180-4) is the parameter
  `hmac(key, message)`.
- The payment gateway's reply is a parameter: the gateway order id, or
  `None` when the call throws.
- What `fetch` produced is a parameter.
- Whether the visitor is signed in is a parameter.
- Timestamps and review ids are parameters.

Database ids are natural numbers.

## Model

| member | source | states |
|---|---|---|
| Pricing.Shipping | server/routes/order.routes.js:64 | the fee is 0 or 15, and 0 exactly when the subtotal is above 150 |
| Pricing.Total | server/routes/order.routes.js:64-65 | the total exceeds the subtotal by exactly the shipping fee; above the threshold they are equal |
| Pricing.TotalDropsAcrossThreshold | server/routes/order.routes.js:64-65 | a subtotal of exactly 150 costs 165 while 151 costs 151; an empty cart costs 15 |
| ProductModel.ParseCategory | server/models/Product.model.js:9-13 | only the six listed category spellings are accepted, each to the category of that name |
| ProductModel.ParseBadge | server/models/Product.model.js:27-31 | only the four listed badge spellings are accepted, each to the badge of that name |
| ProductModel.TrimStart | server/models/Product.model.js:7 | drops a prefix made only of white space, and the result does not start with white space |
| ProductModel.TrimEnd | server/models/Product.model.js:7 | drops a suffix made only of white space, and the result does not end with white space |
| ProductModel.Trim | server/models/Product.model.js:4-8 | the name is an infix of the input with only white space cut from either end, and no white space at either end |
| ProductModel.TrimIdempotent | server/models/Product.model.js:7 | trimming twice equals trimming once |
| ProductModel.TrimEmptyIffBlank | server/models/Product.model.js:4-8 | the trimmed name is empty exactly when the input is all white space, so such a name fails the required check |
| ProductModel.Create | server/models/Product.model.js:3-41 | fails exactly when some required/enum/min check fails, reporting all failures; a stored product is valid, keeps the input's values, and defaults description '', badge null, stock 0, inStock true |
| OrderModel.Errors | server/models/Order.model.js:3-52 | user, subtotal and total are reported missing exactly when absent, and an item exactly when it lacks its product |
| OrderModel.Create | server/models/Order.model.js:15-64 | fails exactly on a missing required path; otherwise stores every supplied field with defaults paymentMethod 'card', shipping 0, isPaid and isDelivered false, and the creation timestamp |
| CartRoutes.IndexOf | server/routes/cart.routes.js:46-48 | -1 when no line matches, otherwise the first matching line |
| CartRoutes.FirstProductIsIndexOf | server/routes/cart.routes.js:46-48 | any first-match index for a product is the one IndexOf gives |
| CartRoutes.AddExisting | server/routes/cart.routes.js:50-51 | adding a product already in the cart grows only that line's quantity and keeps the line count |
| CartRoutes.AddNew | server/routes/cart.routes.js:52-54 | adding a product not in the cart appends exactly one line with the new id and the quantity |
| CartRoutes.AddWellFormed | server/routes/cart.routes.js:46-54 | adding keeps line ids distinct and below the counter, and keeps one line per product |
| CartRoutes.AddTwice | server/routes/cart.routes.js:46-54 | adding a new product twice leaves one line holding the sum of both quantities |
| CartRoutes.UpdateClamps | server/routes/cart.routes.js:77-82 | the addressed line gets max(1, requested) and every other line is unchanged |
| CartRoutes.RemoveMissing | server/routes/cart.routes.js:103 | removing an id no line has leaves the lines unchanged |
| CartRoutes.RemovePresent | server/routes/cart.routes.js:103 | removing a present line drops exactly that line, keeps the order of the rest, and leaves no line with that id |
| CartRoutes.RemoveWellFormed | server/routes/cart.routes.js:103 | removing keeps the cart well formed |
| CartRoutes.CartCollection.constructor | server/routes/cart.routes.js:14-20 | the store starts with no carts |
| CartRoutes.CartCollection.FindProduct | server/routes/cart.routes.js:46-48 | the loop returns the first line holding the product, or -1 when there is none |
| CartRoutes.CartCollection.MergeLine | server/routes/cart.routes.js:46-54 | the merge-or-append step produces exactly Added |
| CartRoutes.Without | server/routes/cart.routes.js:103 | dropping one position keeps the other lines in order |
| CartRoutes.WithoutWellFormed | server/routes/cart.routes.js:103 | dropping one line keeps the cart well formed |
| CartRoutes.CartCollection.Fetch | server/routes/cart.routes.js:14-26 | returns the caller's cart, creating an empty one when missing; no other cart changes |
| CartRoutes.CartCollection.Add | server/routes/cart.routes.js:31-63 | 404 with nothing changed for a product not in the catalog; otherwise the caller's cart becomes Added with quantity defaulting to 1 (created if missing) |
| CartRoutes.CartCollection.Update | server/routes/cart.routes.js:68-90 | 404 for a missing cart or line; otherwise only that line's quantity changes, to max(1, quantity) |
| CartRoutes.CartCollection.Remove | server/routes/cart.routes.js:95-111 | 404 only for a missing cart; otherwise the line is removed if present and an unknown id is ignored |
| CartRoutes.CartCollection.Clear | server/routes/cart.routes.js:116-131 | 404 for a missing cart; otherwise the cart is kept and emptied |
| OrderRoutes.Snapshot | server/routes/order.routes.js:67-73 | one order line per cart line, in order, copying product, name, price, quantity and image |
| OrderRoutes.SnapshotTotal | server/routes/order.routes.js:60-73 | the copied lines' price × quantity sums to the cart subtotal |
| OrderRoutes.NewOrder | server/routes/order.routes.js:60-84 | the stored order is the caller's, unpaid, 'card'; subtotal from live prices, shipping by the threshold rule, total = subtotal + shipping; lines copy the cart and add up to the subtotal |
| OrderRoutes.TwoLineExample | server/routes/order.routes.js:60-65 | lines priced 100 and 60 give subtotal 160, free shipping, total 160 |
| OrderRoutes.IndexOfOrder | server/routes/order.routes.js:30 | the position of the order with that id, or -1 exactly when none has it |
| OrderRoutes.GetOrder | server/routes/order.routes.js:28-45 | 404 exactly when no order has the id; 403 exactly when it belongs to someone else; otherwise the caller's order with that id |
| OrderRoutes.OwnedBy | server/routes/order.routes.js:16 | exactly the orders whose user is the caller, each as often as it is stored |
| OrderRoutes.OwnedByAppend | server/routes/order.routes.js:16 | the query works order by order, so the caller's orders come in store order |
| OrderRoutes.InsertNewestFirst | server/routes/order.routes.js:18 | inserting into a newest-first list keeps it newest first and adds exactly one element |
| OrderRoutes.SortNewestFirst | server/routes/order.routes.js:18 | newest first, and a permutation of the input |
| OrderRoutes.ListOrders | server/routes/order.routes.js:14-23 | newest first, and a permutation of the caller's orders: each order is listed exactly when it is the caller's, as often as it is stored |
| OrderRoutes.OrderCollection.constructor | server/models/Order.model.js:15-65 | the store starts empty |
| OrderRoutes.OrderCollection.Insert | server/routes/order.routes.js:75-84 | appends the order under the next id, keeping ids unique |
| OrderRoutes.CreateOrder | server/routes/order.routes.js:50-95 | 400 with nothing changed for a missing or empty cart; 500 when a product is gone; otherwise 201, NewOrder appended and the caller's cart emptied |
| PaymentRoutes.AsWrittenPendingOrderRejected | server/routes/payment.routes.js:45-53 | the pending order as written lacks the required subtotal and is refused with exactly that error |
| PaymentRoutes.PendingOrder | server/routes/payment.routes.js:45-53 | the corrected pending order is the caller's, has no lines, has total = subtotal = amount and shipping 0, uses 'razorpay', is pending, keeps the gateway id and is unpaid |
| PaymentRoutes.CreatePaymentOrder | server/routes/payment.routes.js:9-64 | 503 unconfigured, 400 for an invalid amount, 500 when the gateway fails, each with the store unchanged; otherwise the corrected pending order (see ## Findings; as written this branch answers 500) is appended and the reply has its id, the gateway id, the amount and the currency, 'INR' by default |
| PaymentRoutes.SignedBody | server/routes/payment.routes.js:84 | the stored gateway order id, a bar, then the payment id |
| PaymentRoutes.MarkPaid | server/routes/payment.routes.js:98-100 | status completed and the payment id recorded; every other field unchanged |
| PaymentRoutes.ReverifyIsStable | server/routes/payment.routes.js:84-100 | after marking, the same signature still verifies, and marking again changes nothing |
| PaymentRoutes.VerifyPayment | server/routes/payment.routes.js:69-110 | 400 for missing details; 404 for an unknown order; 500 without a secret; 400 with success false and the store unchanged on a mismatch; otherwise only that order becomes MarkPaid |
| Api.ApiUrl | src/lib/api.ts:1 | the configured URL when non-empty, else the local default |
| Api.Contains | src/lib/api.ts:62 | true exactly when the substring occurs at some position |
| Api.AuthHeaders | src/lib/api.ts:36-42 | JSON content type always; a bearer header exactly when a token is stored; no other header |
| Api.Prepare | src/lib/api.ts:48-55 | the URL is base + endpoint; caller headers override defaults; defaults the caller does not mention are kept |
| Api.NatToString | src/lib/api.ts:64 | a non-empty string of decimal digits |
| Api.NatToStringRoundTrip | src/lib/api.ts:64 | reading the rendered status back gives the status |
| Api.Classify | src/lib/api.ts:57-76 | a response that is not ok throws, with the status message for non-JSON and the body's message (or the status fallback) for JSON; a JSON body that does not parse throws; an ok non-JSON response yields {} |
| Api.Rewrite | src/lib/api.ts:77-82 | a TypeError mentioning fetch becomes the connection error; any other error is rethrown unchanged |
| Api.Request | src/lib/api.ts:57-83 | a classified response, with every thrown error passed through the rewrite |
| Api.NoRawFetchTypeError | src/lib/api.ts:77-82 | no caller ever sees a fetch TypeError |
| Api.FailedResponseThrows | src/lib/api.ts:63-64 | a response that is not ok never yields data; a non-JSON one's error message contains its status |
| Api.ProductsQuery | src/lib/api.ts:106-109 | empty exactly for no category, '' or 'All'; otherwise '?category=' + category |
| Api.AddToCart | src/lib/api.ts:120-125 | posts to /cart with the product id and quantity 1 when none is given |
| CartContext.CartCount | src/contexts/CartContext.tsx:99 | 0 without a cart or items; otherwise the sum of the quantities |
| CartContext.MirrorCount | src/contexts/CartContext.tsx:99 | a cart mirroring the server's lines has the badge count equal to the server's total quantity |
| CartContext.LinesQuantityAppend | server/routes/cart.routes.js:53 | appending a line adds its quantity to the cart's total quantity |
| CartContext.LinesQuantityUpdate | server/routes/cart.routes.js:51 | replacing one line changes the total by the difference of the two quantities |
| CartContext.CountAfterAdd | src/contexts/CartContext.tsx:51-61 | after the server adds q of a product, the badge grows by exactly q, whether the line merged or was appended |
| CartContext.Normalized | src/contexts/CartContext.tsx:33-36 | a cart without items gets an empty list; otherwise it is kept |
| CartContext.CartState.constructor | src/contexts/CartContext.tsx:18-20 | no cart, loading |
| CartContext.CartState.Refresh | src/contexts/CartContext.tsx:23-45 | signed out: no cart; signed in: the normalised fetched cart, or none on error; loading ends either way |
| CartContext.CartState.Mutate | src/contexts/CartContext.tsx:51-97 | signed out: the mutator's message is thrown without calling the API and the cart is unchanged; signed in: the API's cart replaces the state, or its error is rethrown with the state unchanged |
| CartPage.StepperQuantity | src/pages/CartPage.tsx:24-26 | at least 1, and exactly current + delta unless that is below 1 |
| CartPage.Visible | src/pages/CartPage.tsx:65 | exactly the lines that have a product, each as often as in the cart |
| CartPage.VisibleAppend | src/pages/CartPage.tsx:65 | the filter works line by line, so the shown lines keep the cart's order |
| CartPage.VisibleKeepsSubtotal | src/pages/CartPage.tsx:65-71 | filtering out productless lines does not change the subtotal |
| CartPage.Summarize | src/pages/CartPage.tsx:65-73 | subtotal of the shown lines; shipping 0 exactly above 150, otherwise 15; total = subtotal + shipping; the hint exactly at or below 150; the empty view exactly when no line has a product |
| CheckoutPage.CheckoutSubtotal | src/pages/CheckoutPage.tsx:58-61 | throws exactly when a line has no product; NaN exactly when some price is not a number; otherwise the cart page's subtotal |
| CheckoutPage.CheckoutTotal | src/pages/CheckoutPage.tsx:62-63 | NaN stays NaN; otherwise the threshold total |
| CheckoutPage.DisplayedTotal | src/pages/CheckoutPage.tsx:148-153 | rendering throws exactly when a line has no product |
| CheckoutPage.InitialAddress | src/pages/CheckoutPage.tsx:27-33 | each field starts from the saved value when non-empty, else ''; country falls back to United States |
| CheckoutPage.RedirectsToCart | src/pages/CheckoutPage.tsx:36-45 | no redirect before a cart is loaded; a redirect exactly when the items list is empty; a cart without an items list throws |
| CheckoutPage.Submit | src/pages/CheckoutPage.tsx:47-71 | nothing without a cart or with an empty one; throws without an items list or when a line has no product; otherwise a payment request for the displayed total in INR to the form's address |
| CheckoutPage.SubmittedMatchesCartPage | src/pages/CheckoutPage.tsx:58-71 | with every line priced, checkout requests the cart page's total |
| CheckoutPage.NaNAmountRejected | src/pages/CheckoutPage.tsx:58-71 | a non-numeric price makes a request the payment route rejects |
| CheckoutPage.SubtotalMatchesServer | src/pages/CheckoutPage.tsx:58-61 | for a cart showing the server's lines, the checkout subtotal equals the order route's subtotal |
| CheckoutPage.SubmittedMatchesServerOrder | src/pages/CheckoutPage.tsx:58-71 | the requested amount equals the total of the order the order route would create from the same cart, and it is accepted when the subtotal is non-negative |
| Favorites.Toggled | src/components/FeaturedProducts.tsx:91-101 | flips the membership of the id and leaves every other id as it was |
| Favorites.ToggleTwice | src/pages/ShopPage.tsx:134-145 | two clicks on the same id restore the set |
| Favorites.ToggleCommutes | src/pages/ShopPage.tsx:134-145 | clicks on two ids commute |
| Favorites.FavoriteSet.constructor | src/components/FeaturedProducts.tsx:91 | starts with no favourites |
| Favorites.FavoriteSet.Toggle | src/components/FeaturedProducts.tsx:91-101 | the set becomes Toggled of the old set |
| ShopPage.Lower | src/pages/ShopPage.tsx:93 | lower-cases each ASCII letter, position by position |
| ShopPage.FormatParam | src/pages/ShopPage.tsx:57 | the first character upper-cased and the rest unchanged |
| ShopPage.ApplyParamAsWritten | src/pages/ShopPage.tsx:53-62 | a non-empty parameter whose formatted form is listed selects it; anything else keeps the selection |
| ShopPage.CategoryParam | src/pages/ShopPage.tsx:87-96 | no parameter exactly for 'All'; otherwise the lower-cased name |
| ShopPage.EyeCareRoundTripFails | src/pages/ShopPage.tsx:53-62 | as written, 'Eye Care' writes 'eye care', which formats to the unlisted 'Eye care', so a reopened page stays on 'All' |
| ShopPage.FixedAgreesOnOneWord | src/pages/ShopPage.tsx:57 | on one-word parameters the corrected formatting equals the code's |
| ShopPage.ApplyParam | src/pages/ShopPage.tsx:53-62 | as the effect, with every word capitalised; a listed selection stays listed |
| ShopPage.TitleOfLower | src/pages/ShopPage.tsx:57 | capitalising every word of a lower-cased title-shaped string gives it back |
| ShopPage.CategoryRoundTrip | src/pages/ShopPage.tsx:53-96 | with the fix, every category's URL parameter selects that category again |
| ShopPage.LoadCategory | src/pages/ShopPage.tsx:72 | no category filter exactly for 'All' |
| ShopPage.LoadQuery | src/pages/ShopPage.tsx:69-85 | 'All' requests /products; any other listed category requests exactly that category |
| ShopPage.ShopState.constructor | src/pages/ShopPage.tsx:43-45 | starts on 'All' with no favourites |
| ShopPage.ShopState.ApplyCategoryParam | src/pages/ShopPage.tsx:53-62 | the selection becomes ApplyParam of the parameter (the corrected page, see ## Findings; as written a multi-word category is ignored) and stays a listed category |
| ShopPage.ShopState.ChangeCategory | src/pages/ShopPage.tsx:87-96 | selects the category and mirrors it into the parameter |
| ShopPage.ShopState.ToggleFavorite | src/pages/ShopPage.tsx:134-145 | the favourites become Toggled; nothing else changes |
| QuizPage.GetRecommendations | src/pages/QuizPage.tsx:67-152 | a cleanser, a serum and a moisturizer in that order; each choice holds exactly under the answers the code tests |
| QuizPage.RoutineTotalBounds | src/pages/QuizPage.tsx:377 | every routine costs between 254 and 312 |
| QuizPage.AnswerFourIsIgnored | src/pages/QuizPage.tsx:67-152 | the fourth answer never changes the recommendations |
| QuizPage.QuizState.constructor | src/pages/QuizPage.tsx:155-158 | first question, no answers, not complete |
| QuizPage.QuizState.HandleAnswer | src/pages/QuizPage.tsx:162-164 | records the answer for the question on screen and keeps every other answer |
| QuizPage.QuizState.HandleNext | src/pages/QuizPage.tsx:166-175 | advances below the last question; at the last, completes with the recommendations for the answers |
| QuizPage.QuizState.HandleBack | src/pages/QuizPage.tsx:177-181 | steps back unless on the first question |
| QuizPage.QuizState.Retake | src/pages/QuizPage.tsx:381-385 | first question, no answers, not complete; the recommendations stay |
| QuizPage.TakeQuiz | src/pages/QuizPage.tsx:162-175 | four answers and four nexts give the routine for those answers, costing 254 to 312 |
| ProductModal.RatingSumBounds | src/components/ProductModal.tsx:157-159 | the rating sum lies between n and 5n for n star ratings |
| ProductModal.AverageRating | src/components/ProductModal.tsx:157-159 | 0 without reviews; otherwise between one and five stars |
| ProductModal.AddToCartAction | src/components/ProductModal.tsx:74-100 | nothing without a product id; one unit added exactly when signed in |
| ProductModal.ReviewPanel.constructor | src/components/ProductModal.tsx:29-32 | no reviews, rating 0, empty comment |
| ProductModal.ReviewPanel.SelectStar | src/components/ProductModal.tsx:266-270 | star i sets the rating to i + 1 |
| ProductModal.ReviewPanel.EditComment | src/components/ProductModal.tsx:290 | only the comment changes |
| ProductModal.ReviewPanel.SubmitReview | src/components/ProductModal.tsx:102-153 | adds a review exactly when the required comment is non-empty, the visitor is signed in and a star is chosen: the new review goes first, the old ones keep their order, and the form resets |
| RegisterPage.Submit | src/pages/RegisterPage.tsx:20-44 | mismatch exactly when the passwords differ; too short exactly when they match and are under 6; register with the name, e-mail and password otherwise |
| RegisterPage.MismatchReportedFirst | src/pages/RegisterPage.tsx:23-39 | a short mismatched password is reported as a mismatch |
| RegisterPage.FormChecksPrecludeTooShort | src/pages/RegisterPage.tsx:87-141 | behind the browser's required and minimum-length checks the handler's length check never fires: a submitted form is a mismatch or a registration |

## Left out

- HMAC-SHA-256 and the hex digest are a function parameter. The signature comparison is modelled as plain equality; timing is not modelled.
- The payment gateway SDK is left out, along with its paise conversion (`Math.round(amount * 100)`) and the receipt string. The browser's checkout script and the payment handler after the request are also left out.
- The schema's strict mode is not modelled. The Order schema declares no `paymentStatus`, gateway order id or gateway payment id, and strict mode would drop those fields on save. The model keeps them because the payment routes rely on them. `PaymentRoutes.SignedBody` still covers an order without a gateway id, which signs `undefined|<paymentId>`.
- The Order schema's `paymentResult` subdocument is not modelled; no modelled route writes it.
- Cart.model.js is not part of this model. A cart is its user's sequence of lines, and line ids are natural numbers.
- Populating product references (`populate`) is left out. The routes return the stored lines, and the browser's view types carry only the price.
- Database failures and ObjectId cast errors, which answer 500, are not modelled. The 500s modelled are a product missing from the catalog, a failed gateway call and a verification without a configured secret.
- CartRoutes.CartCollection.Update does not model a missing or non-numeric quantity: `Math.max(1, undefined)` is NaN, the cast fails on save and the route answers 500; the model takes an integer quantity.
- CartRoutes.CartCollection.Add does not model a non-numeric quantity: quantities are integers, so string concatenation and NaN from the request body are not represented.
- Concurrency between requests is not modelled. Each handler is one atomic state change.
- Timestamps (`Date.now`, `createdAt`) and the review id are parameters.
- Number formatting (`toFixed`) and the quiz progress percentage are left out; both are display only.
- The quiz's Next button is disabled while the question is unanswered. That is a UI guard, and `HandleNext` does not require an answer.
- ProductModal.AverageRating uses exact real division. JavaScript's floating-point division is not modelled.
- The product modal's mock `loadReviews` list is not modelled.
- Toasts, navigation and console logging are left out.
- Case mapping (`toUpperCase`, `toLowerCase`) covers ASCII letters only, which includes every category name.
- String lengths count code points, not UTF-16 units.
- RegisterPage.Submit and RegisterPage.PassesFormChecks do not model the browser's e-mail syntax check (`type="email"`); only the required fields and the minimum password length are modelled.
- CheckoutPage.RedirectsToCart and CheckoutPage.Submit say when rendering or submitting throws, but not which error is thrown.

## Findings

| source | as written | input that shows it | evidently intended | confidence | as-written member | corrected member |
|---|---|---|---|---|---|---|
| server/routes/payment.routes.js:45-53 | the pending order is created without `subtotal`, which server/models/Order.model.js:40-43 marks required | any valid create-order request with a configured gateway: validation fails, so the route answers 500 after the gateway order already exists | store the amount as the subtotal, with the default shipping of 0, so total = subtotal + shipping | not executed | PaymentRoutes.AsWrittenPendingOrderRejected | PaymentRoutes.PendingOrder |
| src/pages/ShopPage.tsx:57 | the URL parameter is formatted by upper-casing only its first character, while ShopPage.tsx:93 writes the whole name lower-cased | choosing 'Eye Care' writes `eye care`, which formats to `Eye care`; that is not a listed category, so reopening the URL shows 'All' | capitalise every word, so every category survives the trip through the URL | not executed | ShopPage.EyeCareRoundTripFails | ShopPage.CategoryRoundTrip |
