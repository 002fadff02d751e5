# Storefront rules, modelled in Dafny

This project models the rule-carrying core of a React storefront. That core has three parts.

- **Client services.**
  - A guest cart kept in local storage, merged into the customer's server cart at login.
  - An image-URL normaliser.
  - Product lookups that try a "hybrid" endpoint first and then a standard one, plus a four-strategy chain for featured products.
  - Two tracking clients with their own session ids in session storage.
  - An authentication client that keeps the token and user record in local storage.
- **Recommendation panels.** A container fetches trending, personal and product-context id lists and shows up to four sections in a fixed order. Each section resolves its first ids into products and keeps the lookups that succeeded. A personalised panel falls back to trending ids and keeps a wishlist set.
- **Pages and display rules.**
  - The registration and login forms: per-field rule chains and the submit gate.
  - The private-route guard.
  - The product card: primary image, category fallback image, tags, stock badges, actions.
  - The simple catalog page: search filter, fallback products, cart counter.
  - The rich-content panel: specification labels and section gating.

Every backend answer is an input to the model: a `Result` of the data or an `ApiError`, which carries the HTTP status and the body's `message`. Browser storage is a pair of classes, `Storage.LocalStorage` and `Storage.SessionStorage`, with one field per key the core uses. A JSON-serialised key is a `Slot`: absent, unparseable or saved. The clock reading and the random suffix of a new session id are parameters.

The modules follow the source files one to one:

| module | models |
|---|---|
| `CartService` | `src/services/cartService.ts` |
| `ImageProcessor` | `src/utils/imageProcessor.ts` |
| `ProductService` | `src/services/productService.ts` |
| `AnalyticsService` | `src/services/analyticsService.ts` |
| `UserBehaviorService` | `src/services/userBehaviorService.ts` |
| `AuthService` | `src/services/authService.ts` |
| `RegisterPage`, `FormRules` | `src/pages/public/Register.tsx` (FormRules holds the email rule it shares with Login) |
| `LoginPage` | `src/pages/public/Login.tsx` |
| `PrivateRoute` | `src/routes/PrivateRoute.tsx` |
| `ProductCard`, `ImageFallback` | `src/components/product/ProductCard.tsx` |
| `ProductCatalog` | `src/pages/public/ProductCatalogSimple.tsx` |
| `RichContent` | `src/components/product/RichContentDisplay.tsx` |
| `Recommendations`, `RecommendationContainer` | `src/components/recommendations/RecommendationContainer.tsx` |
| `PersonalizedRecommendations` | `src/components/recommendations/PersonalizedRecommendations.tsx` |

The remaining modules hold shared pieces:

- `Wrappers`: Option, Result, and the two error-mapping patterns.
- `Text`: ASCII trim, case, contains and decimal rendering.
- `Types`: the entity records of `src/types/index.ts`.
- `Settled`: `Promise.allSettled` as a filter.
- `SessionIds`: the generated id format.

## Model

| member | source | states |
|---|---|---|
| Wrappers.Rethrow | src/services/authService.ts:22-29 | Success passes the data through. A failure becomes an error carrying the backend message when it is non-empty, else the operation's fallback text. That text is never empty when the fallback is not. |
| Wrappers.NotFoundAsNull | src/services/cartService.ts:95-105 | A 404 answer becomes a successful `null`. Any other failure is rethrown with the backend message or the fallback. |
| Text.TrimEmptyIff | src/pages/public/Register.tsx:74 | `trim()` yields the empty string exactly when the input is all whitespace. |
| Text.ContainsIff | src/pages/public/ProductCatalogSimple.tsx:111-115 | `includes` holds exactly when the term occurs at some position of the string. |
| CartService.FirstMatch | src/services/cartService.ts:40-43 | The `findIndex` result is the first entry with the same product id and variants, or -1 exactly when no entry has that key. |
| CartService.ItemCount | src/services/cartService.ts:192-200 | The unit count is 0 for an empty cart and the quantity of the only entry for a one-entry cart. |
| CartService.Total | src/services/cartService.ts:203-206 | The value is 0 for an empty cart and price × quantity for a one-entry cart. |
| CartService.SumOfNonNegative | src/services/cartService.ts:196-205 | A sum of non-negative terms is non-negative and at least each term. |
| CartService.ItemCountBounds | src/services/cartService.ts:192-200 | Without negative quantities, the count is non-negative and at least every entry's quantity. |
| CartService.TotalNonNegative | src/services/cartService.ts:203-206 | Without negative prices or quantities, the total is non-negative. |
| CartService.SumConcat | src/services/cartService.ts:196-205 | The `reduce` sums split over concatenation. |
| CartService.SumReplace | src/services/cartService.ts:196-205 | Replacing one entry changes the sum by the difference of its terms. |
| CartService.SumDelete | src/services/cartService.ts:196-205 | Splicing out one entry lowers the sum by that entry's term. |
| CartService.UnitPrice | src/services/cartService.ts:47-54 | A new line's price is the list price or the discount price. A missing or zero discount price (falsy) gives the list price, and any other result is a non-zero discount price. |
| CartService.Added | src/services/cartService.ts:38-57 | On a present key, the first matching entry gains the quantity, every other entry is unchanged and the length stays. On a new key, one entry with the unit price is appended and the prefix is unchanged. Either way the key is present afterwards and key uniqueness is preserved. The unit count rises by the quantity and the total by quantity × that entry's price. |
| CartService.Updated | src/services/cartService.ts:60-75 | A quantity ≤ 0 splices out the matching entry; otherwise only that entry's quantity is set. Uniqueness is kept, the key is gone after a removal, and the count changes accordingly. |
| CartService.Removed | src/services/cartService.ts:78-85 | Exactly the entries without the key remain, the result never has the key, and uniqueness is kept. |
| CartService.RemovedConcat | src/services/cartService.ts:78-85 | Removal distributes over concatenation, so together with membership it is the in-order filter: order and repeated entries are kept. |
| CartService.RemovedIsSplice | src/services/cartService.ts:78-85 | In a cart with unique keys, removal is the splice of the one matching entry. |
| CartService.RemoveIsUpdateToZero | src/services/cartService.ts:60-85 | With unique keys, removing an entry and updating it to quantity 0 give the same cart. |
| CartService.RemovedWithoutKey | src/services/cartService.ts:78-85 | Removing an absent key leaves the cart as it was. |
| CartService.GetUserCart | src/services/cartService.ts:95-105 | A 404 is "no cart yet" (`null`). Other failures carry the backend message or 'Failed to fetch cart'. |
| CartService.Requests | src/services/cartService.ts:170-172 | The merge sends one add request per stored entry. |
| CartService.FirstFailure | src/services/cartService.ts:170-172 | The index of the first failing add: every earlier add succeeded, and so did all of them when it equals the entry count. |
| CartService.MergedCart | src/services/cartService.ts:157-167 | The merged result is the server cart; `{id 0, customerId userId, items [], totalAmount 0}` when that lookup answers 404; otherwise 'Failed to merge carts'. |
| CartService.CartService.constructor | src/services/cartService.ts:209 | The service reads and writes the given local storage. |
| CartService.CartService.GetSessionCart | src/services/cartService.ts:18-26 | The saved entries, or `[]` when the key is absent or does not parse. There is no failure case. |
| CartService.CartService.SaveSessionCart | src/services/cartService.ts:29-35 | An accepted write leaves the key holding exactly the given entries. A refused write (quota, storage disabled) is swallowed and the key keeps its old value. |
| CartService.CartService.AddToSessionCart | src/services/cartService.ts:38-57 | The stored cart becomes `Added` of the cart read before the call; a refused write leaves it as it was. |
| CartService.CartService.UpdateSessionCartItem | src/services/cartService.ts:60-75 | Without a matching entry, or when the write is refused, the stored cart is unchanged; otherwise it becomes `Updated` of the old one. |
| CartService.CartService.RemoveFromSessionCart | src/services/cartService.ts:78-85 | The stored cart becomes `Removed` of the old one; a refused write leaves it as it was. |
| CartService.CartService.ClearSessionCart | src/services/cartService.ts:88-90 | The key is deleted, so a later read is `[]`. |
| CartService.CartService.MergeSessionCartWithUserCart | src/services/cartService.ts:154-188 | An empty guest cart makes no add call and returns `MergedCart`. Otherwise the adds go out in stored order and stop at the first failure. That failure leaves local storage untouched and yields 'Failed to merge carts'. When all adds succeed the key is cleared and `MergedCart` is returned. |
| CartService.CartService.GetCartItemCount | src/services/cartService.ts:192-200 | The sum of the quantities, whatever `userId` is; 0 on an empty cart. |
| CartService.CartService.GetCartTotal | src/services/cartService.ts:203-206 | The price-times-quantity total is 0 on an empty cart (its sum laws are the `Sum*` lemmas). |
| CartService.MergeTwice | src/services/cartService.ts:154-188 | After a merge whose adds all succeeded, a second merge sends no add and returns `MergedCart` of its lookup, and the key stays as the first merge left it: cleared, or untouched when the guest cart was already empty. |
| ImageProcessor.Stem | src/utils/imageProcessor.ts:28-39 | The base URL without at most one trailing '/'. Adding '/' back always gives a string that starts with the base. |
| ImageProcessor.ProcessImageUrl | src/utils/imageProcessor.ts:7-42 | A missing or empty URL gives the generic fallback. An http(s) URL or one under '/images/' is kept. Any other URL is joined to the base with exactly one '/'. The result is never empty. |
| ImageProcessor.JoinedStartsWithBase | src/utils/imageProcessor.ts:26-41 | A rewritten URL always starts with the base URL. |
| ImageProcessor.ResultIsLoadable | src/utils/imageProcessor.ts:3-41 | With an http(s) base, every result is absolute or a bundled '/images/' path. |
| ImageProcessor.ProcessImageUrlIdempotent | src/utils/imageProcessor.ts:3-41 | With an http(s) base, normalising a normalised URL changes nothing. |
| ImageProcessor.ProcessImage | src/utils/imageProcessor.ts:55-58 | Each image copy keeps every field and gains `processedUrl = processImageUrl(url)`. |
| ImageProcessor.ProcessProduct | src/utils/imageProcessor.ts:47-62 | Only `images` changes. The array keeps its presence, length and order, and each element is `ProcessImage` of the original one: same URL, processed URL added. |
| ImageProcessor.ProcessProductIdempotent | src/utils/imageProcessor.ts:47-62 | Processing a processed product again gives the same product. |
| ImageProcessor.ProcessProductImages | src/utils/imageProcessor.ts:47-62 | A missing product stays missing. A present one becomes `ProcessProduct` of it, so it keeps its id and every field but `images`. |
| ImageProcessor.ProcessProductsImages | src/utils/imageProcessor.ts:67-71 | A non-array input gives `[]`. Otherwise the result has the same length and order, each element processed and its id kept. |
| Settled.Lookups | src/components/recommendations/RecommendationContainer.tsx:53-55 | One lookup per id, in id order. |
| Settled.Fulfilled | src/components/recommendations/RecommendationContainer.tsx:57-62 | The settled results' values are exactly the successful ones, never more than the results. |
| Settled.FulfilledConcat | src/components/recommendations/RecommendationContainer.tsx:57-62 | Filtering commutes with concatenation, so order is kept. |
| Settled.OneOutcome | src/components/recommendations/RecommendationContainer.tsx:57-62 | A failed lookup drops only its own product; a successful one keeps its place. |
| Settled.AllFulfilled | src/components/recommendations/RecommendationContainer.tsx:57-62 | When every lookup succeeds, all products come back in id order. |
| Settled.NoneFulfilled | src/components/recommendations/RecommendationContainer.tsx:57-62 | When every lookup fails, nothing comes back (the `catch` is not reached). |
| Settled.Resolve | src/components/recommendations/PersonalizedRecommendations.tsx:71-80 | The resolved products are exactly the successful lookups of the ids, at most one per id. |
| Settled.ResolveConcat | src/components/recommendations/PersonalizedRecommendations.tsx:71-80 | Resolving concatenated id lists concatenates the results. |
| ProductService.Spread | src/services/productService.ts:42-63 | An explicitly given filter wins over the injected search term or category id; otherwise the injected one is used. |
| ProductService.PrimaryThenFallback | src/services/productService.ts:24-39 | The primary request is sent first. Its success is returned with no second request. On failure one fallback request follows, and only a failed fallback fails, with the fallback's message or the operation's text. |
| ProductService.GetProducts | src/services/productService.ts:6-21 | `/hybrid/products` first; its success is the result with that single request. On failure `/products` follows once with the same filters, and its success is the result. The read fails exactly when both fail, with the last message or 'Failed to fetch products'. |
| ProductService.GetProduct | src/services/productService.ts:24-39 | `/hybrid/products/{id}` first; its success is the result with that single request. Otherwise `/products/{id}` follows once. A failure happens only when both lookups fail, with the fallback's message or 'Failed to fetch product'. |
| ProductService.SearchProducts | src/services/productService.ts:42-63 | The hybrid request carries the term as `search`; its success is the result with one request. Otherwise the fallback `/products/search` carries it as `query` and its success is the result. A caller's filter of the same name wins. It fails exactly when both fail. |
| ProductService.GetProductsByCategory | src/services/productService.ts:132-150 | The hybrid request carries `categoryId`; its success is the result with one request. Otherwise `/products/category/{id}` follows with the caller's filters and its success is the result. It fails exactly when both fail. |
| ProductService.FeaturedRequests | src/services/productService.ts:66-128 | The four strategy requests each carry the caller's limit; strategies 2 and 4 sort by newest. |
| ProductService.GetFeaturedProducts | src/services/productService.ts:66-128 | Strategy 1 is all trending ids resolved, taken when non-empty. Strategy 2 is the newest page, taken when non-empty. Strategy 3, the featured endpoint, is taken whenever it answers, empty or not. Strategy 4 runs only when 3 fails. The requests sent are the first `strategies` of `FeaturedRequests(limit)`. The only error is 'Failed to fetch featured products', raised exactly when 1 and 2 are empty and 3 and 4 fail. |
| SessionIds.GeneratedSessionId | src/services/analyticsService.ts:195 | A generated id starts with 'session_' and is never empty. |
| SessionIds.DecimalStringInjective | src/services/analyticsService.ts:195 | Distinct clock readings print differently. |
| SessionIds.DigitsThenSeparator | src/services/analyticsService.ts:195 | The digit run before the first '_' is determined by the id. |
| SessionIds.DistinctTimestampsDistinctIds | src/services/userBehaviorService.ts:280 | Ids generated at distinct milliseconds differ, whatever their suffixes. |
| AnalyticsService.ReadOutcome | src/services/analyticsService.ts:62-185 | Every read returns the data, or an error carrying the backend message or that read's own non-empty fallback. |
| AnalyticsService.AnalyticsService.constructor | src/services/analyticsService.ts:236 | The client uses the given session storage. |
| AnalyticsService.AnalyticsService.GetSessionId | src/services/analyticsService.ts:192-199 | A truthy stored id is returned and left in place. Otherwise a new id is generated, stored and returned. |
| AnalyticsService.AnalyticsService.GetCurrentSessionId | src/services/analyticsService.ts:202-204 | Same as `getSessionId`, so it creates an id when none is stored. |
| AnalyticsService.AnalyticsService.ViewSessionId | src/services/analyticsService.ts:38 | A truthy given session id is used without touching storage; else the stored or newly created one. |
| AnalyticsService.AnalyticsService.RecordProductView | src/services/analyticsService.ts:33-44 | The posted view carries the product and user ids. Its session id is the caller's when truthy, with storage untouched; else the stored truthy id; else a new generated id, which is stored. It never fails. |
| AnalyticsService.AnalyticsService.RecordCategoryView | src/services/analyticsService.ts:47-57 | The same session-id choice for a category view. |
| AnalyticsService.AnalyticsService.TrackPageView | src/services/analyticsService.ts:207-218 | The posted page view carries the stored truthy session id, or else a new generated id, which is stored. It never fails. |
| AnalyticsService.AnalyticsService.TrackSearch | src/services/analyticsService.ts:221-233 | The posted search carries the query, result count and the same session-id choice. It never fails. |
| AnalyticsService.SessionIdIsStable | src/services/analyticsService.ts:192-199 | Two successive `getSessionId` calls return the same id. |
| UserBehaviorService.GetUserPreferences | src/services/userBehaviorService.ts:91-101 | 404 exactly becomes `null`. Other failures carry the backend message or 'Failed to fetch user preferences'. |
| UserBehaviorService.GetSessionData | src/services/userBehaviorService.ts:231-241 | 404 exactly becomes `null`. Other failures carry the backend message or 'Failed to fetch session data'. |
| UserBehaviorService.UserBehaviorService.constructor | src/services/userBehaviorService.ts:311 | The client uses the given session storage. |
| UserBehaviorService.UserBehaviorService.GetSessionId | src/services/userBehaviorService.ts:283-285 | A pure read of the behaviour session key: it never creates an id. |
| UserBehaviorService.UserBehaviorService.StartSession | src/services/userBehaviorService.ts:198-212 | The start request carries a fresh id, which is returned in either case. It is stored only when the request succeeds; on failure storage is unchanged. |
| UserBehaviorService.UserBehaviorService.EndSession | src/services/userBehaviorService.ts:215-228 | No stored id means no request. Otherwise the end request names the stored id, which is removed only when the request succeeds. |
| UserBehaviorService.UserBehaviorService.EnsureSession | src/services/userBehaviorService.ts:301-307 | A truthy stored id is returned with no request; otherwise it behaves as `startSession`. |
| UserBehaviorService.UserBehaviorService.RecordBrowsingActivity | src/services/userBehaviorService.ts:34-50 | The posted activity is exactly the page, the user id and the stored session id (possibly none). It never fails. |
| UserBehaviorService.UserBehaviorService.RecordSearchActivity | src/services/userBehaviorService.ts:116-131 | The posted search is exactly the query, the result count, the user id and the stored session id. |
| UserBehaviorService.UserBehaviorService.RecordProductInteraction | src/services/userBehaviorService.ts:260-275 | The posted interaction is exactly the product id, the interaction type, the user id and the stored session id. |
| UserBehaviorService.RecordPurchaseBehavior | src/services/userBehaviorService.ts:159-178 | The posted purchase is exactly customer, order and total amount, with no session id. It never fails. |
| UserBehaviorService.StartThenEnsure | src/services/userBehaviorService.ts:198-212 | After a successful start, `ensureSession` returns that id without a second request. |
| UserBehaviorService.EndThenEnsure | src/services/userBehaviorService.ts:215-228 | After a successful end, `ensureSession` starts a fresh session. |
| AuthService.Register | src/services/authService.ts:22-29 | The backend answer, or 'Registration failed' / the backend message. Storage is not involved. |
| AuthService.AuthService.constructor | src/services/authService.ts:74 | The client uses the given local storage. |
| AuthService.AuthService.IsAuthenticated | src/services/authService.ts:58-60 | Authenticated only with a stored token; a missing or empty token means signed out. |
| AuthService.AuthService.GetToken | src/services/authService.ts:58-60 | `getToken` is the raw stored token, and `isAuthenticated` holds exactly when it is present and non-empty. |
| AuthService.AuthService.GetCurrentUser | src/services/authService.ts:63-66 | The stored user when the record parses; signed out exactly when the key is absent. |
| AuthService.AuthService.Login | src/services/authService.ts:6-19 | On success the token and user are stored and returned. On failure nothing is written and the error is the backend message or 'Login failed'. |
| AuthService.AuthService.Logout | src/services/authService.ts:52-56 | Both keys are removed, after which the visitor is not authenticated, has no user and no token. |
| AuthService.LoginThenLogout | src/services/authService.ts:52-66 | Whatever the login outcome, logging out leaves no session. |
| PrivateRoute.Decide | src/routes/PrivateRoute.tsx:10-33 | Loading shows the spinner. `requireAdmin && !isAdmin` redirects to /unauthorized, before the authentication test. Otherwise an unauthenticated user goes to /login. The outlet renders exactly in the remaining case, so exactly one outcome occurs. |
| FormRules.ShapeMatchesPattern | src/pages/public/Register.tsx:83 | The executable email test implies the `x@y.z` pattern. |
| FormRules.PatternHasShape | src/pages/public/Register.tsx:83 | The `x@y.z` pattern implies the executable email test. |
| FormRules.EmailShapeIff | src/pages/public/Register.tsx:83 | The email test holds exactly for strings of the form a@b.c, with a, b and c non-empty and free of whitespace and '@'. |
| FormRules.EmailShapeNotBlank | src/pages/public/Register.tsx:81-85 | Every well-shaped email is non-blank, so the shape error is never shadowed wrongly. |
| FormRules.EmailError | src/pages/public/Register.tsx:81-85 | 'Email is required' exactly when blank after trimming. No error exactly when the untrimmed string has the a@b.c shape. Otherwise 'Please enter a valid email address'. |
| RegisterPage.NameError | src/pages/public/Register.tsx:74-78 | Required exactly when blank, too short exactly when non-blank with trimmed length below 2, none exactly when the trimmed length is at least 2. |
| RegisterPage.PasswordError | src/pages/public/Register.tsx:88-94 | First failing rule wins: required, then raw length below 8, then the complexity message. None exactly when the length is at least 8 and the password has a lower-case letter, an upper-case letter and a digit. |
| RegisterPage.ConfirmPasswordError | src/pages/public/Register.tsx:97-101 | Required exactly when blank, mismatch exactly when non-blank and different, none exactly when non-blank and equal. |
| RegisterPage.TermsError | src/pages/public/Register.tsx:104-106 | An error exactly when the terms are not accepted. |
| RegisterPage.ValidateRegister | src/pages/public/Register.tsx:70-110 | Each field's entry is its own rule chain's result. |
| RegisterPage.RegisterValidIff | src/pages/public/Register.tsx:70-110 | The form is valid exactly when the trimmed name has 2+ characters, the email has the shape, the password is 8+ characters and complex, the confirmation is equal, and the terms are accepted. |
| RegisterPage.RegisterPageState.constructor | src/pages/public/Register.tsx:49-51 | The page starts with no errors, no message and not loading. |
| RegisterPage.RegisterPageState.HandleSubmit | src/pages/public/Register.tsx:56-125 | An invalid form sends nothing. A valid one sends the trimmed name and email with the untrimmed password. Success navigates to /login; failure shows the error message. Loading is off afterwards. |
| LoginPage.LoginPasswordError | src/pages/public/Login.tsx:51-55 | Required exactly when blank, too short exactly when non-blank below 6 characters; no complexity rule. |
| LoginPage.ValidateLogin | src/pages/public/Login.tsx:42-58 | The email rule is the registration one. Valid exactly when the email has the shape and the password is non-blank with 6+ characters. |
| LoginPage.LoginPageState.constructor | src/pages/public/Login.tsx:34-36 | The page starts with no errors, no message and not loading. |
| LoginPage.LoginPageState.HandleSubmit | src/pages/public/Login.tsx:61-78 | An invalid form never logs in and writes no storage. A valid one sends the untrimmed email and password. Success stores the session and navigates to /products. Failure shows the login error and leaves the stored token and user as they were. Loading is off after both. |
| LoginPage.LoginPageState.HandleAdminLogin | src/pages/public/Login.tsx:95-105 | Success navigates to /admin. Failure sets the expired-token message. Loading is off afterwards. |
| ProductCard.FirstPrimary | src/components/product/ProductCard.tsx:45 | `find(isPrimary)`: present exactly when some image is primary, and then it is the first primary one. |
| ProductCard.PrimaryImage | src/components/product/ProductCard.tsx:45 | The first primary image, else the first image, else none. |
| ProductCard.HasDiscount | src/components/product/ProductCard.tsx:46 | A discount needs a discount price below the list price; a missing or zero discount price (falsy) is no discount. |
| ProductCard.DiscountPercentage | src/components/product/ProductCard.tsx:47-49 | 0 without a discount. With one and a positive list price, the nearest integer to the saving as a percentage of the list price, halves rounding up. |
| ProductCard.DiscountPercentageBounds | src/components/product/ProductCard.tsx:47-49 | A positive discount price below the list price gives a percentage from 0 to 100. |
| ProductCard.DiscountBadges | src/components/product/ProductCard.tsx:117-121 | The "N% OFF" badge shows exactly when there is a discount, with N the percentage. |
| ProductCard.HasDiscountValue | src/components/product/ProductCard.tsx:46 | The JavaScript value of `hasDiscount`: truthy exactly when there is a discount, the number 0 exactly for a zero discount price, `undefined` exactly without one. |
| ProductCard.RenderAnd | src/components/product/ProductCard.tsx:118-133 | React's rendering of `{v && child}`: the child for a truthy value, a falsy number as its digits, nothing for `false` or `undefined`. |
| ProductCard.DiscountNodesAsWritten | src/components/product/ProductCard.tsx:118-133 | The badge corner and the struck price line (lines 338-346) as written, each `RenderAnd` of the number-or-boolean `hasDiscount`. |
| ProductCard.StrayZeroAsWritten | src/components/product/ProductCard.tsx:46 | A zero discount price renders a bare "0" in the badge corner (line 118) and another after the price (line 338). |
| ProductCard.DiscountNodes | src/components/product/ProductCard.tsx:118-133 | The intended rendering: the badge and the struck list price (lines 338-346) show exactly when there is a discount, and no bare text ever appears. |
| ProductCard.AsWrittenDiffersOnlyAtZero | src/components/product/ProductCard.tsx:46 | The code as written renders the intended nodes exactly when the discount price is not 0. |
| ProductCard.ShownPrice | src/components/product/ProductCard.tsx:336 | The shown price is the discount price exactly when it undercuts the list price, else the list price; it never exceeds the list price. |
| ProductCard.FallbackImageUrl | src/components/product/ProductCard.tsx:52-66 | The lowercased category name picks, in precedence order, electronics ('electronics', 'phone'), clothing ('clothing', 'apparel'), books ('book'), else generic; always a bundled image. |
| ProductCard.NoCategoryGeneric | src/components/product/ProductCard.tsx:53 | Without a category name the generic image is chosen. |
| ProductCard.ImageSource | src/components/product/ProductCard.tsx:180 | The primary image's URL when it is truthy, else the category fallback. |
| ProductCard.DisplayTags | src/components/product/ProductCard.tsx:69 | At most two tags, the first ones of `content[0]`; none without content or without tags on the first entry. |
| ProductCard.StockBadges | src/components/product/ProductCard.tsx:135-150 | "Only N left" exactly when 0 < stock ≤ 5, "Out of Stock" exactly when stock is 0, never both. |
| ProductCard.HoverActions | src/components/product/ProductCard.tsx:216-256 | Quick view always comes first. Wishlist appears exactly with a handler; add-to-cart exactly with a handler and positive stock. No action repeats, the wishlist button precedes add-to-cart, and the length is one plus one per shown button. |
| ProductCard.CardClick | src/components/product/ProductCard.tsx:71-80 | With analytics on (the default, line 37) exactly one view is posted: this product's id as text, the card's user, and the stored session id or a newly created and stored one. With it off, nothing is posted and storage is unchanged. The card always navigates to the product page. |
| ImageFallback.Resolve | src/components/product/ProductCard.tsx:182-188 | Reading `img.src` gives an absolute URL resolved against the page origin. An absolute attribute is returned as is. |
| ImageFallback.HandlerAsWritten | src/components/product/ProductCard.tsx:182-188 | The guard as written: `src` becomes the fallback exactly when the resolved `src` differs from the unresolved fallback path. |
| ImageFallback.Reassignments | src/components/product/ProductCard.tsx:182-188 | Over n failing loads `src` is reassigned at most n times. |
| ImageFallback.HandlerCorrected | src/components/product/ProductCard.tsx:182-188 | The intended guard: replace `src` by the fallback exactly when the resolved `src` is not the resolved fallback. |
| ImageFallback.AsWrittenNeverStops | src/components/product/ProductCard.tsx:182-188 | The guard as written, with an http(s) origin and a root-relative fallback, reassigns `src` on every one of n failing loads. |
| ImageFallback.AsWrittenExample | src/pages/public/ProductCatalogSimple.tsx:170-184 | Concretely: on http://localhost:3000 with a broken generic fallback, three failures cause three reassignments. |
| ImageFallback.CorrectedStopsAfterOne | src/components/product/ProductCard.tsx:182-188 | The corrected guard reassigns at most once, however many loads fail. |
| ImageFallback.CorrectedReplacesOthers | src/components/product/ProductCard.tsx:182-188 | The corrected guard still replaces any image other than the fallback exactly once. |
| ProductCatalog.Matches | src/pages/public/ProductCatalogSimple.tsx:111-115 | A product with neither a name nor a category name never matches; a name containing the term always does. |
| ProductCatalog.Filter | src/pages/public/ProductCatalogSimple.tsx:111-115 | The kept products are exactly those whose lowercased name or category name contains the lowercased term. |
| ProductCatalog.FilterConcat | src/pages/public/ProductCatalogSimple.tsx:111-115 | Filtering commutes with concatenation, so the result is an order-preserving subsequence. |
| ProductCatalog.EmptyTermKeeps | src/pages/public/ProductCatalogSimple.tsx:111-115 | An empty term keeps exactly the products with a name or a category name. |
| ProductCatalog.CatalogImage | src/pages/public/ProductCatalogSimple.tsx:168 | The first image's processed URL when truthy, else its URL when truthy, else the generic image, which is also shown without images. Never empty. |
| ProductCatalog.CatalogShowsProcessed | src/pages/public/ProductCatalogSimple.tsx:86-89 | After images are normalised, the catalog shows the first image's normalised URL. |
| ProductCatalog.CatalogFallbackImage | src/pages/public/ProductCatalogSimple.tsx:173-183 | Electronics for 'electronics' or 'phone' categories, generic otherwise. |
| ProductCatalog.CatalogFallbackRefinesCard | src/pages/public/ProductCatalogSimple.tsx:173-183 | The catalog's fallback is the electronics image exactly when the card's is. |
| ProductCatalog.CatalogPage.constructor | src/pages/public/ProductCatalogSimple.tsx:61-66 | The page starts empty, loading, with no error and a zero cart count. |
| ProductCatalog.CatalogPage.FetchProducts | src/pages/public/ProductCatalogSimple.tsx:73-108 | An array response gives the image-processed products and no error. A non-array response gives 'Invalid response format from API'. Any failure gives its message. Every failed fetch installs the two fallback products, so the error-only view never shows; loading is off after all outcomes. |
| ProductCatalog.CatalogPage.AddToCart | src/pages/public/ProductCatalogSimple.tsx:117-120 | The cart count rises by exactly one. |
| ProductCatalog.CatalogPage.ShowCartBadge | src/pages/public/ProductCatalogSimple.tsx:231 | The badge shows only for a positive count, and never at zero. |
| RichContent.Spaced | src/components/product/RichContentDisplay.tsx:61 | A space before each capital grows the string by the capital count, and the result never starts with a capital. |
| RichContent.Unspace | src/components/product/RichContentDisplay.tsx:61 | The inverse transform never lengthens a string. |
| RichContent.UnspaceSpaced | src/components/product/RichContentDisplay.tsx:61 | Removing the inserted spaces restores the key: `replace(/([A-Z])/g, ' $1')` loses nothing. |
| RichContent.SpacedInjective | src/components/product/RichContentDisplay.tsx:61 | Distinct key tails give distinct label tails. |
| RichContent.SpecLabel | src/components/product/RichContentDisplay.tsx:61 | The label is the key's first character upper-cased, then the spaced rest. Its length is the key's plus the capitals in `key[1..]`; it is empty only for the empty key. |
| RichContent.SpecLabelInjective | src/components/product/RichContentDisplay.tsx:61 | Two keys with the same label agree on their tails and on their first letter up to case. |
| RichContent.TagLabel | src/components/product/RichContentDisplay.tsx:108 | `name \|\| value` for object tags, the text for scalar ones. |
| RichContent.DocIcon | src/components/product/RichContentDisplay.tsx:122-132 | The PDF icon exactly for 'warranty', the description icon for every other type. |
| RichContent.SpecRows | src/components/product/RichContentDisplay.tsx:43-70 | One row per entry, in order, with the entry's label and value. |
| RichContent.DocumentRows | src/components/product/RichContentDisplay.tsx:119-167 | One row per document, in order, with its icon, name and link. |
| RichContent.VideoRows | src/components/product/RichContentDisplay.tsx:170-196 | One link per URL, labelled 'Video 1', 'Video 2', … in order. |
| RichContent.TagLabels | src/components/product/RichContentDisplay.tsx:100-116 | One chip per tag, in order, labelled by `TagLabel`. |
| RichContent.Sections | src/components/product/RichContentDisplay.tsx:199-298 | At most the seven sections. |
| RichContent.SectionsOrdered | src/components/product/RichContentDisplay.tsx:199-298 | The sections always come in the fixed order: details, description, features, specifications, documentation, videos, tags. |
| RichContent.SectionPresence | src/components/product/RichContentDisplay.tsx:199-298 | Each section appears exactly when its gate holds. Details need a rich description. The plain description needs no rich one. Lists need a non-empty list, and specifications need at least one key. |
| RichContent.SectionContents | src/components/product/RichContentDisplay.tsx:199-298 | A shown section displays the first entry's own data: its HTML, its plain description (only without a rich one), its non-empty features, its specification rows, its non-empty document rows, its videos and its non-empty tag labels. |
| RichContent.Render | src/components/product/RichContentDisplay.tsx:37-41 | Nothing renders exactly when content is absent or empty; otherwise the sections of `content[0]`. |
| RichContent.OnlyFirstEntry | src/components/product/RichContentDisplay.tsx:41 | Entries after the first never affect what renders. |
| RichContent.DescriptionsExclusive | src/components/product/RichContentDisplay.tsx:202-228 | The rich and the plain description never both show. |
| Recommendations.Take | src/components/recommendations/RecommendationContainer.tsx:52 | `slice(0, maxItems)`: a prefix of the ids, of length `maxItems` when in range, the whole list when larger, and counted from the end when negative. |
| Recommendations.PanelProducts | src/components/recommendations/RecommendationContainer.tsx:52-62 | A section's products are the successful lookups of its first `maxItems` ids, at most min(ids, maxItems) of them. |
| Recommendations.PanelIgnoresTail | src/components/recommendations/RecommendationContainer.tsx:52 | Ids beyond `maxItems` never influence the section. |
| Recommendations.Placeholders | src/components/recommendations/RecommendationContainer.tsx:116 | `maxItems` skeleton cards while loading (none for a negative count). |
| Recommendations.PanelView | src/components/recommendations/RecommendationContainer.tsx:96-151 | Skeletons exactly while loading; the grid exactly when done with products and no error. Otherwise the error text, or the "No recommendations available at the moment." message without one. |
| Recommendations.ErrorDistinctFromEmpty | src/components/recommendations/RecommendationContainer.tsx:131-148 | A failure with its own text looks different from an empty section. |
| Recommendations.ClickProduct | src/components/recommendations/RecommendationContainer.tsx:80-89 | A view is posted exactly when asked; navigation to the product page always follows. |
| RecommendationContainer.SectionState.constructor | src/components/recommendations/RecommendationContainer.tsx:42-44 | A section starts empty, loading, without error. |
| RecommendationContainer.SectionState.Load | src/components/recommendations/RecommendationContainer.tsx:46-78 | Non-empty ids give the panel's products and clear the error. Empty ids do no lookup and change nothing. Loading is off afterwards. |
| RecommendationContainer.SectionState.View | src/components/recommendations/RecommendationContainer.tsx:96-151 | The section shows `PanelView` of its state, and a grid only with products. |
| RecommendationContainer.EmptySectionMessage | src/components/recommendations/RecommendationContainer.tsx:73-77 | An empty id list ends with the "No recommendations" message. |
| RecommendationContainer.FailedLookupsMessage | src/components/recommendations/RecommendationContainer.tsx:57-66 | When every lookup fails the section shows the "No recommendations" message, not an error. |
| RecommendationContainer.SectionClick | src/components/recommendations/RecommendationContainer.tsx:80-89 | A view is recorded exactly when `userId` is truthy; navigation always follows. |
| RecommendationContainer.ContainerState.constructor | src/components/recommendations/RecommendationContainer.tsx:314-318 | All four lists start empty and loading is on. |
| RecommendationContainer.ContainerState.FetchRecommendations | src/components/recommendations/RecommendationContainer.tsx:320-356 | Trending (limit 8) goes first; if it fails, no other call is made and no list changes. User ids (limit 6) are fetched only for a truthy user, and a failure keeps the old list. Similar and frequently-bought ids (limit 4) are fetched only with a product, both set or neither. Loading is off afterwards. |
| RecommendationContainer.ContainerState.Panels | src/components/recommendations/RecommendationContainer.tsx:386-431 | At most the four sections. |
| RecommendationContainer.ContainerState.PanelsOrdered | src/components/recommendations/RecommendationContainer.tsx:386-431 | Sections come in the order personal, similar, frequently bought, trending. |
| RecommendationContainer.ContainerState.PanelKinds | src/components/recommendations/RecommendationContainer.tsx:386-431 | A section of a kind shows exactly when its list is non-empty and its context is present. |
| RecommendationContainer.ContainerState.PanelPresence | src/components/recommendations/RecommendationContainer.tsx:386-431 | The same, one equivalence per kind. |
| RecommendationContainer.ContainerState.PanelContents | src/components/recommendations/RecommendationContainer.tsx:386-431 | Each shown section holds its own non-empty list, with `maxItems` 4, 4, 4 and 6. |
| RecommendationContainer.AnonymousOnlyTrending | src/components/recommendations/RecommendationContainer.tsx:320-431 | Without a user or a product only trending is fetched, and only the trending section can show. |
| PersonalizedRecommendations.PanelState.constructor | src/components/recommendations/PersonalizedRecommendations.tsx:50-53 | The panel starts empty, loading, with an empty wishlist and no error. |
| PersonalizedRecommendations.PanelState.FetchRecommendations | src/components/recommendations/PersonalizedRecommendations.tsx:56-89 | Trending is requested only when the user's list is empty. A failed id fetch sets 'Failed to load personalized recommendations', with no fallback. Otherwise the products are the successful lookups of the first `maxItems` ids. Loading is off afterwards. |
| PersonalizedRecommendations.PanelState.ToggleWishlist | src/components/recommendations/PersonalizedRecommendations.tsx:103-115 | A present id is removed and an absent one added; the callback fires either way. |
| PersonalizedRecommendations.PanelState.View | src/components/recommendations/PersonalizedRecommendations.tsx:126-175 | The panel shows the same view rule as the container's sections. |
| PersonalizedRecommendations.Toggled | src/components/recommendations/PersonalizedRecommendations.tsx:103-115 | The toggled id flips membership; every other id is untouched. |
| PersonalizedRecommendations.ToggleTwice | src/components/recommendations/PersonalizedRecommendations.tsx:103-115 | Toggling twice restores the set. |
| PersonalizedRecommendations.TogglesCommute | src/components/recommendations/PersonalizedRecommendations.tsx:103-115 | Toggles of two ids commute. |
| PersonalizedRecommendations.DoubleToggle | src/components/recommendations/PersonalizedRecommendations.tsx:103-115 | Two clicks on the same heart leave the wishlist as it was. |
| PersonalizedRecommendations.StockLabel | src/components/recommendations/PersonalizedRecommendations.tsx:383-386 | "N in stock" for positive stock, "Out of Stock" otherwise. |
| PersonalizedRecommendations.AddToCartDisabled | src/components/recommendations/PersonalizedRecommendations.tsx:394 | The button is disabled only at stock 0; any other stock enables it. |
| PersonalizedRecommendations.DisabledMeansOutOfStock | src/components/recommendations/PersonalizedRecommendations.tsx:383-394 | The button is disabled exactly at stock 0, and a disabled button always shows "Out of Stock". A negative stock also shows it while the button stays enabled, and a positive stock enables the button without that label. |
| PersonalizedRecommendations.PanelClick | src/components/recommendations/PersonalizedRecommendations.tsx:94-101 | A view is always posted for the user, and navigation always follows. |

## Left out

- ImageFallback.Resolve: a protocol-relative attribute ('//host/x.jpg') is joined to the whole origin rather than given only the origin's scheme. No fallback image has that form, so the fallback finding does not depend on it.
- ProductService.Spread: a parameter is either given or not. A caller's explicit `undefined` (for example `search: undefined`), which in the source overrides the injected term and then is not sent, cannot be expressed; the model keeps the injected term.
- Networking, axios set-up and the 401 interceptor are not modelled. Every backend answer is an input, and HTTP plumbing is not part of this model.
- JSON parsing and serialisation: a stored value is `Absent`, `Unparseable` or `Saved(v)`, and the empty stored string reads as absent. Variant equality is sequence equality.
- `parseInt` of recommendation ids: ids are held as integers. The text-to-number conversion with its NaN case is not modelled.
- The regular expressions, `trim` and `toLowerCase` are ASCII-only. Inputs are assumed to contain no line terminators, which matters for the password lookaheads. Non-ASCII whitespace and case mapping are left out.
- Floating point: average ratings and document sizes. Prices are integer cents.
- ProductCard.DiscountPercentage: rounds the exact quotient of the integer prices, where `Math.round` of a floating-point quotient can fall on the other side of a .5 tie. Its rounding clause covers positive list prices only; a zero list price (reachable only with a negative discount price) gives Infinity or NaN in the source and 0 in the model.
- The clock and `Math.random` in session ids are parameters. ISO timestamps attached to recorded events are not modelled.
- Concurrency: `Promise.all` and `Promise.allSettled` are sequences of outcomes. React effect scheduling, re-render timing and in-flight races are not modelled.
- `CartService.CartService.GetCartTotal`: its contract states only the empty-cart case. The general total is the fold `Total`, whose concatenation, replacement and deletion laws are the `Sum*` lemmas, and `Added` states how a new item moves it.
- The user-cart REST wrappers other than the ones the merge uses (`updateUserCartItem`, `removeFromUserCart`, `clearUserCart`) are one-call wrappers with message mapping only. `addToUserCart` is modelled inside the merge as the per-call oracle.
- Analytics and behaviour reads beyond the error mapping (their data shapes) are the answer values themselves. So are `updateUserPreferences`, `inferUserPreferences` and the history readers, which map messages like the other reads.
- `getProfile` and `updateProfile` of the authentication client are one-call wrappers.
- `RecommendationContainer.SectionState.Load`: the `catch` that sets 'Failed to load recommendations' cannot be reached, because `Promise.allSettled` never rejects and the mapping after it cannot throw. The model has no such path.
- The recorders' optional payload fields (product, category, duration, filters, purchased lines, interaction value) are passed through and not modelled. Only the fields named in `Activity` and `Event` are kept.
- Dialogs, hover state, `imageLoaded`, password visibility toggles and the social-login stubs are UI state, not modelled.
- Category, review and order services, route tables, header, footer and dashboard layout are not part of this model.

The code is followed where its behaviour differs from what its messages suggest:

- The merge's error text is always 'Failed to merge carts'. The inner add and lookup errors it catches are plain `Error` values without a `response`, so a backend message never reaches the caller.
- The login page's fallback text ('Authentication failed. Please check your credentials.') is never shown. The error it catches always carries a non-empty message.

## Findings

| source | as written | input that shows it | evidently intended | confidence | as-written member | corrected member |
|---|---|---|---|---|---|---|
| src/components/product/ProductCard.tsx:182-188 (same guard at src/pages/public/ProductCatalogSimple.tsx:181-183) | `if (target.src !== fallback) target.src = fallback`. `target.src` reads back the resolved absolute URL, while `fallback` is the root-relative '/images/…' path, so the test is always true. | Page origin http://localhost:3000 and a missing '/images/product-fallback-generic.jpg': every failed load of the fallback reassigns `src` and starts another load, without end. | Stop once the image already shows the fallback: compare the resolved `src` with the resolved fallback, or the `src` attribute with the fallback. | not executed | ImageFallback.AsWrittenNeverStops, ImageFallback.AsWrittenExample | ImageFallback.CorrectedStopsAfterOne, ImageFallback.CorrectedReplacesOthers |
| src/components/product/ProductCard.tsx:46 (rendered at lines 118 and 338) | `hasDiscount = product.discountPrice && product.discountPrice < product.price` is the number 0 when the discount price is 0, and `{hasDiscount && …}` renders a number. | A product with `discountPrice: 0` and `price: 10`: a bare "0" appears at the badge corner and another after the price. | `hasDiscount` a boolean (`!!product.discountPrice && …`), so nothing shows without a discount. | not executed | ProductCard.DiscountNodesAsWritten, ProductCard.StrayZeroAsWritten | ProductCard.DiscountNodes, ProductCard.AsWrittenDiffersOnlyAtZero |
