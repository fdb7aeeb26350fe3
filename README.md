# Storefront cart, auth and form rules in Dafny

A model of the client-side logic of a small Next.js storefront. It covers:

- **The per-user cart reducer.** A class holding the ordered line items and the current `userId`. It writes the list to browser storage under `cart_<userId>` after every change. It also covers the older single-key variant that keeps one shared `cart` entry.
- **The callers that chain cart operations:**
  - logout in the navigation bar;
  - the registration and login forms, in two generations each (the /login and /register pages render the older ones; the newer ones under `src/components/auth/forms/` are imported by no page);
  - order placement in the checkout wizard;
  - drag-to-reorder and the ± quantity buttons on the cart page.
- **The auth reducer.** A user and a flag, plus the `currentUser` entry and the `auth` cookie it writes. Also the effect-free older variant.
- **The mock user registry** with its duplicate checks and its two login lookups.
- **The route guard** run before every page.
- **The field rules of the forms:**
  - password and confirmation;
  - contact form lengths;
  - card number, expiry and CVV;
  - the shipping fields and their email pattern.
- **Two small UI state machines:** the four-step checkout wizard and the single-open category accordion.

Browser state is one `Storage.Browser` object. localStorage is split by the kind of value a key holds:

- cart lists: a `map` from key to items;
- `currentUser`;
- `registered_users`.

The object also holds the `auth` cookie (value and `max-age`) and the two sessionStorage entries. A flag `quotaFull` says that `localStorage.setItem` throws. The reducers guard their cart writes, so the storage stays as it was. An unguarded write throws out of a reducer or a form handler:

- a throwing reducer aborts the dispatch and leaves the state unchanged;
- a throwing form handler reaches its `catch` message.

Both auth slices register under the name `auth`, and the store that runs mounts `src/store/slices/authSlice.ts`. So the older forms under `src/components/auth/`, which import `login` from `src/features/auth/authSlice.ts`, are modelled dispatching to that mounted reducer (`AuthSlice.AuthStore.Login`). It writes `currentUser` and the cookie. The same holds for the cart: the pages' actions reach `CartSlice.CartStore`.

## Model

| member | source | states |
|---|---|---|
| Common.FindIndex | src/app/cart/page.tsx:236-237 | `findIndex`: -1 exactly when nothing matches, otherwise the first matching index |
| Common.Find | src/store/slices/cartSlice.ts:34 | `find`: `None` exactly when nothing matches, otherwise the element at the first matching index |
| Text.TrimStart | src/components/auth/forms/LoginForm.tsx:84-85 | drops exactly the leading JavaScript whitespace: the result is a suffix that starts with a non-space |
| Text.TrimEnd | src/components/auth/forms/LoginForm.tsx:84-85 | drops exactly the trailing whitespace: the result is a prefix that ends with a non-space |
| Text.Trim | src/components/auth/forms/LoginForm.tsx:84-85 | `trim`: the result occurs in the input with only whitespace before and after it, and has non-space ends |
| Text.TrimAround | src/components/auth/forms/LoginForm.tsx:84-85 | whatever `trimStart` then `trimEnd` can return is a slice of the input with only whitespace around it and a non-space first character |
| Text.ToLower | src/components/auth/forms/LoginForm.tsx:84 | `toLowerCase`: same length; each capital becomes its lower-case letter (code point + 32) and every other character is kept |
| Text.ToUpper | src/components/layout/Navbar.tsx:85-87 | `toUpperCase`: same length; each lower-case letter becomes its capital (code point − 32) and every other character is kept |
| CartHelpers.CartKey | src/helpers/cart.ts:3 | `getCartKey`: "cart_" followed by exactly the user id |
| CartHelpers.CartKeyInjective | src/helpers/cart.ts:3 | distinct user ids give distinct keys |
| CartHelpers.CartKeyDistinctFromOtherKeys | src/helpers/cart.ts:3 | a cart key never collides with `cart`, `currentUser` or `registered_users` |
| CartHelpers.Saved | src/helpers/cart.ts:4-12 | `saveCart` on the storage map: unchanged for an empty user id or a throwing `setItem`; otherwise the user's key holds the items; no other key changes in either case |
| CartHelpers.SaveCart | src/helpers/cart.ts:4-12 | the in-place write changes only the cart map, to `Saved` of the old map |
| CartItems.Ids | src/store/slices/cartSlice.ts:34 | the item ids in order, one per item |
| CartItems.IndexOf | src/store/slices/cartSlice.ts:34 | -1 iff the id is absent, else the first index carrying it |
| CartItems.IndexOfFirst | src/store/slices/cartSlice.ts:34 | an index carrying the id with none before it is what `IndexOf` returns |
| CartItems.IndexOfSameIds | src/store/slices/cartSlice.ts:47 | lists with the same ids give the same index |
| CartItems.Added | src/store/slices/cartSlice.ts:33-39 | `addItem` on the list: the ids stay the same if the id was present, otherwise the new id is appended |
| CartItems.AddExisting | src/store/slices/cartSlice.ts:34-36 | with the id present, only the first matching item changes, its quantity by exactly +1; length and order are kept |
| CartItems.AddNew | src/store/slices/cartSlice.ts:37-38 | with the id absent, the payload is appended with quantity 1, whatever quantity it carried |
| CartItems.UniqueIdsSameIds | src/store/slices/cartSlice.ts:33-52 | uniqueness of ids depends only on the id sequence |
| CartItems.AddedKeepsUniqueIds | src/store/slices/cartSlice.ts:33-39 | `addItem` keeps ids unique |
| CartItems.AddedQuantity | src/store/slices/cartSlice.ts:33-39 | `addItem` raises the total quantity of that id by one and leaves other ids' totals alone |
| CartItems.AddedAllQuantity | src/store/slices/cartSlice.ts:33-39 | repeated adds raise each id's total by the number of times it was added |
| CartItems.AddedAllFromEmpty | src/store/slices/cartSlice.ts:33-39 | from an empty cart, each id's total equals the number of times it was added |
| CartItems.AddedAllIds | src/store/slices/cartSlice.ts:33-39 | after repeated adds, an id is present iff it was present before or was added |
| CartItems.Removed | src/store/slices/cartSlice.ts:43 | `filter`: an item is kept iff it was present and its id differs |
| CartItems.RemovedAppend | src/store/slices/cartSlice.ts:43 | filtering distributes over concatenation, so the kept items keep their order |
| CartItems.RemovedAbsent | src/store/slices/cartSlice.ts:43 | removing an absent id leaves the list equal |
| CartItems.RemovedKeepsUniqueIds | src/store/slices/cartSlice.ts:42-45 | `removeItem` keeps ids unique |
| CartItems.RemovedOverwrite | src/store/slices/cartSlice.ts:43 | changing an item that is then removed does not affect the result |
| CartItems.AddThenRemove | src/store/slices/cartSlice.ts:33-45 | adding a new id and removing it gives back the original list |
| CartItems.WithQuantity | src/store/slices/cartSlice.ts:46-52 | `updateQuantity` on the list keeps the id sequence |
| CartItems.WithQuantityPresent | src/store/slices/cartSlice.ts:47-49 | only the first matching item changes, to exactly the given quantity (no lower bound) |
| CartItems.WithQuantityAbsent | src/store/slices/cartSlice.ts:47-48 | an absent id leaves the list equal |
| CartItems.WithQuantityKeepsUniqueIds | src/store/slices/cartSlice.ts:46-52 | `updateQuantity` keeps ids unique |
| CartItems.ReorderMayDuplicate | src/store/slices/cartSlice.ts:53-56 | `reorderItems` stores any payload, including one with a repeated id |
| CartSlice.Loaded | src/store/slices/cartSlice.ts:13-25 | `loadInitialState`: [] for an empty user id or a missing entry, else the stored list |
| CartSlice.Cleared | src/store/slices/cartSlice.ts:57-66 | `clearCart` on the storage map: for a non-empty user id only that user's key is removed; for an empty one nothing changes |
| CartSlice.LoadAfterSave | src/store/slices/cartSlice.ts:67-71 | round trip: loading a user's cart after a successful save gives the saved items |
| CartSlice.LoadOtherAfterSave | src/helpers/cart.ts:4-12 | saving one user's cart never changes what another user loads |
| CartSlice.LoadAfterClear | src/store/slices/cartSlice.ts:57-71 | after a clear the user loads [] |
| CartSlice.LoadOtherAfterClear | src/store/slices/cartSlice.ts:57-66 | clearing one user's cart never changes what another user loads |
| CartSlice.CartStore.constructor | src/store/slices/cartSlice.ts:27 | the initial state is no items and an empty user id |
| CartSlice.CartStore.SavedIsSynced | src/store/slices/cartSlice.ts:40 | after a successful save, storage agrees with the items |
| CartSlice.CartStore.AddItem | src/store/slices/cartSlice.ts:33-41 | items become `Added`, storage becomes `Saved` of the new items; without a storage error storage agrees with the items |
| CartSlice.CartStore.RemoveItem | src/store/slices/cartSlice.ts:42-45 | items become `Removed`, storage `Saved`; storage agrees with the items afterwards |
| CartSlice.CartStore.UpdateQuantity | src/store/slices/cartSlice.ts:46-52 | items become `WithQuantity`; storage is written only when the id is present |
| CartSlice.CartStore.ReorderItems | src/store/slices/cartSlice.ts:53-56 | items become the payload, which is saved |
| CartSlice.CartStore.ClearCart | src/store/slices/cartSlice.ts:57-66 | items become [], storage becomes `Cleared` under the unchanged user id |
| CartSlice.CartStore.SetUserId | src/store/slices/cartSlice.ts:67-71 | the user id becomes `u` and the items whatever `u` has stored (nothing merged, nothing written) |
| CartSlice.SwitchAwayAndBack | src/store/slices/cartSlice.ts:67-71 | switching to another user and back restores the items exactly |
| LegacyCartSlice.LoadedLegacy | src/features/cart/cartSlice.ts:17-29 | the initial items are the shared `cart` entry, or [] when it is absent or there is no window |
| LegacyCartSlice.SavedLegacy | src/features/cart/cartSlice.ts:45-51 | a guarded write of the shared `cart` key that touches no other key |
| LegacyCartSlice.SharedByEveryone | src/features/cart/cartSlice.ts:20 | whatever is saved is loaded back, with no user in the key |
| LegacyCartSlice.LegacyAndPerUserDisjoint | src/features/cart/cartSlice.ts:47 | the shared key and the per-user keys never affect each other |
| LegacyCartSlice.LegacyCartStore.constructor | src/features/cart/cartSlice.ts:31 | items start as the loaded shared list |
| LegacyCartSlice.LegacyCartStore.Save | src/features/cart/cartSlice.ts:45-51 | the shared key is written with the items |
| LegacyCartSlice.LegacyCartStore.AddItem | src/features/cart/cartSlice.ts:37-52 | items become `Added` and are saved under `cart` |
| LegacyCartSlice.LegacyCartStore.RemoveItem | src/features/cart/cartSlice.ts:53-63 | items become `Removed` and are saved |
| LegacyCartSlice.LegacyCartStore.UpdateQuantity | src/features/cart/cartSlice.ts:64-77 | items become `WithQuantity`; written only when the id is present |
| LegacyCartSlice.LegacyCartStore.ReorderItems | src/features/cart/cartSlice.ts:78-88 | items become the payload, saved |
| LegacyCartSlice.LegacyCartStore.ClearCart | src/features/cart/cartSlice.ts:89-99 | items become [] and the `cart` key is removed |
| AuthSlice.InitialAuth | src/store/slices/authSlice.ts:45-59 | the flag holds iff there is a window and the cookie text contains `auth=true`; the user is the stored one, read independently |
| AuthSlice.SubstringTestAcceptsOtherCookies | src/store/slices/authSlice.ts:47 | a cookie text `oauth=true` loads as authenticated |
| AuthSlice.FlagWithoutUser | src/store/slices/authSlice.ts:47-58 | a cookie with no stored user loads as (null, true); no window loads as (null, false) |
| AuthSlice.AuthStore.constructor | src/store/slices/authSlice.ts:61 | the state starts as `InitialAuth` of the browser |
| AuthSlice.AuthStore.Login | src/store/slices/authSlice.ts:67-74 | sets the user and the flag, writes `currentUser` and the session cookie; a throwing `setItem` aborts with nothing changed |
| AuthSlice.AuthStore.Logout | src/store/slices/authSlice.ts:75-82 | clears the user, the flag, `currentUser` and the cookie; the result does not depend on the old state, so logout is idempotent |
| LegacyAuthSlice.LegacyAuthStore.constructor | src/features/auth/authSlice.ts:17-20 | (null, false), with the flag iff a user |
| LegacyAuthSlice.LegacyAuthStore.Login | src/features/auth/authSlice.ts:26-29 | replaces any user and sets the flag, keeping flag iff user |
| LegacyAuthSlice.LegacyAuthStore.Logout | src/features/auth/authSlice.ts:30-33 | (null, false), keeping flag iff user |
| Navbar.TotalItemsAppend | src/components/layout/Navbar.tsx:50 | the badge sum is additive over concatenation |
| Navbar.TotalItemsUpdate | src/components/layout/Navbar.tsx:50 | changing one line changes the badge by the difference of its quantities |
| Navbar.TotalItemsAdded | src/components/layout/Navbar.tsx:50 | every `addItem` raises the badge by exactly one |
| Navbar.TotalItemsIsNotLineCount | src/components/layout/Navbar.tsx:50 | one line of quantity 3 shows 3: quantities are summed, not lines counted |
| Navbar.FirstChar | src/components/layout/Navbar.tsx:85-86 | `s?.[0] \|\| ""`: empty for an empty name, else its first character |
| Navbar.Initials | src/components/layout/Navbar.tsx:83-90 | "" unless authenticated with a user; otherwise the upper-cased first letters of first and last name, a missing name giving "" |
| Navbar.HandleLogout | src/components/layout/Navbar.tsx:60-76 | goes to /login with auth state, `currentUser` and cookie cleared and cart items []; the current user's saved cart is deleted and every other user's is kept |
| Navbar.LogoutThenLoginLosesCart | src/components/layout/Navbar.tsx:66-70 | logging out and back in as the same user finds an empty cart |
| Navbar.HandleLogoutKeepingCart | src/components/layout/Navbar.tsx:68-69 | the logout the comment describes: the cart state is emptied and storage is untouched |
| Navbar.LogoutThenLoginKeepsCart | src/components/layout/Navbar.tsx:68-69 | with that logout, logging back in restores the user's items |
| CartPage.RemoveAt | src/app/cart/page.tsx:239 | removing one element shortens the list by one |
| CartPage.ArrayMove | src/app/cart/page.tsx:239 | `arrayMove`: same length and multiset; the dragged item lands at the target index and the others keep their relative order |
| CartPage.ArrayMoveAt | src/app/cart/page.tsx:239 | each position of the result holds the element of the source index `Source` gives |
| CartPage.ArrayMoveKeepsUniqueIds | src/app/cart/page.tsx:236-241 | reordering by drag keeps ids unique |
| CartPage.TotalItemsRemoveAt | src/components/layout/Navbar.tsx:50 | removing a line lowers the badge by its quantity |
| CartPage.ArrayMoveKeepsTotalItems | src/app/cart/page.tsx:236-241 | reordering by drag never changes the badge |
| CartPage.DecrementRequest | src/app/cart/page.tsx:123-126 | the − button is live iff quantity > 1 and then asks for quantity − 1 ≥ 1 |
| CartPage.IncrementRequest | src/app/cart/page.tsx:146-148 | the + button asks for quantity + 1 |
| CartPage.ButtonsKeepQuantitiesPositive | src/app/cart/page.tsx:123-148 | from positive quantities, the buttons never request a quantity below 1 |
| CartPage.CartPage.constructor | src/app/cart/page.tsx:65 | no item is being removed at first |
| CartPage.CartPage.HandleDragEnd | src/app/cart/page.tsx:232-249 | no drop target or the same id: nothing dispatched; otherwise the items become `ArrayMove` of the two indices, saved |
| CartPage.CartPage.HandleRemoveItem | src/app/cart/page.tsx:251-277 | `removingItemId` ends null; outside production the item is removed and saved |
| CartPage.CartPage.HandleQuantityChange | src/app/cart/page.tsx:307-330 | both branches dispatch the same `updateQuantity` |
| CartPage.CartPage.HandleClearCart | src/app/cart/page.tsx:279-301 | outside production the cart is cleared through the reducer |
| Middleware.Guard | src/middleware.ts:7-26 | public paths pass; others pass iff the cookie value is exactly "true"; otherwise a redirect to /login with `from` = the path |
| Middleware.RedirectTargetIsPublic | src/middleware.ts:5 | following a redirect never redirects again |
| Middleware.PublicMatchIsExact | src/middleware.ts:11 | "/login/" and "/about/x" are protected |
| Middleware.ShopPagesAreProtected | src/middleware.ts:11-22 | "/", "/cart" and "/checkout" need the cookie; "TRUE" does not count |
| AuthSchemas.PasswordRuleMeaning | src/schemas/authSchemas.ts:18-24 | a password is valid iff it has at least 8 characters and its characters cover the digit, capital and "other" classes; lower case is optional |
| AuthSchemas.PasswordRuleExamples | src/schemas/authSchemas.ts:22-24 | no lower-case letter is needed and a space counts as the special character; "abcdefg1!" and "ABCDE1!" fail |
| AuthSchemas.RegisterPasswordPassesLogin | src/schemas/authSchemas.ts:4-31 | every valid registration passes the login schema with the same email and password |
| AuthSchemas.ConfirmationMeetsPasswordRule | src/schemas/authSchemas.ts:18-28 | an accepted registration's confirmation also meets the password rule; a confirmation that differs from the password makes the form fail |
| ContactSchema.EmptyFieldsRejected | src/schemas/contactSchema.ts:4-28 | every field, and so the form, rejects empty text |
| ContactSchema.NameMaximumInclusive | src/schemas/contactSchema.ts:5-9 | a 50-character name passes despite "less than 50"; 51 and 1 fail |
| ContactSchema.FieldWindows | src/schemas/contactSchema.ts:11-27 | subject 5..100, message 20..1000, email 1..100 characters plus the format check |
| PaymentForm.ExpDateMeaning | src/components/checkout/PaymentForm.tsx:89-94 | the expiry is valid iff "DD/DD" with the month value between 1 and 12 |
| PaymentForm.ExpDateExamples | src/components/checkout/PaymentForm.tsx:92 | "00/25", "13/25", "1/25" and "12-25" fail; no date comparison ("01/00" passes) |
| PaymentForm.CardNumberMeaning | src/components/checkout/PaymentForm.tsx:58-63 | the card number is valid iff it is exactly sixteen characters each with a decimal digit value 0..9 |
| PaymentForm.CvvMeaning | src/components/checkout/PaymentForm.tsx:121-126 | the CVV is valid iff it has three or four characters each with a decimal digit value 0..9 |
| PaymentForm.CardNumberExamples | src/components/checkout/PaymentForm.tsx:58-63 | sixteen zeros pass (no checksum); grouped or 15-digit numbers fail |
| PaymentForm.CvvExamples | src/components/checkout/PaymentForm.tsx:121-126 | 3 or 4 digits only |
| PaymentForm.EmptyPaymentRejected | src/components/checkout/PaymentForm.tsx:40 | the initial empty data never passes |
| ShippingForm.EmailPatternOfParts | src/components/checkout/ShippingForm.tsx:179 | any non-empty whitespace-free a, b, c make `a@b.c` acceptable |
| ShippingForm.EmailPatternHasSeparators | src/components/checkout/ShippingForm.tsx:179 | an accepted email has at least 5 characters, an '@' and a '.' |
| ShippingForm.EmailPatternExamples | src/components/checkout/ShippingForm.tsx:179 | "a@b.c" and "a@b@c.d" pass; "a@b", "a b@c.d" and "@b.c" fail |
| ShippingForm.FreeFormFields | src/components/checkout/ShippingForm.tsx:138-200 | postal code, phone and the other plain fields accept any non-empty text; address2 may be empty |
| ShippingForm.EmptyShippingRejected | src/components/checkout/ShippingForm.tsx:35 | the initial empty data never passes |
| CheckoutPage.NextOnlyPlacesOrder | src/app/checkout/page.tsx:55-61 | under the button guards Next is only clicked on the review step, so it always places the order |
| CheckoutPage.BackLiveWhileSubmittingAsWritten | src/app/checkout/page.tsx:241 | as written, Back is enabled on the review step while the order is pending |
| CheckoutPage.SubmittingLocksNavigation | src/app/checkout/page.tsx:253-255 | with Back also disabled while submitting, no button is live during placement |
| CheckoutPage.ConfirmationIsFinal | src/app/checkout/page.tsx:226 | no navigation on the confirmation step |
| CheckoutPage.CheckoutFlow.constructor | src/app/checkout/page.tsx:31-53 | step 0, not submitting, no error, empty form data |
| CheckoutPage.CheckoutFlow.HandleBack | src/app/checkout/page.tsx:63-65 | the step goes down by one |
| CheckoutPage.CheckoutFlow.HandleNext | src/app/checkout/page.tsx:55-61 | on the review step it starts placing the order; elsewhere it adds one |
| CheckoutPage.CheckoutFlow.BeginPlaceOrder | src/app/checkout/page.tsx:78-79 | submitting, error cleared |
| CheckoutPage.CheckoutFlow.FinishPlaceOrder | src/app/checkout/page.tsx:80-88 | success: cart cleared through the reducer, then one step on; failure: error message, step and cart unchanged; never submitting afterwards |
| CheckoutPage.CheckoutFlow.Click | src/app/checkout/page.tsx:226-255 | an enabled button keeps the step in [0,3], with a pending order only on the review step |
| CheckoutPage.CheckoutFlow.OrderSettles | src/app/checkout/page.tsx:77-89 | the order settling lands on the confirmation step with an empty cart, or stays on review with the error |
| CheckoutPage.CheckoutFlow.SubmitShipping | src/app/checkout/page.tsx:67-70 | valid shipping data is stored and the step advances; invalid data changes nothing |
| CheckoutPage.CheckoutFlow.SubmitPayment | src/app/checkout/page.tsx:72-75 | valid payment data is stored and the step advances to review; invalid data changes nothing |
| CheckoutPage.BackDuringOrderAsWritten | src/app/checkout/page.tsx:241 | Place Order then Back before the timer: cart emptied, shopper left on the review step |
| HomePage.Toggle | src/app/page.tsx:33-35 | the clicked panel is open afterwards iff it was not open before, and no other panel is open |
| HomePage.AtMostOneOpen | src/app/page.tsx:54 | one `expanded` value opens at most one panel |
| HomePage.ToggleTwice | src/app/page.tsx:34 | clicking a closed panel twice leaves all collapsed |
| HomePage.ToggleOtherSwitches | src/app/page.tsx:34 | clicking another header closes the first and opens only the second |
| Registry.CheckNew | src/components/auth/forms/RegistrationForm.tsx:60-74 | username taken ⇒ username error; else email taken ⇒ email error; else available |
| Registry.AvailableKeepsUnique | src/components/auth/forms/RegistrationForm.tsx:60-86 | appending an available account keeps usernames and emails unique |
| Registry.SecondRegistrationRefused | src/components/auth/forms/RegistrationForm.tsx:60-67 | once registered, the same username is refused |
| RegistrationForm.Submit | src/components/auth/forms/RegistrationForm.tsx:52-112 | schema failure, the two duplicate errors and a throwing write leave everything unchanged; success appends one user, sets cookie and `currentUser`, logs in, clears the previous user id's cart and switches the cart to the new username |
| RegistrationForm.RegistrationKeepsRegistryUnique | src/components/auth/forms/RegistrationForm.tsx:60-86 | a successful registration keeps the registry unique and refuses a repeat |
| LoginForm.NormaliseEmail | src/components/auth/forms/LoginForm.tsx:84 | the input trimmed and then lower-cased; hence no capital letters, no surrounding whitespace, never longer |
| LoginForm.Authenticate | src/components/auth/forms/LoginForm.tsx:87-89 | `None` iff no user matches the normalised email and trimmed password; otherwise the first registered user that does |
| LoginForm.RedirectAfterLogin | src/components/auth/forms/LoginForm.tsx:101-106 | the pending product, else a non-empty `from`, else "/" |
| LoginForm.SignIn | src/components/auth/forms/LoginForm.tsx:91-98 | success ends with the reducer's session cookie, `currentUser`, auth state and the cart switched; a throwing write leaves the 24-hour cookie set and nothing else changed |
| LoginForm.SignInKeepingLongCookie | src/components/auth/forms/LoginForm.tsx:92-93 | the 24-hour cookie survives a successful sign-in, and a failed one leaves nothing |
| LoginForm.Submit | src/components/auth/forms/LoginForm.tsx:77-116 | no match: "Invalid email or password" with nothing changed; a match signs in as `SignIn` and returns the redirect target |
| LoginForm.SignedInAccountShape | src/components/auth/forms/LoginForm.tsx:84-88 | a signed-in account's stored email has no capital and its stored password equals the trimmed input |
| LoginForm.MixedCaseRegistrantLockedOut | src/components/auth/forms/LoginForm.tsx:84-88 | an account registered with a capital in its email can never sign in |
| LoginForm.PaddedPasswordLockedOut | src/components/auth/forms/LoginForm.tsx:84-88 | an account registered with a password ending in whitespace can never sign in |
| LoginForm.AuthenticateNormalised | src/components/auth/forms/LoginForm.tsx:84-89 | the intended lookup: `None` iff no user matches after normalising both emails; otherwise the first user that does |
| LoginForm.RegisteredUserCanSignIn | src/components/auth/forms/RegistrationForm.tsx:76-86 | round trip: with the intended lookup every new account signs in with what it registered |
| LoginForm.NormalisedRegistrantCanSignIn | src/components/auth/forms/LoginForm.tsx:84-89 | as written, the round trip holds for an email already normalised and a password without surrounding spaces |
| LegacyLoginForm.Lookup | src/components/auth/LoginForm.tsx:67-69 | the first account whose username or email equals the input exactly; `None` iff there is none |
| LegacyLoginForm.LoginPayload | src/components/auth/LoginForm.tsx:88-93 | no password, user id or address; the last name, or `Some("")` when there is none (`lastName \|\| ""`) |
| LegacyLoginForm.Submit | src/components/auth/LoginForm.tsx:48-110 | exactly one of: no registry, not registered, bad password, failed write, success; only success changes anything (auth, `currentUser`, cookie, session) |
| LegacyLoginForm.RefusalsExplain | src/components/auth/LoginForm.tsx:57-85 | every refusal shows a message; only the two "not registered" ones offer registration |
| LegacyLoginForm.EmptyRegistryFindsNobody | src/components/auth/LoginForm.tsx:64-76 | a stored empty list reaches "not registered", not "no registry" |
| LegacyLoginForm.UsernameFindsAccount | src/components/auth/LoginForm.tsx:67-69 | an account is found by its username unless an earlier account claims that text |
| LegacyLoginForm.EarlierUsernameShadowsEmail | src/components/auth/LoginForm.tsx:67-69 | an email equal to an earlier username finds the earlier account |
| LegacyRegistrationForm.LegacyNewUser | src/components/auth/RegistrationForm.tsx:106-113 | an empty last name is dropped; password, username and email are stored as typed |
| LegacyRegistrationForm.Submit | src/components/auth/RegistrationForm.tsx:76-141 | the same checks and messages as the newer form; success appends one user, logs in with the password-free payload and writes the session, and never touches the cart |
| LegacyRegistrationForm.LegacyAccountShape | src/components/auth/RegistrationForm.tsx:120-125 | the login payload keeps the typed last name ("" when empty) and drops the password |
| LegacyRegistrationForm.RegisteredCanLogIn | src/components/auth/RegistrationForm.tsx:85-117 | round trip: an account whose username is nobody's email is found by the older login form and its password matches |

## Left out

- Money: prices, cart totals and the order summary's tax and shipping are floating-point display values. `price` is carried and never computed with.
- JSON: serialisation and parsing of storage entries. An entry that does not parse is modelled as absent. This includes the unguarded `JSON.parse` of `currentUser` when the auth store is created (src/store/slices/authSlice.ts:49), which would throw instead.
- AuthSlice.InitialAuth: the cookie text is a parameter, the whole `document.cookie` string. Cookies other than `auth` are not modelled, so it is not derived from the `authCookie` field.
- Storage failures: only `localStorage.setItem` can throw (the `quotaFull` flag). `removeItem`, sessionStorage writes and `document.cookie` always succeed.
- Text: case mapping is ASCII only, and string lengths count characters rather than UTF-16 code units.
- The library email check: the format check behind `.email()` is the parameter `isEmail`.
- Next.js routing configuration: the path-matcher regex in `src/middleware.ts` is not modelled.
- Network code: the RTK Query endpoints, the products services and the production branches of the cart page.
  - The production branches of `handleRemoveItem` and `handleClearCart` leave the local cart untouched, which is what they do to it.
- Start-up components: `AuthInitializer` (a 100 ms timer) and `CartInitializer` are not part of this model. `CartInitializer` imports an `initializeCart` that `src/store/slices/cartSlice.ts` does not export.
- Timers:
  - The checkout's two-second wait is the gap between `BeginPlaceOrder` and `FinishPlaceOrder`. That wait never rejects; the failure branch is reached through the `fails` parameter.
  - The forms' redirect delays are modelled as the redirect target they return.
- Random order numbers (`Math.random`) on the confirmation step.
- Rendering and UI state: toasts, loading flags, dialogs, the password-visibility toggles and the new login form's on-mount "already signed in" redirect.
- Drag-and-drop ids: the sortable ids are `item.id.toString()`. They are modelled as the integer ids, which compare the same way.
- CartPage.CartPage.HandleDragEnd: requires that both ids belong to rendered items, as the drag library only reports those.
- CheckoutPage.CheckoutFlow.Click: requires the corrected button guard (Back disabled while an order is pending; see Findings). The as-written guard is `EnabledAsWritten`.
- Sources of the form handlers' inputs: the login form's `pendingCartItem` (sessionStorage) and `from` (search parameter) are parameters.
- The older forms' `onSuccess` callbacks belong to the pages and are modelled as the returned outcome.

## Findings

| source | as written | input that shows it | evidently intended | confidence | as-written member | corrected member |
|---|---|---|---|---|---|---|
| src/components/layout/Navbar.tsx:66-70 | `clearCart` runs after `logout` without resetting the cart's user id, so it deletes `cart_<userId>` from storage | user "alice" with saved items logs out and logs back in: her cart is empty | lines 68-69: clear the cart state only and keep every user's saved cart | high, not executed | Navbar.LogoutThenLoginLosesCart | Navbar.LogoutThenLoginKeepsCart |
| src/app/checkout/page.tsx:241 | Back stays enabled while the order is being placed (`isSubmitting`) | on Review click Place Order, then Back within two seconds: the cart is emptied and the shopper ends on Review, not Confirmation | Back disabled while submitting, so a placed order always reaches Confirmation | medium, not executed | CheckoutPage.BackDuringOrderAsWritten | CheckoutPage.CheckoutFlow.OrderSettles |
| src/components/auth/forms/LoginForm.tsx:93 | the 24-hour cookie is set before `login`, whose reducer rewrites `auth=true; path=/` without `max-age`; and when `currentUser` cannot be written the cookie stays although sign-in failed | any successful sign-in ends with a session cookie; a full storage ends with an error message and a valid cookie | a 24-hour cookie after success (comment at line 92) and none after failure | high, not executed; latent, since no page renders this form (src/app/login/page.tsx:3 renders the older one) | LoginForm.SignIn | LoginForm.SignInKeepingLongCookie |
| src/components/auth/forms/LoginForm.tsx:84-88 | the typed email is trimmed and lower-cased, and the typed password trimmed, but both are compared with the stored values verbatim, and registration stores them as typed | register with "Bob@example.com", or with the password "Secret1! " (which the registration rule accepts): no email and password can sign that account in (the password half is LoginForm.PaddedPasswordLockedOut) | case-insensitive matching of the email, and the password as registered | medium, not executed; latent, since no page renders this form or the newer registration form | LoginForm.MixedCaseRegistrantLockedOut | LoginForm.RegisteredUserCanSignIn |
