# Harum Sari shop: store, checkout, notifications and forms

This project models the client-side core of a small React Native shop app.

- **The application store** (`store.ts`). One mutable record holds the session user, the order ledger, a loading flag, an error message and the shopping cart. Its actions change that record. In the model it is the class `AppStore.Store`, and its cart actions are specified by the pure functions of module `Cart`.
- **The checkout screen** (`app/payment.tsx:44-83`). It computes the cart total, refuses a checkout without a delivery address or, for a bank transfer, without a sender account, and otherwise creates the order. The cart is cleared only after the order has been created.
- **The notification feed** (`app/notification.tsx:19-83`). It is a pure function of the order ledger. Each order gives a "received" notification, plus one status notification for `processing` or `delivered` orders. The lists are concatenated and sorted newest first.
- **The four form screens**: register, login, change password and edit profile. Each runs a chain of field checks, where the first failing check decides the message. When all checks pass, it calls the store or the backend and shows that call's error message.

Every backend call that an action awaits is a parameter of type `Common.Outcome<T>`. It records how the call settles: `Resolved(value)` or `Rejected(thrown)`. A thrown value is either an `Error` carrying its message or some other value. This is what the source's `err instanceof Error ? err.message : fallback` distinguishes, and it is modelled by `Common.DisplayMessage`. Each action runs as one atomic step from its entry state to its final state.

Module layout:

- `common.dfy`: Option, Outcome, the thrown-value model and the minimum password length.
- `entities.dfy`: users, products, cart entries, orders and the JSON value of an order's `items`.
- `cart.dfy`: the cart ledger and its invariant.
- `store.dfy`: the store class.
- `payment.dfy`: the total, the checkout check and the checkout screen.
- `notification.dfy`: the feed.
- `register.dfy`, `login.dfy`, `change_password.dfy`, `edit_profile.dfy`: the forms.

## Model

| member | source | states |
|---|---|---|
| Cart.Increment | store.ts:178-182 | Bumping one id keeps the cart's length and the id at every position. Every entry with that id gets exactly one more unit, and every other entry is unchanged. |
| Cart.AddToCart | store.ts:172-189 | After adding, the cart contains the product. It grows by one entry exactly when the product was absent. An existing entry gets one more unit and keeps its place, name and price. Other entries are unchanged. An absent product is appended as a new entry with quantity 1. |
| Cart.RemoveFromCart | store.ts:191-195 | The result has no entry with the id. An entry is kept if and only if it was in the cart with a different id. An absent id leaves the cart unchanged. The cart never grows. |
| Cart.UpdateQuantity | store.ts:197-204 | A quantity below 1 leaves the cart unchanged. Otherwise every entry with the id gets exactly that quantity. The length and all other entries are unchanged. |
| Cart.AddPreservesValid | store.ts:172-189 | Adding keeps the cart invariant: one entry per product id, every quantity at least 1. |
| Cart.RemoveKeepsAbsent | store.ts:191-195 | Removing never introduces an id that was absent. |
| Cart.ConsValid | store.ts:5-12 | A valid entry whose id is not in a valid cart can be put in front of it, and the result is still valid. |
| Cart.RemovePreservesValid | store.ts:191-195 | Removing keeps the cart invariant. |
| Cart.UpdatePreservesValid | store.ts:197-204 | Updating a quantity keeps the cart invariant, including the refused case below 1. |
| Cart.RepeatedAdds | store.ts:172-189 | Adding an absent product n ≥ 1 times appends one entry with quantity n. |
| Cart.RemoveAppend | store.ts:191-195 | Filtering an id out of a concatenation is the concatenation of the filtered parts. |
| Cart.RemoveIncrement | store.ts:178-182 | Removing an id undoes any increment of that id. |
| Cart.RemoveUndoesAdd | store.ts:172-195 | Removing the product just added gives the same cart as removing it beforehand. When the product was absent, it gives back the original cart. |
| AppStore.Store.constructor | store.ts:44-49 | The initial state: no user, no orders, not loading, no error, empty cart. |
| AppStore.LoginThrown | store.ts:56-68 | Login throws nothing if and only if the credential check returns a user and the order fetch resolves. Otherwise it throws the credential rejection, `Error('Login gagal')` for no user, or the fetch rejection, in that order. |
| AppStore.RegisterThrown | store.ts:78-89 | Registration throws nothing if and only if the insert returns a user. Otherwise it throws the rejection, or `Error('Registrasi gagal')` for no user. |
| AppStore.Store.Login | store.ts:52-72 | The thrown value is the credential-check rejection, or `Error('Login gagal')` when there is no user, or the order-fetch rejection. The user is stored as soon as the credentials succeed, so it stays signed in when the fetch fails. The orders become the fetched list, or empty for `null`, only on full success. The error is cleared on success, otherwise it holds the thrown message or the login fallback. The loading flag ends false. The cart invariant holds. |
| AppStore.Store.Register | store.ts:74-93 | A created user becomes the session user with an empty ledger and no error. A rejection or a `null` user throws and leaves user and orders as they were, with the error set to the thrown message or the registration fallback. |
| AppStore.Store.Logout | store.ts:95-113 | The intended logout. A successful sign-out clears the user and the orders. A failed one keeps them and records the message or the logout fallback. The cart is kept either way. |
| AppStore.Store.LogoutAsWritten | store.ts:95-113 | Logout as written: the sign-out always throws a `TypeError`, because the database module's default export has no `supabase` member. The user and the orders are kept, the error shows the `TypeError`'s message, that error is rethrown, and loading ends false. |
| AppStore.SignedInLogoutKeepsUser | store.ts:95-113 | After logout as written, a signed-in user is still signed in and the store shows the `TypeError`'s message. |
| AppStore.Store.SetUser | store.ts:115-117 | Replaces the session user and nothing else. |
| AppStore.Store.CreateOrder | store.ts:120-137 | A created order is put in front of the ledger. A rejection leaves the ledger as it was and records the message or the order fallback. The cart is not touched. |
| AppStore.Store.FetchOrders | store.ts:139-156 | Without a user id the call changes nothing, not even the loading flag or the error. Otherwise the ledger becomes the fetched list, or empty for `null`. A rejection keeps the ledger and records the message or the fetch fallback. |
| AppStore.Store.SetLoading | store.ts:159-161 | Sets the loading flag. |
| AppStore.Store.SetError | store.ts:163-165 | Sets the error. |
| AppStore.Store.ClearError | store.ts:167-169 | Clears the error. |
| AppStore.Store.AddToCart | store.ts:172-189 | The new cart is `Cart.AddToCart` of the old one, and the cart invariant is kept. |
| AppStore.Store.RemoveFromCart | store.ts:191-195 | The new cart is `Cart.RemoveFromCart` of the old one, and the cart invariant is kept. |
| AppStore.Store.UpdateQuantity | store.ts:197-204 | The new cart is `Cart.UpdateQuantity` of the old one, unchanged for a quantity below 1, and the cart invariant is kept. |
| AppStore.Store.ClearCart | store.ts:206-208 | The cart is empty. |
| Payment.Total | app/payment.tsx:44 | The definition: a left fold adding each entry's price × quantity, 0 for an empty cart. Its properties are stated by the `Payment.Total…` lemmas below. |
| Payment.TotalAppend | app/payment.tsx:44 | The total of a concatenation is the sum of the totals. |
| Payment.TotalReplace | app/payment.tsx:44 | Replacing one entry changes the total by that entry's price times quantity, new minus old. |
| Payment.TotalNonNegative | app/payment.tsx:44 | A valid cart of non-negative prices has a non-negative total. |
| Payment.TotalRequantify | app/payment.tsx:44 | Changing one entry's quantity to q changes the total by its price times (q − old quantity). |
| Payment.TotalBumped | app/payment.tsx:44 | One more unit of an entry adds exactly its price to the total. |
| Payment.TotalAt | app/payment.tsx:44 | The total is the total of the entries before entry k, plus entry k's price × quantity, plus the total of the entries after it. |
| Payment.RemoveAt | store.ts:191-195 | Removing the id of an entry that occurs only once leaves exactly the entries before and after it, in order. |
| Payment.OnlyAt | store.ts:178-182 | In a valid cart, a result that differs only at the entries carrying one id is a single-position update. |
| Payment.TotalAfterAddExisting | app/payment.tsx:44 | Adding a product already in the cart raises the total by the stored entry's price. |
| Payment.TotalAfterAddNew | app/payment.tsx:44 | Adding an absent product raises the total by its price. |
| Payment.TotalAfterUpdate | app/payment.tsx:44 | Setting a quantity q ≥ 1 changes the total by price × (q − old quantity). |
| Payment.TotalAfterRemove | app/payment.tsx:44 | Removing an entry lowers the total by its price × quantity. |
| Payment.TwoProductsScenario | app/payment.tsx:44 | Two units of a 25000 product plus one of a 30000 product give two entries with quantities 2 and 1, and a total of 80000. |
| Payment.HasAddress | app/payment.tsx:51 | The definition: `user?.address` is truthy, that is, a user with a non-empty address. `Payment.CheckoutError` states how it decides the checkout. |
| Payment.CheckoutError | app/payment.tsx:50-59 | The checkout passes if and only if the user has a non-empty address and, for a bank transfer, a non-empty sender account. The address check comes first. |
| Payment.PaymentScreen.constructor | app/payment.tsx:26-29 | Starts with cash on delivery, no sender account, not loading, no error. |
| Payment.PaymentScreen.ConfirmPayment | app/payment.tsx:50-83 | A refused checkout sends nothing and leaves the store unchanged. Otherwise the order sent carries the user's id and address, the current cart, its total, status `processing`, the chosen method, and the sender account for a transfer or `-` otherwise. On success the order heads the ledger, the cart is emptied and the orders screen is shown. On failure the cart and the ledger are kept, the store's error holds the thrown message or the order fallback, and the screen shows the fixed payment-failure message. Both loading flags end false. |
| Notifications.DecodeItems | app/notification.tsx:22-30 | The definition: text is parsed, and text that does not parse gives an empty array. Any other value is used as it is. `Notifications.UnreadableItemsHaveNoNames` states the consequence. |
| Notifications.ItemNames | app/notification.tsx:32-34 | The corrected names: each element's `name` joined by `, `, with "" for an element that has none, including `null`. A value that is not an array gives "". `Notifications.CartNamesInMessage` states what it gives for a stored cart. |
| Notifications.ItemNamesAsWritten | app/notification.tsx:32-34 | The names as written fail if and only if the items are an array holding a `null` element. When they do not fail, they equal the corrected names. |
| Notifications.MessageOf | app/notification.tsx:32-52 | The definition: `Pesanan: ` followed by the decoded items' names. `Notifications.OrderNotifications` states that every notification of the order carries it. |
| Notifications.DateOf | app/notification.tsx:37-43 | The definition: the formatter applied to `created_at`, or to the clock when `created_at` is empty. `Notifications.OrderNotifications` states that every notification of the order carries it. |
| Notifications.AsWrittenAgreesWithoutNull | app/notification.tsx:32-34 | When the items hold no `null` element, the names as written agree with the corrected names. |
| Notifications.NullItemThrows | app/notification.tsx:32-34 | An items array `[null]` makes the code as written throw, while the corrected names are empty. |
| Notifications.UnreadableItemsHaveNoNames | app/notification.tsx:22-34 | Items that fail to parse, or are not an array, give an empty name list. |
| Notifications.CartNamesInMessage | app/notification.tsx:32-34 | For an order made from a cart, the names are the cart entries' names joined by `, `, in cart order. |
| Notifications.OrderNotifications | app/notification.tsx:46-76 | An order gives one notification, or two when its status is `processing` or `delivered`. The first is the `-created` "received" one. A second carries the matching suffix and title, never the "received" title. All share the order's message, date and id. |
| Notifications.Flatten | app/notification.tsx:21-77 | The definition: each order's notifications, one order after another. `Notifications.FlattenLength` and `Notifications.FlattenBlocks` state its length and layout. |
| Notifications.FlattenLength | app/notification.tsx:77 | The flat list holds as many notifications as the orders' counts add up to. |
| Notifications.FlattenBlocks | app/notification.tsx:77 | The flat list is the notifications of the orders before k, then those of order k, then those of the rest. |
| Notifications.InsertByDate | app/notification.tsx:80-82 | Inserting adds exactly the one notification: as multisets, result = old list + the notification. |
| Notifications.InsertKeepsDescending | app/notification.tsx:80-82 | Inserting into a newest-first list keeps it newest first. |
| Notifications.SortByDate | app/notification.tsx:80-82 | The sort is a permutation of its input, of the same length, and newest first. |
| Notifications.Feed | app/notification.tsx:19-83 | The definition: the flattened notifications, sorted by date. `Notifications.FeedIsPermutation`, `Notifications.FeedIsStable` and `Notifications.NewestFirstFeed` state its properties. |
| Notifications.FeedIsPermutation | app/notification.tsx:77-82 | The feed holds exactly the flattened notifications, and as many as the orders' counts add up to. |
| Notifications.SortKeepsSorted | app/notification.tsx:80-82 | A list that is already newest first comes back unchanged. |
| Notifications.InsertWithKey | app/notification.tsx:80-82 | Inserting a notification puts it ahead of every entry with the same date key. The entries of each other key keep their order. |
| Notifications.SortIsStable | app/notification.tsx:80-82 | The sort is stable. For every key value, the entries with that key come out in the order they went in. |
| Notifications.FeedIsStable | app/notification.tsx:77-82 | Notifications with the same date keep their flattened order in the feed. So an order's "received" notification stays ahead of its status notification, which has the same date. |
| Notifications.FlattenDatesBounded | app/notification.tsx:37-77 | A bound on every order's date bounds every notification's date. |
| Notifications.FlattenDescending | app/notification.tsx:37-77 | Orders listed newest first flatten to a newest-first list. |
| Notifications.NewestFirstFeed | app/notification.tsx:77-82 | For orders listed newest first, the feed is the flattened list itself, with no reordering. |
| Notifications.TwoOrdersScenario | app/notification.tsx:46-82 | A newer processing order and an older delivered order give four notifications: the newer order's two first. |
| Register.RegisterError | app/register.tsx:20-28 | Registration passes if and only if name, email and password are non-empty and the password has at least 6 characters. A missing field is reported before a short password. |
| Register.RegisterScreen.constructor | app/register.tsx:9-15 | All fields start empty, with no error and not loading. |
| Register.RegisterScreen.HandleRegister | app/register.tsx:19-50 | A refused form calls nothing and leaves the store unchanged. Otherwise the user sent has the typed email, password, name, phone and address, and no id. The screen navigates exactly when the store's registration succeeds. The screen shows the thrown message or the store's fallback. The store ends with the created user and an empty ledger, or with its old user and ledger and the error. The cart is kept. |
| Login.LoginError | app/login.tsx:34-37 | Login passes if and only if email and password are both non-empty. |
| Login.LoginScreen.constructor | app/login.tsx:23-26 | Empty fields, no error, not loading. |
| Login.LoginScreen.HandleLogin | app/login.tsx:33-53 | A refused form calls nothing. Otherwise the screen navigates exactly when the store's login succeeds. It shows the thrown message or the store's fallback. The store's user, orders, error, loading flag and cart are as `Store.Login` states. |
| Login.UnknownCredentialsScenario | app/login.tsx:39-52 | A login the backend rejects calls the store but does not navigate. The screen and the store both show the rejection's message, and nobody is signed in. |
| ChangePassword.ChangePasswordError | app/change-password.tsx:22-35 | The change passes if and only if all three fields are non-empty, the new password equals its confirmation and has at least 6 characters. The checks run in that order. |
| ChangePassword.OldPasswordNotChecked | app/change-password.tsx:22-35 | The old password only has to be non-empty: any two non-empty old passwords get the same verdict. |
| ChangePassword.ChangePasswordScreen.constructor | app/change-password.tsx:9-13 | Empty fields, no error, not loading. |
| ChangePassword.ChangePasswordScreen.HandleSave | app/change-password.tsx:21-51 | A refused form calls nothing and shows the check's message. Otherwise the old and new passwords are sent as typed, the screen goes back exactly when the call succeeds, and a failure shows its message or the fallback. |
| EditProfile.InitialForm | app/edit-profile.tsx:9-12 | The form starts from the user's name, email, phone and address. Each is "" when there is no user or the field is missing. |
| EditProfile.ProfileError | app/edit-profile.tsx:23-26 | The save passes if and only if name and email are non-empty. Phone and address may be empty. |
| EditProfile.UntouchedFormSavesUser | app/edit-profile.tsx:9-26 | The untouched form is the user's own data, and it passes exactly when the user has a name and an email. |
| EditProfile.EditProfileScreen.constructor | app/edit-profile.tsx:9-14 | The fields are the initial form of the given user, with no error and not loading. |
| EditProfile.EditProfileScreen.HandleSave | app/edit-profile.tsx:22-47 | A refused form calls nothing. Otherwise the four fields are sent as they stand, and the screen goes back exactly when the call succeeds. A failure shows its message or the fallback. The error is not cleared first, so a success keeps whatever error was shown before. |

## Left out

- Rendering, styling, navigation and the redirects to the login screen are left out. Navigation appears only as the `navigated` result of each handler.
- Asynchrony is left out: every action is one atomic step. The intermediate states, such as `isLoading` true while a call is pending or the error cleared on entry, are not observable in the model, and interleavings of concurrent actions are not modelled.
- The backend (`app/database.ts`) and the Supabase client are not part of this model. Each call is an `Outcome` parameter. So `login` passing `user.id!` for a user without an id is covered only by how the fetch outcome settles.
- AppStore.Store.Logout: this is the intended logout. As written, `logout` can never sign anybody out (see Findings), and no screen calls it: the profile screen's logout button only navigates (`app/(tabs)/profile.tsx:56-59`). `AppStore.Store.LogoutAsWritten` models the code as written.
- `app/_layout.tsx` restoring the session at start-up, the tab screens, and `app/about.tsx` are not part of this model.
- `updatePassword` and `updateProfile` do not exist in `store.ts`, so in the app those calls throw a `TypeError` at run time. The model takes the settlement of each call as a parameter. The failing case is therefore covered by `Rejected(ErrorObject(...))`, but what the backend would do is not modelled.
- JavaScript numbers are modelled as unbounded integers. Prices, quantities and totals have no floating-point rounding or overflow, and JSON numbers in an order's items are integers.
- Notifications.SortByDate: the sort key is a parameter, `key: string -> int`, standing for `new Date(date).getTime()` on the formatted date, and that reading is not modelled. When every date reads back `NaN`, every comparison counts as equal. That is the same as a constant key, for which `SortIsStable` shows the feed keeps its flattened order. When only some dates read back `NaN`, the comparator is inconsistent and JavaScript leaves the order to the engine. The model does not cover that case.
- The date formatter, `JSON.parse` and `Date.now()` are parameters (`Notifications.Runtime`). A parse failure is `None` and is read as an empty item list, as the source's `catch` does. The `console.error` logging is left out.
- String lengths are counted in characters, not UTF-16 code units.
- Notifications.JoinText: JavaScript's `join` rendering is modelled for JSON values only: `null` as "", booleans, integers, strings, nested arrays joined with commas, and objects as `[object Object]`. Fractional and exponent number formats are not modelled.
- Running a check twice gives the same answer because every check is a function of its fields. No separate idempotence lemma is stated.

## Findings

| source | as written | input that shows it | evidently intended | confidence | as-written member | corrected member |
|---|---|---|---|---|---|---|
| app/notification.tsx:33 | `items.map(item => item.name)` reads `name` on every element, outside the `try`, so a `null` element throws a `TypeError` and the feed is never built | an order whose `items` is the JSON text `[null]` | a malformed element contributes an empty name, like `item?.name`, and the feed is still built | not executed | Notifications.ItemNamesAsWritten, shown by Notifications.NullItemThrows | Notifications.ItemNames, which agrees with the code as written whenever no element is `null` (Notifications.AsWrittenAgreesWithoutNull) |
| store.ts:99 | `database.supabase.auth.signOut()` reads `supabase` from the default export of `app/database.ts`. That object (`app/database.ts:32-166`) has no such member: `supabase` is only a named export. So reading `.auth` throws a `TypeError` before any sign-out, the store records the message, and it rethrows | any call of `logout`, for instance with a signed-in user | call the named export, `supabase.auth.signOut()`, as `app/_layout.tsx:7` imports it, so that the session ends and user and orders are cleared | not executed | AppStore.Store.LogoutAsWritten, shown by AppStore.SignedInLogoutKeepsUser | AppStore.Store.Logout, whose success branch clears the user and the orders and keeps the cart |
