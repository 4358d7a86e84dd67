# Temple prashad and coupon store — a Dafny model of its core

The store sells temple coupons and prashad (meal offerings). A customer logs in with an
emailed one-time code. They fill a cart, check out, and pay through Razorpay. An administrator
passes an allow-list and an emailed six-digit code, then manages the prashad catalogue and
redeems scanned coupons.

This project models the logic behind that flow:

- **The shopping page** (`CouponList`):
  - the cart and its three updaters;
  - the item and price totals;
  - the name and meal-time filters;
  - the grouping of coupons by category.
- **Order creation**: a `pending` order header plus one `order_items` row per cart line.
- **Payment verification**: the HMAC check of the gateway callback and the status update.
- **One-time codes**:
  - the in-memory code stores;
  - the login code routes;
  - the administrator code routes;
  - the allow-list.
- **Admin pages**:
  - the verification dialog;
  - the access gate of the admin page;
  - the prashad manager;
  - the coupon scanner with its one-way "used" flag;
  - the profile page with its email pattern.

## How it is modelled

- **Database.** The database is a class, `Tables.Database`. It has one `map` per table, keyed
  by row id. Handlers that write rows change those fields in place.
- **Inputs from outside.** Every effect outside the code becomes a parameter:
  - whether a database write is rejected;
  - the ids the database generates;
  - `Date.now()` and `Math.random()`;
  - whether an email was sent;
  - the HMAC-SHA256 digest (RFC 2104 over the SHA-256 of FIPS 180-4);
  - what a `fetch` answers.
- **Pages and handlers.** React components become classes whose fields are the component's
  state. Each handler is a method that states the complete new state.
- **Pure computations are plain functions.** These are the cart updates, the totals, the
  filters, the code checks and the email pattern.
- **Properties** are proved as lemmas about those functions.

The code behaves as follows, and the model does the same:

- The order header and the item rows are two separate inserts. When the second insert fails,
  the header stays and no rollback happens.
- The coupon scanner marks a coupon used without any confirmation step.
- No contact-number check exists on the server.

The payment route signs and checks only the two gateway ids. Nothing ties the store's own
`orderId` to them, so one validly signed callback completes whichever pending order its
`orderId` names. `PaymentVerify.SignatureDoesNotBindOrder` states this. The model follows the
code here and proposes no corrected route, because the store keeps no record of which gateway
order belongs to which of its orders.

## Model

| member | source | states |
|---|---|---|
| AdminConfig.AuthorizedIffListedIgnoringCase | lib/admin-config.ts:2-10 | an address is authorised exactly when it equals one of the two listed addresses up to ASCII letter case |
| AdminConfig.ListedAdminsAreAuthorized | lib/admin-config.ts:2-10 | each listed address passes the test |
| AdminConfig.AuthorizationIgnoresCase | lib/admin-config.ts:8-10 | lower-casing an address first does not change the verdict |
| AdminConfig.OtherLengthsRejected | lib/admin-config.ts:2-10 | an address whose length differs from both listed addresses, the empty one included, is rejected |
| AdminConfig.ListIsLowerCase | lib/admin-config.ts:2-6 | the list has two entries, both in lower case |
| JsString.ToLower | lib/admin-config.ts:9 | `toLowerCase` keeps the length and lower-cases each character |
| JsString.ToLowerIdempotent | lib/admin-config.ts:9 | lower-casing twice equals lower-casing once |
| JsString.IncludesIff | components/coupon-list.tsx:83 | `includes` holds exactly when the query occurs at some index |
| JsString.TrimEmptyIff | app/admin/qr-scan/page.tsx:60 | `trim()` is empty exactly when every character is ECMAScript whitespace |
| JsString.KeepDigitsOfDigits | components/admin-otp-verification.tsx:137 | removing `\D` from an all-digit string changes nothing |
| JsString.Slice | app/api/auth/otp/route.ts:7 | `slice` with clamped bounds, equal to the sub-sequence when the bounds are in range |
| JsString.DecimalRoundTrip | app/api/admin/request-otp/route.ts:22 | `toString()` of a natural number reads back as that number |
| JsString.DecimalLength | app/api/admin/request-otp/route.ts:22 | a number from 10^(k-1) up to 10^k - 1 prints with exactly k digits |
| Seqs.Filter | components/coupon-list.tsx:57 | `filter` keeps only passing elements, all from the input, never more of them |
| Seqs.FilterMember | components/coupon-list.tsx:82-88 | an element is kept exactly when it is in the input and passes |
| Seqs.FilterTwice | components/coupon-list.tsx:81-89 | two successive filters equal one filter by the conjunction |
| Seqs.FilterCount | components/coupon-list.tsx:67-75 | a kept element occurs as often in the output as in the input |
| OtpStore.CheckCode | app/api/auth/otp/route.ts:50-65 | NotFound exactly when there is no entry; Expired exactly when the clock is past the expiry; Verified exactly when it is not past and the code is equal |
| OtpStore.AfterCheck | app/api/auth/otp/route.ts:57-68 | an expired entry and a used entry are deleted; every other key is untouched |
| OtpStore.NoReplay | app/api/auth/otp/route.ts:62-68 | after a successful verify the same key finds nothing, whatever code is sent later |
| OtpStore.RetryAfterMismatch | app/api/auth/otp/route.ts:62-65 | a wrong code keeps the entry, so the right code still verifies before expiry |
| OtpStore.ExpiryConsumes | app/api/auth/otp/route.ts:57-60 | past the expiry even the right code is refused, and the entry is gone afterwards |
| OtpStore.ExpiryIsInclusive | app/api/auth/otp/route.ts:57 | at the expiry instant itself the code is still compared |
| OtpStore.IssueThenCheck | app/api/auth/otp/route.ts:22-25 | a freshly issued code verifies exactly up to now + ttl, and other keys behave as before |
| OtpStore.Store.Get | app/api/admin/verify-otp/route.ts:21 | `get` returns the stored entry exactly when the key is present |
| OtpStore.Store.Set | app/api/admin/request-otp/route.ts:26 | `set` overwrites the entry of that key |
| OtpStore.Store.Delete | app/api/admin/verify-otp/route.ts:28 | `delete` removes that key |
| OtpStore.Store.Consume | app/api/admin/verify-otp/route.ts:21-37 | the get, expire, compare and delete sequence returns CheckCode and leaves AfterCheck |
| LoginOtp.GenerateOtp | app/api/auth/otp/route.ts:6-8 | the login code is at most eight characters |
| LoginOtp.GenerateOtpDigits | app/api/auth/otp/route.ts:6-8 | for `0.` followed by digits, the code is the first eight digits, or all of them when there are fewer |
| LoginOtp.PutReply | app/api/auth/otp/route.ts:53-75 | success exactly on Verified, with the user `{email, authenticated: true}`; every failure is a 400 |
| LoginOtp.Post | app/api/auth/otp/route.ts:10-38 | the route returns 500 when unconfigured and 500 for a non-JSON body; an empty email gets 400; otherwise a code with a ten-minute expiry is stored, then the route answers success or "Failed to send OTP" |
| LoginOtp.Put | app/api/auth/otp/route.ts:40-80 | a non-JSON body gets 500; a missing field gets 400; otherwise the reply is PutReply of the check and the store becomes AfterCheck |
| LoginOtp.LoginRoundTrip | app/api/auth/otp/route.ts:22-75 | a mailed code logs the user in once within ten minutes, and the replay finds nothing |
| LoginOtp.ReissueRevokesEarlierCode | app/api/auth/otp/route.ts:25-65 | a second request replaces the first code, which is then refused as invalid |
| AdminOtp.CodeNumber | app/api/admin/request-otp/route.ts:22 | `floor(100000 + r * 900000)` lies from 100000 to 999999 |
| AdminOtp.AdminCodeIsSixDigits | app/api/admin/request-otp/route.ts:22 | the administrator code is six decimal digits and reads back as that number |
| AdminOtp.VerifyReply | app/api/admin/verify-otp/route.ts:23-39 | success exactly on Verified; every failure is a 400 |
| AdminOtp.RequestOtp | app/api/admin/request-otp/route.ts:13-36 | a non-JSON body gets 500; an empty or unlisted address gets 403; a listed address gets a six-digit code with a five-minute expiry, stored under the address as received |
| AdminOtp.VerifyOtp | app/api/admin/verify-otp/route.ts:13-44 | a non-JSON body gets 500; a missing field or an unlisted address gets 400 "Invalid request"; otherwise the reply is VerifyReply of the check and the store becomes AfterCheck |
| AdminOtp.AdminRoundTrip | app/api/admin/request-otp/route.ts:22-26 | an issued administrator code verifies once within five minutes, and a replay is refused |
| AdminOtp.AdminCodeExpires | app/api/admin/request-otp/route.ts:23 | six minutes after issue the code is expired and removed |
| AdminOtp.StoreKeyKeepsCase | app/api/admin/request-otp/route.ts:17-26 | two spellings that differ only in case pass the same allow-list test, but a code stored under one is not found under the other |
| OtpServer.Server.constructor | app/api/admin/request-otp/route.ts:5-11 | the login store and the shared administrator store are two distinct maps, both empty at start |
| OtpServer.Server.LoginPost | app/api/auth/otp/route.ts:4-38 | a login request changes only the login store; a reply other than an error comes only for a configured service and a non-empty email, which is then issued a code, and it is a success exactly when the email was sent |
| OtpServer.Server.LoginPut | app/api/auth/otp/route.ts:40-80 | a login verify changes only the login store; with both fields present the reply is PutReply of the check and the store becomes AfterCheck, otherwise the reply is an error and the store is unchanged |
| OtpServer.Server.AdminRequest | app/api/admin/request-otp/route.ts:9-36 | an administrator request changes only the administrator store; a listed, non-empty address is issued a code with a success reply, any other request gets an error and changes nothing |
| OtpServer.Server.AdminVerify | app/api/admin/verify-otp/route.ts:9-44 | an administrator verify changes only the administrator store; with both fields present and a listed address the reply is VerifyReply of the check and the store becomes AfterCheck, otherwise an error and no change |
| Tables.InsertAll | app/api/orders/create/route.ts:52 | an insert of many rows adds exactly their ids and keeps all other rows |
| Tables.InsertAllStores | app/api/orders/create/route.ts:52 | with distinct ids, each inserted row can be read back under its id |
| Tables.UpdateWhere | app/api/razorpay/verify/route.ts:19-26 | `.update(f).eq("id", id)` changes only that row; a missing id is a no-op |
| OrderCreate.IdOrNull | app/api/orders/create/route.ts:45-46 | `id \|\| null` is null exactly for the empty id |
| OrderCreate.ItemRows | app/api/orders/create/route.ts:43-50 | there is one row per cart line |
| OrderCreate.ItemRowsDescribeCart | app/api/orders/create/route.ts:43-50 | each row belongs to the new order and records the line's item type, item id (at most one of the two), quantity and unit price; it starts unused |
| OrderCreate.RowsTotalIsCartTotal | app/api/orders/create/route.ts:43-50 | the price snapshots times the quantities add up to the cart's `totalPrice` |
| OrderCreate.TotalIsNotRecomputed | app/api/orders/create/route.ts:25-27 | for every accepted request the stored total is the one the client sent, and for some requests it differs from the cart |
| OrderCreate.CreateOrder | app/api/orders/create/route.ts:4-61 | a non-JSON body gets 500; missing fields get 400; a rejected header gets 500 with nothing written; after the header, a rejected item insert gets 500 and keeps the header; otherwise the reply is the order id with the header and all rows written |
| OrderCreate.CreatedRowsPointToHeader | app/api/orders/create/route.ts:23-54 | after a successful create, every item row is stored and points to the new `pending` header |
| PaymentVerify.AsText | app/api/razorpay/verify/route.ts:10 | a field joins the signed message as its text, and a missing field as `"undefined"` |
| PaymentVerify.SignedMessageInjective | app/api/razorpay/verify/route.ts:10 | for order ids without `\|`, the signed message determines the text of both gateway ids |
| PaymentVerify.MissingSignatureRejected | app/api/razorpay/verify/route.ts:13 | a callback without a signature never matches: a hex digest never equals `undefined` |
| PaymentVerify.Written | app/api/razorpay/verify/route.ts:21-25 | a present gateway id is written; a missing one is dropped from the update and the column keeps its value |
| PaymentVerify.OrdersAfterPayment | app/api/razorpay/verify/route.ts:19-26 | only the named order changes: it becomes `completed`, each gateway id sent is recorded, and its other columns are kept |
| PaymentVerify.Verify | app/api/razorpay/verify/route.ts:5-38 | a missing body or secret gets 500; a wrong or missing signature gets 400 and nothing is written; a rejected update gets 500; otherwise the reply is success with the order updated |
| PaymentVerify.CompletedOnlyWithSignature | app/api/razorpay/verify/route.ts:13-26 | a pending order becomes `completed` exactly when it is the named order and the signature matched |
| PaymentVerify.SignatureDoesNotBindOrder | app/api/razorpay/verify/route.ts:7-26 | one signed pair of gateway ids passes for any `orderId`, and completes whichever of two orders it names |
| PaymentVerify.PaymentIdempotent | app/api/razorpay/verify/route.ts:19-26 | replaying the same callback leaves the table as the first call did |
| CouponList.Find | components/coupon-list.tsx:32 | `find` returns the first line for the item, or none when no line matches |
| CouponList.AddExisting | components/coupon-list.tsx:30-38 | adding an item already in a cart with unique keys adds one to its line and changes nothing else |
| CouponList.AddNew | components/coupon-list.tsx:30-48 | adding an absent coupon or prashad appends one line of quantity 1 |
| CouponList.AddLeavesOtherKind | components/coupon-list.tsx:30-48 | a coupon add never touches a prashad line, and the other way round |
| CouponList.AddPreservesWellFormed | components/coupon-list.tsx:30-48 | after an add there is still at most one line per item, and every quantity is positive |
| CouponList.QuantityUpdated | components/coupon-list.tsx:50-59 | after `updateQuantity` every remaining quantity is positive |
| CouponList.UpdateOnWellFormed | components/coupon-list.tsx:50-59 | the one matching line becomes q + delta, or is removed when that is not positive; without a match the cart is unchanged; order is kept |
| CouponList.UpdatePreservesWellFormed | components/coupon-list.tsx:50-59 | a quantity change keeps one line per item, with every quantity positive |
| CouponList.ActionsPreserveWellFormed | components/coupon-list.tsx:30-59 | any sequence of adds and quantity changes keeps the cart well formed |
| CouponList.TotalsOfEmptyAndAppend | components/coupon-list.tsx:61-65 | the empty cart totals 0; the totals of two carts put together add up |
| CouponList.AddExistingTotals | components/coupon-list.tsx:61-65 | adding an existing item raises the item count by 1 and the price by that line's unit price |
| CouponList.AddNewTotals | components/coupon-list.tsx:61-65 | adding a new item raises the item count by 1 and the price by its unit price |
| CouponList.UpdateTotalItems | components/coupon-list.tsx:61 | a quantity change moves the item count from q to max(0, q + delta), and does nothing without a match |
| CouponList.TotalPriceExample | components/coupon-list.tsx:62-65 | a prashad at 5000 × 2 plus a coupon at 10000 × 1 costs 20000, for 3 items |
| CouponList.FilteredIsOnePass | components/coupon-list.tsx:78-92 | the two successive filters, each skipped when empty, select in order the prashads that pass both tests |
| CouponList.FilteredMember | components/coupon-list.tsx:78-92 | a prashad is shown exactly when it is in the list and passes both filters |
| CouponList.ResetShowsAll | components/coupon-list.tsx:99-102 | with both filters cleared the whole list is shown |
| CouponList.SearchIgnoresQueryCase | components/coupon-list.tsx:82-84 | lower-casing the query does not change the result |
| CouponList.PushedKeepsGrouping | components/coupon-list.tsx:68-72 | one reduce step keeps the grouping invariant for the longer prefix |
| CouponList.GroupCoupons | components/coupon-list.tsx:67-75 | there is one group per category that occurs ("Other" for none or empty), each holding that category's coupons in input order |
| CouponList.GroupingPlacesEachCouponOnce | components/coupon-list.tsx:67-75 | each coupon sits in its own category's group as often as it occurs, and in no other group |
| CouponList.GroupedAsWrittenThrows | components/coupon-list.tsx:67-75 | as written, a coupon filed under "constructor" makes the reduce throw |
| CouponList.GroupedAsWrittenAgrees | components/coupon-list.tsx:67-75 | as written, the reduce computes the grouping when no category is an `Object.prototype` member name |
| CouponList.CouponListPage.constructor | components/coupon-list.tsx:23-28 | the cart starts empty, both filters empty, and every prashad shown |
| CouponList.CouponListPage.AddToCart | components/coupon-list.tsx:30-38 | the cart becomes AddedCoupon of the old cart and stays well formed |
| CouponList.CouponListPage.AddPrashadToCart | components/coupon-list.tsx:40-48 | the cart becomes AddedPrashad of the old cart and stays well formed |
| CouponList.CouponListPage.UpdateQuantity | components/coupon-list.tsx:50-59 | the cart becomes QuantityUpdated of the old cart (kind defaults to coupon) and stays well formed |
| CouponList.CouponListPage.ApplyFilters | components/coupon-list.tsx:78-92 | the shown list becomes the filtered list |
| CouponList.CouponListPage.SetSearchQuery | components/coupon-list.tsx:95-97 | a new query re-runs the filters |
| CouponList.CouponListPage.SetMealTimeFilter | components/coupon-list.tsx:95-97 | a new meal time re-runs the filters |
| CouponList.CouponListPage.ResetFilters | components/coupon-list.tsx:99-102 | both inputs are cleared and the full list is shown |
| AdminOtpDialog.SanitizeOtp | components/admin-otp-verification.tsx:137 | the code field holds at most six digits |
| AdminOtpDialog.SanitizeKeepsFirstDigits | components/admin-otp-verification.tsx:137 | the field holds the first min(6, count) typed digits, in order |
| AdminOtpDialog.SanitizeIdempotent | components/admin-otp-verification.tsx:137 | sanitising twice equals sanitising once |
| AdminOtpDialog.SanitizedPassesIff | components/admin-otp-verification.tsx:49-52 | a sanitised field passes the six-digit check exactly when six or more digits were typed |
| AdminOtpDialog.ErrorOr | components/admin-otp-verification.tsx:39 | `data.error \|\| fallback` keeps a non-empty error and is never empty |
| AdminOtpDialog.EnabledButtonSends | components/admin-otp-verification.tsx:159 | the Verify button is enabled exactly when the dialog is not loading and the field passes the handler's own six-character test, so an enabled press always sends; for a sanitised field this means six or more digits were typed |
| AdminOtpDialog.Dialog.constructor | components/admin-otp-verification.tsx:18-21 | the dialog starts at the request step with an empty code, no error and not loading |
| AdminOtpDialog.Dialog.ChangeOtp | components/admin-otp-verification.tsx:137 | the field becomes the sanitised input |
| AdminOtpDialog.Dialog.RequestOtp | components/admin-otp-verification.tsx:24-46 | "ok" moves to the verify step; a refusal shows the server error or "Failed to send OTP"; a network failure shows the network message; loading ends false |
| AdminOtpDialog.Dialog.VerifyOtp | components/admin-otp-verification.tsx:48-79 | a request is sent exactly for a six-character code; "ok" sets the verified flag with its time, closes and goes to /admin; a failure shows the error and sets nothing |
| AdminOtpDialog.Dialog.HandleClose | components/admin-otp-verification.tsx:81-86 | back to the request step, with the code and error cleared and the parent closed |
| AdminOtpDialog.Dialog.Resend | components/admin-otp-verification.tsx:152 | back to the request step |
| AdminPage.ViewOf | app/admin/page.tsx:54-79 | Loading while loading; the manager exactly when a user is set and isAdmin holds; otherwise Access Denied |
| AdminPage.ManagerIff | app/admin/page.tsx:30-46 | the manager is shown exactly to a stored user on the allow-list (ignoring case) with an `admin_users` row of exactly that address |
| AdminPage.NoUserStaysLoading | app/admin/page.tsx:24-28 | with no stored user the page never leaves Loading |
| AdminPage.RowMustMatchCase | app/admin/page.tsx:34-46 | a spelling that passes the allow-list only up to case is denied unless the table holds that exact spelling |
| AdminPage.Page.constructor | app/admin/page.tsx:15-17 | no user, not admin, loading |
| AdminPage.Page.CheckAuth | app/admin/page.tsx:22-49 | with no stored user: redirect to /auth/login and no query; with an unlisted user: isAdmin false, no query; with a listed user: isAdmin exactly when a row exists; the view becomes Outcome |
| AdminProfile.EmailMatchesIff | app/admin/profile/page.tsx:63 | the pattern accepts exactly the addresses with no whitespace, exactly one `@` with text before it, and a `.` after it that is neither the first nor the last character of the domain |
| AdminProfile.ListedAddressMatches | app/admin/profile/page.tsx:63 | "admin@temple.com" is accepted |
| AdminProfile.DotlessDomainFails | app/admin/profile/page.tsx:63 | "admin@temple" is rejected |
| AdminProfile.SecondAtSignFails | app/admin/profile/page.tsx:63 | "a@b@c.com" is rejected |
| AdminProfile.WithEmail | app/admin/profile/page.tsx:87-92 | the stored user gets the new email and keeps every other field |
| AdminProfile.UneditedSaveKeepsRow | app/admin/profile/page.tsx:75-82 | saving a loaded profile without edits writes its row back unchanged |
| AdminProfile.SaveTouchesOneRow | app/admin/profile/page.tsx:75-82 | the save writes email, name and phone into the profile's row only |
| AdminProfile.ProfilePage.constructor | app/admin/profile/page.tsx:21-24 | no profile, loading, not saving, not admin, no redirect |
| AdminProfile.ProfilePage.CheckAuthAndFetchProfile | app/admin/profile/page.tsx:29-56 | no stored user: redirect to /auth/login; a failed query, or no single `admin_users` row for the stored address (exact case, `"undefined"` when the field is missing): redirect to /coupons; otherwise that row becomes the profile, isAdmin is set and loading ends |
| AdminProfile.ProfilePage.EditEmail | app/admin/profile/page.tsx:139 | the email input replaces the profile's email only |
| AdminProfile.ProfilePage.EditName | app/admin/profile/page.tsx:149 | the name input replaces the profile's name only |
| AdminProfile.ProfilePage.EditPhoneNumber | app/admin/profile/page.tsx:159 | the phone input replaces the profile's phone number only |
| AdminProfile.ProfilePage.HandleSave | app/admin/profile/page.tsx:59-107 | no profile: nothing happens; invalid email: "Invalid Email" and no write, saving untouched; failed write: error toast, nothing else changed; success: row and stored user updated, success toast; saving ends false after any write |
| PrashadManager.RowOf | admin-portal-for-prashad/components/prashad-manager.tsx:62-69 | the written row copies every form field, with empty text kept as "" rather than null |
| PrashadManager.FormOf | admin-portal-for-prashad/components/prashad-manager.tsx:79-85 | editing copies name, meal time and availability, and a null description or image becomes "" |
| PrashadManager.EditThenSaveRow | admin-portal-for-prashad/components/prashad-manager.tsx:78-88 | saving an opened item unchanged writes the same row back, except that nulls become ""; it is unchanged exactly when neither field was null |
| PrashadManager.FormRoundTrip | admin-portal-for-prashad/components/prashad-manager.tsx:79-85 | filling the form from the row it writes gives the same form |
| PrashadManager.ByMealTimeMember | admin-portal-for-prashad/components/prashad-manager.tsx:117-119 | a tab lists exactly the items of its meal time |
| PrashadManager.TabCountsSum | admin-portal-for-prashad/components/prashad-manager.tsx:220-222 | the three tab counts add up to the number of items |
| PrashadManager.SubmitTouchesOneRow | admin-portal-for-prashad/components/prashad-manager.tsx:61-75 | an insert adds one row under the new id; an update replaces only the edited row; all other rows are kept |
| PrashadManager.Manager.constructor | admin-portal-for-prashad/components/prashad-manager.tsx:25-38 | the manager starts with no items, loading, the form closed and initial, and nothing being edited |
| PrashadManager.Manager.LoadPrashads | admin-portal-for-prashad/components/prashad-manager.tsx:44-56 | the list is replaced only when data came back, and loading ends false either way |
| PrashadManager.Manager.ResetForm | admin-portal-for-prashad/components/prashad-manager.tsx:100-110 | the initial form is restored, nothing is being edited, and the form is closed |
| PrashadManager.Manager.OpenForm | admin-portal-for-prashad/components/prashad-manager.tsx:135 | the form opens |
| PrashadManager.Manager.HandleEdit | admin-portal-for-prashad/components/prashad-manager.tsx:78-88 | the form is filled from the item, its id is the one being edited, and the form opens |
| PrashadManager.Manager.HandleSubmit | admin-portal-for-prashad/components/prashad-manager.tsx:58-76 | with a non-empty editing id the row is updated, otherwise one is inserted; only when the write succeeds does the list reload and the form reset; a failed write changes nothing |
| PrashadManager.Manager.HandleDelete | admin-portal-for-prashad/components/prashad-manager.tsx:90-98 | the row is deleted only when confirmed, and the list reloads only on success |
| QrScan.StatusOf | app/admin/qr-scan/page.tsx:98 | the status is "used" exactly when the row's flag is set |
| QrScan.CouponName | app/admin/qr-scan/page.tsx:97 | the shown name is the coupon name, else the prashad name, else "Unknown"; empty names fall through; never empty |
| QrScan.LookUp | app/admin/qr-scan/page.tsx:72-101 | not found exactly when no row has the code; failed exactly when the row's order is missing; otherwise a result carrying the row's id, order, flag and used time, the order's user email, and the coupon name, else the prashad name, else "Unknown" |
| QrScan.LookupUsesUntrimmedCode | app/admin/qr-scan/page.tsx:60-81 | a code with a leading space passes the blank check but is looked up as typed and not found |
| QrScan.MarkWritesOnce | app/admin/qr-scan/page.tsx:129-229 | the button's `=== "valid"` test and the handler's `!== "used"` guard agree on every result, and after one successful mark neither holds |
| QrScan.MarkIsOneWay | app/admin/qr-scan/page.tsx:132-138 | marking sets `used` and `used_at` on that row only and never clears a flag |
| QrScan.UsedRowIsNotOffered | app/admin/qr-scan/page.tsx:228-235 | a row already used is never offered for marking |
| QrScan.QrScanPage.constructor | app/admin/qr-scan/page.tsx:24-26 | the page starts with an empty code, no result, not loading and no toast |
| QrScan.QrScanPage.ValidateCoupon | app/admin/qr-scan/page.tsx:59-126 | a blank code shows an error and does no lookup; not found, or a read that returns an error, clears the result with "Coupon code not found"; a lookup that throws keeps the old result; found shows it with the matching toast; loading ends false |
| QrScan.QrScanPage.MarkAsUsed | app/admin/qr-scan/page.tsx:128-159 | without a valid result nothing happens; a failed write changes only the toast; a success writes the row and marks the local result used |

## Left out

- Rendering, styling and price display are left out. Price display divides by 100 and uses `toFixed(2)`.
- Routing other than the target of `router.push` is left out, as are toasts' visual variants.
- I/O is not modelled here. That covers the network, `localStorage` as storage, the Supabase client, the Resend email call, the Razorpay SDK and `console.log`. Each one's outcome is a parameter of the method that uses it.
- HMAC-SHA256 is an uninterpreted function. No property of the hash itself is modelled.
- `JsString.ToLower`: only ASCII letters are lower-cased. Full Unicode case mapping is not modelled.
- `AdminOtp.CodeNumber`: uses exact real arithmetic. IEEE-754 rounding of `100000 + Math.random() * 900000` is not modelled.
- `LoginOtp.GenerateOtp`: the text of `Math.random()` is an input. Its exponent forms such as `1e-7` are not generated here, but the slice handles any text.
- JSON bodies whose fields are not strings (numbers, `null`) are left out.
- In the code routes and in order creation, a missing string field is modelled as `""`: those routes only test the field for falsiness, and both values are falsy. A missing optional string is then stored as `""` rather than null. The payment callback is modelled differently, because it never tests its fields: its gateway fields are optional, a missing one is signed as `"undefined"`, and a missing signature never matches.
- `PaymentVerify.Verify`: a missing `orderId` is read as the text id `"undefined"`. That id matches no row, so the update changes nothing; whether the database rejects that id as malformed is the `updateFails` input.
- Malformed `localStorage` JSON, which makes `JSON.parse` throw, is left out.
- The states in the middle of asynchronous handlers are left out. For example, `saving` and `loading` are `true` while a request is pending, and the model states only the value after the handler ends.
- `AdminProfile.ProfilePage.HandleSave`: does not state that `saving` is true while the write is pending. For that reason it is weaker than the source on that point.
- `PrashadManager.Manager.LoadPrashads`: the list the query returns is an input. The `order by meal_time, name` ordering is not modelled.
- Concurrency is left out: concurrent admin sessions and last-write-wins on `order_items`.
- Column defaults and database triggers are left out, such as `created_at` and `updated_at`. The only exceptions are `used = false` and `used_at = null` on new item rows.
- The stores behind `getPrashadsByMealTime`, the tab rendering and `handleLogout` are left out. `handleLogout` only calls the auth service and navigates.
- The scanner page's own access check (app/admin/qr-scan/page.tsx:32-57) is not modelled. It redirects to /auth/login or /coupons, or sets `isAdmin`. It is the admin page's row query without the allow-list, and it does not affect what validation or marking compute.
- The other pages and routes (orders list, confirmation, checkout form, profile drawer, cart drawer, user orders) are not part of this model. They only fetch and display data.

## Findings

| source | as written | input that shows it | evidently intended | confidence | as-written member | corrected member |
|---|---|---|---|---|---|---|
| components/coupon-list.tsx:67-75 | `groupedCoupons` reduces into a `{}` literal and tests `!acc[category]`. For a category named like an `Object.prototype` member, that test finds the inherited member, no list is created, and `.push` throws a TypeError. The reduce runs on every render even though its rendering at line 251 is commented out. | one coupon with category `"constructor"` | one group per category, each holding that category's coupons in order, whatever the category text | medium, not executed | CouponList.GroupedAsWrittenThrows | CouponList.GroupCoupons |
