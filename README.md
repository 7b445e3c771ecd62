# UserController of the shop backend, in Dafny

This project models the request handlers of `UserController`, the Express controller of a
small shop backend. Accounts sign up with a phone number and an SMS one-time code, log in, edit
their profile and reset a forgotten password. Signed-in users put products in an invoice and
pay for it through the ZainCash payment gateway, whose signed callback marks the invoice paid.

The handlers become methods of the class `Controller.UserController`, which holds the two
tables it writes as in-memory stores: `users` (the User table) and `invoices` (the Invoice table,
each invoice with its InvoiceItem rows). The Product table is the constant `catalog`, which the handlers only
read. Each method answers `Ok(...)` where the handler calls `okRes` and `Err(...)` where it
calls `errRes`, with an `Error` constructor for each kind of failure (the two schema checks
of `makeInvoice` share `InvalidPayload`). Its `ensures` clauses
state the new contents of both tables in every branch. On every error path the tables are
left exactly as they were, except where the handler itself saves before failing:
`checkOTP` burns the OTP, `newPassword` clears the reset code, `makeInvoice` leaves a
pending invoice behind when the gateway fails, and `zcRedirect` stores a status other than
"success" before answering with an error.

The modules follow the program's structure:

- `Wrappers`: `Option` and `Result`.
- `Users`: the User row, the `findOne` lookups on it, and the reset-code text `Ab_<otp>_cD`.
  `findOne` promises only some matching row; the model's `FindUser` picks the matching row
  with the lowest id.
- `Invoicing`: products, request lines, invoices and items, the three loops of `makeInvoice`
  (`CollectIds`, `ComputeTotal`, and the item loop inside `RecordTransaction`), the
  `findByIds` query, and `RequestTotal`, a reference definition of what a request costs.
  `RequestTotal` is stated over the request lines alone. `FoundTotal` proves that the
  handler's total equals it.
- `Controller`: the class and its handlers.
- `Scenarios`: sequences of requests, and what a client can conclude from the handlers'
  contracts. Examples: two registrations of the same phone, a wrong OTP followed by the right
  one, sign-up then login, a password reset then login, checkout then payment.

Rows are never deleted and keys are auto-incremented, so a store is a sequence whose index
is the row's id (`Valid()` keeps `users[i].id == i`). A lookup by id is then an index check.

Stand-ins for the libraries the handlers call:

- bcrypt's `hashMyPassword` is the class constant `hash`. `comparePassword(p, h)` is
  `Compare(p, h)`, which holds exactly when `h == Some(hash(p))`.
- `PhoneFormat.getAllFormats(raw)` is the partial function `normalize: string -> Option<string>`.
  `None` means `isNumber` is false; `Some(p)` gives the global format.
- Each validate.js schema check on the request body is a `schemaOk: bool` parameter. The
  per-line `oneProduct` check of `makeInvoice` is the parameter `lineValid`.
- A JWT is modelled by the claim `jwt.verify` gives back, or by a separate case for a token
  that fails to verify:
  - `SessionToken`: a user id;
  - `ResetToken`: a phone, with one more case for a missing header;
  - `Callback`: the gateway's order id, status, operation id, msisdn and message.
- The value of `getOTP()` is an `Otp` parameter.
- The value of the gateway's `init()` is an `Option<string>` parameter: `None` when it
  throws, otherwise the transaction id.
- `editUser` and `makeInvoice` run for the user that the authentication middleware placed on
  the request. That user is given by its id.

Where a reader might expect something other than what the code does, the model follows the
code:

- `checkOTP` keeps the stored `otp` after a successful match, and the user it returns
  still carries it. Only `password` is nulled (lines 122-127).
- The submitted OTP and reset code may be absent from the body (`None`). Both handlers
  compare them with `!=` against a stored value that is often null, since they null it
  themselves on a mismatch (lines 116-117, 267-268), so an absent code matches an absent
  stored one. After a wrong OTP, a request without an OTP completes the user; after a wrong
  reset code, a request without a code sets a new password for anyone holding the phone token,
  which `forgotPassword` hands out unauthenticated (lines 225-228). Only the validate.js
  schemas, which are not part of this model, could refuse such a body.
- `login` does not look at `active` (line 151).
- On `register`'s path that reuses an incomplete user, the row keeps its old password hash,
  name and `resetPassword`. Only `otp` is replaced (lines 52-64). Its reply nulls only
  `password` and `otp`, so it carries a reset code that `forgotPassword` stored on the
  incomplete user (lines 214-218).
- `editUser` returns the row with only `password` nulled. It stores `newPhone` as given,
  without normalising it (lines 186-193). Because of that, `editUser` alone can break
  phone uniqueness. Every other handler is proved to preserve `PhonesUnique`.
- `forgotPassword` finds the user by phone alone. It ignores `complete` and `active`
  (line 214).
- `newPassword` finds only users that are both complete and active (lines 261-263). It does
  not clear `resetPassword` after a successful reset (lines 277-279).
- The total of `makeInvoice` counts each active product once, with the quantity of the
  first request line that names it (lines 320-325). Later lines with the same id, and
  lines naming a missing or inactive product, add nothing.

## Model

| member | source | states |
|---|---|---|
| Users.FindUser | controllers/app/user.controller.ts:51 | `findOne({ where })` answers a row that matches the query; of the matching rows, the model picks the one with the lowest id. It answers nothing exactly when no row matches. |
| Users.FindUserIs | controllers/app/user.controller.ts:147 | The lookup answers row `i` exactly when row `i` matches and no earlier row does. |
| Users.EnabledLookupAgrees | controllers/app/user.controller.ts:261-263 | When phones are unique, the lookup of `newPassword` (complete and active users only) finds the same row as the plain lookup by phone. Otherwise the plain lookup's row is not both complete and active, or there is no such row. |
| Users.Decimal | controllers/app/user.controller.ts:218 | The rendered number is a non-empty string of decimal digits that denotes the number. It has no leading zero (its first digit is `0` only for 0), and it is one digit long exactly when the number is below 10. |
| Users.DecimalInjective | controllers/app/user.controller.ts:218 | Different numbers render to different digit strings, since the digits give the number back. |
| Users.ResetCode | controllers/app/user.controller.ts:218 | The reset code starts with `Ab_` and ends with `_cD`, with the decimal OTP between them. |
| Users.ResetCodeInjective | controllers/app/user.controller.ts:267 | Two reset codes are equal exactly when their OTPs are equal, so a submitted code `Ab_<n>_cD` matches the stored one exactly when `n` is the stored OTP. |
| Invoicing.CollectIds | controllers/app/user.controller.ts:299-304 | The loop succeeds exactly when every line passes its schema check. It then yields each line's id, in order. |
| Invoicing.FindByIds | controllers/app/user.controller.ts:310 | Every product found is active and among the requested ids. Every active, existing product that is requested is found. None is found twice. |
| Invoicing.FirstIndexFrom | controllers/app/user.controller.ts:324 | `filter(e => e.id == product.id)[0]` is a line naming the product, and no earlier line names it. |
| Invoicing.FirstQuantityAt | controllers/app/user.controller.ts:324 | The first line naming a product supplies that product's quantity. |
| Invoicing.AppendLine | controllers/app/user.controller.ts:318-325 | One more request line adds price × quantity when it names an active product not requested before. Otherwise it adds nothing (inactive, missing or repeated ids). |
| Invoicing.NothingAvailableCostsNothing | controllers/app/user.controller.ts:310-325 | A request that names no active, existing product totals 0. |
| Invoicing.FoundPriced | controllers/app/user.controller.ts:310 | Every product the lookup finds has a price and a requesting line. |
| Invoicing.FoundTotalUpTo | controllers/app/user.controller.ts:318-325 | For every prefix of the request, the sum over the products found equals the reference total of that prefix. |
| Invoicing.FoundTotal | controllers/app/user.controller.ts:310-325 | The sum over the products `findByIds` finds equals `RequestTotal`: each distinct active product's price times the quantity of its first line. |
| Invoicing.ComputeTotal | controllers/app/user.controller.ts:318-325 | The accumulating loop ends with the sum over the found products. Fed with the lookup's result, that sum is the request's reference total. |
| Invoicing.ItemsFor | controllers/app/user.controller.ts:364-375 | There is one item per found product, in order. Each item has the first line's quantity and `subtotal = quantity * price`. |
| Invoicing.SubtotalsMatch | controllers/app/user.controller.ts:364-375 | The items' subtotals add up to the same sum as the invoice total. |
| Controller.UserController.constructor | controllers/app/user.controller.ts:26 | The controller starts with empty User and Invoice tables and a valid state. |
| Controller.UserController.Register | controllers/app/user.controller.ts:32-89 | It rejects a bad body or phone with no change. A phone held by a complete user gives an error with no change. An incomplete user gets only a new `otp`, and its row is reused. Otherwise exactly one user is appended (active, not complete, hashed password, the OTP). Every success answers the user with `password` and `otp` null and a token for its id. Unique phones stay unique. |
| Controller.UserController.CheckOtp | controllers/app/user.controller.ts:96-128 | Success happens exactly when the body is valid, the token verifies, and the user exists, is incomplete and its stored OTP equals the submitted one (both may be absent). A missing or complete user gives an error with no change. A mismatch nulls only `otp`. A match sets only `complete`. The user returned has `password` nulled. |
| Controller.UserController.Login | controllers/app/user.controller.ts:135-163 | Success happens exactly when the phone parses, its user exists and is complete, and the password compares. Login then answers that user's id. It changes nothing (no `modifies`), and each failing guard has its own error. |
| Controller.UserController.EditUser | controllers/app/user.controller.ts:170-194 | A wrong old password, or then a bad body, gives an error with no change. Otherwise only `name`, `password` (hash of the new one) and the raw `phone` are overwritten. |
| Controller.UserController.ForgotPassword | controllers/app/user.controller.ts:202-229 | A bad body, a bad phone or an unknown phone gives an error with no change. Otherwise only `resetPassword` is set, to `Ab_<otp>_cD`. The answer is the user with `resetPassword`, `password` and `otp` null, plus a token for the user's phone. Unique phones stay unique. |
| Controller.UserController.NewPassword | controllers/app/user.controller.ts:237-287 | It looks up complete and active users only. A missing or invalid token, or no such user, gives an error with no change. A code that differs from the stored one (either may be absent) clears only `resetPassword` and keeps the password. An equal one sets only `password`, to the hash of the new password, and answers the user's id. |
| Controller.UserController.MakeInvoice | controllers/app/user.controller.ts:294-378 | A bad body or a bad line gives an error with no invoice created. Otherwise exactly one invoice is appended: pending, for the owner, with the reference total. If `init()` fails it has no transaction id, no items, and the answer is an error. On success it carries the transaction id and one item per found product, whose subtotals sum to the total. Users and products are unchanged. |
| Controller.UserController.RecordTransaction | controllers/app/user.controller.ts:359-375 | Only the invoice in question changes: it gets the transaction id and the items `ItemsFor` describes. The item loop keeps every other invoice intact and keeps `Valid()`. |
| Controller.UserController.ZcRedirect | controllers/app/user.controller.ts:380-411 | A forged callback or an unknown invoice gives an error with no change. On "success" only `status := "paid"`, `zcOperation` and `zcMsisdn` change, and the invoice is answered. Any other status stores `status`, `zcOperation` and `zcMsg` verbatim and answers an error carrying the invoice. |
| Scenarios.RegisterTwice | controllers/app/user.controller.ts:51-64 | A second registration before confirmation adds no user. Both answers carry the same token. Only the OTP changes: the first password and name stay. |
| Scenarios.WrongOtpThenRetry | controllers/app/user.controller.ts:116-120 | After a wrong OTP, a retry with the code that was sent fails as well. The user stays incomplete with no OTP. |
| Scenarios.BurnedOtpThenNoCode | controllers/app/user.controller.ts:116-122 | After a wrong OTP has nulled the stored one, a request without an OTP completes the user. |
| Scenarios.SignUpThenLogIn | controllers/app/user.controller.ts:151 | Login fails with "not complete" before the OTP is confirmed. After the confirmation, login answers the new user's id. |
| Scenarios.ResetThenLogIn | controllers/app/user.controller.ts:218-279 | With unique phones, a complete and active user can log in with the new password after `forgotPassword` and `newPassword` with the stored code. The reset code stays stored. |
| Scenarios.ClearedResetThenNoCode | controllers/app/user.controller.ts:261-279 | After a wrong reset code has nulled the stored one, a request without a code sets the new password and answers the user's id. |
| Scenarios.CheckoutThenPay | controllers/app/user.controller.ts:398-403 | An invoice the gateway accepted and then reported paid is "paid". It carries the transaction id and the reference total, and its items add up to that total. |

## Left out

- `upload`: moves a file and posts it to an image host. It is file and network I/O only.
- Application bootstrap and routing (`src/index.ts`, `route/app/v1.ts`): Express set-up, the
  database connection and route wiring carry no decisions.
- JWT signing and verification, bcrypt, `sendSMS` and the ZainCash SDK are foreign libraries.
  They appear only through the stand-ins listed above, and the SMS is not modelled at all.
- The validate.js schemas (`helpers/validation.helper`) and `PhoneFormat`
  (`helpers/phone.helper`) are not part of this model. Their verdicts are inputs.
- The payment URL string, the `lang` query parameter and the `console.log` calls are
  cosmetic.
- Concurrency, and the lack of atomicity between the several `save()` calls of one handler:
  each handler runs as one step.
- Database failures: the in-memory stores never fail, so `register`'s `catch` branch around
  the lookup (lines 66-67) and a failing `save()` have no counterpart.
- JavaScript numbers: prices, quantities and OTPs are natural numbers, and `!=` is exact
  inequality, not loose equality with coercion (a submitted OTP given as a string is not
  modelled). A missing field and `null` are both `None`, as `null != undefined` is false.
- `Users.FindUser`: `findOne({ where })` gives no order, so the source promises only some
  matching row. The model picks the lowest id. The choice matters only when two rows share a
  phone, which `editUser` can cause because it stores the new phone unchecked.
- `Invoicing.FindByIds`: the database returns the found products in an order it chooses. The
  model fixes the order of first mention. The total and the sum of the subtotals do not
  depend on that order.
- `Controller.UserController.Register`: the `...req.body` spread can set any other column of
  a new user. The model stores only the phone, password and name of the body.
- `Controller.UserController.MakeInvoice`: the `...req.body` spread into the invoice is
  dropped, and the invoice holds its owner's id rather than the user object.
- Token kinds are not checked against each other in the source (a phone token verifies as a
  session token too). The model gives each handler only the claim it reads.
