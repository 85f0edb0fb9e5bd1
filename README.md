# qwiky booking backend — a Dafny model

The qwiky backend is an Express server over a Supabase (Postgres) database.
Customers use it to sign up by mobile number, keep home addresses, browse the
service catalogue, pick a half-hour slot, book a service and pay for it through
the Cashfree payment gateway.

This project models the server's route handlers and their configuration logic,
file by file:

| Dafny module | file | what it holds |
|---|---|---|
| `Store` (store.dfy) | the database | class `Db`, one `seq` field per table (users, services, guest_addresses, orders, order_items, transactions), and the key-uniqueness invariant `Valid()` |
| `Payment` (payment.dfy) | `src/routes/payment.js` | create-order, verify, the webhook switch and its three handlers |
| `Cashfree` (cashfree.dfy) | `src/config/cashfree.js` | the client's configuration and the three requests it sends |
| `Slot` (slot.dfy) | `src/routes/slot.js` | slot generation (a loop over the start times), end times, periods |
| `AddressRoutes` (address.dfy) | `src/routes/address.js` | create, partial update and list, with the "one default address per user" bookkeeping |
| `OrderRoutes` (order.dfy) | `src/routes/order.js` | booking creation, the `scheduledTime` pattern, the list and the details |
| `UserRoutes` (user.dfy) | `src/routes/user.js` | find-or-create sign-up, get, partial update |
| `ServiceRoutes` (service.dfy) | `src/routes/service.js` | the active-service list and get, and the frontend transform |
| `Validation` (validation.dfy) | `src/utils/validation.js` | the start-up environment check |
| `ErrorHandler` (error_handler.dfy) | `src/middleware/errorHandler.js` | error-to-reply mapping and the 404 catch-all |
| `Server` (server.dfy) | `src/server.js` | the rate-limit settings and the CORS origin decision |

There are also support modules:
- `Wrappers`: `Option` and `Result`.
- `Strings`: JavaScript truthiness, `||` fallbacks, `split`/`join`, `parseInt` and zero padding.
- `Environment`: `process.env` as a map.
- `Table`: `.eq` filters and `.single()`. `.single()` means exactly one matching row, and anything else is an error.
- `Sorting`: `ORDER BY` as an insertion sort under a total preorder, which yields a sorted permutation.
- `Records`: the rows of the tables.

How the handlers are modelled:
- Handlers that write are methods on a `Db` object. Each states the tables it may change (`modifies db\`orders`) and their new contents.
- Handlers that only read are functions of the tables.
- Every database write can fail. Its outcome is a `bool` parameter.
- An insert also fails when its primary key is already taken.
- A gateway reply is an `Option` parameter, where `None` is a call that threw.
- The clock, today's date, fresh uuids and `Math.random()` are parameters.
- The express-validator predicates (`isUUID`, `isEmail`, `isMobilePhone`, `isISO8601`) are opaque `bool` inputs. The checks the code writes out itself are modelled: name length, the time pattern, a positive amount, a non-empty locality.

Behaviour of the code that the model keeps and proves:
- **Verify writes whatever the gateway reports.** It overwrites the transaction's and the order's statuses with the mapped triple, even when they are already terminal. A successful payment can go back to pending (`Payment.VerifyRevertsTerminalStatus`).
- **The success and failure webhooks target the wrong order.** They update the order whose internal `id` equals the gateway `order_id`. For create-order, that `order_id` is the caller's `orderId` and not the inserted order's id. When the two differ, the transaction becomes `success` and its order stays `pending` (`Payment.SuccessWebhookMissesLinkedOrder`).
- **The dropped-payment webhook never touches orders.**
- **A webhook hides the transaction from later verifies.** It replaces `gateway_response` with the webhook's nested `data`, which has no top-level `order_id`. A later verify of the same reference then answers 404 (`Payment.WebhookHidesFromVerify`).
- **Create-order does not check the address.** The payment route never checks that the address belongs to the user. The booking route in `src/routes/order.js` does.
- **The reset of other default addresses is unchecked.** Its write failure is not looked at, so "at most one default per user" holds only while that write succeeds (`AddressRoutes.ResetFailureLeavesTwoDefaults`).
- **The Cashfree client is configured before the environment check runs.** It is built when its module is loaded, and it needs only the sandbox keys (`Validation.ClientDoesNotNeedTheCheck`).
- **The environment check's message disagrees with its test.** The message names the modes `TEST` and `PRODUCTION`, but the check accepts `SANDBOX` and `PRODUCTION`.
- **An empty `ALLOWED_ORIGINS` rejects everything.** It splits to `[""]`, so every browser origin is rejected and the default origin is not used (`Server.EmptySettingRejectsEveryOrigin`).

## Model

| member | source | states |
|---|---|---|
| Payment.MapGatewayStatus | src/routes/payment.js:231-248 | (PAID, SUCCESS) gives (success, confirmed, paid); FAILED gives (failed, cancelled, failed); USER_DROPPED gives (cancelled, cancelled, failed); any other pair, PAID with a non-SUCCESS payment included, gives (pending, pending, pending); every triple is consistent: success iff confirmed iff paid, and a failed or cancelled transaction goes with a cancelled order |
| Payment.CreateOrderPrecheck | src/routes/payment.js:24-66 | 400 exactly when the body is invalid; 404 exactly when the body is valid and the user or the active service is not exactly one row; otherwise the user exists and the service exists and is active |
| Payment.NewPaymentOrder | src/routes/payment.js:68-80 | the order row is pending/pending with subtotal = total = amount and no discount, and the time defaults to 10:00 |
| Payment.NewPaymentTxn | src/routes/payment.js:114-122 | the transaction row is pending, in INR, through Cashfree, for the same amount and linked to the order, and carries no gateway id or response |
| Payment.NewPaymentItem | src/routes/payment.js:96-103 | the item row is one unit of the service at the paid amount (unit = total = amount), linked to the new order |
| Payment.BuildGatewayRequest | src/routes/payment.js:138-153 | the gateway body carries the caller's order reference and the amount in INR; the customer's name and e-mail fall back to the user's and then to "Customer" and "customer@example.com"; the return URL is FRONTEND_URL's text followed by `/payment/callback`, and the notify URL is `{protocol}://{host}/api/payment/webhook` |
| Payment.UnsetFrontendReturnUrl | src/routes/payment.js:149-150 | with FRONTEND_URL unset, the return URL sent to the gateway is `undefined/payment/callback` |
| Payment.AttachToLast | src/routes/payment.js:157-164 | attaching the gateway order to the just-inserted transaction changes that row only |
| Payment.CreatePaymentOrder | src/routes/payment.js:24-195 | a 400 or 404 writes nothing; otherwise the tables change as `RecordedPaymentOrder` describes; a 200 means the gateway answered, the request sent was `BuildGatewayRequest` of the body and the stored user, and the reply's `returnUrl` is that request's return URL; key uniqueness is kept |
| Payment.RecordPaymentOrder | src/routes/payment.js:68-185 | a failed order insert writes nothing and returns 500; after it the order stays; a failed item insert is only logged; a failed transaction insert returns 500 with the order in place; a gateway throw returns 500 and leaves a pending transaction without gateway data; otherwise 200, and the gateway id and response are attached only when that write succeeds; a 200 sent `BuildGatewayRequest` of the body and the user, and echoes its return URL |
| Payment.Verify | src/routes/payment.js:198-308 | 400 for an empty id and 500 when the gateway throws, with no write; 404 with no write unless exactly one transaction's stored `order_id` is the reference; otherwise that transaction gets the mapped status and the gateway's answer, and the linked order gets the mapped order and payment status, each only when its write succeeds, whatever was stored before; 200 even when a write fails, and the reply carries the rewritten transaction, or none when that write failed; 500 when the linked order is missing |
| Payment.VerifyTouchesOnlyFoundRow | src/routes/payment.js:250-264 | verify's transaction write changes the row it found and leaves every other row as it was |
| Payment.VerifyRevertsTerminalStatus | src/routes/payment.js:231-264 | a successful transaction goes back to pending when the gateway reports (ACTIVE, PENDING) |
| Payment.VerifyWritesConsistentPair | src/routes/payment.js:231-278 | after both verify writes, the transaction and its linked order hold a consistent status pair |
| Payment.ClassifyWebhook | src/routes/payment.js:323-338 | each of the three event types is recognised exactly by its tag |
| Payment.MarkKeepsKeys | src/routes/payment.js:352-359 | the webhook's transaction update keeps transaction ids unique |
| Payment.HandlePaymentSuccess | src/routes/payment.js:349-369 | throws and writes nothing exactly when `data.order` is missing; otherwise every transaction whose stored `order_id` is the reference becomes success, and the order whose id is the reference becomes confirmed and paid, each when its write succeeds |
| Payment.HandlePaymentFailure | src/routes/payment.js:371-391 | as the success handler, with the transaction failed and the order cancelled with a failed payment |
| Payment.HandlePaymentDropped | src/routes/payment.js:393-404 | as the success handler, with the transaction cancelled and orders never written |
| Payment.Webhook | src/routes/payment.js:311-346 | always answers 200; `success` is false only when a known handler threw; an unknown type or a throw changes nothing; otherwise exactly the selected handler's writes happen |
| Payment.WebhookHidesFromVerify | src/routes/payment.js:352-359 | after a webhook's transaction update, no transaction has a stored `order_id` equal to the reference, so the verify lookup finds none |
| Payment.OrderWriteTargetsInternalId | src/routes/payment.js:361-368 | the webhook's order update changes an order exactly when its internal id equals the gateway reference |
| Payment.SuccessWebhookMissesLinkedOrder | src/routes/payment.js:349-369 | when the caller's reference differs from the order's id, a success webhook marks the transaction successful but leaves its pending order pending |
| Cashfree.NewCashfreeService | src/config/cashfree.js:5-31 | production iff CASHFREE_ENV is exactly PRODUCTION; production uses the api URL and the _PROD keys, anything else the sandbox URL and the plain keys; a missing or empty key is the error "Cashfree configuration missing"; the headers are exactly Content-Type application/json, x-api-version 2023-08-01, x-client-id and x-client-secret |
| Cashfree.CreateOrderCallPath | src/config/cashfree.js:41-45 | order creation posts the body with the configured headers to the path `/orders` under the base URL |
| Cashfree.OrderStatusCallPath | src/config/cashfree.js:67-70 | the status request GETs `/orders/{orderId}`, and the path's segments give back the id |
| Cashfree.PaymentDetailsCallPath | src/config/cashfree.js:92-95 | the payment request GETs `/orders/{orderId}/payments/{paymentId}`, and the path's segments give back both ids |
| Validation.Unset | src/utils/validation.js:11 | the reported variables are exactly the listed ones that are unset or empty |
| Validation.ValidateEnv | src/utils/validation.js:10-38 | passes iff all four required variables are set, CASHFREE_ENV is SANDBOX or PRODUCTION, and PRODUCTION has both _PROD keys; missing variables are reported first, all of them together |
| Validation.ValidatedEnvConfiguresGateway | src/utils/validation.js:3-35 | an environment that passes the check configures the gateway client, in production mode iff CASHFREE_ENV is PRODUCTION |
| Validation.ClientDoesNotNeedTheCheck | src/config/cashfree.js:105 | with only the sandbox keys set, the client is configured in sandbox mode while the check fails |
| ErrorHandler.HandleError | src/middleware/errorHandler.js:3-42 | ValidationError gives 400 "Validation failed" with the details; otherwise UnauthorizedError gives 401; otherwise code LIMIT_FILE_SIZE gives 413; everything else gives 500 "Internal server error"; the message and stack are attached only for a 500 in development; success is always false |
| ErrorHandler.ProductionRepliesHideTheError | src/middleware/errorHandler.js:35-41 | outside development all 500 replies are the same, whatever the error |
| ErrorHandler.NotFound | src/middleware/errorHandler.js:44-50 | always 404 "Route not found", with success false |
| Server.RateLimitMax | src/server.js:34 | the parsed API_RATE_LIMIT when it is a nonzero number, otherwise 100; never 0 |
| Server.RateLimitOfDecimal | src/server.js:34 | a positive limit written in decimal is used as it is |
| Server.AllowedOrigins | src/server.js:44 | the default origin only when ALLOWED_ORIGINS is unset; otherwise its comma-separated pieces, untrimmed, which join back to the setting |
| Server.CheckOrigin | src/server.js:43-54 | allowed iff there is no origin or it is listed exactly; otherwise the error "Not allowed by CORS" |
| Server.ListedOriginsPass | src/server.js:44-53 | configured as a comma-joined list, an origin passes iff it is in the list |
| Server.EmptySettingRejectsEveryOrigin | src/server.js:44-53 | an empty ALLOWED_ORIGINS rejects every non-empty origin |
| ServiceRoutes.TransformRoundTrip | src/routes/service.js:41-53 | the frontend view loses nothing of the row, and `duration` and `durationMinutes` both equal `duration_minutes` |
| ServiceRoutes.ByNameIsTotalPreorder | src/routes/service.js:30 | ordering by name is a total preorder |
| ServiceRoutes.ActiveByName | src/routes/service.js:26-30 | sorted by name, and a permutation of the active services |
| ServiceRoutes.ListServices | src/routes/service.js:22-59 | 200, with the count equal to the length of the list |
| ServiceRoutes.ListedServicesAreTheActiveOnes | src/routes/service.js:26-59 | the list holds the view of a service iff it is active, in name order, once per active row |
| ServiceRoutes.GetService | src/routes/service.js:72-110 | 400 for a non-uuid; 200 iff exactly one active service has the id, and then its view; otherwise 404 "Service not found or inactive" |
| ServiceRoutes.GetServiceFindsActive | src/routes/service.js:78-90 | with unique ids, a valid id is found iff an active service has it |
| Slot.BaseTimesAreHalfHours | src/routes/slot.js:69-73 | the 19 base times are clock times from 09:00 at half-hour steps, so they end at 18:00 |
| Slot.BaseTimeAt | src/routes/slot.js:69-73 | the i-th base time is 540 + 30·i minutes, on the hour or the half hour |
| Slot.TwoPmOnlyAtTen | src/routes/slot.js:70 | 14:00 occurs once among the base times, at position 10 |
| Slot.WithoutRemoves | src/routes/slot.js:78 | the filter keeps exactly the other values |
| Slot.WithoutOnce | src/routes/slot.js:78 | filtering a value that occurs once removes that position only |
| Slot.SlotTimesFilter | src/routes/slot.js:76-79 | a locality's start times are the base times, filtered of 14:00 when the lower-cased locality contains "sodala" |
| Slot.SlotTimeAt | src/routes/slot.js:76-79 | 18 times for a Sodala locality and 19 otherwise, each a base time in order |
| Slot.SlotTimesLength | src/routes/slot.js:76-79 | 18 start times for a Sodala locality, 19 for any other |
| Slot.EndTimeAddsHalfHour | src/routes/slot.js:83-86 | for a start on the hour or the half hour, the end time is a zero-padded clock time 30 minutes later |
| Slot.PeriodOfClock | src/routes/slot.js:105-110 | morning before 12:00, afternoon from 12:00 to before 15:00, evening from 15:00 |
| Slot.SlotsFor | src/routes/slot.js:82-99 | one slot per start time |
| Slot.SlotsFromAt | src/routes/slot.js:82-99 | the slot at each position is made from the start time at that position |
| Slot.SlotKeyAt | src/routes/slot.js:88-90 | the k-th slot starts at the k-th time, and its id is `slot-{locality}-{time}-{date}` |
| Slot.GenerateSlots | src/routes/slot.js:64-102 | the loop builds exactly the slot list of the locality, for the given date or else today |
| Slot.SlotTimeInDay | src/routes/slot.js:69-79 | each start time is a base clock time from 09:00 to 18:00, on the hour or the half hour |
| Slot.SlotOf | src/routes/slot.js:88-98 | each slot carries its start time, end time, period, date and locality, capacity 5, and bookings taken from its own random draw |
| Slot.SlotsStartAtBaseTimes | src/routes/slot.js:66-98 | every slot starts at a base time between 09:00 and 18:00, on the target date, for the locality asked |
| Slot.SlotsLastHalfAnHour | src/routes/slot.js:83-97 | every slot ends 30 minutes after it starts; its period is morning iff it starts before noon, and evening iff it starts at 15:00 or later |
| Slot.SlotsBelowCapacity | src/routes/slot.js:94-96 | with random numbers in [0, 1), each slot has capacity 5 and 0 to 2 bookings |
| Slot.SodalaSkipsTwoPm | src/routes/slot.js:69-99 | a Sodala locality gets 18 slots, none at 14:00; any other gets the 19 base times in order |
| Slot.SlotIdsDistinct | src/routes/slot.js:89 | the slot ids of one list are pairwise distinct |
| Slot.SlotIdNamesTime | src/routes/slot.js:89 | for one locality and date, the id determines the start time |
| Slot.GetSlots | src/routes/slot.js:32-51 | 400 for an empty locality; otherwise 200 with the generated list, its length as count, and the date defaulted to today |
| AddressRoutes.NonZero | src/routes/address.js:95-96 | a coordinate is kept iff it is given and not zero |
| AddressRoutes.NewAddress | src/routes/address.js:85-99 | address line 2 defaults to '', the country to 'India', and is_default to false; the row belongs to the requesting user |
| AddressRoutes.ClearDefaults | src/routes/address.js:77-83 | clears is_default on exactly the owner's rows, except the one kept |
| AddressRoutes.ClearDefaultsClears | src/routes/address.js:77-83 | afterwards the owner has no default except the kept row; other users' rows, and every id and owner, are unchanged |
| AddressRoutes.ClearKeepsOneDefault | src/routes/address.js:77-83 | the reset keeps at most one default per user |
| AddressRoutes.ClearKeepsKeys | src/routes/address.js:77-83 | the reset keeps the set of ids, and their uniqueness |
| AddressRoutes.CreateAddress | src/routes/address.js:33-145 | 400 for an invalid body; 404 "User not found" for an unknown user, with no change; for a default address the owner's other defaults are cleared first; 201 appends the new row; a failed insert returns 500 and does not undo the reset; at most one default per user is kept when the reset write succeeds |
| AddressRoutes.AppendKeepsOneDefault | src/routes/address.js:101-113 | a new row keeps at most one default per user when it is not a default or its owner has none |
| AddressRoutes.ResetFailureLeavesTwoDefaults | src/routes/address.js:77-113 | when the reset write fails, a new default for a user who has one leaves that user with two |
| AddressRoutes.PatchAddress | src/routes/address.js:247-259 | line 1, city, state, postal code and country are written only when non-empty; line 2, coordinates, place id and is_default whenever given; id, owner and created_at never change |
| AddressRoutes.EmptyPatchTouchesOnlyTimestamp | src/routes/address.js:247-259 | an empty update changes only updated_at |
| AddressRoutes.PatchAddresses | src/routes/address.js:261-275 | exactly the row with the id is patched |
| AddressRoutes.PatchKeepsOneDefault | src/routes/address.js:238-275 | after the owner's other defaults are cleared, the update keeps ids unique and at most one default per user |
| AddressRoutes.PatchKeepsKeys | src/routes/address.js:261-275 | the update keeps ids unique |
| AddressRoutes.UpdateAddress | src/routes/address.js:205-307 | 400 for invalid input; 404 "Address not found" with no change; making it the default first clears the owner's other defaults, except this row; 200 patches exactly this row; a failed update returns 500 and does not undo the reset; at most one default per user is kept when the reset write succeeds |
| AddressRoutes.DefaultFirstNewestIsTotalPreorder | src/routes/address.js:160-161 | "default first, then newest first" is a total preorder |
| AddressRoutes.ListAddresses | src/routes/address.js:148-193 | 400 for a non-uuid; otherwise 200, default first then newest first, a permutation of the user's rows, with the count equal to the length |
| AddressRoutes.ListedAddressesAreTheUsers | src/routes/address.js:156-159 | an address is listed iff it belongs to the user |
| AddressRoutes.ListedDefaultComesFirst | src/routes/address.js:160 | when the user has a default address, the list starts with one |
| AddressRoutes.ListedDefaultIsUnique | src/routes/address.js:156-161 | with at most one default per user, every default in the list is the same row |
| OrderRoutes.TimePatternAcceptsClockTimes | src/routes/order.js:38 | every time from 0:00 to 23:59 matches, with or without the hour's leading zero |
| OrderRoutes.TimePatternOnlyClockTimes | src/routes/order.js:38 | whatever matches is such a time, written with a 1- or 2-digit hour and a 2-digit minute |
| OrderRoutes.TimePatternExamples | src/routes/order.js:38 | 24:00, 9:5 and 12:60 are rejected; 9:05, 09:05 and 23:59 are accepted |
| OrderRoutes.NewBooking | src/routes/order.js:92-105 | the order is priced from the service: subtotal = total = price, no discount, both statuses pending, notes '' when absent |
| OrderRoutes.NewBookingItem | src/routes/order.js:121-129 | the item is for the new order, quantity 1, with unit and total price equal to the service's price |
| OrderRoutes.RefusalOf | src/routes/order.js:33-90 | an invalid body, including a time not matching the pattern, is refused first; then an unknown user; then a missing or inactive service; then an address not the user's; there is no refusal iff every check holds |
| OrderRoutes.RefusalReply | src/routes/order.js:46-90 | an invalid body gives 400, every other refusal 404 |
| OrderRoutes.CreateBooking | src/routes/order.js:33-170 | a refusal writes nothing; a failed order insert returns 500 with no write; a failed item insert returns 500 and the order row stays; otherwise 201 with the order and its item appended |
| OrderRoutes.BookingTotalIsItemTotal | src/routes/order.js:92-141 | a new booking's total equals the total of its order items, which is its one new item |
| OrderRoutes.Embed | src/routes/order.js:181-213 | an embedded row has the key it was looked up by, and is absent only when no row has it |
| OrderRoutes.ViewItem | src/routes/order.js:181-213 | an item view keeps the item's id, service id, quantity, unit and total price, and embeds its service exactly when that service exists |
| OrderRoutes.ViewItems | src/routes/order.js:224-246 | one view per item, in order |
| OrderRoutes.ViewOrder | src/routes/order.js:224-246 | an order view keeps every column of the order, embeds the address it names exactly when that row exists, lists its items in order, and holds exactly its transactions |
| OrderRoutes.NewestFirstIsTotalPreorder | src/routes/order.js:213 | newest first is a total preorder |
| OrderRoutes.UserOrders | src/routes/order.js:181-213 | the user's orders newest first, as a permutation of the user's rows |
| OrderRoutes.ListOrders | src/routes/order.js:173-252 | 400 for a non-uuid; otherwise 200 with the count equal to the length |
| OrderRoutes.UserOrdersAreTheUsers | src/routes/order.js:181-213 | an order is selected iff it belongs to the user |
| OrderRoutes.ListedOrdersAreTheUsers | src/routes/order.js:181-252 | every order of the user is listed, and every listed view is of an order of the user |
| OrderRoutes.ListedOrdersNewestFirst | src/routes/order.js:213-246 | the listed views are newest first |
| OrderRoutes.GetOrderDetails | src/routes/order.js:265-311 | 400 for a non-uuid; 200 iff exactly one order has the id, and then the order with its view, and its user exactly when that user exists; otherwise 404 "Order not found" |
| UserRoutes.Signup | src/routes/user.js:33-104 | 400 for invalid input; a known mobile number returns that user with 200 and isExisting, and writes nothing; a new number inserts one user, with name and e-mail '' when absent, and returns 201; a failed insert returns 500; mobile numbers stay unique |
| UserRoutes.SignupAgainFindsUser | src/routes/user.js:43-57 | once a mobile number is stored, signing up with it again finds that same row |
| UserRoutes.GetUser | src/routes/user.js:107-124 | 400 for a non-uuid; 200 iff exactly one user has the id, and then that user; otherwise 404 "User not found" |
| UserRoutes.PatchUser | src/routes/user.js:164-168 | name and e-mail are replaced only when supplied; id, mobile and created_at are kept |
| UserRoutes.PatchUsers | src/routes/user.js:170-175 | exactly the row with the id is patched |
| UserRoutes.PatchKeepsKeys | src/routes/user.js:164-175 | the update keeps ids and mobile numbers unique |
| UserRoutes.UpdateUser | src/routes/user.js:141-207 | 400 for invalid input; 404 "User not found" with no change; 200 patches exactly that user; a failed write returns 500 with no change |

## Left out

- The database client (`src/config/supabase.js`) and its network I/O are not part of this model. The tables are sequences in memory.
- A failed read (a query that returns an error) is not modelled. Reads always succeed; write failures are modelled.
- The `catch` blocks that turn an unexpected exception into a 500 are modelled only where the exception can be named: a gateway call that throws, a missing linked order in verify, a webhook without `data.order`.
- The HTTP exchange with Cashfree (axios) is left out. A reply is an input to the payment routes, and `None` stands for a call that threw. So the client's `createOrder` and `getOrderStatus` return the gateway's body unchanged, and every client method rethrows its error.
- Logging, helmet, compression, morgan, the body parsers, route mounting, `app.listen`, `/health` and the `/test` endpoints of each router are left out.
- The rate limiter and the CORS middleware themselves are library code. Only their settings are modelled: `Server.RateLimitMax`, `Server.RateLimitWindowMs` (900000 ms) and `Server.CheckOrigin`.
- The express-validator predicates are opaque `bool` inputs.
- The string forms of `isDefault` that `isBoolean()` accepts ("true", "false") are not modelled. The model takes a JSON boolean.
- Money amounts are integers. The code's `parseFloat(amount)` for the gateway is not modelled.
- Coordinates are reals rather than IEEE doubles.
- Timestamps are natural numbers passed in by the caller.
- `Math.random()` is an input stream of reals.
- The column projections of the embedded relations in the order list and details are not modelled. Whole rows are embedded.
- When rows tie on the sort keys, Postgres does not fix their order. So the lists are specified as a sorted permutation of the selected rows, not as one particular order.
- Strings.ToLower: lower-cases ASCII letters only, where JavaScript's `toLowerCase` covers all of Unicode. The "sodala" test of the slot route gives the same answer either way: the only characters outside ASCII that lower-case into ASCII are the Kelvin sign (to "k") and the dotted capital I (to "i" plus a combining dot), and neither letter occurs in "sodala".
- Names sort by code point. Database collation is not modelled.
- Concurrency is not modelled: handlers run one at a time. The races between verify and the webhooks are out of scope.
- AddressRoutes.CreateAddress: keeps "at most one default address per user" only when the reset write succeeds. The code does not check that write, and `AddressRoutes.ResetFailureLeavesTwoDefaults` shows what happens when it fails.
- AddressRoutes.UpdateAddress: keeps "at most one default address per user" only when the reset write succeeds, for the same reason.
- Payment.Verify: does not keep terminal statuses. The code overwrites them, and `Payment.VerifyRevertsTerminalStatus` shows the result.
- Payment.HandlePaymentSuccess: updates the order whose id equals the gateway reference, as the code does, rather than the order linked to the transaction.
- Payment.HandlePaymentFailure: updates the order whose id equals the gateway reference, for the same reason.
- Validation.Unset: states which variables are reported, but not the order they are listed in.
