# GameTup promo-code and order core, in Dafny

This project models the promotion engine and the order lifecycle of the
GameTup game top-up backend, and proves properties of the model.

The promotion engine covers:

- The public listing of live promotions (`GET /api/promo`).
- The quote a buyer gets for a code (`POST /api/promo/validate`).
- The recording of a redemption (`POST /api/promo/use`).
- A user's paged redemption history (`GET /api/promo/my-usage`).
- The `PromoCode` and `PromoCodeUsage` tables with their column validators.

The order side covers:

- The `Order` document, including its generated order number.
- Order creation (`POST /api/orders`).
- Payment and top-up (`POST /api/payments/process`).
- The admin status update, which credits the buyer's `totalSpent`.
- The admin dashboard statistics.
- The payment-gateway configuration: its validation and the list of offered methods.

Modules, one per file:

| file | module | what |
|---|---|---|
| common.dfy | `Common` | Option/Result, JavaScript truthiness of request fields, decimal rendering of numbers |
| promo_code.dfy | `PromoCodes` | the PromoCode and PromoCodeUsage rows, upper-casing, column validators, defaults |
| promo.dfy | `Promo` | the read side: lookup, per-user counting, discount, `/validate`, the listing, `/my-usage` |
| promo_store.dfy | `PromoLedger` | the write side: `class PromoStore` with `/use`, the counter increment, and the seed rows as worked examples |
| order.dfy | `Orders` | the Order document, its enums, the order number, and saving a new order |
| order_store.dfy | `OrderService` | `class OrderStore`: creation, payment processing, admin status update, dashboard statistics |
| payment_config.dfy | `PaymentConfig` | the configuration read from the environment, `validatePaymentConfig`, `getAvailablePaymentMethods` |

Representation choices:

- Money is `real`. It stands for the `DECIMAL(10,2)` columns and the JavaScript numbers of the order documents.
- Instants are `int` milliseconds since the epoch.
- Row ids, user ids, game ids and order ids are `nat`.
- A request field that is absent is `None`.
- JavaScript's `!x` tests on the string and number request fields are spelled out (`PresentString`, `TruthyNumber`, `TruthyInt`). A present id counts as truthy (see "## Left out").

The database, the clock and the external collaborators are parameters:

- The clock (`now`).
- The payment outcome and the game top-up outcome.
- The environment map that the configuration is read from.
- The table and collection contents.

The promo table is a `seq<PromoCode>` in insertion order. The usage ledger
is a `seq<UsageRecord>` in insertion order. Orders live in a `seq<Order>`
in which an order's id is its position.

Behaviours of the code that the model reproduces:

- `/validate` checks, in this order: the minimum amount, the applicable games, the global cap, then the per-user cap.
- A `bonus_amount` discount is the promo value as is. It is not clipped to the amount, so `finalAmount` can be negative (`Promo.FinalAmountSign`).
- No rounding is applied to discounts.
- The route has no reversal or cancellation of a redemption.
- A `maxDiscount` or `usageLimit` of 0 or null means "no cap", because the route tests them for truthiness.
- The FIXED50 seed row on an amount of 30 is refused with its 200 minimum (`PromoLedger.Fixed50BelowMinimum`).

## Model

| member | source | states |
|---|---|---|
| Common.Min | Backend/routes/promo.js:133-136 | the result is at most both arguments and equal to one of them |
| Common.NatToString | Backend/models/Order.js:40 | `String(n)`: non-empty, all decimal digits, no leading zero for n >= 1, one digit exactly when n < 10 |
| Common.ParseNatToString | Backend/models/Order.js:40 | reading the digits back gives the number: decimal rendering round-trips |
| Common.NatToStringInjective | Backend/models/Order.js:40 | distinct numbers render to distinct strings |
| Common.Pad4 | Backend/models/Order.js:40 | `padStart(4, '0')`: length max(4, len), ends with the input, only zeros in front |
| Common.Pad4Injective | Backend/models/Order.js:40 | distinct positive counters pad to distinct strings |
| PromoCodes.ToUpper | Backend/routes/promo.js:75 | `code.toUpperCase()`: same length, each letter a-z mapped to A-Z, everything else kept |
| PromoCodes.ToUpperIsUppercase | Backend/models/PromoCode.js:15-18 | an upper-cased code passes the `isUppercase` validator |
| PromoCodes.NewPromoCodeValid | Backend/models/PromoCode.js:11-88 | with the column defaults (minAmount 0, no caps, usageCount 0, userUsageLimit 1, all games, active) a new row is valid iff its code has 3..20 upper-case characters and its value is >= 0 |
| Promo.FindFrom | Backend/routes/promo.js:73-80 | the found position holds a live row with that code, and no earlier position does; None iff no live row has it |
| Promo.Lookup | Backend/routes/promo.js:72-80 | a found row is in the table, has that code, is active and is inside its window; nothing found means no row matches |
| Promo.LookupFinds | Backend/routes/promo.js:72-87 | on a table with unique codes the lookup yields p iff p is in the table, active, inside its date window and has that code |
| Promo.LookupNone | Backend/routes/promo.js:82-87 | the lookup is empty iff no row with that code is live |
| Promo.CountUses | Backend/routes/promo.js:114-119 | the per-(promo, user) usage count is never more than the ledger's size |
| Promo.CountUsesZero | Backend/routes/promo.js:114-119 | the count is zero iff the ledger holds no record of that user with that promo |
| Promo.CountUsesAppend | Backend/routes/promo.js:114-119 | appending a record raises the count by one exactly when it is that user's use of that promo |
| Promo.Discount | Backend/routes/promo.js:128-139 | percentage: exactly amount*value/100, or min(amount*value/100, maxDiscount) when maxDiscount is truthy, hence never above either; fixed: min(value, amount); bonus: the value |
| Promo.DiscountNonNegative | Backend/routes/promo.js:128-139 | for a row that passes its validators and a positive amount the discount is >= 0 |
| Promo.Validate | Backend/routes/promo.js:60-151 | absent or falsy inputs give MissingFields; an approval names a table row live under the upper-cased code that passes the minimum, game, global-cap and per-user checks, quoting Discount(p, amount) and amount minus that discount |
| Promo.ValidateApprovedIff | Backend/routes/promo.js:60-151 | on a table with unique codes (column validators not required), a quote for promo p is returned iff p is live under the upper-cased code and passes the minimum, game, global-cap and per-user checks; then discount = Discount(p, amount) and finalAmount = amount - discount |
| Promo.MissingInputsFirst | Backend/routes/promo.js:65-70 | an absent or empty code, an absent game id, or an absent or zero amount is refused before any lookup, whatever the tables hold |
| Promo.NoLiveRowIsInvalid | Backend/routes/promo.js:72-87 | when no row under the upper-cased code is active and in its window, the answer is "invalid or expired" |
| Promo.RejectionOrder | Backend/routes/promo.js:89-126 | on a table with unique codes, each rejection after the lookup happens iff its own check fails and every earlier check passed |
| Promo.ValidateIgnoresCase | Backend/routes/promo.js:75 | a code in any letter case gets the same answer as its upper-case form |
| Promo.ApprovedDiscountRecordable | Backend/routes/promo.js:128-151 | an approved quote came from a positive amount and its discount is >= 0, so the usage validator will accept it |
| Promo.FinalAmountSign | Backend/routes/promo.js:135-149 | a fixed discount keeps finalAmount in [0, amount]; a percentage up to 100 keeps it >= 0; a bonus larger than the amount makes it negative |
| Promo.ListLive | Backend/routes/promo.js:15-47 | the listing never has more entries than the table (its order and multiplicity are stated by `Promo.ListLiveAppend`) |
| Promo.ListLiveAppend | Backend/routes/promo.js:18-33 | a newly created live row comes first in the listing (`createdAt DESC`) and is listed once; a row that is not live leaves the listing unchanged |
| Promo.ListLiveMembers | Backend/routes/promo.js:18-32 | a promotion is listed iff some row is active and inside its window on `now` |
| Promo.ListedIsFindable | Backend/routes/promo.js:15-87 | every listed promotion is found by `/validate` under its own code |
| Promo.History | Backend/routes/promo.js:227-239 | a record is in the history iff it is in the ledger and belongs to the user |
| Promo.HistoryAppend | Backend/routes/promo.js:227-239 | a new record of the user heads the history (newest first); a record of anyone else leaves it unchanged |
| Promo.CeilDiv | Backend/routes/promo.js:249 | `Math.ceil(n / d)`: the least k with k*d >= n |
| Promo.MyUsageQuery | Backend/routes/promo.js:224-252 | with neither `page` nor `limit` given (defaults 1 and 10) the page is the user's ten newest records, page 1 of ceil(count/10) |
| Promo.MyUsage | Backend/routes/promo.js:221-252 | a page exists iff limit and offset are non-negative; it echoes `page` as the current page; `total` is ceil(count/limit), absent for limit 0; it holds min(limit, count - offset) rows (none past the end), namely the history entries from the offset on; `count` is the size of the user's history |
| Promo.OffsetInside | Backend/routes/promo.js:226-249 | page p (from 1) starts inside the history iff p <= ceil(count/limit) |
| Promo.MyUsagePageContents | Backend/routes/promo.js:226-250 | page rows are the newest-first history from offset (page-1)*limit on; a page is non-empty iff its number is at most `total` |
| PromoLedger.IncrementUsage | Backend/routes/promo.js:200-202 | the row with that id has its counter raised by one; every other row is unchanged |
| PromoLedger.IncrementKeepsTableValid | Backend/models/PromoCode.js:59-65 | raising a counter keeps every column validator and both unique keys |
| PromoLedger.IncrementKeepsFind | Backend/routes/promo.js:199-202 | raising a counter does not change which row a code lookup finds |
| PromoLedger.PromoStore.ValidateNow | Backend/routes/promo.js:60-151 | `/validate` on the store's current table and ledger: an approved promo is a row of the store, quoted with its own discount |
| PromoLedger.PromoStore.Use | Backend/routes/promo.js:164-216 | incomplete input is refused first and a foreign order next; otherwise it succeeds iff the promo exists and the discount is >= 0, appending exactly that record and raising exactly that counter; an unknown promo or a negative discount is the insert failure (the route's 500); on failure nothing changes |
| PromoLedger.UseCountsOnce | Backend/routes/promo.js:192-197 | a recorded redemption raises its own (user, promo) count by one and no other |
| PromoLedger.SecondRedemptionRefused | Backend/routes/promo.js:105-126 | after a recorded redemption of a single-use-per-user promo, validating it again for that user is refused by a cap |
| PromoLedger.RedeemThenRevalidate | Backend/routes/promo.js:105-202 | validate, redeem through `/use`, validate again: a promo limited to one use per user is then refused by a cap |
| PromoLedger.UseCanExceedUsageLimit | Backend/routes/promo.js:164-202 | `/use` on a promo whose counter equals its limit succeeds, and the stored counter is then one past the limit |
| PromoLedger.Save15Example | Backend/seeders/promocode.js:37-54 | "save15" on 1000 within the window: discount 150, final 850 |
| PromoLedger.Fixed50BelowMinimum | Backend/seeders/promocode.js:75-92 | FIXED50 on 30 is refused by its 200 minimum |
| PromoLedger.Expired50Refused | Backend/seeders/promocode.js:171-188 | the inactive, expired EXPIRED50 is "invalid or expired" |
| PromoLedger.Limit1Exhausted | Backend/seeders/promocode.js:191-208 | LIMIT1, whose single use is spent, is refused by the global cap |
| Orders.ParseStatus | Backend/models/Order.js:17-21 | a status string is accepted only if it names one of the five statuses |
| Orders.ParseStatusName | Backend/models/Order.js:17-21 | every status is accepted under its own name |
| Orders.ParseMethod | Backend/models/Order.js:23-27 | a payment method string is accepted only if it names one of the four methods |
| Orders.ParseMethodName | Backend/models/Order.js:23-27 | every method is accepted under its own name |
| Orders.OrderNumber | Backend/models/Order.js:40 | the number starts with "GT" and has at least seven characters (a timestamp digit and four counter digits at least) |
| Orders.OrderNumberDigits | Backend/models/Order.js:40 | after the "GT" prefix every character is a decimal digit |
| Orders.OrderNumberInjective | Backend/models/Order.js:40 | for timestamps with the same number of digits, distinct (timestamp, count) pairs give distinct numbers |
| Orders.OrderNumberCollision | Backend/models/Order.js:40 | without that condition two pairs collide: (1, 23455) and (12, 3455) |
| Orders.PreSave | Backend/models/Order.js:37-43 | a number is generated from `now` and the count only when none is set; nothing else changes |
| Orders.SaveNewAsWritten | Backend/models/Order.js:3-43 | as written, saving succeeds iff the draft already carries an order number and a valid payment method, and keeps that number |
| Orders.SaveNewAsWrittenRejects | Backend/models/Order.js:3-43 | validating before the pre-save hook refuses every order built without a number |
| Orders.SaveNew | Backend/models/Order.js:3-43 | with the number generated first, saving succeeds iff the payment method is in its enum |
| Orders.SaveNewStores | Backend/models/Order.js:3-43 | a saved order is pending, keeps every field it was built with, carries the generated number, and has no payment status, transaction id, failure reason or completion time |
| OrderService.MockProcessPayment | Backend/routes/payments.js:67-73 | the mock always succeeds with "TXN" followed by decimal digits that read back as the clock value |
| OrderService.Processed | Backend/routes/payments.js:20-60 | completed iff paid and topped up; failed iff declined or top-up failed; every other field (id, number, user, game, package, account data, payment method, amounts) is kept; a completed order keeps its failure reason and a failed one its completedAt |
| OrderService.PersistedAsWritten | Backend/models/Order.js:2-34 | as written, a saved order has no `paymentStatus`, `transactionId` or `failureReason`; every declared field is kept |
| OrderService.PaymentFieldsLostAsWritten | Backend/routes/payments.js:20-55 | the route sets a paid order's transaction id and a declined order's reason; under the schema as written both are lost on save |
| OrderService.Revenue | Backend/routes/admin.js:15-24 | the revenue is 0 unless some order is completed |
| OrderService.RevenueZero | Backend/routes/admin.js:15-24 | with no completed order the revenue is 0 |
| OrderService.RevenueNonNegative | Backend/routes/admin.js:15-24 | non-negative order amounts give non-negative revenue |
| OrderService.RevenueAppend | Backend/routes/admin.js:15-24 | a new order adds its amount to the revenue exactly when it is completed |
| OrderService.RevenueUpdate | Backend/routes/admin.js:15-24 | replacing one order changes the revenue by the change in that order's contribution |
| OrderService.CountRole | Backend/routes/admin.js:13 | the user count is at most the number of accounts, and zero iff no account has that role |
| OrderService.CountRoleInsert | Backend/routes/admin.js:13 | adding an account raises its own role's count by one and leaves every other role's count unchanged, so the count is the number of accounts with that role |
| OrderService.Stats | Backend/routes/admin.js:10-29 | the user total is the number of accounts with role 'user', the order total is the number of orders, and the revenue is the sum of completed orders' finalAmount |
| OrderService.OrderStore.Find | Backend/routes/payments.js:14-17 | an order is found iff one has that id, and the found order has it |
| OrderService.OrderStore.CreateOrder | Backend/routes/orders.js:11-52 | missing or inactive game, then bad package index, then invalid payment method are refused with nothing stored; a request with an active game, a package in range, a method in the enum and an unused generated number succeeds; a success appends one pending order with the package snapshot, price as total and final amount, the caller, the account details, the generated number and no payment fields set |
| OrderService.OrderStore.ProcessPayment | Backend/routes/payments.js:11-64 | an unknown order changes nothing; otherwise that order alone is replaced by its processed state, with reply 200 when paid and 400 when declined |
| OrderService.OrderStore.UpdateStatus | Backend/routes/admin.js:32-56 | an unknown order or a status outside the enum changes nothing; "completed" stamps completedAt and credits the owner's totalSpent with finalAmount; any other status changes only the status |
| OrderService.CompletingTwiceCreditsTwice | Backend/routes/admin.js:41-49 | marking the same order completed twice credits its owner twice its amount |
| OrderService.RevenueAfterCompletion | Backend/routes/admin.js:15-24 | completing an order raises the dashboard revenue by its amount only the first time |
| PaymentConfig.EnvOr | Backend/config/payment.js:8 | `process.env.X \|\| default` is never empty when the default is not |
| PaymentConfig.Flag | Backend/config/payment.js:7 | a gateway is enabled iff its variable is exactly "true" |
| PaymentConfig.FindUsableAccount | Backend/config/payment.js:79-81 | the scan finds an account iff some account has both a number and a name |
| PaymentConfig.CheckTrueMoney | Backend/config/payment.js:71-75 | the TrueMoney block appends exactly that gateway's messages |
| PaymentConfig.CheckCard | Backend/config/payment.js:88-91 | the credit-card block appends exactly that gateway's messages |
| PaymentConfig.ConfigErrors | Backend/config/payment.js:62-91 | at most seven messages, each one of the validator's seven texts |
| PaymentConfig.ValidatePaymentConfig | Backend/config/payment.js:62-98 | the message list is the gateways' messages in checking order, and the answer is true iff it is empty |
| PaymentConfig.ConfigErrorsEmpty | Backend/config/payment.js:62-98 | the configuration is valid iff no enabled gateway lacks a required setting |
| PaymentConfig.GatewayErrorCounts | Backend/config/payment.js:65-91 | a disabled gateway contributes nothing; an enabled one contributes one message per missing key; bank transfer warns iff no account is usable |
| PaymentConfig.LoadConfig | Backend/config/payment.js:4-59 | each gateway is enabled iff its flag is "true"; the PromptPay phone and both bank accounts are always filled; the API keys, the TrueMoney secret key and merchant id and the card secret key are read as given; currency THB, 30-minute timeout, 3 retries |
| PaymentConfig.LoadedDefaultsNeverWarn | Backend/config/payment.js:4-40 | in any environment PromptPay and bank transfer never warn, because their fields fall back to non-empty defaults |
| PaymentConfig.GetAvailablePaymentMethods | Backend/config/payment.js:101-145 | a method is offered iff its gateway is enabled; each appears once, in the order promptpay, truemoney, bank_transfer, credit_card |

## Left out

- PromoCodes.ToUpper: upper-cases ASCII letters only. JavaScript's `toUpperCase` also maps non-ASCII letters, which this model does not cover.
- Promo.Capped: `maxDiscount` is read as a number, so 0 means "no cap". The project's dialect is postgres (Backend/config/database.js:11), whose driver returns DECIMAL columns as strings. A stored 0 then arrives as "0.00", which is truthy, so the route caps the discount at 0. The model does not capture this.
- Promo.Validate: the model works on numbers. Under postgres a bonus_amount promo's `value` reaches the response as a string such as "50.00", and comparisons such as `amount < minAmount` rely on JavaScript's coercion of strings to numbers.
- Promo.Discount: the arithmetic is exact (`real`). The floating-point rounding of JavaScript numbers and the two-decimal storage of DECIMAL(10,2) are not modelled.
- `GET /api/promo`: the clause `usageCount < { usageLimit: null }` is not a meaningful comparison. The model drops it, so the listing filters only on active flag and date window.
- Promo.ListLive, Promo.History: `GET /api/promo` and `/my-usage` order by `createdAt DESC`. The model uses reverse insertion order, which agrees only when rows are inserted in time order; `PromoLedger.PromoStore.Use` takes its `now` unconstrained.
- Promo.MyUsage: `parseInt` of non-numeric query strings (NaN) is not modelled. Page and limit are integers.
- Promo.MyUsage: the joined PromoCode and Order attributes of each row are not modelled.
- The cookie and remember-token routes of promo.js (`/remember-token`, `/logout-all`, `/check-remember`) are outside the promotion engine.
- OrderService.OrderStore.CreateOrder: built on the corrected save (`Orders.SaveNew`). As written, every valid request fails validation and answers 500 (first "## Findings" row, `Orders.SaveNewAsWrittenRejects`).
- Promo.Validate: ids are natural numbers, so a present `gameId` is always truthy. The route also refuses `""` or `0` as a game id; that case is not modelled.
- PromoLedger.PromoStore.Use: likewise, a present `promoCodeId` or `orderId` counts as truthy; the route's refusal of `""` or `0` is not modelled.
- Authentication middleware is not modelled. The caller's user id is a parameter.
- Concurrency is not modelled. Two `/use` requests, or two order saves, can interleave in the real system; each operation here is atomic.
- The response messages, which are Thai texts, are reduced to constructors.
- The Thai `description` of each payment method is not modelled.
- The promo `name` of the seed rows is replaced by an ASCII placeholder.
- PromoLedger.PromoStore.Use: `discountAmount: null` passes the route's `=== undefined` test and then fails the NOT NULL column. The model has only absent (`None`) and numeric values, so a null is not modelled separately.
- PromoLedger.PromoStore.Use: the unknown-promo failure comes from the foreign key on `promoCodeId`.
- PromoLedger.PromoStore.Use: the `usage` row returned in the response lacks its generated id and timestamps.
- OrderService.OrderStore.ProcessPayment: stores orders with `paymentStatus`, `transactionId` and `failureReason` kept. This is the corrected behaviour of the second "## Findings" row; `OrderService.PersistedAsWritten` models the schema as written.
- OrderService.OrderStore.ProcessPayment: the intermediate save of the processing state is shown only through the final state.
- OrderService.OrderStore.ProcessPayment: a save that fails midway is not modelled.
- The game top-up call (`GameService.processTopup`) is a network call. Its outcome is a parameter.
- A game deleted between order creation and payment (`order.game.name` on null) is not modelled.
- The payment mock ignores `paymentData` and the amount. So does the model.
- `processedAt` is never written by the routes, so it is not modelled.
- The populate step of order creation and payment (joining game name and image) is presentation only, and is not modelled.
- OrderService.OrderStore.UpdateStatus: a request without `status` is not modelled. Assigning undefined makes Mongoose unset the field rather than reject it; the model's status is always a string.
- OrderService.OrderStore.UpdateStatus: when the owner is credited, the user document is saved before the order. The model changes both at once, and because the status is valid the order save cannot fail afterwards.
- OrderService.Stats: the role count is over a map of accounts; the other User fields are not modelled.
- `validatePaymentConfig` writes to `console.warn`. The model returns the list it would log.
- `validatePaymentConfig` reads the module-level configuration. The model takes the configuration as a parameter, and `LoadConfig` builds it from an environment map.
- Ids are abstracted to natural numbers. UUID and ObjectId generation is not modelled.

## Findings

| source | as written | input that shows it | evidently intended | confidence | as-written member | corrected member |
|---|---|---|---|---|---|---|
| Backend/models/Order.js:3 | `orderNumber` is `required`, but it is generated only in a `pre('save')` hook. Mongoose runs schema validation before user pre-save hooks, so the required check sees it unset. | any `POST /api/orders` with a valid game, package and payment method: the draft has no number, `save()` fails validation, and the route answers 500 | generate the number before validation (a `pre('validate')` hook), so a valid order is stored with a fresh number | medium; not executed | Orders.SaveNewAsWrittenRejects | Orders.SaveNewStores |
| Backend/routes/payments.js:25-26 | the route sets `paymentStatus`, `transactionId` and `failureReason` on the order, but the Order schema declares none of them. Mongoose's default strict mode leaves undeclared paths out of the saved document. | any `POST /api/payments/process`: after a paid request the stored order has no transaction id; after a declined one it has no failure reason | declare the three paths in the schema so that the payment outcome is stored | medium; not executed | OrderService.PaymentFieldsLostAsWritten | OrderService.Processed |
