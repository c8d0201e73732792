# card-shop: a verified model of the storefront core

card-shop is a storefront for digital goods. Each unit of stock is a one-time
"card" (a licence key or voucher code) of some good. Buyers browse listed
goods and place an order, possibly as a guest. They then open a payment with
WeChat Pay or Alipay. The provider's notification marks the payment and the
order as paid. A Vue frontend keeps the session in cookies and `localStorage`
and guards its pages by a route table.

This project models, in Dafny:

- the backend controllers for orders, payments, goods, categories and accounts;
- the middleware for authentication, error mapping and action logging;
- the utilities for order and payment numbers, pagination and masking;
- the Sequelize schemas they rely on;
- the frontend's session store, router guard and HTTP interceptors.

The database is a `Database.Db` object whose tables are sequences. Operations
that write a table are methods with `modifies` clauses. Each such method's new
state equals a pure decision function of the old tables, so a failure
(a rolled-back transaction) leaves every table as it was. The frontend store
is a class whose fields are the Pinia state. Cookies and `localStorage` are
maps held in that class.

Modelling conventions:

- Money is integer cents, exact where the source's DECIMAL(10,2) columns are exact.
- Time, randomness, bcrypt, JWT verification and MD5 are parameters.
  A hash is an input string; a verifier is a function-typed argument.
- Most request fields are typed: an absent field is `None` and a present one
  an `int` or a `string` (`AuthController.RegisterRequest`, `AuthController.Credentials`,
  `OrderController.OrderRequest`, `GoodController.GoodsQuery`, the ids of
  `PaymentController.PaymentRequest`, the number of `PaymentController.NotifyRequest`).
  Only the fields whose JavaScript type matters to the code are a `Js.JsValue`:
  the payment `amount`, the notification `status`, logged data and response bodies.
  Truthiness, strict equality and `String(x)` are modelled there.
- Query results are `Query.Filter`/`Query.SortBy`/`Query.Window` over table
  sequences. `SortBy` is a stable insertion sort, proved sorted and a
  permutation of its input.

Four things are absent from the code, and so from the model:

- The code has no card reservation, release or finalization: `createOrder`
  only counts unused cards, and nothing marks a card used.
- The code has no minimum/maximum amount check on payment methods.
- The code has no payment-expiry sweep.
- The code has no callback signature check or duplicate suppression:
  `handleNotify` applies every notification.

## Model

| member | source | states |
|---|---|---|
| Errors.CreateError | backend/src/utils/errors.js:12-20 | each factory gives its fixed status (400, 401, 403, 404, 409, 429, 500); a supplied message is kept, and an absent one becomes the factory's default |
| Errors.KindOfStatus | backend/src/utils/errors.js:12-20 | a status maps back only to a factory that produces it |
| Errors.StatusIdentifiesKind | backend/src/utils/errors.js:12-20 | distinct factories give distinct statuses |
| Errors.ServerErrorOnlyInternal | backend/src/utils/errors.js:12-20 | only `internal` gives a status of 500 or more |
| ErrorHandler.NotFound | backend/src/middleware/errorHandler.js:4-7 | the unmatched-route error is a 404 whose message names the URL |
| ErrorHandler.Normalize | backend/src/middleware/errorHandler.js:10-29 | validation, unique and foreign-key errors become 400, database errors 500, other non-ApiErrors 500; an ApiError is kept |
| ErrorHandler.Handle | backend/src/middleware/errorHandler.js:43-50 | the response status equals the body's code, and `success` is false |
| ErrorHandler.HandleIdempotent | backend/src/middleware/errorHandler.js:10-29 | normalizing an already normalized error changes nothing |
| ErrorHandler.NotFoundResponds404 | backend/src/middleware/errorHandler.js:4-7 | an unmatched route is always answered with status 404 |
| ErrorHandler.SingleValidationMessage | backend/src/middleware/errorHandler.js:14-16 | one validation error yields exactly its own message |
| ErrorHandler.UniqueMessageSnoc | backend/src/middleware/errorHandler.js:17-19 | each extra duplicate path appends `', '` + path + `' 已存在'` to the message |
| ErrorHandler.ApiErrorKeepsStatus | backend/src/middleware/errorHandler.js:26-29 | an ApiError reaches the client with its own status and message |
| Logger.ActorOf | backend/src/middleware/logger.js:36 | `user_type` is admin when an admin is attached, else user when a user is, else guest |
| Logger.ActorIdOf | backend/src/middleware/logger.js:37 | `user_id` is the admin's id first, then the user's, else null (a falsy id 0 also gives null) |
| Logger.EntryFor | backend/src/middleware/logger.js:35-44 | the row carries the derived actor type and id, the action, resource, address and agent, and the data or null |
| Logger.GuestEntryHasNoId | backend/src/middleware/logger.js:36-37 | a guest's entry has no user id |
| Logger.LogAction | backend/src/middleware/logger.js:33-50 | appends exactly that entry, or leaves the log unchanged when the insert fails; it never fails itself |
| Helpers.RandomSuffix | backend/src/utils/helpers.js:13 | the suffix is a 4-digit number in 1000..9999 |
| Helpers.GenerateOrderNo | backend/src/utils/helpers.js:11-15 | the order number is all digits, is the timestamp followed by the suffix, and has length digits(timestamp)+4 |
| Helpers.GeneratePaymentNo | backend/src/utils/helpers.js:18-22 | the payment number is `'PAY'` + timestamp + a 4-digit suffix |
| Helpers.OrderNoDeterminesTime | backend/src/utils/helpers.js:11-15 | equal order numbers come from the same timestamp and suffix |
| Helpers.GetPagination | backend/src/utils/helpers.js:41-44 | offset + limit = page·limit, so offset = (page-1)·limit; page 1 has offset 0, and a page >= 1 never has a negative offset |
| Helpers.PagesTile | backend/src/utils/helpers.js:41-44 | consecutive pages start exactly one limit apart |
| Helpers.TotalPages | backend/src/utils/helpers.js:49 | for a positive limit, totalPages is the least n with n·limit >= total; limit 0 gives NaN or Infinity as JavaScript's division does |
| Helpers.FormatPagination | backend/src/utils/helpers.js:47-62 | hasNext iff page < totalPages, hasPrev iff page > 1; the other fields are the inputs |
| Helpers.HasNextIffRowsRemain | backend/src/utils/helpers.js:49-58 | for a page >= 1 and a positive limit, hasNext holds iff rows remain beyond the current page |
| Helpers.EmptyHasNoPages | backend/src/utils/helpers.js:49-58 | total 0 gives 0 pages and no next page |
| Helpers.MaskValue | backend/src/utils/helpers.js:77-82 | a value of length <= 4 becomes `'****'`; a longer one keeps its first 2 and last 2 characters around `'****'`, so it has length 8 |
| Helpers.MaskValueIdempotent | backend/src/utils/helpers.js:77-82 | masking a masked value changes nothing |
| Helpers.MaskSensitiveData | backend/src/utils/helpers.js:73-86 | the loop masks exactly the listed fields whose value is truthy, keeps every other entry and leaves the input untouched |
| Helpers.MaskStep | backend/src/utils/helpers.js:75-84 | one pass of the loop: the next listed field is masked once, and re-masking a field listed twice leaves it as it was |
| Money.CentsText | backend/src/controllers/paymentController.js:147 | the text of an amount in cents starts with `-` exactly when the amount is negative |
| Money.CentsTextRoundTrip | backend/src/controllers/paymentController.js:147 | parsing the rendered amount gives back the cents |
| Money.CentsTextInjective | backend/src/controllers/paymentController.js:147 | distinct amounts render differently |
| CardModel.ParseCardStatus | backend/src/models/Card.js:18-23 | only `unused`, `used` and `expired` are card statuses |
| CardModel.CardStatusRoundTrip | backend/src/models/Card.js:18-23 | naming a status and parsing the name gives the status back |
| CardModel.NewCard | backend/src/models/Card.js:8-33 | a new card belongs to its good, starts `unused`, and has no order and no use time |
| CardModel.UnusedCount | backend/src/controllers/orderController.js:34-40 | the number of the good's unused cards never exceeds the number of cards |
| CardModel.UnusedCountSnoc | backend/src/controllers/orderController.js:34-40 | adding a card raises the count by one exactly when it is an unused card of that good |
| CardModel.UnusedCountZero | backend/src/controllers/orderController.js:34-40 | a good none of whose cards is unused has stock 0 |
| GoodModel.BuyLimitMeaning | backend/src/controllers/orderController.js:47-49 | `buy_limit` 0 admits every quantity; otherwise a quantity is allowed iff it is at most the limit |
| GoodModel.NewGood | backend/src/models/Good.js:38-95 | a new good has stock and sales 0, is listed, is virtual, is neither hot nor recommended, admits any quantity, and is created and updated at the given time |
| GoodModel.FindListedGood | backend/src/controllers/goodController.js:68-80 | finds the good with that id exactly when it exists with status 1 |
| OrderModel.ParseOrderStatus | backend/src/models/Order.js:49-54 | only the six order statuses parse |
| OrderModel.OrderStatusRoundTrip | backend/src/models/Order.js:49-54 | naming a status and parsing the name gives the status back |
| OrderModel.FindOrderByNo | backend/src/controllers/orderController.js:100-101 | finds the order with that number, and finds none when no order has it |
| OrderModel.OrderIndex | backend/src/controllers/paymentController.js:29 | finds the order with that primary key, or none |
| OrderModel.MaxOrderId | backend/src/models/Order.js:3-7 | the largest stored id bounds every id, so one more is a fresh auto-increment id |
| PaymentModel.ParsePaymentStatus | backend/src/models/Payment.js:40-45 | only `pending`, `success`, `failed` and `cancelled` parse |
| PaymentModel.PaymentStatusRoundTrip | backend/src/models/Payment.js:40-45 | naming a status and parsing the name gives the status back |
| PaymentModel.PaymentIndex | backend/src/controllers/paymentController.js:299-302 | finds the payment with that number, or none |
| PaymentModel.MaxPaymentId | backend/src/models/Payment.js:3-7 | the largest stored id bounds every id, so one more is a fresh auto-increment id |
| PaymentMethodModel.NewPaymentMethod | backend/src/models/PaymentMethod.js:24-47 | defaults: fee rate 0, min 0.00 <= max 99999.99, status 1 |
| PaymentMethodModel.FindMethod | backend/src/controllers/paymentController.js:45 | finds the method with that primary key, or none |
| AccountModel.UserIndexByName | backend/src/controllers/authController.js:87 | finds the user whose username equals the given one exactly, or none |
| AccountModel.UserIndexById | backend/src/middleware/auth.js:25 | finds the user with that id, or none |
| AccountModel.MaxUserId | backend/src/models/User.js:3-7 | the largest stored id bounds every id, so one more is a fresh auto-increment id |
| AccountModel.AdminIndexByName | backend/src/controllers/authController.js:144 | finds the admin whose username equals the given one exactly, or none |
| AccountModel.AdminIndexById | backend/src/middleware/auth.js:19 | finds the admin with that id, or none |
| CategoryModel.FindEnabledCategory | backend/src/controllers/categoryController.js:48-51 | finds the category with that id exactly when it exists with status 1 |
| Listing.ListPage | backend/src/controllers/goodController.js:34-50 | `findAndCountAll`: the total counts every matching row, and the page is exactly the window at offset (page-1)·limit, of at most `limit` rows, of the matching rows sorted by the key; the pagination block gives the page, its size, the total, totalPages = ceil(total/limit), hasNext iff page < totalPages and hasPrev iff page > 1; a negative offset or limit is a database error |
| Listing.ListTop | backend/src/controllers/goodController.js:114-131 | `findAll` with a limit: exactly the first min(limit, matches) of the matching rows sorted by the key; a negative limit is a database error |
| Listing.ListPageSameTest | backend/src/controllers/goodController.js:21-25 | two `where` conditions that agree on every row select the same page |
| Listing.ListTopRanksFirst | backend/src/controllers/goodController.js:114-131 | the top list takes no row twice and none that does not match, and each matching row left out ranks no better than each row returned |
| Query.SortByCorrect | backend/src/controllers/goodController.js:28-32 | the ordering the listings use is sorted by the key and a permutation of its input |
| OrderController.LookupListedGood | backend/src/controllers/orderController.js:24-31 | the good is found iff it exists with status 1; otherwise not-found |
| OrderController.CheckOrder | backend/src/controllers/orderController.js:15-49 | the guards run in source order: good id, quantity 1..100 (default 1), listed good, unused stock >= quantity, then buy limit |
| OrderController.BuyerId | backend/src/controllers/orderController.js:60 | the order's `user_id` is the caller's id, or null for a guest (and for a falsy id 0) |
| OrderController.PlaceOrder | backend/src/controllers/orderController.js:15-68 | a failed guard is reported as is; success yields one `pending` order with the good's name and price copied, total = price·quantity exactly in cents, the caller or null as user, a fresh order number and a fresh id, no payment, delivery or remark yet, created and updated now |
| OrderController.CreateOrder | backend/src/controllers/orderController.js:8-93 | the order table becomes PlaceOrder's result, the cards are untouched, and the order-number uniqueness invariant is kept |
| OrderController.AppendOrder | backend/src/controllers/orderController.js:58-68 | inserting a row with a fresh number and an id above every existing one appends it and keeps the order table valid |
| OrderController.CommitOrder | backend/src/controllers/orderController.js:58-76 | a placed order is appended, then its `create_order` entry is logged unless the log insert fails; cards and goods are untouched and the tables stay valid |
| OrderController.InsertKeepsOrdersUnique | backend/src/models/Order.js:93-97 | inserting an order with a fresh number keeps order numbers unique |
| OrderController.EarlyGuardsReadNoTable | backend/src/controllers/orderController.js:15-21 | a missing good id or a bad quantity fails the same whatever the tables hold |
| OrderController.StockBeforeBuyLimit | backend/src/controllers/orderController.js:34-49 | when both stock and buy limit are violated, the stock error is reported |
| OrderController.GuestOrderDefaults | backend/src/controllers/orderController.js:12 | without a quantity the order is for one unit, and a guest's order has no user |
| OrderController.OrderSucceeds | backend/src/controllers/orderController.js:15-68 | an order with a listed good, a valid quantity, enough stock and no exceeded limit is created |
| OrderController.FindCardInfo | backend/src/controllers/orderController.js:112-116 | a secret found is the secret of a card with that id |
| OrderController.DeliveredCards | backend/src/controllers/orderController.js:108-118 | the order's detail rows in table order, one shown card each, each carrying the `card_info` of the card that row names (none when the card is missing), and every detail row of the order appears |
| OrderController.PaymentsOf | backend/src/controllers/orderController.js:119-123 | the order's payments in table order, each shown as its `payment_method`, `amount`, `status` and `paid_at`, and every payment of the order appears |
| OrderController.GoodBriefOf | backend/src/controllers/orderController.js:103-107 | the included good is none iff no good has that id, and otherwise carries that good's id, name, image and description |
| OrderController.GoodThumbOf | backend/src/controllers/orderController.js:173-179 | the good included in the order list is none iff no good has that id, and otherwise carries exactly that good's id, name and image |
| OrderController.ViewOrder | backend/src/controllers/orderController.js:100-149 | card secrets appear only for the owner or an admin on a `completed` order; others get neither `user_id` nor `contact_info`; every other column (`deliver_time`, `remark` and `updated_at` included), the included good and the payments are the stored ones |
| OrderController.GetOrderDetail | backend/src/controllers/orderController.js:96-159 | an unknown order number is not-found; otherwise the viewer's view of that order |
| OrderController.StrangerSeesNoSecrets | backend/src/controllers/orderController.js:131-149 | a viewer who is neither owner nor admin never sees cards, user id or contact |
| OrderController.UnfinishedHidesCards | backend/src/controllers/orderController.js:142 | no one sees cards of an order that is not `completed` |
| OrderController.GetUserOrders | backend/src/controllers/orderController.js:162-196 | exactly the window for the page of the caller's orders, filtered by status when given, sorted newest first; each row carries its good's id, name and image (none when the good is gone), and the pagination block gives the page, its size, the total, totalPages = ceil(total/limit), hasNext iff page < totalPages and hasPrev iff page > 1 |
| PaymentController.LookupOrder | backend/src/controllers/paymentController.js:29 | the order is found by primary key, or not-found |
| PaymentController.LookupMethod | backend/src/controllers/paymentController.js:45 | the method is found by primary key, or none |
| PaymentController.CheckPaymentAsWritten | backend/src/controllers/paymentController.js:29-59 | the guards as written: each failure is one of the four errors, in source order |
| PaymentController.AsWrittenNoMethodUsable | backend/src/controllers/paymentController.js:46 | as written, no method passes `status !== 'active'`, not even an enabled one |
| PaymentController.AsWrittenEveryAmountMismatches | backend/src/controllers/paymentController.js:54 | as written, every amount, the order's own total included, differs from the missing `total_price` |
| PaymentController.AsWrittenNeverAccepts | backend/src/controllers/paymentController.js:29-59 | as written, every payment request is rejected |
| PaymentController.CheckPayment | backend/src/controllers/paymentController.js:29-59 | missing order 404, order not pending 400, missing or disabled method 404, amount ≠ order total 400, first failure wins |
| PaymentController.CheckPaymentIff | backend/src/controllers/paymentController.js:29-59 | a request passes iff the order exists and is pending, the method exists and is enabled, and the amount equals the total exactly |
| PaymentController.RandomTag | backend/src/controllers/paymentController.js:62 | the tag is at most 6 upper-case base-36 characters |
| PaymentController.PaymentNo | backend/src/controllers/paymentController.js:62 | the payment number is `'P'` + decimal timestamp + the tag |
| PaymentController.PaymentNoNamesTime | backend/src/controllers/paymentController.js:62 | the number starts with `'P'`, and the digits after it read back as the timestamp |
| PaymentController.ExpiresAt | backend/src/controllers/paymentController.js:73 | expiry is creation time + 1,800,000 ms |
| PaymentController.WechatSignStringLayout | backend/src/controllers/paymentController.js:113 | the sign string joins appId, nonceStr, `package=prepay_id=`+number, `signType=MD5` and timeStamp in that order, then `&key=` + key |
| PaymentController.WechatNamesAscending | backend/src/controllers/paymentController.js:113 | the signed parameter names are in ascending order |
| PaymentController.WechatParamsFor | backend/src/controllers/paymentController.js:100-114 | app id and key from the method's config, the nonce, the timestamp in seconds, `package` = `prepay_id=` + number, `signType` MD5, and `paySign` = the upper-cased MD5 of the sign string |
| PaymentController.AlipayParamsFor | backend/src/controllers/paymentController.js:135-149 | `out_trade_no` is the payment number, the subject names it, `total_amount` is the amount as text, and method, charset, sign type and version are fixed |
| PaymentController.AlipayNamesPayment | backend/src/controllers/paymentController.js:146-148 | Alipay's `out_trade_no` is the payment number and `total_amount` reads back as the amount |
| PaymentController.PaymentUrl | backend/src/controllers/paymentController.js:117-152 | the URL is `/payment/wechat/` or `/payment/alipay/` + number; any other method type has no URL |
| PaymentController.PaymentUrlInjective | backend/src/controllers/paymentController.js:117-152 | for one method type, equal URLs come from equal payment numbers |
| PaymentController.PaymentDataFor | backend/src/controllers/paymentController.js:77-83 | the provider payload matches the method's type, and is empty for other types |
| PaymentController.OpenPayment | backend/src/controllers/paymentController.js:24-93 | on success one `pending` payment with that number, the order's total, `payment_method` = the method's code and a 30-minute expiry; each guard failure and a taken number fail, storing nothing |
| PaymentController.OpenPaymentAsWritten | backend/src/controllers/paymentController.js:65-74 | as written, the guard failures pass through and every request past them fails the insert for the missing `payment_method` |
| PaymentController.AsWrittenInsertRejected | backend/src/models/Payment.js:24-28 | as written, every payment request fails; past the guards the client gets 400 with the null `payment_method` message |
| PaymentController.AppendKeepsPaymentsUnique | backend/src/models/Payment.js:69-73 | appending a payment with a fresh number keeps payment numbers unique |
| PaymentController.CreatePayment | backend/src/controllers/paymentController.js:24-97 | the payment table gains exactly OpenPayment's payment, or is unchanged on failure; orders, methods and the invariant are kept |
| PaymentController.ReturnUrl | backend/src/controllers/paymentController.js:187 | a non-empty stored return URL is kept, otherwise it is `/orders`; it is never empty |
| PaymentController.PaymentPage | backend/src/controllers/paymentController.js:170-187 | the page is shown only for an existing `pending` payment; otherwise 404 |
| PaymentController.PaymentPageIff | backend/src/controllers/paymentController.js:179-184 | a page is served iff the payment exists and is pending |
| PaymentController.GetPaymentStatus | backend/src/controllers/paymentController.js:295-325 | 404 iff no payment has that number; otherwise that payment's number, status, amount and times |
| PaymentController.NotifyStatusAsWritten | backend/src/controllers/paymentController.js:346 | as written, a success report writes the status `'paid'`, any other `'failed'` |
| PaymentController.NotifyAsWrittenLeavesEnum | backend/src/controllers/paymentController.js:346 | as written, a success report stores a status outside the Payment enum |
| PaymentController.NotifiedStatus | backend/src/controllers/paymentController.js:345-349 | the corrected write: `success` on a success report, `failed` otherwise, both in the enum |
| PaymentController.Notified | backend/src/controllers/paymentController.js:345-349 | the payment gets that status and the trade number, and a payment time only on success |
| PaymentController.NotifyIgnoresPriorState | backend/src/controllers/paymentController.js:345-349 | the outcome does not depend on the payment's previous status |
| PaymentController.NotifyIdempotent | backend/src/controllers/paymentController.js:345-349 | applying the same notification twice equals applying it once |
| PaymentController.UpdateKeepsPaymentsUnique | backend/src/controllers/paymentController.js:345-349 | updating a payment in place keeps payment numbers unique |
| PaymentController.UpdateKeepsOrdersUnique | backend/src/controllers/paymentController.js:352-357 | updating an order in place keeps order numbers unique |
| PaymentController.HandleNotify | backend/src/controllers/paymentController.js:328-366 | an unknown number is 404; otherwise that payment is updated, and its order becomes `paid` only on success |
| PaymentController.NotifyTouchesOnePayment | backend/src/controllers/paymentController.js:332-349 | every other payment is left unchanged |
| GoodController.PublicViewHidesCost | backend/src/controllers/goodController.js:43-45 | no public view of a good carries its cost price |
| GoodController.BriefOf | backend/src/controllers/goodController.js:36-42 | a category brief attached to a good is the brief of that good's category |
| GoodController.Catalog | backend/src/controllers/goodController.js:34-50 | listing rows are the public views of the goods, in table order |
| GoodController.SortOrderFor | backend/src/controllers/goodController.js:27-32 | `price_asc`, `price_desc`, `sales`, `created_at` map to their orders; anything else is `sort_order` ascending |
| GoodController.GoodKeyMeaning | backend/src/controllers/goodController.js:28-32 | each sort key orders two goods exactly as its column and direction say |
| GoodController.GetGoods | backend/src/controllers/goodController.js:7-61 | exactly the page-window of the goods meeting status (default 1) and the given category, hot and recommend equalities, sorted by the requested order, and the pagination block gives the page, its size, the total, totalPages = ceil(total/limit), hasNext iff page < totalPages and hasPrev iff page > 1 |
| GoodController.GetGoodDetail | backend/src/controllers/goodController.js:64-107 | 404 unless the good exists and is listed; otherwise its public view with `available_stock` = its unused cards |
| GoodController.GetHotGoods | backend/src/controllers/goodController.js:110-141 | exactly the first `limit` (default 8) listed hot goods by `sort_order` then sales descending |
| GoodController.GetRecommendGoods | backend/src/controllers/goodController.js:144-175 | exactly the first `limit` listed recommended goods by `sort_order` then newest first |
| GoodController.FindByKeyword | backend/src/controllers/goodController.js:187-212 | exactly the page-window of the listed goods whose name or description contains the keyword, by sales descending then `sort_order`, and the pagination block gives the page, its size, the total, totalPages = ceil(total/limit), hasNext iff page < totalPages and hasPrev iff page > 1 |
| GoodController.HotOrder | backend/src/controllers/goodController.js:129 | rows sorted by the hot key come in ascending `sort_order`, and among equal `sort_order` the larger sales first |
| GoodController.RecommendOrder | backend/src/controllers/goodController.js:163 | rows sorted by the recommend key come in ascending `sort_order`, and among equals the later `created_at` first |
| GoodController.SearchOrder | backend/src/controllers/goodController.js:207 | rows sorted by the search key come in descending sales, and among equal sales ascending `sort_order` |
| GoodController.SearchGoods | backend/src/controllers/goodController.js:178-222 | an empty or blank keyword is 400; otherwise the search with the trimmed keyword |
| GoodController.BlankIffWhitespace | backend/src/controllers/goodController.js:183-185 | a keyword is rejected iff it is absent or only whitespace |
| GoodController.SearchIgnoresSurroundingSpace | backend/src/controllers/goodController.js:193-194 | a keyword with surrounding spaces finds what the bare keyword finds |
| CategoryController.GetCategories | backend/src/controllers/categoryController.js:6-42 | the categories with the given status (default 1), by `sort_order` then id, each with its goods count |
| CategoryController.CategoriesComplete | backend/src/controllers/categoryController.js:8-14 | every category with the requested status is listed, with its goods count |
| CategoryController.CategoriesListedOnce | backend/src/controllers/categoryController.js:8-14 | with unique primary keys, the list is strictly ordered by (`sort_order`, id), so no category appears twice |
| CategoryController.ShownCategories | backend/src/controllers/categoryController.js:8-14 | the listed categories are exactly those with the status, in that order |
| CategoryController.GetCategoryDetail | backend/src/controllers/categoryController.js:44-79 | 404 unless the category exists with status 1; otherwise it with its goods count |
| CategoryController.GetCategoryGoods | backend/src/controllers/categoryController.js:81-134 | 404 unless the category is enabled; otherwise exactly the page-window of its listed goods sorted with the goods sort mapping, and the pagination block gives the page, its size, the total, totalPages = ceil(total/limit), hasNext iff page < totalPages and hasPrev iff page > 1 |
| CategoryController.CountsAgree | backend/src/controllers/categoryController.js:18-29 | `goods_count` equals the number of listed goods of that category, the total of its goods listing |
| AuthMiddleware.TokenOf | backend/src/middleware/auth.js:9 | the token is the header with its first `'Bearer '` removed |
| AuthMiddleware.BearerHeaderYieldsToken | backend/src/middleware/auth.js:9 | a `'Bearer '` + token header yields exactly that token |
| AuthMiddleware.TokenFailure | backend/src/middleware/auth.js:33-41 | invalid and expired tokens give 401, other failures are passed on |
| AuthMiddleware.AuthenticateAsWritten | backend/src/middleware/auth.js:6-43 | as written: success iff a token decodes and the active account with its id exists in the table `userType` names |
| AuthMiddleware.AsWrittenUserTokenPassesAsAdmin | backend/src/middleware/auth.js:15-23 | as written, a user's token passes `auth('admin')` when an active admin shares the user's id |
| AuthMiddleware.Authenticate | backend/src/middleware/auth.js:6-43 | a missing token 401; success iff the token decodes, its kind is the expected one, and the account is active; admins set `req.admin`, others `req.user` |
| AuthMiddleware.CorrectionOnlyRefuses | backend/src/middleware/auth.js:15-30 | every request the corrected check accepts is accepted as written, with the same result |
| AuthMiddleware.OptionalAuthAsWritten | backend/src/middleware/auth.js:46-64 | as written: never rejects, and attaches the active user with the token's id |
| AuthMiddleware.AsWrittenAdminTokenActsAsUser | backend/src/middleware/auth.js:51-56 | as written, an admin's token makes a guest request carry the user with the admin's id |
| AuthMiddleware.OptionalAuth | backend/src/middleware/auth.js:46-64 | never rejects; attaches a user only for a user token of an active user, else the request proceeds as a guest |
| AuthMiddleware.OptionalAgreesWithRequired | backend/src/middleware/auth.js:46-64 | `optionalAuth` attaches a user exactly when `auth()` would accept the request |
| AuthMiddleware.CheckRole | backend/src/middleware/auth.js:67-83 | no admin gives 401; a role outside the list 403; a single role string acts as a one-element list |
| AuthController.SignUp | backend/src/controllers/authController.js:15-48 | missing fields 400 and a short password 400 before any lookup; a taken username 409; a taken, given email 409; else one new user |
| AuthController.AppendKeepsUsersUnique | backend/src/controllers/authController.js:41-49 | a new user with a fresh name and id keeps usernames and ids unique |
| AuthController.Register | backend/src/controllers/authController.js:13-75 | the user table becomes SignUp's result, the action is logged, and the response omits the password |
| AuthController.SignIn | backend/src/controllers/authController.js:80-100 | an unknown username and a wrong password give the same 401; a disabled account 403; else the user |
| AuthController.UnknownUserLooksLikeWrongPassword | backend/src/controllers/authController.js:87-100 | the caller cannot tell an unknown username from a wrong password |
| AuthController.DisabledIgnoresPassword | backend/src/controllers/authController.js:92-94 | a disabled account gets 403 whatever password is given |
| AuthController.UserLoginKeepsUnique | backend/src/controllers/authController.js:103-106 | a login updates only the last-login fields and keeps the table's invariants |
| AuthController.AdminLoginKeepsUnique | backend/src/controllers/authController.js:160-163 | an admin login updates only the last-login fields and keeps admin usernames and ids unique |
| AuthController.Login | backend/src/controllers/authController.js:78-132 | on success only that user's last-login fields change, and the action is logged; on failure nothing changes |
| AuthController.AdminSignIn | backend/src/controllers/authController.js:137-157 | the same guard chain over the admin table |
| AuthController.AdminLogin | backend/src/controllers/authController.js:135-187 | on success only that admin's last-login fields change |
| AuthController.AccountId | backend/src/controllers/authController.js:192 | `(req.user \|\| req.admin).id`: the user's id when a user is attached, else the admin's, else none |
| AuthController.RefreshToken | backend/src/controllers/authController.js:190-205 | a token is issued for the caller's account and kind; no tables change |
| AuthController.Logout | backend/src/controllers/authController.js:208-223 | appends one log entry for the caller and changes nothing else |
| AuthController.PasswordCheck | backend/src/controllers/authController.js:228-244 | both passwords required, new length >= 6, and a correct old password, in that order |
| AuthController.SetUserPassword | backend/src/controllers/authController.js:247-251 | only that user's hash is replaced |
| AuthController.SetAdminPassword | backend/src/controllers/authController.js:247-251 | only that admin's hash is replaced |
| AuthController.SetPasswordKeepsUnique | backend/src/controllers/authController.js:247-251 | replacing a hash keeps names and ids unique |
| AuthController.SetAdminPasswordKeepsUnique | backend/src/controllers/authController.js:247-251 | replacing an admin's hash keeps admin usernames and ids unique |
| AuthController.StoreUserPassword | backend/src/controllers/authController.js:247-251 | the users table gets the new hash on every row with that id, nothing else changes, and the invariants are kept |
| AuthController.StoreAdminPassword | backend/src/controllers/authController.js:247-251 | the admins table gets the new hash on every row with that id, nothing else changes, and the invariants are kept |
| AuthController.ChangePassword | backend/src/controllers/authController.js:226-263 | on success the caller's table changes in that hash only; on failure nothing changes |
| AuthController.ForgotPasswordAsWritten | backend/src/controllers/authController.js:266-294 | as written: missing email 400, otherwise success |
| AuthController.AsWrittenRevealsAccount | backend/src/controllers/authController.js:275-290 | as written, a registered and an unregistered email get different messages |
| AuthController.ForgotPassword | backend/src/controllers/authController.js:266-294 | missing email 400; otherwise one message whether or not the email is registered |
| AuthController.ForgotPasswordHidesAccount | backend/src/controllers/authController.js:275-282 | two tables differing in whether the email is registered give the same answer |
| AuthController.ResetPassword | backend/src/controllers/authController.js:297-318 | missing fields or a short password 400; otherwise success, and no table changes |
| UserStore.Store.constructor | frontend/src/stores/user.js:6-10 | the state starts with token, user and admin all null |
| UserStore.Store.IsLoggedIn | frontend/src/stores/user.js:13 | signed in iff the token, as a JavaScript value, is truthy: set and non-empty |
| UserStore.Store.IsAdmin | frontend/src/stores/user.js:14 | an admin iff the admin field is truthy as a JavaScript value: always for a profile object, never when unset, and by JavaScript truthiness for a plain value loaded from storage |
| UserStore.Store.UserInfo | frontend/src/stores/user.js:15 | the shown account is the user when it is truthy, else the admin, and it is truthy iff one of the two is |
| UserStore.Store.InitUserState | frontend/src/stores/user.js:20-44 | loads the cookie token; each present stored entry is assigned whatever `JSON.parse` returns, a profile or any other JSON value, with `null` unsetting the field, and is kept; only an entry on which the parse throws is removed |
| UserStore.LoadPlainEntries | frontend/src/stores/user.js:29-43 | a stored admin of `1` is kept and makes the session an admin one showing `1`; a stored user of `null` leaves the user unset |
| UserStore.Store.Login | frontend/src/stores/user.js:47-65 | on success token and user are set, admin cleared, the cookie and `user` written and `admin` removed; a failure changes nothing |
| UserStore.Store.RegisterAsWritten | frontend/src/stores/user.js:68-85 | as written, a stored `admin` entry survives a register |
| UserStore.Store.Register | frontend/src/stores/user.js:68-85 | corrected: like login, the stored `admin` entry is removed |
| UserStore.Store.AdminLogin | frontend/src/stores/user.js:88-106 | on success token and admin are set, user cleared, `admin` written and `user` removed |
| UserStore.Store.ClearAuth | frontend/src/stores/user.js:120-129 | token, user and admin become null; the cookie and both stored entries are removed |
| UserStore.Store.Logout | frontend/src/stores/user.js:109-117 | ends with token, user and admin null and the cookie and stored entries removed; the server call's outcome plays no part |
| UserStore.Store.UpdateUser | frontend/src/stores/user.js:132-137 | nothing happens unless the user is truthy; otherwise the user becomes the spread of the old one and the new values, the new values winning and the old keys staying, and is written back to storage |
| UserStore.Store.UpdateAdmin | frontend/src/stores/user.js:140-145 | the same for the admin, with the stored `admin` entry |
| UserStore.Reload | frontend/src/stores/user.js:20-44 | reloading storage that never holds both profiles never loads both |
| UserStore.StaleAdminAfterRegister | frontend/src/stores/user.js:68-85 | as written, admin login then register then reload loads both a user and an admin |
| UserStore.RegisterAfterAdminLeavesUserOnly | frontend/src/stores/user.js:68-85 | corrected, the same sequence loads the user only |
| Router.MergeMeta | frontend/src/router/index.js:59-124 | a child's `meta` keys override its parent's, and the parent's fill in the rest |
| Router.ChildRoutes | frontend/src/router/index.js:65-84 | each child route is the parent path + `/` + the child path, with the merged meta |
| Router.ChildrenInheritGuards | frontend/src/router/index.js:59-124 | a child of a guarded layout is guarded too unless it sets the flag itself |
| Router.RecordsInTable | frontend/src/router/index.js:4-137 | every top-level record is a route with its own meta |
| Router.PaymentGuardedOrderDetailOpen | frontend/src/router/index.js:29-40 | the payment page requires a login; the order-detail page does not |
| Router.AdminPagesGuarded | frontend/src/router/index.js:86-124 | every admin page requires a login and an admin |
| Router.UserPagesGuarded | frontend/src/router/index.js:59-85 | every user-centre page requires a login and no admin |
| Router.RedirectTargetsOpen | frontend/src/router/index.js:5-52 | Home, Login and Admin Login need no login, so a redirect is not redirected again |
| Router.BeforeEach | frontend/src/router/index.js:152-175 | a titled route sets the title with the site suffix; a guarded route goes to Login with `redirect` when logged out, or Home for a non-admin on an admin route; all else proceeds |
| Router.ScrollTarget | frontend/src/router/index.js:142-148 | the saved position when there is one, else the top |
| ApiClient.AttachToken | frontend/src/api/index.js:14-25 | with a token cookie the `Authorization` header becomes `'Bearer '` + token, which the server reads back as that token; otherwise headers are unchanged |
| ApiClient.MessageOr | frontend/src/api/index.js:35-36 | a truthy message is used, else the fallback |
| ApiClient.Unwrap | frontend/src/api/index.js:29-38 | a truthy `success` resolves to data and message; otherwise a rejection with the message or `'请求失败'` |
| ApiClient.OnError | frontend/src/api/index.js:39-67 | fixed messages for 401/403/404/500, else the server message or `'请求失败'`; no response gives timeout or network; a 401 also clears auth and goes to Login; always rejects with the error |
| ApiClient.FixedStatusesOverrideServer | frontend/src/api/index.js:46-56 | for the four fixed statuses the server's message is ignored |
| ApiClient.ErrorMessageNonEmpty | frontend/src/api/index.js:40-62 | every failed request shows a non-empty message |
| ApiClient.ServerMessageReachesVisitor | frontend/src/api/index.js:56-58 | any error the backend's handler answers with a non-fixed status shows the server's message to the visitor |

## Left out

- Sequelize, MySQL and transactions: tables are sequences in `Database.Db`. A rollback is modelled as "no table changes on failure". Associations are lookups by key.
- Concurrency and locking: every operation is one atomic step. The source has no locking, and races are not modelled.
- bcrypt `hashPassword`/`comparePassword`, JWT `generateToken`/`jwt.verify`, MD5, `generateRandomString` and `generateApiKey` (helpers.js:25-38, 104-106): cryptography, modelled as parameters.
- `Date.now`, `new Date()` and `Math.random`: they are parameters.
- `formatAmount`/`parseAmount` (helpers.js:89-96) and `parseFloat(...).toFixed(2)`: floating point. Money is integer cents.
- `sleep` (helpers.js:99-101): a timer with no logic.
- `getClientIP` (helpers.js:65-70) and the request's IP and user agent: I/O, taken as inputs.
- `requestLogger` (logger.js:4-30): console output only.
- ErrorHandler.Handle: the `console.error` record of a 5xx error (errorHandler.js:32-41) is console output and is not modelled, and neither is the `stack` field that the body carries only when `NODE_ENV` is `development` (errorHandler.js:47-49).
- `getMethods` (paymentController.js:7-21): it filters a TINYINT column by the string `'active'` in SQL. The result depends on MySQL's type coercion.
- QR-code generation, `generateQRCode` and the HTML of the two payment pages: UI output. Only the guard in front of them is modelled.
- `parseInt` of query strings: page, limit and filters arrive as integers, so NaN is not modelled.
- SQL `LIKE` wildcards and case-insensitive collation: search is plain substring containment.
- Rows with equal sort keys: `Query.SortBy` is stable, so ties keep table order. MySQL's `ORDER BY` with `LIMIT`/`OFFSET` returns ties in any order, so each listing is one of the results the database may give.
- Equality lookups compare strings exactly. The connection's `utf8mb4_unicode_ci` collation (config/database.js:26) also matches a value that differs in letter case or in trailing spaces. Unicode collation is not modelled, so the lines below name what each lookup then misses. The unique indexes that `Database.Db.Valid` states are exact in the same way.
- AccountModel.UserIndexByName: a username is found only when it is exactly equal; the source also finds "alice" for "ALICE" or "alice ".
- AccountModel.AdminIndexByName: the same exact match over admin usernames.
- AccountModel.EmailTaken: the same exact match over e-mail addresses.
- AuthController.SignUp: with "alice" registered, a registration as "Alice" succeeds in the model, while the source answers 409 `用户名已存在`; the same holds for an e-mail that differs only in case.
- AuthController.SignIn: a login as "ALICE" answers 401 in the model, while the source signs in alice.
- AuthController.AdminSignIn: the same for admin logins.
- OrderModel.FindOrderByNo: an order number with trailing spaces finds no order in the model, while the collation finds the order.
- PaymentModel.PaymentIndex: a payment number with a lower-cased tag or trailing spaces finds no payment in the model, while the collation finds the payment.
- String length limits of the schema columns are not modelled.
- Request fields of the wrong JavaScript type: a typed field cannot hold a
  fractional `quantity` such as 1.5, a `quantity` of `null` (which the source refuses with 400, because `null <= 0` holds), a numeric `username`, or a number sent as
  a string that Sequelize would coerce. The model covers only well-typed bodies.
- AuthController.SignUp: the password's `length` is counted in characters, while JavaScript counts UTF-16 code units; a password of three emoji such as "😀😀😀" has length 6 in the source and 3 in the model.
- AuthController.PasswordCheck: the same character count for the new password's minimum length.
- AuthController.ResetPassword: the same character count for the reset password's minimum length.
- Helpers.MaskValue: the same character count decides how many characters are kept and masked, so a value with characters outside the Basic Multilingual Plane is masked by characters, not code units.
- `JSON.parse` of a payment method's `config` column: the config is a record of strings.
- UserStore.Store.UpdateUser: when the user loaded from storage is a truthy plain value, the model spreads nothing from it, which is what `{ ...v }` does for a number or `true`; for a string or an array the source also copies its characters or elements under index keys.
- UserStore.Store.UpdateAdmin: the same for a plain admin value.
- The frontend endpoint table (api/index.js:71-154): constant URL strings.
- Toasts (`ElMessage`): the shown message is returned instead.
- vue-router's URL matching, lazy imports and layout `redirect`s: a navigation target is given as the matched route.
- Cookie expiry (7 days) is not modelled.
- The `routes/*.js` wiring is not modelled. `routes/orders.js` attaches no auth middleware, so `getOrderDetail` takes the viewer as a parameter.
- Several fields the payment controller reads or writes are missing from their schemas:
  - `Payment` lacks `payment_method_id`, `notify_url`, `return_url`, `expires_at`, `payment_data` and `transaction_id`;
  - `PaymentMethod` lacks `type`;
  - `Order` lacks `paid_at`.
  The model gives `Payment` and `PaymentMethod` these fields, as the controller evidently intends.
  `Order` gets no `paid_at`: Sequelize drops an attribute its model does not define,
  so `HandleNotify` changes only the order's `status`.
- The payment controller calls its generators through `this`, which is unbound when Express invokes the extracted method. The model calls them directly.
- The schema-only models User, Admin, Category, Log and OrderDetail contribute only the fields the controllers use. Article, Setting and BalanceRecord are not part of this model.
- `{:induction false}` lemmas over the route table are stated over indices of `Routes` rather than over literal path strings, to keep the constant table from being unfolded.

## Findings

| source | as written | input that shows it | evidently intended | confidence | as-written member | corrected member |
|---|---|---|---|---|---|---|
| backend/src/controllers/paymentController.js:46 | a method is refused when `status !== 'active'`, but the column is a 1/0 TINYINT | an enabled method, status 1 | refuse when status is not 1 | not executed | PaymentController.AsWrittenNoMethodUsable | PaymentController.CheckPaymentIff |
| backend/src/controllers/paymentController.js:54 | the amount is compared with `order.total_price`, which orders do not have (the column is `total_amount`) | an order with total 1998 cents and amount 1998 | compare with `total_amount` | not executed | PaymentController.AsWrittenEveryAmountMismatches | PaymentController.CheckPayment |
| backend/src/controllers/paymentController.js:29-59 | with both guards above, no request is ever accepted | any request | valid requests store a payment | not executed | PaymentController.AsWrittenNeverAccepts | PaymentController.CheckPaymentIff |
| backend/src/controllers/paymentController.js:65-74 | `Payment.create` gives no `payment_method`, a NOT NULL column without a default (Payment.js:24-28), so the insert fails validation and the client gets 400 | any request that passes the guards | store the method's code as `payment_method` | not executed | PaymentController.AsWrittenInsertRejected | PaymentController.OpenPayment |
| backend/src/controllers/paymentController.js:346 | a success notification writes the status `'paid'`, which is outside the Payment status enum; Sequelize does not check ENUM values, so MySQL in strict mode rejects the update and otherwise stores `''` | a notification with status `success` | store `'success'` | not executed | PaymentController.NotifyAsWrittenLeavesEnum | PaymentController.NotifiedStatus |
| backend/src/controllers/authController.js:275-290 | the comment says the answer must not reveal whether the email exists, yet the two branches return different messages | one registered and one unknown email | return the same message | not executed | AuthController.AsWrittenRevealsAccount | AuthController.ForgotPasswordHidesAccount |
| backend/src/middleware/auth.js:15-23 | `auth('admin')` looks the token's id up in the admin table without reading the token's `type` claim | user 1 and admin 1 both active; user 1's token passes `auth('admin')` | tokens of type `user` are refused where an admin is required | not executed | AuthMiddleware.AsWrittenUserTokenPassesAsAdmin | AuthMiddleware.Authenticate |
| backend/src/middleware/auth.js:51-56 | `optionalAuth` attaches the user whose id an admin's token carries | admin 1's token, user 1 active | only tokens of type `user` attach a user | not executed | AuthMiddleware.AsWrittenAdminTokenActsAsUser | AuthMiddleware.OptionalAuth |
| frontend/src/stores/user.js:78-79 | `register` writes the stored `user` but, unlike `login`, leaves a stored `admin` | admin login, then register, then reload | remove the stored `admin` too | not executed | UserStore.StaleAdminAfterRegister | UserStore.RegisterAfterAdminLeavesUserOnly |
