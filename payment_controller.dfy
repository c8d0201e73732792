/**
 * The payment controller (backend/src/controllers/paymentController.js):
 * opening a payment for an order, the provider parameters it stores, the two
 * payment pages, the status query and the provider's notification.
 */
module PaymentController {
  import opened Wrappers
  import opened Strings
  import opened Js
  import opened Money
  import opened Errors
  import opened ErrorHandler
  import opened OrderModel
  import opened PaymentModel
  import opened PaymentMethodModel
  import opened Database

  /** The request body of `createPayment`; ids may be absent, `amount` is whatever JSON value was sent. */
  datatype PaymentRequest = PaymentRequest(
    orderId: Option<int>, paymentMethodId: Option<int>, amount: JsValue,
    notifyUrl: Option<string>, returnUrl: Option<string>)

  /** `Order.findByPk(order_id)`, as the row's position. */
  function LookupOrder(orders: seq<Order>, id: Option<int>): (r: Option<nat>)
    ensures r.Some? ==> r.value < |orders| && id == Some(orders[r.value].id as int)
    ensures r.None? ==> forall i :: 0 <= i < |orders| ==> id != Some(orders[i].id as int)
  {
    if id.None? || id.value < 0 then None else OrderIndex(orders, id.value)
  }

  /** `PaymentMethod.findByPk(payment_method_id)`. */
  function LookupMethod(methods: seq<PaymentMethod>, id: Option<int>): (r: Option<PaymentMethod>)
    ensures r.Some? ==> r.value in methods && id == Some(r.value.id as int)
    ensures r.None? ==> forall i :: 0 <= i < |methods| ==> id != Some(methods[i].id as int)
  {
    if id.None? || id.value < 0 then None else FindMethod(methods, id.value)
  }

  /** The order and method a payment request passed its guards with. */
  datatype Checked = Checked(order: Order, payMethod: PaymentMethod)

  const OrderMissing := ApiError(404, "订单不存在")
  const OrderNotPayable := ApiError(400, "订单状态异常，无法支付")
  const MethodUnavailable := ApiError(404, "支付方式不可用")
  const AmountMismatch := ApiError(400, "支付金额与订单金额不匹配")

  // -------------------------------------------------------------------------
  // The guards as written

  /** `paymentMethod.status !== 'active'` is always true: the column holds the number 1 or 0. */
  predicate MethodUsableAsWritten(m: PaymentMethod) {
    StrictEquals(Num(m.status), Str("active"))
  }

  /** `amount !== order.total_price` reads a property orders do not have, i.e. `undefined`. */
  predicate AmountMatchesAsWritten(amount: JsValue) {
    StrictEquals(amount, Undefined)
  }

  function CheckPaymentAsWritten(orders: seq<Order>, methods: seq<PaymentMethod>, body: PaymentRequest)
    : (r: Result<Checked, ApiError>)
    ensures r.Failure? ==> r.error in {OrderMissing, OrderNotPayable, MethodUnavailable, AmountMismatch}
  {
    match LookupOrder(orders, body.orderId)
    case None => Failure(OrderMissing)
    case Some(i) =>
      if orders[i].status != Pending then Failure(OrderNotPayable)
      else match LookupMethod(methods, body.paymentMethodId)
        case None => Failure(MethodUnavailable)
        case Some(m) =>
          if !MethodUsableAsWritten(m) then Failure(MethodUnavailable)
          else if !AmountMatchesAsWritten(body.amount) then Failure(AmountMismatch)
          else Success(Checked(orders[i], m))
  }

  /** No method passes the status test as written, not even an enabled one. */
  lemma AsWrittenNoMethodUsable(m: PaymentMethod)
    ensures !MethodUsableAsWritten(m)
  {
    NumberNeverEqualsString(m.status, "active");
  }

  /** As written, every number sent as the amount is a mismatch, including the order's own total. */
  lemma AsWrittenEveryAmountMismatches(o: Order, amount: int)
    ensures !AmountMatchesAsWritten(Num(amount))
    ensures !AmountMatchesAsWritten(Num(o.totalAmount))
  {
  }

  /** As written, `createPayment` therefore never gets past its guards: it stores no payment for any input. */
  lemma AsWrittenNeverAccepts(orders: seq<Order>, methods: seq<PaymentMethod>, body: PaymentRequest)
    ensures CheckPaymentAsWritten(orders, methods, body).Failure?
  {
    match LookupMethod(methods, body.paymentMethodId)
    case None =>
    case Some(m) => AsWrittenNoMethodUsable(m);
  }

  // -------------------------------------------------------------------------
  // The guards as intended

  /** The method is enabled: status 1. */
  predicate MethodUsable(m: PaymentMethod) {
    IsEnabled(m)
  }

  /** The amount sent is the order's `total_amount`, exactly, in cents. */
  predicate AmountMatches(amount: JsValue, o: Order) {
    amount == Num(o.totalAmount)
  }

  /**
   * The guards in source order, the first failure winning: the order must
   * exist and be pending, the method must exist and be enabled, and the
   * amount must equal the order total with no tolerance.
   */
  function CheckPayment(orders: seq<Order>, methods: seq<PaymentMethod>, body: PaymentRequest)
    : (r: Result<Checked, ApiError>)
    ensures LookupOrder(orders, body.orderId).None? ==> r == Failure(OrderMissing)
    ensures LookupOrder(orders, body.orderId).Some? ==>
      var o := orders[LookupOrder(orders, body.orderId).value];
      var m := LookupMethod(methods, body.paymentMethodId);
      if o.status != Pending then r == Failure(OrderNotPayable)
      else if m.None? || !MethodUsable(m.value) then r == Failure(MethodUnavailable)
      else if !AmountMatches(body.amount, o) then r == Failure(AmountMismatch)
      else r == Success(Checked(o, m.value))
  {
    match LookupOrder(orders, body.orderId)
    case None => Failure(OrderMissing)
    case Some(i) =>
      if orders[i].status != Pending then Failure(OrderNotPayable)
      else match LookupMethod(methods, body.paymentMethodId)
        case None => Failure(MethodUnavailable)
        case Some(m) =>
          if !MethodUsable(m) then Failure(MethodUnavailable)
          else if !AmountMatches(body.amount, orders[i]) then Failure(AmountMismatch)
          else Success(Checked(orders[i], m))
  }

  /** The request is accepted exactly when all four conditions hold. */
  lemma CheckPaymentIff(orders: seq<Order>, methods: seq<PaymentMethod>, body: PaymentRequest)
    ensures CheckPayment(orders, methods, body).Success? <==>
      && LookupOrder(orders, body.orderId).Some?
      && orders[LookupOrder(orders, body.orderId).value].status == Pending
      && LookupMethod(methods, body.paymentMethodId).Some?
      && MethodUsable(LookupMethod(methods, body.paymentMethodId).value)
      && AmountMatches(body.amount, orders[LookupOrder(orders, body.orderId).value])
    ensures CheckPayment(orders, methods, body).Success? ==>
      var c := CheckPayment(orders, methods, body).value;
      c.order.status == Pending && IsEnabled(c.payMethod) && body.amount == Num(c.order.totalAmount)
  {
  }

  // -------------------------------------------------------------------------
  // Payment number and expiry

  predicate IsBase36Digit(c: char) {
    '0' <= c <= '9' || 'a' <= c <= 'z'
  }

  predicate IsUpperBase36Digit(c: char) {
    '0' <= c <= '9' || 'A' <= c <= 'Z'
  }

  /** `Math.random().toString(36).substr(2, 6).toUpperCase()`, given the digits after "0.". */
  function RandomTag(digits: string): (t: string)
    requires forall i :: 0 <= i < |digits| ==> IsBase36Digit(digits[i])
    ensures |t| <= 6 && |t| == if |digits| < 6 then |digits| else 6
    ensures forall i :: 0 <= i < |t| ==> IsUpperBase36Digit(t[i]) && t[i] == UpperChar(digits[i])
  {
    var taken := if |digits| < 6 then digits else digits[..6];
    var t := Upper(taken);
    forall i | 0 <= i < |t|
      ensures IsUpperBase36Digit(t[i]) && t[i] == UpperChar(digits[i])
    {
      assert taken[i] == digits[i];
      assert IsBase36Digit(digits[i]);
    }
    t
  }

  /** `'P' + Date.now() + <tag>`. */
  function PaymentNo(now: nat, digits: string): (no: string)
    requires forall i :: 0 <= i < |digits| ==> IsBase36Digit(digits[i])
    ensures no == "P" + NatToString(now) + RandomTag(digits)
    ensures 1 + NumDigits(now) <= |no| <= 7 + NumDigits(now)
  {
    "P" + NatToString(now) + RandomTag(digits)
  }

  /** The timestamp can be read back from a payment number. */
  lemma PaymentNoNamesTime(now: nat, digits: string)
    requires forall i :: 0 <= i < |digits| ==> IsBase36Digit(digits[i])
    ensures var no := PaymentNo(now, digits);
      no[0] == 'P' && AllDigits(no[1..1 + NumDigits(now)]) && ParseNat(no[1..1 + NumDigits(now)]) == now
  {
    var no := PaymentNo(now, digits);
    assert no[1..1 + NumDigits(now)] == NatToString(now);
    ParseNatToString(now);
  }

  /** Thirty minutes, in milliseconds. */
  const PaymentLifetime := 30 * 60 * 1000

  function ExpiresAt(now: nat): (t: nat)
    ensures t == now + 1_800_000 && t > now
  {
    now + PaymentLifetime
  }

  // -------------------------------------------------------------------------
  // Provider parameters

  /** The key=value pairs joined by '&', the layout of a provider's signed string. */
  function QueryString(pairs: seq<(string, string)>): string {
    Join(seq(|pairs|, i requires 0 <= i < |pairs| => Pair(pairs[i])), "&")
  }

  function Pair(kv: (string, string)): string {
    kv.0 + "=" + kv.1
  }

  /** Joining six pairs spelled out. */
  lemma {:induction false} QueryStringOfSix(pairs: seq<(string, string)>)
    requires |pairs| == 6
    ensures QueryString(pairs) ==
      Pair(pairs[0]) + "&" + Pair(pairs[1]) + "&" + Pair(pairs[2]) + "&" + Pair(pairs[3]) + "&" + Pair(pairs[4])
        + "&" + Pair(pairs[5])
  {
    var kv := seq(|pairs|, i requires 0 <= i < |pairs| => Pair(pairs[i]));
    assert kv[..1] == [kv[0]];
    assert Join(kv[..1], "&") == kv[0];
    JoinSnoc(kv[..1], kv[1], "&");
    assert kv[..2] == kv[..1] + [kv[1]];
    JoinSnoc(kv[..2], kv[2], "&");
    assert kv[..3] == kv[..2] + [kv[2]];
    JoinSnoc(kv[..3], kv[3], "&");
    assert kv[..4] == kv[..3] + [kv[3]];
    JoinSnoc(kv[..4], kv[4], "&");
    assert kv[..5] == kv[..4] + [kv[4]];
    JoinSnoc(kv[..5], kv[5], "&");
    assert kv == kv[..5] + [kv[5]];
  }

  /**
   * The fields the WeChat signature covers, in the order the source writes
   * them: appId, nonceStr, package, signType, timeStamp, then the merchant key.
   */
  function WechatSignedPairs(appId: string, nonceStr: string, paymentNo: string, timeStamp: string, key: string)
    : seq<(string, string)>
  {
    [("appId", appId), ("nonceStr", nonceStr), ("package", "prepay_id=" + paymentNo),
     ("signType", "MD5"), ("timeStamp", timeStamp), ("key", key)]
  }

  /** The WeChat string to sign: `appId=..&nonceStr=..&package=prepay_id=..&signType=MD5&timeStamp=..&key=..`. */
  function WechatSignString(appId: string, nonceStr: string, paymentNo: string, timeStamp: string, key: string): string {
    QueryString(WechatSignedPairs(appId, nonceStr, paymentNo, timeStamp, key))
  }

  /** The sign string spelled out field by field. */
  lemma WechatSignStringLayout(appId: string, nonceStr: string, paymentNo: string, timeStamp: string, key: string)
    ensures WechatSignString(appId, nonceStr, paymentNo, timeStamp, key) ==
      Pair(("appId", appId)) + "&" + Pair(("nonceStr", nonceStr)) + "&" + Pair(("package", "prepay_id=" + paymentNo))
        + "&" + Pair(("signType", "MD5")) + "&" + Pair(("timeStamp", timeStamp)) + "&" + Pair(("key", key))
  {
    QueryStringOfSix(WechatSignedPairs(appId, nonceStr, paymentNo, timeStamp, key));
  }

  /** Strict ASCII order on strings. */
  predicate StrLess(a: string, b: string) {
    if a == [] then b != []
    else if b == [] then false
    else if a[0] != b[0] then a[0] < b[0]
    else StrLess(a[1..], b[1..])
  }

  /**
   * The five signed parameter names come in ascending ASCII order and the key
   * comes last, as WeChat Pay's MD5 signature requires.
   */
  lemma WechatNamesAscending(appId: string, nonceStr: string, paymentNo: string, timeStamp: string, key: string)
    ensures var pairs := WechatSignedPairs(appId, nonceStr, paymentNo, timeStamp, key);
      && |pairs| == 6
      && (forall i :: 0 <= i < 4 ==> StrLess(pairs[i].0, pairs[i + 1].0))
      && pairs[5] == ("key", key)
  {
    var pairs := WechatSignedPairs(appId, nonceStr, paymentNo, timeStamp, key);
    assert StrLess("appId", "nonceStr") && StrLess("nonceStr", "package");
    assert StrLess("package", "signType") && StrLess("signType", "timeStamp");
    forall i | 0 <= i < 4
      ensures StrLess(pairs[i].0, pairs[i + 1].0)
    {
      if i == 0 { assert pairs[0].0 == "appId" && pairs[1].0 == "nonceStr"; }
      else if i == 1 { assert pairs[1].0 == "nonceStr" && pairs[2].0 == "package"; }
      else if i == 2 { assert pairs[2].0 == "package" && pairs[3].0 == "signType"; }
      else { assert pairs[3].0 == "signType" && pairs[4].0 == "timeStamp"; }
    }
  }

  /**
   * `generateWechatPayment`'s parameters. `nonce` stands for the random
   * string, `md5Hex` for the MD5 digest in hex; the time stamp is in seconds.
   */
  function WechatParamsFor(paymentNo: string, config: MethodConfig, now: nat, nonce: string, md5Hex: string -> string)
    : (w: WechatParams)
    ensures w.appId == config.appId && w.nonceStr == nonce && w.timeStamp == NatToString(now / 1000)
    ensures w.package == "prepay_id=" + paymentNo && w.signType == "MD5"
    ensures w.paySign == Upper(md5Hex(WechatSignString(config.appId, nonce, paymentNo, NatToString(now / 1000), config.key)))
  {
    var ts := NatToString(now / 1000);
    WechatParams(config.appId, ts, nonce, "prepay_id=" + paymentNo, "MD5",
                 Upper(md5Hex(WechatSignString(config.appId, nonce, paymentNo, ts, config.key))))
  }

  /** `generateAlipayPayment`'s parameters; `timestamp` is the clock reading as "YYYY-MM-DD HH:MM:SS". */
  function AlipayParamsFor(paymentNo: string, amount: int, config: MethodConfig, timestamp: string): (a: AlipayParams)
    ensures a.outTradeNo == paymentNo && a.subject == "订单支付 - " + paymentNo
    ensures a.totalAmount == CentsText(amount)
    ensures a.apiMethod == "alipay.trade.precreate" && a.charset == "utf-8" && a.signType == "RSA2" && a.version == "1.0"
    ensures a.appId == config.appId && a.timestamp == timestamp
  {
    AlipayParams(config.appId, "alipay.trade.precreate", "utf-8", "RSA2", timestamp, "1.0",
                 paymentNo, CentsText(amount), "订单支付 - " + paymentNo)
  }

  /** The Alipay request names the payment and its exact amount. */
  lemma AlipayNamesPayment(paymentNo: string, amount: int, config: MethodConfig, timestamp: string)
    ensures AlipayParamsFor(paymentNo, amount, config, timestamp).outTradeNo == paymentNo
    ensures ParseCentsText(AlipayParamsFor(paymentNo, amount, config, timestamp).totalAmount) == Some(amount)
  {
    CentsTextRoundTrip(amount);
  }

  /** The page a method type's payment is paid on; other types get none. */
  function PaymentUrl(methodType: string, paymentNo: string): (u: Option<string>)
    ensures methodType == "wechat" ==> u == Some("/payment/wechat/" + paymentNo)
    ensures methodType == "alipay" ==> u == Some("/payment/alipay/" + paymentNo)
    ensures methodType != "wechat" && methodType != "alipay" ==> u.None?
  {
    if methodType == "wechat" then Some("/payment/wechat/" + paymentNo)
    else if methodType == "alipay" then Some("/payment/alipay/" + paymentNo)
    else None
  }

  /** A payment URL names exactly one payment: the number is what follows the page's prefix. */
  lemma PaymentUrlInjective(methodType: string, no1: string, no2: string)
    requires PaymentUrl(methodType, no1).Some? && PaymentUrl(methodType, no1) == PaymentUrl(methodType, no2)
    ensures no1 == no2
  {
    var p := if methodType == "wechat" then "/payment/wechat/" else "/payment/alipay/";
    assert (p + no1)[|p|..] == no1 && (p + no2)[|p|..] == no2;
  }

  /** The parameters stored in `payment_data` for a method type; other types store nothing. */
  function PaymentDataFor(m: PaymentMethod, paymentNo: string, amount: int, now: nat, nonce: string,
                          alipayTimestamp: string, md5Hex: string -> string): (d: Option<PaymentData>)
    ensures m.methodType == "wechat" ==> d == Some(WechatData(WechatParamsFor(paymentNo, m.config, now, nonce, md5Hex)))
    ensures m.methodType == "alipay" ==> d == Some(AlipayData(AlipayParamsFor(paymentNo, amount, m.config, alipayTimestamp)))
    ensures d.None? <==> PaymentUrl(m.methodType, paymentNo).None?
  {
    if m.methodType == "wechat" then Some(WechatData(WechatParamsFor(paymentNo, m.config, now, nonce, md5Hex)))
    else if m.methodType == "alipay" then Some(AlipayData(AlipayParamsFor(paymentNo, amount, m.config, alipayTimestamp)))
    else None
  }

  // -------------------------------------------------------------------------
  // createPayment

  /** The stored payment and the URL returned for it. */
  datatype PaymentCreated = PaymentCreated(payment: Payment, paymentUrl: Option<string>)

  /** The error of a second row with the same `payment_no`. */
  const DuplicatePaymentNo := Other(UniqueName, [ItemError("payment_no must be unique", "payment_no")])

  predicate PaymentNoTaken(payments: seq<Payment>, no: string) {
    exists i :: 0 <= i < |payments| && payments[i].paymentNo == no
  }

  /**
   * What Sequelize's `notNull` validation throws before the insert when the
   * row leaves out `payment_method`, which is NOT NULL and has no default.
   */
  const PaymentMethodNullMessage := "Payment.payment_method cannot be null"
  const PaymentMethodNull := Other(ValidationName, [ItemError(PaymentMethodNullMessage, "payment_method")])

  /**
   * `createPayment` with its `Payment.create` call as written: the attributes
   * name `payment_method_id` but not `payment_method`, so model validation
   * rejects every row before it reaches the table. (The guards here are the
   * corrected ones, so that this defect is seen on its own.)
   */
  function OpenPaymentAsWritten(orders: seq<Order>, methods: seq<PaymentMethod>, body: PaymentRequest)
    : (r: Result<PaymentCreated, Thrown>)
    ensures CheckPayment(orders, methods, body).Failure? ==> r == Failure(Api(CheckPayment(orders, methods, body).error))
  {
    match CheckPayment(orders, methods, body)
    case Failure(e) => Failure(Api(e))
    case Success(_) => Failure(PaymentMethodNull)
  }

  /**
   * As written, no request stores a payment: one that passes the guards is
   * answered 400 with the validation message for `payment_method`.
   */
  lemma AsWrittenInsertRejected(orders: seq<Order>, methods: seq<PaymentMethod>, body: PaymentRequest)
    ensures OpenPaymentAsWritten(orders, methods, body).Failure?
    ensures CheckPayment(orders, methods, body).Success? ==>
      var resp := Handle(OpenPaymentAsWritten(orders, methods, body).error);
      resp.status == 400 && resp.message == ValidationPrefix + PaymentMethodNullMessage
  {
    if CheckPayment(orders, methods, body).Success? {
      assert OpenPaymentAsWritten(orders, methods, body).error == PaymentMethodNull;
      SingleValidationMessage(PaymentMethodNullMessage, "payment_method");
    }
  }

  /**
   * `createPayment` as a decision on the tables: the guards, then one pending
   * payment for the order's total, expiring 30 minutes after `now`, with the
   * provider parameters for the method's type.
   */
  function OpenPayment(orders: seq<Order>, methods: seq<PaymentMethod>, payments: seq<Payment>, body: PaymentRequest,
                       now: nat, digits: string, nonce: string, alipayTimestamp: string, md5Hex: string -> string)
    : (r: Result<PaymentCreated, Thrown>)
    requires forall i :: 0 <= i < |digits| ==> IsBase36Digit(digits[i])
    ensures CheckPayment(orders, methods, body).Failure? ==> r == Failure(Api(CheckPayment(orders, methods, body).error))
    ensures CheckPayment(orders, methods, body).Success? && PaymentNoTaken(payments, PaymentNo(now, digits)) ==>
      r == Failure(DuplicatePaymentNo)
    ensures r.Success? ==>
      var c := CheckPayment(orders, methods, body).value;
      var p := r.value.payment;
      && CheckPayment(orders, methods, body).Success?
      && p.status == PaymentPending && p.status == DefaultPaymentStatus
      && p.orderId == c.order.id && p.paymentMethodId == c.payMethod.id && p.amount == c.order.totalAmount
      && p.paymentMethod == c.payMethod.code
      && p.paymentNo == PaymentNo(now, digits) && !PaymentNoTaken(payments, p.paymentNo)
      && p.id == MaxPaymentId(payments) + 1
      && p.expiresAt == now + 1_800_000 && p.createdAt == now
      && p.fee == 0 && p.tradeNo.None? && p.paidAt.None? && p.transactionId.None?
      && p.notifyUrl == body.notifyUrl && p.returnUrl == body.returnUrl
      && p.paymentData == PaymentDataFor(c.payMethod, p.paymentNo, p.amount, now, nonce, alipayTimestamp, md5Hex)
      && r.value.paymentUrl == PaymentUrl(c.payMethod.methodType, p.paymentNo)
  {
    match CheckPayment(orders, methods, body)
    case Failure(e) => Failure(Api(e))
    case Success(c) =>
      var no := PaymentNo(now, digits);
      if PaymentNoTaken(payments, no) then Failure(DuplicatePaymentNo)
      else
        var amount := c.order.totalAmount;
        var p := Payment(MaxPaymentId(payments) + 1, c.order.id, no, None, c.payMethod.code, amount, 0, PaymentPending, None, now, now,
                         c.payMethod.id, body.notifyUrl, body.returnUrl, ExpiresAt(now),
                         PaymentDataFor(c.payMethod, no, amount, now, nonce, alipayTimestamp, md5Hex), None);
        Success(PaymentCreated(p, PaymentUrl(c.payMethod.methodType, no)))
  }

  /** Appending a payment with a fresh number and a fresh id keeps both unique. */
  lemma AppendKeepsPaymentsUnique(payments: seq<Payment>, p: Payment)
    requires !PaymentNoTaken(payments, p.paymentNo) && p.id > MaxPaymentId(payments)
    ensures UniquePaymentNos(payments) ==> UniquePaymentNos(payments + [p])
    ensures UniquePaymentIds(payments) ==> UniquePaymentIds(payments + [p])
  {
    var all := payments + [p];
    forall i | 0 <= i < |payments|
      ensures all[i].paymentNo != p.paymentNo && all[i].id != p.id
    {
      assert all[i] == payments[i];
    }
  }

  /**
   * `createPayment`: exactly one payment is stored on success, none on
   * failure; orders, methods and everything else are left alone.
   */
  method CreatePayment(db: Db, body: PaymentRequest, now: nat, digits: string, nonce: string,
                       alipayTimestamp: string, md5Hex: string -> string)
    returns (r: Result<PaymentCreated, Thrown>)
    requires forall i :: 0 <= i < |digits| ==> IsBase36Digit(digits[i])
    modifies db`payments
    ensures r == OpenPayment(old(db.orders), old(db.methods), old(db.payments), body, now, digits, nonce, alipayTimestamp, md5Hex)
    ensures r.Success? ==> db.payments == old(db.payments) + [r.value.payment]
    ensures r.Failure? ==> db.payments == old(db.payments)
    ensures old(db.Valid()) ==> db.Valid()
  {
    r := OpenPayment(db.orders, db.methods, db.payments, body, now, digits, nonce, alipayTimestamp, md5Hex);
    if r.Success? {
      AppendKeepsPaymentsUnique(db.payments, r.value.payment);
      db.payments := db.payments + [r.value.payment];
    }
  }

  // -------------------------------------------------------------------------
  // Payment pages and status

  const PageUnavailable := ApiError(404, "支付订单不存在或已过期")

  /** `payment.return_url || '/orders'`. */
  function ReturnUrl(p: Payment): (u: string)
    ensures u != ""
    ensures p.returnUrl.Some? && p.returnUrl.value != "" ==> u == p.returnUrl.value
  {
    if p.returnUrl.Some? && p.returnUrl.value != "" then p.returnUrl.value else "/orders"
  }

  /** What a payment page is rendered from. */
  datatype PageData = PageData(payment: Payment, paymentData: Option<PaymentData>, returnUrl: string)

  /**
   * The guard shared by `wechatPaymentPage` and `alipayPaymentPage`: the page
   * exists only for a pending payment.
   */
  function PaymentPage(payments: seq<Payment>, paymentNo: string): (r: Result<PageData, ApiError>)
    ensures r.Failure? ==> r.error == PageUnavailable
    ensures r.Success? ==>
      && r.value.payment in payments && r.value.payment.paymentNo == paymentNo
      && r.value.payment.status == PaymentPending
      && r.value.paymentData == r.value.payment.paymentData
      && r.value.returnUrl == ReturnUrl(r.value.payment)
    ensures (forall i :: 0 <= i < |payments| && payments[i].paymentNo == paymentNo ==>
              payments[i].status != PaymentPending) ==> r.Failure?
  {
    match PaymentIndex(payments, paymentNo)
    case None => Failure(PageUnavailable)
    case Some(i) =>
      var p := payments[i];
      if p.status != PaymentPending then Failure(PageUnavailable)
      else Success(PageData(p, p.paymentData, ReturnUrl(p)))
  }

  /** With unique payment numbers, a page is served exactly when the payment exists and is pending. */
  lemma PaymentPageIff(payments: seq<Payment>, paymentNo: string)
    requires UniquePaymentNos(payments)
    ensures PaymentPage(payments, paymentNo).Success? <==>
      exists i :: 0 <= i < |payments| && payments[i].paymentNo == paymentNo && payments[i].status == PaymentPending
  {
    if exists i :: 0 <= i < |payments| && payments[i].paymentNo == paymentNo && payments[i].status == PaymentPending {
      var i :| 0 <= i < |payments| && payments[i].paymentNo == paymentNo && payments[i].status == PaymentPending;
      var k := PaymentIndex(payments, paymentNo).value;
      assert k == i;
    }
  }

  datatype PaymentStatusView = PaymentStatusView(
    paymentNo: string, status: PaymentStatus, amount: int, createdAt: nat, updatedAt: nat, expiresAt: nat)

  /** `getPaymentStatus`: 404 for an unknown number, otherwise the stored payment's state. */
  function GetPaymentStatus(payments: seq<Payment>, paymentNo: string): (r: Result<PaymentStatusView, ApiError>)
    ensures r.Failure? <==> !PaymentNoTaken(payments, paymentNo)
    ensures r.Failure? ==> r.error == ApiError(404, "支付记录不存在")
    ensures r.Success? ==> exists i :: (0 <= i < |payments| && payments[i].paymentNo == paymentNo &&
      r.value == PaymentStatusView(paymentNo, payments[i].status, payments[i].amount, payments[i].createdAt,
                                   payments[i].updatedAt, payments[i].expiresAt))
  {
    match PaymentIndex(payments, paymentNo)
    case None => Failure(ApiError(404, "支付记录不存在"))
    case Some(i) =>
      var p := payments[i];
      Success(PaymentStatusView(p.paymentNo, p.status, p.amount, p.createdAt, p.updatedAt, p.expiresAt))
  }

  // -------------------------------------------------------------------------
  // handleNotify

  datatype NotifyRequest = NotifyRequest(paymentNo: string, status: JsValue, transactionId: Option<string>)

  predicate ReportsSuccess(body: NotifyRequest) {
    StrictEquals(body.status, Str("success"))
  }

  /** The status string written as the source has it: "paid" for success. */
  function NotifyStatusAsWritten(body: NotifyRequest): (s: string)
    ensures ReportsSuccess(body) ==> s == "paid"
    ensures !ReportsSuccess(body) ==> s == "failed"
  {
    if ReportsSuccess(body) then "paid" else "failed"
  }

  /** "paid" is not among the payment statuses, so a successful notification writes a value the column cannot hold. */
  lemma NotifyAsWrittenLeavesEnum(body: NotifyRequest)
    requires ReportsSuccess(body)
    ensures ParsePaymentStatus(NotifyStatusAsWritten(body)) == None
    ensures forall s: PaymentStatus :: PaymentStatusName(s) != NotifyStatusAsWritten(body)
  {
  }

  /** The status written as intended: `success` for a successful payment, `failed` for anything else. */
  function NotifiedStatus(body: NotifyRequest): (s: PaymentStatus)
    ensures s == PaymentSuccess <==> ReportsSuccess(body)
    ensures s == PaymentFailed <==> !ReportsSuccess(body)
  {
    if ReportsSuccess(body) then PaymentSuccess else PaymentFailed
  }

  /** The payment row after the notification; its earlier state is not consulted. */
  function Notified(p: Payment, body: NotifyRequest, now: nat): (q: Payment)
    ensures q.status == NotifiedStatus(body) && q.transactionId == body.transactionId
    ensures q.paidAt == (if ReportsSuccess(body) then Some(now) else None)
    ensures q == p.(status := q.status, transactionId := q.transactionId, paidAt := q.paidAt)
  {
    p.(status := NotifiedStatus(body), transactionId := body.transactionId,
       paidAt := if ReportsSuccess(body) then Some(now) else None)
  }

  /** The outcome depends on the notification only: two payments notified alike end in the same state. */
  lemma NotifyIgnoresPriorState(p1: Payment, p2: Payment, body: NotifyRequest, now: nat)
    ensures Notified(p1, body, now).status == Notified(p2, body, now).status
    ensures Notified(p1, body, now).paidAt == Notified(p2, body, now).paidAt
  {
  }

  /** A repeated notification changes nothing further on the payment. */
  lemma NotifyIdempotent(p: Payment, body: NotifyRequest, now: nat)
    ensures Notified(Notified(p, body, now), body, now) == Notified(p, body, now)
  {
  }

  /** Reading `payment.order` on a payment whose order is gone throws a TypeError. */
  const MissingOrder := Other("TypeError", [])

  lemma UpdateKeepsPaymentsUnique(payments: seq<Payment>, i: nat, q: Payment)
    requires i < |payments| && q.paymentNo == payments[i].paymentNo && q.id == payments[i].id
    ensures UniquePaymentNos(payments) ==> UniquePaymentNos(payments[i := q])
    ensures UniquePaymentIds(payments) ==> UniquePaymentIds(payments[i := q])
  {
  }

  lemma UpdateKeepsOrdersUnique(orders: seq<Order>, j: nat, o: Order)
    requires j < |orders| && o.orderNo == orders[j].orderNo && o.id == orders[j].id
    ensures UniqueOrderNos(orders) ==> UniqueOrderNos(orders[j := o])
    ensures UniqueOrderIds(orders) ==> UniqueOrderIds(orders[j := o])
  {
  }

  /**
   * `handleNotify`: an unknown number gives 404 and changes nothing.
   * Otherwise the payment is overwritten from the notification, and on
   * success its order becomes paid; a missing order then fails with the
   * payment already updated, since no transaction encloses the two updates.
   */
  method HandleNotify(db: Db, body: NotifyRequest, now: nat) returns (r: Result<(), Thrown>)
    modifies db`payments, db`orders
    ensures PaymentIndex(old(db.payments), body.paymentNo).None? ==>
      r == Failure(Api(ApiError(404, "支付记录不存在"))) && db.payments == old(db.payments) && db.orders == old(db.orders)
    ensures PaymentIndex(old(db.payments), body.paymentNo).Some? ==>
      var i := PaymentIndex(old(db.payments), body.paymentNo).value;
      var p := old(db.payments)[i];
      && db.payments == old(db.payments)[i := Notified(p, body, now)]
      && (!ReportsSuccess(body) ==> r == Success(()) && db.orders == old(db.orders))
      && (ReportsSuccess(body) && OrderIndex(old(db.orders), p.orderId).None? ==>
            r == Failure(MissingOrder) && db.orders == old(db.orders))
      && (ReportsSuccess(body) && OrderIndex(old(db.orders), p.orderId).Some? ==>
            var j := OrderIndex(old(db.orders), p.orderId).value;
            r == Success(()) && db.orders == old(db.orders)[j := old(db.orders)[j].(status := Paid)])
    ensures old(db.Valid()) ==> db.Valid()
  {
    var found := PaymentIndex(db.payments, body.paymentNo);
    if found.None? {
      return Failure(Api(ApiError(404, "支付记录不存在")));
    }
    var i := found.value;
    var p := db.payments[i];
    UpdateKeepsPaymentsUnique(db.payments, i, Notified(p, body, now));
    db.payments := db.payments[i := Notified(p, body, now)];
    if !ReportsSuccess(body) {
      return Success(());
    }
    var owner := OrderIndex(db.orders, p.orderId);
    if owner.None? {
      return Failure(MissingOrder);
    }
    var j := owner.value;
    UpdateKeepsOrdersUnique(db.orders, j, db.orders[j].(status := Paid));
    db.orders := db.orders[j := db.orders[j].(status := Paid)];
    r := Success(());
  }

  /** A notification never touches the status of a different payment. */
  lemma NotifyTouchesOnePayment(payments: seq<Payment>, i: nat, body: NotifyRequest, now: nat, k: nat)
    requires i < |payments| && k < |payments| && k != i
    ensures payments[i := Notified(payments[i], body, now)][k] == payments[k]
  {
  }
}
