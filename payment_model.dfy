/**
 * The `payments` table (backend/src/models/Payment.js): one attempt to pay one
 * order. An order may have many payments (backend/src/models/index.js:45-46).
 */
module PaymentModel {
  import opened Wrappers

  datatype PaymentStatus = PaymentPending | PaymentSuccess | PaymentFailed | PaymentCancelled

  const DefaultPaymentStatus := PaymentPending

  function PaymentStatusName(s: PaymentStatus): string {
    match s
    case PaymentPending => "pending"
    case PaymentSuccess => "success"
    case PaymentFailed => "failed"
    case PaymentCancelled => "cancelled"
  }

  function ParsePaymentStatus(s: string): (r: Option<PaymentStatus>)
    ensures r.Some? ==> PaymentStatusName(r.value) == s
  {
    if s == "pending" then Some(PaymentPending)
    else if s == "success" then Some(PaymentSuccess)
    else if s == "failed" then Some(PaymentFailed)
    else if s == "cancelled" then Some(PaymentCancelled)
    else None
  }

  lemma PaymentStatusRoundTrip(s: PaymentStatus)
    ensures ParsePaymentStatus(PaymentStatusName(s)) == Some(s)
  {
  }

  /** The WeChat JSAPI parameters, as stored in `payment_data`. */
  datatype WechatParams = WechatParams(
    appId: string, timeStamp: string, nonceStr: string, package: string, signType: string, paySign: string)

  /** The Alipay precreate parameters, as stored in `payment_data`. */
  datatype AlipayParams = AlipayParams(
    appId: string, apiMethod: string, charset: string, signType: string, timestamp: string,
    version: string, outTradeNo: string, totalAmount: string, subject: string)

  datatype PaymentData = WechatData(wechat: WechatParams) | AlipayData(alipay: AlipayParams)

  /**
   * One payment. `orderId` is never null: every payment references an order.
   * `tradeNo` and `paidAt` may be null; `fee` defaults to 0. The fields after
   * `updatedAt` are the ones the payment controller writes and reads although
   * the table declares no such columns; `amount` and `fee` are in cents.
   */
  datatype Payment = Payment(
    id: nat,
    orderId: nat,
    paymentNo: string,
    tradeNo: Option<string>,
    paymentMethod: string,
    amount: int,
    fee: int,
    status: PaymentStatus,
    paidAt: Option<nat>,
    createdAt: nat,
    updatedAt: nat,
    paymentMethodId: nat,
    notifyUrl: Option<string>,
    returnUrl: Option<string>,
    expiresAt: nat,
    paymentData: Option<PaymentData>,
    transactionId: Option<string>)

  /** The unique index on `payment_no`. */
  ghost predicate UniquePaymentNos(payments: seq<Payment>) {
    forall i, j :: 0 <= i < j < |payments| ==> payments[i].paymentNo != payments[j].paymentNo
  }

  ghost predicate UniquePaymentIds(payments: seq<Payment>) {
    forall i, j :: 0 <= i < j < |payments| ==> payments[i].id != payments[j].id
  }

  /** `Payment.findOne({ where: { payment_no } })`, returning the row's position. */
  function PaymentIndex(payments: seq<Payment>, no: string): (r: Option<nat>)
    ensures r.Some? ==> r.value < |payments| && payments[r.value].paymentNo == no
    ensures r.None? <==> forall i :: 0 <= i < |payments| ==> payments[i].paymentNo != no
  {
    if payments == [] then None
    else if payments[|payments| - 1].paymentNo == no then Some(|payments| - 1)
    else PaymentIndex(payments[..|payments| - 1], no)
  }

  function MaxPaymentId(payments: seq<Payment>): (m: nat)
    ensures forall i :: 0 <= i < |payments| ==> payments[i].id <= m
  {
    if payments == [] then 0
    else
      var m := MaxPaymentId(payments[1..]);
      if payments[0].id > m then payments[0].id else m
  }
}
