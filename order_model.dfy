/** The `orders` table (backend/src/models/Order.js) and the `order_details` join rows. */
module OrderModel {
  import opened Wrappers

  datatype OrderStatus = Pending | Paid | Delivered | Completed | Cancelled | Refunded

  const DefaultOrderStatus := Pending

  function OrderStatusName(s: OrderStatus): string {
    match s
    case Pending => "pending"
    case Paid => "paid"
    case Delivered => "delivered"
    case Completed => "completed"
    case Cancelled => "cancelled"
    case Refunded => "refunded"
  }

  function ParseOrderStatus(s: string): (r: Option<OrderStatus>)
    ensures r.Some? ==> OrderStatusName(r.value) == s
  {
    if s == "pending" then Some(Pending)
    else if s == "paid" then Some(Paid)
    else if s == "delivered" then Some(Delivered)
    else if s == "completed" then Some(Completed)
    else if s == "cancelled" then Some(Cancelled)
    else if s == "refunded" then Some(Refunded)
    else None
  }

  lemma OrderStatusRoundTrip(s: OrderStatus)
    ensures ParseOrderStatus(OrderStatusName(s)) == Some(s)
  {
  }

  /**
   * One order. `userId` None is a guest order. `goodName` and `goodPrice` are
   * copies taken when the order was created; money is in cents (DECIMAL(10,2)).
   */
  datatype Order = Order(
    id: nat,
    orderNo: string,
    userId: Option<nat>,
    goodId: nat,
    goodName: string,
    goodPrice: int,
    quantity: int,
    totalAmount: int,
    contactInfo: Option<string>,
    status: OrderStatus,
    payMethod: Option<string>,
    payTime: Option<nat>,
    deliverTime: Option<nat>,
    tradeNo: Option<string>,
    remark: Option<string>,
    createdAt: nat,
    updatedAt: nat)

  /** The unique index on `order_no`. */
  ghost predicate UniqueOrderNos(orders: seq<Order>) {
    forall i, j :: 0 <= i < j < |orders| ==> orders[i].orderNo != orders[j].orderNo
  }

  ghost predicate UniqueOrderIds(orders: seq<Order>) {
    forall i, j :: 0 <= i < j < |orders| ==> orders[i].id != orders[j].id
  }

  predicate OrderNoTaken(orders: seq<Order>, no: string) {
    exists i :: 0 <= i < |orders| && orders[i].orderNo == no
  }

  function FindOrderByNo(orders: seq<Order>, no: string): (r: Option<Order>)
    ensures r.Some? ==> r.value in orders && r.value.orderNo == no
    ensures r.None? <==> !OrderNoTaken(orders, no)
  {
    if orders == [] then None
    else if orders[0].orderNo == no then Some(orders[0])
    else
      var r := FindOrderByNo(orders[1..], no);
      assert OrderNoTaken(orders, no) <==> OrderNoTaken(orders[1..], no) by {
        if OrderNoTaken(orders, no) {
          var i :| 0 <= i < |orders| && orders[i].orderNo == no;
          assert orders[1..][i - 1].orderNo == no;
        }
        if OrderNoTaken(orders[1..], no) {
          var i :| 0 <= i < |orders[1..]| && orders[1..][i].orderNo == no;
          assert orders[i + 1].orderNo == no;
        }
      }
      r
  }

  /** `Order.findByPk(id)`, returning the row's position so that it can be updated in place. */
  function OrderIndex(orders: seq<Order>, id: nat): (r: Option<nat>)
    ensures r.Some? ==> r.value < |orders| && orders[r.value].id == id
    ensures r.None? ==> forall i :: 0 <= i < |orders| ==> orders[i].id != id
  {
    if orders == [] then None
    else if orders[|orders| - 1].id == id then Some(|orders| - 1)
    else OrderIndex(orders[..|orders| - 1], id)
  }

  /** The largest id in use, so that `MaxOrderId + 1` is what AUTO_INCREMENT hands out next. */
  function MaxOrderId(orders: seq<Order>): (m: nat)
    ensures forall i :: 0 <= i < |orders| ==> orders[i].id <= m
  {
    if orders == [] then 0
    else
      var m := MaxOrderId(orders[1..]);
      if orders[0].id > m then orders[0].id else m
  }

  /** A row of `order_details` (backend/src/models/OrderDetail.js): one card delivered for one order. */
  datatype OrderDetail = OrderDetail(orderId: nat, cardId: nat)
}
