/**
 * The order controller (backend/src/controllers/orderController.js):
 * placing an order, viewing one, and listing a user's orders.
 */
module OrderController {
  import opened Wrappers
  import opened Strings
  import opened Js
  import opened Query
  import opened Helpers
  import opened Errors
  import opened ErrorHandler
  import opened GoodModel
  import opened CardModel
  import opened OrderModel
  import opened PaymentModel
  import opened AccountModel
  import opened Database
  import opened Logger
  import opened Listing

  // -------------------------------------------------------------------------
  // createOrder

  /** The request body; `quantity` absent means 1. A `goodId` of None is an absent field. */
  datatype OrderRequest = OrderRequest(goodId: Option<int>, quantity: Option<int>, contactInfo: Option<string>)

  const MaxQuantity := 100

  function Quantity(body: OrderRequest): int {
    body.quantity.GetOr(1)
  }

  /** `!good_id`: an absent id and the id 0 are both missing. */
  predicate GoodIdMissing(body: OrderRequest) {
    body.goodId.None? || body.goodId.value == 0
  }

  /** `Good.findOne({ where: { id: good_id, status: 1 } })`; no row has a negative id. */
  function LookupListedGood(goods: seq<Good>, id: int): (r: Option<Good>)
    ensures r.Some? ==> r.value in goods && r.value.id == id && IsListed(r.value)
    ensures r.None? ==> forall i :: 0 <= i < |goods| ==> !(goods[i].id == id && IsListed(goods[i]))
  {
    if id < 0 then None else FindListedGood(goods, id)
  }

  const GoodIdRequired := "商品ID不能为空"
  const QuantityOutOfRange := "购买数量必须在1-100之间"
  const GoodUnavailable := "商品不存在或已下架"
  const StockMessagePrefix := "库存不足，当前可用库存: "
  const BuyLimitPrefix := "超出购买限制，每次最多购买 "
  const BuyLimitSuffix := " 件"

  /**
   * The guards of `createOrder`, in source order; the first that fails
   * decides the error. On success the listed good being bought is returned.
   */
  function CheckOrder(goods: seq<Good>, cards: seq<Card>, body: OrderRequest): (r: Result<Good, ApiError>)
    ensures GoodIdMissing(body) ==> r == Failure(BadRequestError(GoodIdRequired))
    ensures !GoodIdMissing(body) && !(1 <= Quantity(body) <= MaxQuantity) ==>
      r == Failure(BadRequestError(QuantityOutOfRange))
    ensures !GoodIdMissing(body) && 1 <= Quantity(body) <= MaxQuantity && LookupListedGood(goods, body.goodId.value).None? ==>
      r == Failure(NotFoundError(GoodUnavailable))
    ensures !GoodIdMissing(body) && 1 <= Quantity(body) <= MaxQuantity && LookupListedGood(goods, body.goodId.value).Some? ==>
      var g := LookupListedGood(goods, body.goodId.value).value;
      if UnusedCount(cards, g.id) < Quantity(body) then
        r == Failure(BadRequestError(StockMessagePrefix + NatToString(UnusedCount(cards, g.id))))
      else if !WithinBuyLimit(g, Quantity(body)) then
        r == Failure(BadRequestError(BuyLimitPrefix + IntToString(g.buyLimit) + BuyLimitSuffix))
      else r == Success(g)
    ensures r.Success? ==>
      && r.value in goods && IsListed(r.value) && body.goodId == Some(r.value.id)
      && 1 <= Quantity(body) <= MaxQuantity
      && UnusedCount(cards, r.value.id) >= Quantity(body)
      && WithinBuyLimit(r.value, Quantity(body))
  {
    var q := Quantity(body);
    if GoodIdMissing(body) then Failure(BadRequestError(GoodIdRequired))
    else if q <= 0 || q > MaxQuantity then Failure(BadRequestError(QuantityOutOfRange))
    else match LookupListedGood(goods, body.goodId.value)
      case None => Failure(NotFoundError(GoodUnavailable))
      case Some(g) =>
        var available := UnusedCount(cards, g.id);
        if available < q then Failure(BadRequestError(StockMessagePrefix + NatToString(available)))
        else if g.buyLimit > 0 && q > g.buyLimit then
          Failure(BadRequestError(BuyLimitPrefix + IntToString(g.buyLimit) + BuyLimitSuffix))
        else Success(g)
  }

  /** `user?.id || null`: the buyer recorded on the order. */
  function BuyerId(c: Caller): (id: Option<nat>)
    ensures id.Some? ==> c.user.Some? && id.value == c.user.value.id && id.value != 0
    ensures c.user.None? ==> id.None?
  {
    if c.user.Some? && c.user.value.id != 0 then Some(c.user.value.id) else None
  }

  /** The error MySQL raises for a value outside a DECIMAL(10,2) column (strict mode). */
  const OutOfRange := Other(DatabaseName, [])

  /** The error of a second row with the same `order_no`. */
  const DuplicateOrderNo := Other(UniqueName, [ItemError("order_no must be unique", "order_no")])

  /**
   * The whole of `createOrder` as a decision on the tables it reads: the
   * guards, then the insert of one pending order, which fails if the total
   * does not fit its column or the generated number is already taken.
   */
  function PlaceOrder(goods: seq<Good>, cards: seq<Card>, orders: seq<Order>, c: Caller, body: OrderRequest,
                      now: nat, random: real): (r: Result<Order, Thrown>)
    requires 0.0 <= random < 1.0
    ensures CheckOrder(goods, cards, body).Failure? ==> r == Failure(Api(CheckOrder(goods, cards, body).error))
    ensures r.Success? ==>
      var g := CheckOrder(goods, cards, body).value;
      && CheckOrder(goods, cards, body).Success?
      && r.value.status == Pending && r.value.status == DefaultOrderStatus
      && r.value.goodId == g.id && r.value.goodName == g.name && r.value.goodPrice == g.price
      && r.value.quantity == Quantity(body) && r.value.totalAmount == g.price * Quantity(body)
      && FitsDecimal10_2(r.value.totalAmount)
      && r.value.userId == BuyerId(c) && r.value.contactInfo == body.contactInfo
      && r.value.orderNo == GenerateOrderNo(now, random) && !OrderNoTaken(orders, r.value.orderNo)
      && r.value.id == MaxOrderId(orders) + 1 && r.value.createdAt == now
      && r.value.payMethod.None? && r.value.payTime.None? && r.value.tradeNo.None?
      && r.value.deliverTime.None? && r.value.remark.None? && r.value.updatedAt == now
    ensures CheckOrder(goods, cards, body).Success? && r.Failure? ==>
      r.error == OutOfRange || r.error == DuplicateOrderNo
  {
    match CheckOrder(goods, cards, body)
    case Failure(e) => Failure(Api(e))
    case Success(g) =>
      var q := Quantity(body);
      var total := g.price * q;
      var no := GenerateOrderNo(now, random);
      if !FitsDecimal10_2(total) then Failure(OutOfRange)
      else if OrderNoTaken(orders, no) then Failure(DuplicateOrderNo)
      else Success(Order(MaxOrderId(orders) + 1, no, BuyerId(c), g.id, g.name, g.price, q, total,
                         body.contactInfo, Pending, None, None, None, None, None, now, now))
  }

  const CreateOrderAction := "create_order"
  const OrderResource := "order"

  /** What `logAction` records for a created order (the total in cents, not as a formatted string). */
  function OrderLogData(o: Order): map<string, JsValue> {
    map["order_no" := Str(o.orderNo), "good_id" := Num(o.goodId), "quantity" := Num(o.quantity),
        "total_amount" := Num(o.totalAmount)]
  }

  /**
   * `createOrder`: on success one order is appended and one log entry is
   * written (unless the log insert fails, which is swallowed); on failure the
   * transaction rolls back and nothing changes. Cards are only counted.
   */
  method CreateOrder(db: Db, c: Caller, body: OrderRequest, now: nat, random: real, logFails: bool)
    returns (r: Result<Order, Thrown>)
    requires 0.0 <= random < 1.0
    modifies db`orders, db`logs
    ensures r == PlaceOrder(old(db.goods), old(db.cards), old(db.orders), c, body, now, random)
    ensures r.Success? ==> db.orders == old(db.orders) + [r.value]
    ensures r.Success? && !logFails ==>
      db.logs == old(db.logs) + [EntryFor(c, CreateOrderAction, Some(OrderResource), Some(r.value.id), Some(OrderLogData(r.value)))]
    ensures r.Failure? || logFails ==> db.logs == old(db.logs)
    ensures r.Failure? ==> db.orders == old(db.orders)
    ensures db.cards == old(db.cards) && db.goods == old(db.goods)
    ensures old(db.Valid()) ==> db.Valid()
  {
    r := PlaceOrder(db.goods, db.cards, db.orders, c, body, now, random);
    if r.Success? {
      CommitOrder(db, c, r.value, logFails);
    }
  }

  /** The writes of a placed order: the insert, then its log entry. */
  method CommitOrder(db: Db, c: Caller, o: Order, logFails: bool)
    requires !OrderNoTaken(db.orders, o.orderNo) && o.id > MaxOrderId(db.orders)
    modifies db`orders, db`logs
    ensures db.orders == old(db.orders) + [o]
    ensures !logFails ==>
      db.logs == old(db.logs) + [EntryFor(c, CreateOrderAction, Some(OrderResource), Some(o.id), Some(OrderLogData(o)))]
    ensures logFails ==> db.logs == old(db.logs)
    ensures db.cards == old(db.cards) && db.goods == old(db.goods)
    ensures old(db.Valid()) ==> db.Valid()
  {
    AppendOrder(db, o);
    LogAction(db, c, CreateOrderAction, Some(OrderResource), Some(o.id), Some(OrderLogData(o)), logFails);
  }

  /** The insert itself: a row with a fresh number and a fresh id keeps the table valid. */
  method AppendOrder(db: Db, o: Order)
    requires !OrderNoTaken(db.orders, o.orderNo) && o.id > MaxOrderId(db.orders)
    modifies db`orders
    ensures db.orders == old(db.orders) + [o]
    ensures old(db.Valid()) ==> db.Valid()
  {
    ghost var before := db.orders;
    db.orders := db.orders + [o];
    InsertKeepsOrdersUnique(before, o);
  }

  /** Appending an order with a fresh number and a fresh id keeps both unique. */
  lemma InsertKeepsOrdersUnique(orders: seq<Order>, o: Order)
    requires !OrderNoTaken(orders, o.orderNo) && o.id > MaxOrderId(orders)
    ensures UniqueOrderNos(orders) ==> UniqueOrderNos(orders + [o])
    ensures UniqueOrderIds(orders) ==> UniqueOrderIds(orders + [o])
  {
    var all := orders + [o];
    forall i | 0 <= i < |orders|
      ensures all[i].orderNo != o.orderNo && all[i].id != o.id
    {
      assert all[i] == orders[i];
    }
  }

  /** The first two guards read no table: for a missing id or a bad quantity the answer is the same against any data. */
  lemma EarlyGuardsReadNoTable(goods1: seq<Good>, cards1: seq<Card>, goods2: seq<Good>, cards2: seq<Card>, body: OrderRequest)
    requires GoodIdMissing(body) || !(1 <= Quantity(body) <= MaxQuantity)
    ensures CheckOrder(goods1, cards1, body) == CheckOrder(goods2, cards2, body)
    ensures CheckOrder(goods1, cards1, body).Failure? && CheckOrder(goods1, cards1, body).error.statusCode == 400
  {
  }

  /** The stock check runs before the buy-limit check: short stock is reported even when the limit is also exceeded. */
  lemma StockBeforeBuyLimit(goods: seq<Good>, cards: seq<Card>, body: OrderRequest, g: Good)
    requires !GoodIdMissing(body) && 1 <= Quantity(body) <= MaxQuantity
    requires LookupListedGood(goods, body.goodId.value) == Some(g)
    requires UnusedCount(cards, g.id) < Quantity(body) && !WithinBuyLimit(g, Quantity(body))
    ensures CheckOrder(goods, cards, body) == Failure(BadRequestError(StockMessagePrefix + NatToString(UnusedCount(cards, g.id))))
  {
  }

  /** A guest's order has no user, and a quantity left out buys one item. */
  lemma GuestOrderDefaults(goods: seq<Good>, cards: seq<Card>, orders: seq<Order>, c: Caller, body: OrderRequest, now: nat, random: real)
    requires 0.0 <= random < 1.0
    requires c.user.None? && body.quantity.None?
    requires PlaceOrder(goods, cards, orders, c, body, now, random).Success?
    ensures PlaceOrder(goods, cards, orders, c, body, now, random).value.userId.None?
    ensures PlaceOrder(goods, cards, orders, c, body, now, random).value.quantity == 1
  {
  }

  /**
   * With enough unused cards, no limit in the way and a total that fits,
   * placing an order of a listed good succeeds unless the number collides.
   */
  lemma {:induction false} OrderSucceeds(goods: seq<Good>, cards: seq<Card>, orders: seq<Order>, c: Caller, body: OrderRequest,
                                         now: nat, random: real, g: Good)
    requires 0.0 <= random < 1.0
    requires body.goodId == Some(g.id) && g.id != 0 && 1 <= Quantity(body) <= MaxQuantity
    requires g in goods && IsListed(g) && (forall i :: 0 <= i < |goods| && goods[i].id == g.id ==> goods[i] == g)
    requires UnusedCount(cards, g.id) >= Quantity(body) && WithinBuyLimit(g, Quantity(body))
    requires FitsDecimal10_2(g.price * Quantity(body)) && !OrderNoTaken(orders, GenerateOrderNo(now, random))
    ensures PlaceOrder(goods, cards, orders, c, body, now, random).Success?
  {
    var r := LookupListedGood(goods, g.id);
    var k :| 0 <= k < |goods| && goods[k] == g;
    assert r.Some?;
    assert r.value == g;
    assert CheckOrder(goods, cards, body) == Success(g);
  }

  // -------------------------------------------------------------------------
  // getOrderDetail

  /** A field that the response shows, or that it deletes for a stranger. */
  datatype Visible<T> = Hidden | Shown(value: T)

  datatype GoodBrief = GoodBrief(id: nat, name: string, image: Option<string>, description: Option<string>)
  /** A delivered card as included in the response: the detail row and its card's secret. */
  datatype DeliveredCard = DeliveredCard(detail: OrderDetail, cardInfo: Option<string>)
  /** The attributes of a payment the response includes: `payment_method`, `amount`, `status`, `paid_at`. */
  datatype PaymentBrief = PaymentBrief(paymentMethod: string, amount: int, status: PaymentStatus, paidAt: Option<nat>)

  datatype OrderView = OrderView(
    id: nat, orderNo: string, userId: Visible<Option<nat>>, goodId: nat, goodName: string, goodPrice: int,
    quantity: int, totalAmount: int, contactInfo: Visible<Option<string>>, status: OrderStatus,
    payMethod: Option<string>, payTime: Option<nat>, deliverTime: Option<nat>, tradeNo: Option<string>,
    remark: Option<string>, createdAt: nat, updatedAt: nat, good: Option<GoodBrief>, details: Option<seq<DeliveredCard>>, payments: seq<PaymentBrief>)

  /** The owner of the order (`req.user.id === order.user_id`) or any admin. */
  predicate MaySeeAll(c: Caller, o: Order) {
    (c.user.Some? && o.userId == Some(c.user.value.id)) || c.admin.Some?
  }

  function FindCardInfo(cards: seq<Card>, id: nat): (r: Option<string>)
    ensures r.Some? ==> exists i :: 0 <= i < |cards| && cards[i].id == id && cards[i].cardInfo == r.value
    ensures r.None? ==> forall i :: 0 <= i < |cards| ==> cards[i].id != id
  {
    if cards == [] then None
    else if cards[0].id == id then Some(cards[0].cardInfo)
    else
      var r := FindCardInfo(cards[1..], id);
      assert r.Some? ==> exists i :: 0 <= i < |cards| && cards[i].id == id && cards[i].cardInfo == r.value by {
        if r.Some? {
          var i :| 0 <= i < |cards[1..]| && cards[1..][i].id == id && cards[1..][i].cardInfo == r.value;
          assert cards[i + 1].id == id && cards[i + 1].cardInfo == r.value;
        }
      }
      assert r.None? ==> forall i :: 0 <= i < |cards| ==> cards[i].id != id by {
        if r.None? {
          forall i | 1 <= i < |cards|
            ensures cards[i].id != id
          {
            assert cards[i] == cards[1..][i - 1];
          }
        }
      }
      r
  }

  function DetailOfOrder(orderId: nat): OrderDetail -> bool {
    (d: OrderDetail) => d.orderId == orderId
  }

  function PaymentOfOrder(orderId: nat): Payment -> bool {
    (p: Payment) => p.orderId == orderId
  }

  /**
   * The `details` association with each row's card secret: every detail row
   * of the order, in table order, each with the `card_info` of the card it
   * references (none when no such card exists).
   */
  function DeliveredCards(details: seq<OrderDetail>, cards: seq<Card>, orderId: nat): (r: seq<DeliveredCard>)
    ensures |r| == Count(details, DetailOfOrder(orderId))
    ensures forall i :: 0 <= i < |r| ==>
      && r[i].detail == Filter(details, DetailOfOrder(orderId))[i]
      && r[i].detail.orderId == orderId && r[i].detail in details
      && r[i].cardInfo == FindCardInfo(cards, r[i].detail.cardId)
    ensures forall k :: 0 <= k < |details| && details[k].orderId == orderId ==>
      DeliveredCard(details[k], FindCardInfo(cards, details[k].cardId)) in r
  {
    var rows := Filter(details, DetailOfOrder(orderId));
    var r := seq(|rows|, i requires 0 <= i < |rows| => DeliveredCard(rows[i], FindCardInfo(cards, rows[i].cardId)));
    assert forall k :: 0 <= k < |details| && details[k].orderId == orderId ==>
        DeliveredCard(details[k], FindCardInfo(cards, details[k].cardId)) in r by {
      forall k | 0 <= k < |details| && details[k].orderId == orderId
        ensures DeliveredCard(details[k], FindCardInfo(cards, details[k].cardId)) in r
      {
        assert DetailOfOrder(orderId)(details[k]);
        var j :| 0 <= j < |rows| && rows[j] == details[k];
        assert r[j] == DeliveredCard(details[k], FindCardInfo(cards, details[k].cardId));
      }
    }
    r
  }

  function BriefOf(p: Payment): PaymentBrief {
    PaymentBrief(p.paymentMethod, p.amount, p.status, p.paidAt)
  }

  /**
   * The `payments` association: every payment of the order, in table
   * order, with the four attributes the query selects.
   */
  function PaymentsOf(payments: seq<Payment>, orderId: nat): (r: seq<PaymentBrief>)
    ensures |r| == Count(payments, PaymentOfOrder(orderId))
    ensures forall i :: 0 <= i < |r| ==>
      var q := Filter(payments, PaymentOfOrder(orderId))[i];
      q.orderId == orderId && q in payments &&
      r[i] == PaymentBrief(q.paymentMethod, q.amount, q.status, q.paidAt)
    ensures forall k :: 0 <= k < |payments| && payments[k].orderId == orderId ==> BriefOf(payments[k]) in r
  {
    var rows := Filter(payments, PaymentOfOrder(orderId));
    var r := seq(|rows|, i requires 0 <= i < |rows| => BriefOf(rows[i]));
    assert forall k :: 0 <= k < |payments| && payments[k].orderId == orderId ==> BriefOf(payments[k]) in r by {
      forall k | 0 <= k < |payments| && payments[k].orderId == orderId
        ensures BriefOf(payments[k]) in r
      {
        assert PaymentOfOrder(orderId)(payments[k]);
        var j :| 0 <= j < |rows| && rows[j] == payments[k];
        assert r[j] == BriefOf(payments[k]);
      }
    }
    r
  }

  /** The included `good` association: id, name, image and description of the good with that id, if any. */
  function GoodBriefOf(goods: seq<Good>, id: nat): (b: Option<GoodBrief>)
    ensures b.None? <==> forall i :: 0 <= i < |goods| ==> goods[i].id != id
    ensures b.Some? ==> exists g :: g in goods && g.id == id && b.value == GoodBrief(g.id, g.name, g.image, g.description)
  {
    match FindGood(goods, id)
    case None => None
    case Some(g) => Some(GoodBrief(g.id, g.name, g.image, g.description))
  }

  /**
   * The response for one order: card secrets only for its owner or an admin
   * and only once it is completed; `user_id` and `contact_info` only for its
   * owner or an admin. Every other field is the stored order.
   */
  function ViewOrder(o: Order, goods: seq<Good>, details: seq<OrderDetail>, cards: seq<Card>, payments: seq<Payment>,
                     c: Caller): (v: OrderView)
    ensures v.details.Some? <==> MaySeeAll(c, o) && o.status == Completed
    ensures v.details.Some? ==> v.details.value == DeliveredCards(details, cards, o.id)
    ensures v.payments == PaymentsOf(payments, o.id)
    ensures v.userId.Shown? <==> MaySeeAll(c, o)
    ensures v.contactInfo.Shown? <==> MaySeeAll(c, o)
    ensures v.userId.Shown? ==> v.userId.value == o.userId
    ensures v.contactInfo.Shown? ==> v.contactInfo.value == o.contactInfo
    ensures v.id == o.id && v.orderNo == o.orderNo && v.status == o.status && v.totalAmount == o.totalAmount
    ensures v.goodId == o.goodId && v.goodName == o.goodName && v.goodPrice == o.goodPrice && v.quantity == o.quantity
    ensures v.payMethod == o.payMethod && v.payTime == o.payTime && v.tradeNo == o.tradeNo && v.createdAt == o.createdAt
    ensures v.deliverTime == o.deliverTime && v.remark == o.remark && v.updatedAt == o.updatedAt
    ensures v.good == GoodBriefOf(goods, o.goodId)
  {
    var show := MaySeeAll(c, o);
    OrderView(o.id, o.orderNo, if show then Shown(o.userId) else Hidden, o.goodId, o.goodName, o.goodPrice,
              o.quantity, o.totalAmount, if show then Shown(o.contactInfo) else Hidden, o.status,
              o.payMethod, o.payTime, o.deliverTime, o.tradeNo, o.remark, o.createdAt, o.updatedAt,
              GoodBriefOf(goods, o.goodId),
              if show && o.status == Completed then Some(DeliveredCards(details, cards, o.id)) else None,
              PaymentsOf(payments, o.id))
  }

  /** `getOrderDetail`: look the order up by number; 404 when there is none. */
  function GetOrderDetail(orders: seq<Order>, goods: seq<Good>, details: seq<OrderDetail>, cards: seq<Card>,
                          payments: seq<Payment>, orderNo: string, c: Caller): (r: Result<OrderView, ApiError>)
    ensures r.Failure? <==> !OrderNoTaken(orders, orderNo)
    ensures r.Failure? ==> r.error == NotFoundError("订单不存在")
    ensures r.Success? ==> exists i :: 0 <= i < |orders| && orders[i].orderNo == orderNo &&
                                       r.value == ViewOrder(orders[i], goods, details, cards, payments, c)
  {
    match FindOrderByNo(orders, orderNo)
    case None => Failure(NotFoundError("订单不存在"))
    case Some(o) => Success(ViewOrder(o, goods, details, cards, payments, c))
  }

  /** A request without user or admin never sees card secrets, the buyer, or the contact details. */
  lemma StrangerSeesNoSecrets(orders: seq<Order>, goods: seq<Good>, details: seq<OrderDetail>, cards: seq<Card>,
                              payments: seq<Payment>, orderNo: string, c: Caller)
    requires c.user.None? && c.admin.None?
    requires GetOrderDetail(orders, goods, details, cards, payments, orderNo, c).Success?
    ensures var v := GetOrderDetail(orders, goods, details, cards, payments, orderNo, c).value;
            v.details.None? && v.userId.Hidden? && v.contactInfo.Hidden?
  {
  }

  /** Card secrets of an order that is not completed are hidden even from its owner and from admins. */
  lemma UnfinishedHidesCards(o: Order, goods: seq<Good>, details: seq<OrderDetail>, cards: seq<Card>,
                             payments: seq<Payment>, c: Caller)
    requires o.status != Completed
    ensures ViewOrder(o, goods, details, cards, payments, c).details.None?
  {
  }

  // -------------------------------------------------------------------------
  // getUserOrders

  /** `where.status = status` applies only for a non-empty filter. */
  predicate MatchesUserFilter(userId: nat, status: Option<string>, o: Order) {
    o.userId == Some(userId) && (status.None? || status.value == "" || OrderStatusName(o.status) == status.value)
  }

  function UserFilterTest(userId: nat, status: Option<string>): Order -> bool {
    (o: Order) => MatchesUserFilter(userId, status, o)
  }

  function NewestFirst(o: Order): seq<int> {
    [-(o.createdAt as int)]
  }

  /** The `good` included with each listed order: only its id, name and image. */
  datatype GoodThumb = GoodThumb(id: nat, name: string, image: Option<string>)

  /** A row of the order list: the order with its included good, null when the good is gone. */
  datatype OrderRow = OrderRow(order: Order, good: Option<GoodThumb>)

  /** The included `good` of the list query: id, name and image of the good with that id, if any. */
  function GoodThumbOf(goods: seq<Good>, id: nat): (b: Option<GoodThumb>)
    ensures b.None? <==> forall i :: 0 <= i < |goods| ==> goods[i].id != id
    ensures b.Some? ==> exists g :: g in goods && g.id == id && b.value == GoodThumb(g.id, g.name, g.image)
  {
    match FindGood(goods, id)
    case None => None
    case Some(g) => Some(GoodThumb(g.id, g.name, g.image))
  }

  /** Each order paired with its included good. */
  function WithGoods(goods: seq<Good>, os: seq<Order>): (rows: seq<OrderRow>)
    ensures |rows| == |os|
    ensures forall i :: 0 <= i < |os| ==> rows[i].order == os[i] && rows[i].good == GoodThumbOf(goods, os[i].goodId)
  {
    seq(|os|, i requires 0 <= i < |os| => OrderRow(os[i], GoodThumbOf(goods, os[i].goodId)))
  }

  /** The orders of a list of rows, without their goods. */
  function OrdersOf(rows: seq<OrderRow>): (os: seq<Order>)
    ensures |os| == |rows| && forall i :: 0 <= i < |rows| ==> os[i] == rows[i].order
  {
    seq(|rows|, i requires 0 <= i < |rows| => rows[i].order)
  }

  /**
   * `getUserOrders`: the user's orders (optionally of one status), newest
   * first, one page of them, each with its good's id, name and image, and
   * the pagination of all that match. Page and limit default to 1 and 10; a
   * negative offset or limit is a database error.
   */
  function GetUserOrders(orders: seq<Order>, goods: seq<Good>, user: User,
                         page: Option<int>, limit: Option<int>, status: Option<string>)
    : (r: Result<Paged<OrderRow>, Thrown>)
    ensures var pg := page.GetOr(DefaultPage); var n := limit.GetOr(DefaultLimit);
      && (r.Failure? <==> GetPagination(pg, n).offset < 0 || n < 0)
      && (r.Failure? ==> r.error == OutOfRange)
      && (r.Success? ==>
        && DescribesPage(r.value.pagination, Count(orders, UserFilterTest(user.id, status)), pg, n)
        && |r.value.rows| <= n
        && (forall i :: 0 <= i < |r.value.rows| ==>
              && MatchesUserFilter(user.id, status, r.value.rows[i].order) && r.value.rows[i].order in orders
              && r.value.rows[i].good == GoodThumbOf(goods, r.value.rows[i].order.goodId))
        && (forall i, j :: 0 <= i < j < |r.value.rows| ==> r.value.rows[i].order.createdAt >= r.value.rows[j].order.createdAt)
        && IsWindow(OrdersOf(r.value.rows), Ranked(orders, UserFilterTest(user.id, status), NewestFirst), GetPagination(pg, n).offset, n))
  {
    var r := ListPage(orders, UserFilterTest(user.id, status), NewestFirst,
                      page.GetOr(DefaultPage), limit.GetOr(DefaultLimit));
    match r
    case Failure(e) => Failure(e)
    case Success(p) =>
      NewestFirstOrder(p.rows);
      RowsOfOrders(goods, p.rows);
      Success(Paged(WithGoods(goods, p.rows), p.pagination))
  }

  /** Rows sorted by `NewestFirst` have non-increasing creation times. */
  lemma NewestFirstOrder(os: seq<Order>)
    requires SortedBy(os, NewestFirst)
    ensures forall i, j :: 0 <= i < j < |os| ==> os[i].createdAt >= os[j].createdAt
  {
    forall i, j | 0 <= i < j < |os|
      ensures os[i].createdAt >= os[j].createdAt
    {
      assert KeyLe(NewestFirst(os[i]), NewestFirst(os[j]));
    }
  }

  /** Pairing orders with their goods keeps the orders. */
  lemma RowsOfOrders(goods: seq<Good>, os: seq<Order>)
    ensures OrdersOf(WithGoods(goods, os)) == os
  {
  }
}
