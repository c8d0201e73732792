/**
 * The shop's tables as one mutable store. Each field is one table in row
 * order; a controller that inserts or updates rows reassigns the fields it
 * names in its `modifies` clause, and a transaction that rolls back leaves
 * the fields as they were.
 */
module Database {
  import opened GoodModel
  import opened CardModel
  import opened CategoryModel
  import opened OrderModel
  import opened PaymentModel
  import opened PaymentMethodModel
  import opened AccountModel
  import opened LogModel

  class Db {
    var goods: seq<Good>
    var cards: seq<Card>
    var categories: seq<Category>
    var orders: seq<Order>
    var details: seq<OrderDetail>
    var payments: seq<Payment>
    var methods: seq<PaymentMethod>
    var users: seq<User>
    var admins: seq<Admin>
    var logs: seq<LogEntry>

    /** The unique indexes and primary keys the schemas declare. */
    ghost predicate Valid()
      reads this
    {
      && UniqueOrderNos(orders) && UniqueOrderIds(orders)
      && UniquePaymentNos(payments) && UniquePaymentIds(payments)
      && UniqueUsernames(users) && UniqueUserIds(users)
      && UniqueAdminUsernames(admins) && UniqueAdminIds(admins)
      && UniqueGoodIds(goods) && UniqueCategoryIds(categories)
      && UniqueCodes(methods)
    }

    /** An empty shop. */
    constructor()
      ensures Valid()
      ensures goods == [] && cards == [] && categories == [] && orders == [] && details == []
      ensures payments == [] && methods == [] && users == [] && admins == [] && logs == []
    {
      goods, cards, categories, orders, details := [], [], [], [], [];
      payments, methods, users, admins, logs := [], [], [], [], [];
    }
  }
}
