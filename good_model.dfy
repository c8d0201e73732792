/** The `goods` table (backend/src/models/Good.js). Money is held in integer cents. */
module GoodModel {
  import opened Wrappers

  /** The largest magnitude a DECIMAL(10,2) column holds, in cents (99999999.99). */
  const Decimal10_2Max: int := 9_999_999_999

  predicate FitsDecimal10_2(cents: int) {
    -Decimal10_2Max <= cents <= Decimal10_2Max
  }

  datatype GoodType = Virtual | Physical

  datatype Good = Good(
    id: nat,
    categoryId: nat,
    name: string,
    description: Option<string>,
    image: Option<string>,
    price: int,              // DECIMAL(10,2), cents
    costPrice: Option<int>,  // DECIMAL(10,2), cents; never shown to buyers
    stock: int,
    sales: int,
    goodType: GoodType,
    status: int,             // TINYINT: 1 listed, 0 unlisted
    isHot: int,
    isRecommend: int,
    sortOrder: int,
    buyLimit: int,           // 0 means no limit
    createdAt: nat,
    updatedAt: nat)

  /** The primary key of `goods`. */
  ghost predicate UniqueGoodIds(goods: seq<Good>) {
    forall i, j :: 0 <= i < j < |goods| ==> goods[i].id != goods[j].id
  }

  predicate IsListed(g: Good) {
    g.status == 1
  }

  /** The buy-limit test of the order controller: a limit of 0 never rejects. */
  predicate WithinBuyLimit(g: Good, quantity: int) {
    !(g.buyLimit > 0 && quantity > g.buyLimit)
  }

  lemma BuyLimitMeaning(g: Good, quantity: int)
    ensures g.buyLimit <= 0 ==> WithinBuyLimit(g, quantity)
    ensures g.buyLimit > 0 ==> (WithinBuyLimit(g, quantity) <==> quantity <= g.buyLimit)
  {
  }

  /**
   * A row inserted with only its required columns: the column defaults make it
   * listed, virtual, with zero stock and sales, not hot, not recommended, and
   * without a purchase limit.
   */
  function NewGood(id: nat, categoryId: nat, name: string, price: int, createdAt: nat): (g: Good)
    requires FitsDecimal10_2(price)
    ensures IsListed(g) && g.goodType == Virtual
    ensures g.stock == 0 && g.sales == 0 && g.isHot == 0 && g.isRecommend == 0 && g.sortOrder == 0
    ensures forall q :: WithinBuyLimit(g, q)
    ensures g.id == id && g.categoryId == categoryId && g.name == name && g.price == price
    ensures g.createdAt == createdAt && g.updatedAt == createdAt
  {
    Good(id, categoryId, name, None, None, price, None, 0, 0, Virtual, 1, 0, 0, 0, 0, createdAt, createdAt)
  }

  function FindGood(goods: seq<Good>, id: nat): (r: Option<Good>)
    ensures r.Some? ==> r.value in goods && r.value.id == id
    ensures r.None? ==> forall i :: 0 <= i < |goods| ==> goods[i].id != id
  {
    if goods == [] then None
    else if goods[0].id == id then Some(goods[0])
    else FindGood(goods[1..], id)
  }

  /** `Good.findOne({ where: { id, status: 1 } })`. */
  function FindListedGood(goods: seq<Good>, id: nat): (r: Option<Good>)
    ensures r.Some? ==> r.value in goods && r.value.id == id && IsListed(r.value)
    ensures r.None? ==> forall i :: 0 <= i < |goods| ==> !(goods[i].id == id && IsListed(goods[i]))
  {
    if goods == [] then None
    else if goods[0].id == id && IsListed(goods[0]) then Some(goods[0])
    else FindListedGood(goods[1..], id)
  }
}
