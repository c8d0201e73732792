/**
 * The buyer-facing catalog (backend/src/controllers/goodController.js):
 * the goods listing with its filters and sort orders, a good's detail with
 * its available stock, the hot and recommended lists, and keyword search.
 * Every response leaves out the cost price.
 */
module GoodController {
  import opened Wrappers
  import opened Strings
  import opened Query
  import opened Helpers
  import opened Errors
  import opened ErrorHandler
  import opened Listing
  import opened GoodModel
  import opened CardModel
  import opened CategoryModel

  // -------------------------------------------------------------------------
  // What buyers see of a good

  /** Every column of a good except `cost_price`, which no response carries. */
  datatype GoodView = GoodView(
    id: nat,
    categoryId: nat,
    name: string,
    description: Option<string>,
    image: Option<string>,
    price: int,
    stock: int,
    sales: int,
    goodType: GoodType,
    status: int,
    isHot: int,
    isRecommend: int,
    sortOrder: int,
    buyLimit: int,
    createdAt: nat,
    updatedAt: nat)

  function PublicView(g: Good): GoodView {
    GoodView(g.id, g.categoryId, g.name, g.description, g.image, g.price, g.stock, g.sales,
             g.goodType, g.status, g.isHot, g.isRecommend, g.sortOrder, g.buyLimit, g.createdAt, g.updatedAt)
  }

  /** The cost price has no influence on what a buyer is shown. */
  lemma PublicViewHidesCost(g: Good, cost: Option<int>)
    ensures PublicView(g.(costPrice := cost)) == PublicView(g)
  {
  }

  /** The `category` association, reduced to its `id` and `name`. */
  datatype CategoryBrief = CategoryBrief(id: nat, name: string)

  /** A good with its category, as the listing, detail, hot, recommended and search responses carry it. */
  datatype Listed = Listed(good: GoodView, category: Option<CategoryBrief>)

  function BriefOf(categories: seq<Category>, id: nat): (r: Option<CategoryBrief>)
    ensures r.Some? ==> r.value.id == id
  {
    match FindCategory(categories, id)
    case None => None
    case Some(c) => Some(CategoryBrief(c.id, c.name))
  }

  function ListedOf(categories: seq<Category>, g: Good): Listed {
    Listed(PublicView(g), BriefOf(categories, g.categoryId))
  }

  /** The goods table joined with categories and projected to what buyers see, row for row. */
  function Catalog(goods: seq<Good>, categories: seq<Category>): (r: seq<Listed>)
    ensures |r| == |goods|
    ensures forall i :: 0 <= i < |goods| ==> r[i] == ListedOf(categories, goods[i])
  {
    if goods == [] then [] else [ListedOf(categories, goods[0])] + Catalog(goods[1..], categories)
  }

  /** The goods table projected to what buyers see, row for row (no category join). */
  function Views(goods: seq<Good>): (r: seq<GoodView>)
    ensures |r| == |goods|
    ensures forall i :: 0 <= i < |goods| ==> r[i] == PublicView(goods[i])
  {
    if goods == [] then [] else [PublicView(goods[0])] + Views(goods[1..])
  }

  // -------------------------------------------------------------------------
  // Sort orders

  datatype SortOrder = PriceAsc | PriceDesc | SalesDesc | Newest | BySortOrder

  /** The `sort` query parameter's meaning; anything unrecognised sorts by `sort_order`. */
  function SortOrderFor(sort: string): (o: SortOrder)
    ensures o == PriceAsc <==> sort == "price_asc"
    ensures o == PriceDesc <==> sort == "price_desc"
    ensures o == SalesDesc <==> sort == "sales"
    ensures o == Newest <==> sort == "created_at"
    ensures o == BySortOrder <==> sort !in {"price_asc", "price_desc", "sales", "created_at"}
  {
    if sort == "price_asc" then PriceAsc
    else if sort == "price_desc" then PriceDesc
    else if sort == "sales" then SalesDesc
    else if sort == "created_at" then Newest
    else BySortOrder
  }

  /** The ORDER BY column of a sort order; descending columns are negated. */
  function GoodKey(o: SortOrder, v: GoodView): seq<int> {
    match o
    case PriceAsc => [v.price]
    case PriceDesc => [-v.price]
    case SalesDesc => [-v.sales]
    case Newest => [-(v.createdAt as int)]
    case BySortOrder => [v.sortOrder]
  }

  function ViewKey(o: SortOrder): GoodView -> seq<int> {
    (v: GoodView) => GoodKey(o, v)
  }

  function ListedKey(o: SortOrder): Listed -> seq<int> {
    (x: Listed) => GoodKey(o, x.good)
  }

  /** What "a comes no later than b" means under each sort order. */
  lemma GoodKeyMeaning(o: SortOrder, a: GoodView, b: GoodView)
    ensures o == PriceAsc ==> (KeyLe(GoodKey(o, a), GoodKey(o, b)) <==> a.price <= b.price)
    ensures o == PriceDesc ==> (KeyLe(GoodKey(o, a), GoodKey(o, b)) <==> a.price >= b.price)
    ensures o == SalesDesc ==> (KeyLe(GoodKey(o, a), GoodKey(o, b)) <==> a.sales >= b.sales)
    ensures o == Newest ==> (KeyLe(GoodKey(o, a), GoodKey(o, b)) <==> a.createdAt >= b.createdAt)
    ensures o == BySortOrder ==> (KeyLe(GoodKey(o, a), GoodKey(o, b)) <==> a.sortOrder <= b.sortOrder)
  {
    match o
    case PriceAsc => KeyLeOne(a.price, b.price);
    case PriceDesc => KeyLeOne(-a.price, -b.price);
    case SalesDesc => KeyLeOne(-a.sales, -b.sales);
    case Newest => KeyLeOne(-(a.createdAt as int), -(b.createdAt as int));
    case BySortOrder => KeyLeOne(a.sortOrder, b.sortOrder);
  }

  // -------------------------------------------------------------------------
  // getGoods

  /**
   * The listing's query parameters: `None` is a parameter that is absent
   * (for `category_id`, also one that is empty).
   */
  datatype GoodsQuery = GoodsQuery(
    page: Option<int>,
    limit: Option<int>,
    categoryId: Option<int>,
    status: Option<int>,
    isHot: Option<int>,
    isRecommend: Option<int>,
    sort: Option<string>)

  const DefaultSort := "sort_order"

  /** The `where` object the listing builds. */
  datatype GoodsWhere = GoodsWhere(status: int, categoryId: Option<int>, isHot: Option<int>, isRecommend: Option<int>)

  predicate Satisfies(w: GoodsWhere, v: GoodView) {
    && v.status == w.status
    && (w.categoryId.Some? ==> v.categoryId == w.categoryId.value)
    && (w.isHot.Some? ==> v.isHot == w.isHot.value)
    && (w.isRecommend.Some? ==> v.isRecommend == w.isRecommend.value)
  }

  /**
   * The goods the listing means: the requested status (listed goods when
   * none is given), and each of category, hot and recommended flag exactly
   * as requested when it is requested.
   */
  predicate InListing(q: GoodsQuery, v: GoodView) {
    && v.status == q.status.GetOr(1)
    && (q.categoryId.Some? ==> v.categoryId == q.categoryId.value)
    && (q.isHot.Some? ==> v.isHot == q.isHot.value)
    && (q.isRecommend.Some? ==> v.isRecommend == q.isRecommend.value)
  }

  function ListingTest(q: GoodsQuery): Listed -> bool {
    (x: Listed) => InListing(q, x.good)
  }

  /**
   * `getGoods`: one page of the goods the query selects, in the requested
   * sort order, with the count of all of them.
   */
  method GetGoods(goods: seq<Good>, categories: seq<Category>, q: GoodsQuery)
    returns (r: Result<Paged<Listed>, Thrown>)
    ensures var page := q.page.GetOr(DefaultPage); var limit := q.limit.GetOr(DefaultLimit);
      && (r.Failure? <==> GetPagination(page, limit).offset < 0 || limit < 0)
      && (r.Failure? ==> r.error == QueryFailed)
      && (r.Success? ==>
        && DescribesPage(r.value.pagination, Count(Catalog(goods, categories), ListingTest(q)), page, limit)
        && |r.value.rows| <= limit
        && (forall i :: 0 <= i < |r.value.rows| ==>
              InListing(q, r.value.rows[i].good) && r.value.rows[i] in Catalog(goods, categories))
        && SortedBy(r.value.rows, ListedKey(SortOrderFor(q.sort.GetOr(DefaultSort))))
        && IsWindow(r.value.rows, Ranked(Catalog(goods, categories), ListingTest(q), ListedKey(SortOrderFor(q.sort.GetOr(DefaultSort)))),
                    GetPagination(page, limit).offset, limit))
  {
    var page := q.page.GetOr(DefaultPage);
    var limit := q.limit.GetOr(DefaultLimit);
    var w := GoodsWhere(q.status.GetOr(1), None, None, None);
    if q.categoryId.Some? {
      w := w.(categoryId := q.categoryId);
    }
    if q.isHot.Some? {
      w := w.(isHot := q.isHot);
    }
    if q.isRecommend.Some? {
      w := w.(isRecommend := q.isRecommend);
    }
    var table := Catalog(goods, categories);
    var test := (x: Listed) => Satisfies(w, x.good);
    assert forall i :: 0 <= i < |table| ==> test(table[i]) == ListingTest(q)(table[i]);
    var key := ListedKey(SortOrderFor(q.sort.GetOr(DefaultSort)));
    ListPageSameTest(table, test, ListingTest(q), key, page, limit);
    r := ListPage(table, test, key, page, limit);
  }

  // -------------------------------------------------------------------------
  // getGoodDetail

  datatype GoodDetail = GoodDetail(good: Listed, availableStock: nat)

  const GoodMissing := NotFoundError("商品不存在")

  /**
   * `getGoodDetail`: a listed good with that id, and its available stock,
   * which is the number of its cards still unused; 404 otherwise.
   */
  function GetGoodDetail(goods: seq<Good>, categories: seq<Category>, cards: seq<Card>, id: int)
    : (r: Result<GoodDetail, ApiError>)
    ensures r.Failure? <==> !exists i :: 0 <= i < |goods| && goods[i].id == id && IsListed(goods[i])
    ensures r.Failure? ==> r.error == GoodMissing
    ensures r.Success? ==>
      && r.value.availableStock == UnusedCount(cards, id as nat)
      && exists i :: 0 <= i < |goods| && goods[i].id == id && IsListed(goods[i])
           && r.value.good == ListedOf(categories, goods[i])
  {
    if id < 0 then Failure(GoodMissing)
    else match FindListedGood(goods, id)
      case None => Failure(GoodMissing)
      case Some(g) =>
        Success(GoodDetail(ListedOf(categories, g), UnusedCount(cards, id)))
  }

  // -------------------------------------------------------------------------
  // getHotGoods and getRecommendGoods

  const DefaultTopLimit := 8

  predicate IsHotListed(x: Listed) { x.good.status == 1 && x.good.isHot == 1 }

  predicate IsRecommendListed(x: Listed) { x.good.status == 1 && x.good.isRecommend == 1 }

  /** `sort_order` ascending, then sales descending. */
  function HotKey(x: Listed): seq<int> { [x.good.sortOrder, -x.good.sales] }

  /** `sort_order` ascending, then newest first. */
  function RecommendKey(x: Listed): seq<int> { [x.good.sortOrder, -(x.good.createdAt as int)] }

  /**
   * `getHotGoods`: the first `limit` (default 8) listed hot goods by
   * `sort_order`, the better-selling first among equals; all of them when
   * fewer exist.
   */
  function GetHotGoods(goods: seq<Good>, categories: seq<Category>, limit: Option<int>)
    : (r: Result<seq<Listed>, Thrown>)
    ensures var n := limit.GetOr(DefaultTopLimit); var hot := Count(Catalog(goods, categories), IsHotListed);
      && (r.Failure? <==> n < 0)
      && (r.Failure? ==> r.error == QueryFailed)
      && (r.Success? ==>
        && |r.value| == (if n <= hot then n else hot)
        && (forall i :: 0 <= i < |r.value| ==> IsHotListed(r.value[i]) && r.value[i] in Catalog(goods, categories))
        && (forall i, j :: 0 <= i < j < |r.value| ==>
              var a := r.value[i].good; var b := r.value[j].good;
              a.sortOrder < b.sortOrder || (a.sortOrder == b.sortOrder && a.sales >= b.sales))
        && r.value == Ranked(Catalog(goods, categories), IsHotListed, HotKey)[..|r.value|])
  {
    var r := ListTop(Catalog(goods, categories), IsHotListed, HotKey, limit.GetOr(DefaultTopLimit));
    if r.Success? then HotOrder(r.value); r else r
  }

  /** Rows sorted by `HotKey` are in `sort_order`, the better-selling first among equals. */
  lemma HotOrder(rows: seq<Listed>)
    requires SortedBy(rows, HotKey)
    ensures forall i, j :: 0 <= i < j < |rows| ==>
      var a := rows[i].good; var b := rows[j].good;
      a.sortOrder < b.sortOrder || (a.sortOrder == b.sortOrder && a.sales >= b.sales)
  {
    forall i, j | 0 <= i < j < |rows|
      ensures var a := rows[i].good; var b := rows[j].good;
        a.sortOrder < b.sortOrder || (a.sortOrder == b.sortOrder && a.sales >= b.sales)
    {
      var a := rows[i].good;
      var b := rows[j].good;
      KeyLeTwo(a.sortOrder, -a.sales, b.sortOrder, -b.sales);
    }
  }

  /**
   * `getRecommendGoods`: the first `limit` (default 8) listed recommended
   * goods by `sort_order`, the newest first among equals.
   */
  function GetRecommendGoods(goods: seq<Good>, categories: seq<Category>, limit: Option<int>)
    : (r: Result<seq<Listed>, Thrown>)
    ensures var n := limit.GetOr(DefaultTopLimit); var rec := Count(Catalog(goods, categories), IsRecommendListed);
      && (r.Failure? <==> n < 0)
      && (r.Failure? ==> r.error == QueryFailed)
      && (r.Success? ==>
        && |r.value| == (if n <= rec then n else rec)
        && (forall i :: 0 <= i < |r.value| ==> IsRecommendListed(r.value[i]) && r.value[i] in Catalog(goods, categories))
        && (forall i, j :: 0 <= i < j < |r.value| ==>
              var a := r.value[i].good; var b := r.value[j].good;
              a.sortOrder < b.sortOrder || (a.sortOrder == b.sortOrder && a.createdAt >= b.createdAt))
        && r.value == Ranked(Catalog(goods, categories), IsRecommendListed, RecommendKey)[..|r.value|])
  {
    var r := ListTop(Catalog(goods, categories), IsRecommendListed, RecommendKey, limit.GetOr(DefaultTopLimit));
    if r.Success? then RecommendOrder(r.value); r else r
  }

  /** Rows sorted by `RecommendKey` are in `sort_order`, the newest first among equals. */
  lemma RecommendOrder(rows: seq<Listed>)
    requires SortedBy(rows, RecommendKey)
    ensures forall i, j :: 0 <= i < j < |rows| ==>
      var a := rows[i].good; var b := rows[j].good;
      a.sortOrder < b.sortOrder || (a.sortOrder == b.sortOrder && a.createdAt >= b.createdAt)
  {
    forall i, j | 0 <= i < j < |rows|
      ensures var a := rows[i].good; var b := rows[j].good;
        a.sortOrder < b.sortOrder || (a.sortOrder == b.sortOrder && a.createdAt >= b.createdAt)
    {
      var a := rows[i].good;
      var b := rows[j].good;
      KeyLeTwo(a.sortOrder, -(a.createdAt as int), b.sortOrder, -(b.createdAt as int));
    }
  }

  // -------------------------------------------------------------------------
  // searchGoods

  const BlankKeyword := BadRequestError("搜索关键词不能为空")

  /** A missing, empty or whitespace-only keyword. */
  predicate IsBlank(keyword: Option<string>) {
    keyword.None? || keyword.value == [] || Trim(keyword.value) == []
  }

  /** A listed good whose name or description contains the keyword. */
  predicate MatchesKeyword(k: string, x: Listed) {
    && x.good.status == 1
    && (Contains(x.good.name, k) || (x.good.description.Some? && Contains(x.good.description.value, k)))
  }

  function KeywordTest(k: string): Listed -> bool {
    (x: Listed) => MatchesKeyword(k, x)
  }

  /** Sales descending, then `sort_order` ascending. */
  function SearchKey(x: Listed): seq<int> { [-x.good.sales, x.good.sortOrder] }

  /** One page of the listed goods matching `k`, best-selling first. */
  function FindByKeyword(goods: seq<Good>, categories: seq<Category>, k: string, page: int, limit: int)
    : (r: Result<Paged<Listed>, Thrown>)
    ensures r.Failure? <==> GetPagination(page, limit).offset < 0 || limit < 0
    ensures r.Failure? ==> r.error == QueryFailed
    ensures r.Success? ==>
      && DescribesPage(r.value.pagination, Count(Catalog(goods, categories), KeywordTest(k)), page, limit)
      && |r.value.rows| <= limit
      && (forall i :: 0 <= i < |r.value.rows| ==>
            MatchesKeyword(k, r.value.rows[i]) && r.value.rows[i] in Catalog(goods, categories))
      && (forall i, j :: 0 <= i < j < |r.value.rows| ==>
            var a := r.value.rows[i].good; var b := r.value.rows[j].good;
            a.sales > b.sales || (a.sales == b.sales && a.sortOrder <= b.sortOrder))
    ensures r.Success? ==>
      IsWindow(r.value.rows, Ranked(Catalog(goods, categories), KeywordTest(k), SearchKey), GetPagination(page, limit).offset, limit)
  {
    var r := ListPage(Catalog(goods, categories), KeywordTest(k), SearchKey, page, limit);
    if r.Success? then SearchOrder(r.value.rows); r else r
  }

  /** Rows sorted by `SearchKey` are best-selling first, then in `sort_order`. */
  lemma SearchOrder(rows: seq<Listed>)
    requires SortedBy(rows, SearchKey)
    ensures forall i, j :: 0 <= i < j < |rows| ==>
      var a := rows[i].good; var b := rows[j].good;
      a.sales > b.sales || (a.sales == b.sales && a.sortOrder <= b.sortOrder)
  {
    forall i, j | 0 <= i < j < |rows|
      ensures var a := rows[i].good; var b := rows[j].good;
        a.sales > b.sales || (a.sales == b.sales && a.sortOrder <= b.sortOrder)
    {
      var a := rows[i].good;
      var b := rows[j].good;
      KeyLeTwo(-a.sales, a.sortOrder, -b.sales, b.sortOrder);
    }
  }

  /**
   * `searchGoods`: a blank keyword is a 400, checked before anything else;
   * otherwise one page of the listed goods matching the trimmed keyword.
   */
  function SearchGoods(goods: seq<Good>, categories: seq<Category>, keyword: Option<string>,
                       page: Option<int>, limit: Option<int>)
    : (r: Result<Paged<Listed>, Thrown>)
    ensures IsBlank(keyword) ==> r == Failure(Api(BlankKeyword))
    ensures !IsBlank(keyword) ==>
      r == FindByKeyword(goods, categories, Trim(keyword.value), page.GetOr(DefaultPage), limit.GetOr(DefaultLimit))
  {
    if IsBlank(keyword) then Failure(Api(BlankKeyword))
    else FindByKeyword(goods, categories, Trim(keyword.value), page.GetOr(DefaultPage), limit.GetOr(DefaultLimit))
  }

  /** A keyword is refused exactly when it is missing or made of whitespace alone. */
  lemma BlankIffWhitespace(keyword: Option<string>)
    ensures IsBlank(keyword) <==> keyword.None? || AllWhitespace(keyword.value)
  {
    if keyword.Some? {
      TrimEmptyIffWhitespace(keyword.value);
    }
  }

  /** Surrounding whitespace in the keyword does not change what is found. */
  lemma SearchIgnoresSurroundingSpace(goods: seq<Good>, categories: seq<Category>, s: string,
                                      page: Option<int>, limit: Option<int>)
    requires !IsBlank(Some(s))
    ensures SearchGoods(goods, categories, Some(s), page, limit)
         == SearchGoods(goods, categories, Some(Trim(s)), page, limit)
  {
    TrimIdempotent(s);
  }
}
