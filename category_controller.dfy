/**
 * Browsing by category (backend/src/controllers/categoryController.js):
 * the category list with per-category goods counts, one category's detail,
 * and one page of a category's goods.
 */
module CategoryController {
  import opened Wrappers
  import opened Query
  import opened Helpers
  import opened Errors
  import opened ErrorHandler
  import opened Listing
  import opened GoodModel
  import opened CategoryModel
  import opened GoodController

  /** A listed good of category `id`: what `goods_count` counts. */
  predicate ListedIn(id: int, g: Good) {
    g.categoryId == id && IsListed(g)
  }

  function ListedInTest(id: int): Good -> bool {
    (g: Good) => ListedIn(id, g)
  }

  /** `Good.count({ where: { category_id: id, status: 1 } })`. */
  function GoodsCount(goods: seq<Good>, id: int): nat {
    Count(goods, ListedInTest(id))
  }

  // -------------------------------------------------------------------------
  // getCategories

  /** A category in the list: its shown columns and its goods count. */
  datatype CategorySummary = CategorySummary(
    id: nat, name: string, description: Option<string>, icon: Option<string>, sortOrder: int, goodsCount: nat)

  function SummaryOf(goods: seq<Good>, c: Category): CategorySummary {
    CategorySummary(c.id, c.name, c.description, c.icon, c.sortOrder, GoodsCount(goods, c.id))
  }

  function Summaries(goods: seq<Good>, cs: seq<Category>): (r: seq<CategorySummary>)
    ensures |r| == |cs|
    ensures forall i :: 0 <= i < |cs| ==> r[i] == SummaryOf(goods, cs[i])
  {
    if cs == [] then [] else [SummaryOf(goods, cs[0])] + Summaries(goods, cs[1..])
  }

  /** `sort_order` ascending, then id ascending. */
  function CategoryKey(c: Category): seq<int> { [c.sortOrder, c.id] }

  function StatusTest(status: int): Category -> bool {
    (c: Category) => c.status == status
  }

  /**
   * `getCategories`: every category with the requested status (enabled
   * ones when none is given), ordered by `sort_order` then id, each with
   * the number of its listed goods.
   */
  function GetCategories(categories: seq<Category>, goods: seq<Good>, status: Option<int>)
    : (r: seq<CategorySummary>)
    ensures var s := status.GetOr(1);
      && |r| == Count(categories, StatusTest(s))
      && (forall i :: 0 <= i < |r| ==>
            exists k :: 0 <= k < |categories| && categories[k].status == s && r[i] == SummaryOf(goods, categories[k]))
      && (forall i :: 0 <= i < |r| ==> r[i].goodsCount == GoodsCount(goods, r[i].id))
      && (forall i, j :: 0 <= i < j < |r| ==>
            r[i].sortOrder < r[j].sortOrder || (r[i].sortOrder == r[j].sortOrder && r[i].id <= r[j].id))
  {
    var shown := SortBy(Filter(categories, StatusTest(status.GetOr(1))), CategoryKey);
    ShownCategories(categories, status.GetOr(1));
    Summaries(goods, shown)
  }

  /** No category with the requested status is left out of the list. */
  lemma CategoriesComplete(categories: seq<Category>, goods: seq<Good>, status: Option<int>)
    ensures var r := GetCategories(categories, goods, status);
      forall k :: 0 <= k < |categories| && categories[k].status == status.GetOr(1) ==>
        SummaryOf(goods, categories[k]) in r
  {
    var shown := SortBy(Filter(categories, StatusTest(status.GetOr(1))), CategoryKey);
    ShownCategories(categories, status.GetOr(1));
    var r := Summaries(goods, shown);
    assert r == GetCategories(categories, goods, status);
    forall k | 0 <= k < |categories| && categories[k].status == status.GetOr(1)
      ensures SummaryOf(goods, categories[k]) in r
    {
      var i :| 0 <= i < |shown| && shown[i] == categories[k];
      assert r[i] == SummaryOf(goods, shown[i]);
    }
  }

  lemma ShownCategories(categories: seq<Category>, s: int)
    ensures var shown := SortBy(Filter(categories, StatusTest(s)), CategoryKey);
      && |shown| == Count(categories, StatusTest(s))
      && (forall i :: 0 <= i < |shown| ==>
            exists k :: 0 <= k < |categories| && categories[k].status == s && shown[i] == categories[k])
      && (forall k :: 0 <= k < |categories| && categories[k].status == s ==> categories[k] in shown)
      && (forall i, j :: 0 <= i < j < |shown| ==>
            shown[i].sortOrder < shown[j].sortOrder || (shown[i].sortOrder == shown[j].sortOrder && shown[i].id <= shown[j].id))
  {
    var matching := Filter(categories, StatusTest(s));
    var shown := SortBy(matching, CategoryKey);
    SortByCorrect(matching, CategoryKey);
    forall i | 0 <= i < |shown|
      ensures exists k :: 0 <= k < |categories| && categories[k].status == s && shown[i] == categories[k]
    {
      SortByMembers(matching, CategoryKey, shown[i]);
      var m :| 0 <= m < |matching| && matching[m] == shown[i];
      var k :| 0 <= k < |categories| && categories[k] == shown[i];
    }
    forall k | 0 <= k < |categories| && categories[k].status == s
      ensures categories[k] in shown
    {
      SortByMembers(matching, CategoryKey, categories[k]);
    }
    forall i, j | 0 <= i < j < |shown|
      ensures shown[i].sortOrder < shown[j].sortOrder || (shown[i].sortOrder == shown[j].sortOrder && shown[i].id <= shown[j].id)
    {
      KeyLeTwo(shown[i].sortOrder, shown[i].id, shown[j].sortOrder, shown[j].id);
    }
  }

  /** With `id` the primary key, the sorted categories name no category twice. */
  lemma ShownOnce(categories: seq<Category>, s: int)
    requires UniqueCategoryIds(categories)
    ensures var shown := SortBy(Filter(categories, StatusTest(s)), CategoryKey);
      forall i, j :: 0 <= i < j < |shown| ==> shown[i].id != shown[j].id
  {
    var matching := Filter(categories, StatusTest(s));
    var shown := SortBy(matching, CategoryKey);
    SortByCorrect(matching, CategoryKey);
    assert NoDuplicates(categories);
    FilterKeepsNoDuplicates(categories, StatusTest(s));
    PermutationKeepsNoDuplicates(matching, shown);
    forall i, j | 0 <= i < j < |shown|
      ensures shown[i].id != shown[j].id
    {
      SortByMembers(matching, CategoryKey, shown[i]);
      SortByMembers(matching, CategoryKey, shown[j]);
      var a :| 0 <= a < |categories| && categories[a] == shown[i];
      var b :| 0 <= b < |categories| && categories[b] == shown[j];
    }
  }

  /**
   * With `id` the primary key, the list names no category twice: equal
   * `sort_order` is broken by a strictly larger id.
   */
  lemma CategoriesListedOnce(categories: seq<Category>, goods: seq<Good>, status: Option<int>)
    requires UniqueCategoryIds(categories)
    ensures var r := GetCategories(categories, goods, status);
      forall i, j :: 0 <= i < j < |r| ==>
        r[i].sortOrder < r[j].sortOrder || (r[i].sortOrder == r[j].sortOrder && r[i].id < r[j].id)
  {
    SummariesStrictlyOrdered(categories, goods, status.GetOr(1));
    assert GetCategories(categories, goods, status)
        == Summaries(goods, SortBy(Filter(categories, StatusTest(status.GetOr(1))), CategoryKey));
  }

  lemma SummariesStrictlyOrdered(categories: seq<Category>, goods: seq<Good>, s: int)
    requires UniqueCategoryIds(categories)
    ensures var r := Summaries(goods, SortBy(Filter(categories, StatusTest(s)), CategoryKey));
      forall i, j :: 0 <= i < j < |r| ==>
        r[i].sortOrder < r[j].sortOrder || (r[i].sortOrder == r[j].sortOrder && r[i].id < r[j].id)
  {
    var shown := SortBy(Filter(categories, StatusTest(s)), CategoryKey);
    ShownOnce(categories, s);
    ShownCategories(categories, s);
    var r := Summaries(goods, shown);
    forall i, j | 0 <= i < j < |r|
      ensures r[i].sortOrder < r[j].sortOrder || (r[i].sortOrder == r[j].sortOrder && r[i].id < r[j].id)
    {
      assert r[i] == SummaryOf(goods, shown[i]) && r[j] == SummaryOf(goods, shown[j]);
    }
  }

  // -------------------------------------------------------------------------
  // getCategoryDetail

  datatype CategoryDetail = CategoryDetail(
    id: nat, name: string, description: Option<string>, icon: Option<string>, goodsCount: nat)

  const CategoryMissing := NotFoundError("分类不存在")

  /** An enabled category with id `id` exists. */
  predicate CategoryExists(categories: seq<Category>, id: int) {
    exists i :: 0 <= i < |categories| && categories[i].id == id && IsEnabled(categories[i])
  }

  /**
   * `getCategoryDetail`: an enabled category with that id and the number
   * of its listed goods; 404 otherwise.
   */
  function GetCategoryDetail(categories: seq<Category>, goods: seq<Good>, id: int)
    : (r: Result<CategoryDetail, ApiError>)
    ensures r.Failure? <==> !CategoryExists(categories, id)
    ensures r.Failure? ==> r.error == CategoryMissing
    ensures r.Success? ==>
      && r.value.id == id
      && r.value.goodsCount == GoodsCount(goods, id)
      && exists i :: 0 <= i < |categories| && categories[i].id == id && IsEnabled(categories[i])
           && r.value.name == categories[i].name && r.value.description == categories[i].description
           && r.value.icon == categories[i].icon
  {
    if id < 0 then Failure(CategoryMissing)
    else match FindEnabledCategory(categories, id)
      case None => Failure(CategoryMissing)
      case Some(c) => Success(CategoryDetail(c.id, c.name, c.description, c.icon, GoodsCount(goods, id)))
  }

  // -------------------------------------------------------------------------
  // getCategoryGoods

  datatype CategoryHeader = CategoryHeader(id: nat, name: string, description: Option<string>)

  datatype CategoryGoods = CategoryGoods(category: CategoryHeader, goods: Paged<GoodView>)

  predicate InCategory(id: int, v: GoodView) {
    v.categoryId == id && v.status == 1
  }

  function InCategoryTest(id: int): GoodView -> bool {
    (v: GoodView) => InCategory(id, v)
  }

  /**
   * `getCategoryGoods`: 404 unless the category exists and is enabled,
   * checked before the page is read; then one page of its listed goods in
   * the requested sort order (default `sort_order`), without cost prices.
   */
  function GetCategoryGoods(categories: seq<Category>, goods: seq<Good>, id: int,
                            page: Option<int>, limit: Option<int>, sort: Option<string>)
    : (r: Result<CategoryGoods, Thrown>)
    ensures !CategoryExists(categories, id) ==> r == Failure(Api(CategoryMissing))
    ensures CategoryExists(categories, id) ==>
      var pg := page.GetOr(DefaultPage); var n := limit.GetOr(DefaultLimit);
      && (r.Failure? <==> GetPagination(pg, n).offset < 0 || n < 0)
      && (r.Failure? ==> r.error == QueryFailed)
      && (r.Success? ==>
        && r.value.category.id == id
        && DescribesPage(r.value.goods.pagination, Count(Views(goods), InCategoryTest(id)), pg, n)
        && |r.value.goods.rows| <= n
        && (forall i :: 0 <= i < |r.value.goods.rows| ==>
              InCategory(id, r.value.goods.rows[i]) && r.value.goods.rows[i] in Views(goods))
        && SortedBy(r.value.goods.rows, ViewKey(SortOrderFor(sort.GetOr(DefaultSort))))
        && IsWindow(r.value.goods.rows, Ranked(Views(goods), InCategoryTest(id), ViewKey(SortOrderFor(sort.GetOr(DefaultSort)))),
                    GetPagination(pg, n).offset, n))
  {
    if id < 0 then Failure(Api(CategoryMissing))
    else match FindEnabledCategory(categories, id)
      case None => Failure(Api(CategoryMissing))
      case Some(c) =>
        var rows := ListPage(Views(goods), InCategoryTest(id), ViewKey(SortOrderFor(sort.GetOr(DefaultSort))),
                             page.GetOr(DefaultPage), limit.GetOr(DefaultLimit));
        match rows
        case Failure(e) => Failure(e)
        case Success(p) => Success(CategoryGoods(CategoryHeader(c.id, c.name, c.description), p))
  }

  /**
   * A category's goods count and the total of its goods listing agree: both
   * count its listed goods.
   */
  lemma {:induction false} CountsAgree(goods: seq<Good>, id: int)
    ensures Count(Views(goods), InCategoryTest(id)) == GoodsCount(goods, id)
  {
    if goods != [] {
      var vs := Views(goods);
      assert vs[0] == PublicView(goods[0]);
      assert vs[1..] == Views(goods[1..]);
      CountsAgree(goods[1..], id);
    }
  }
}
