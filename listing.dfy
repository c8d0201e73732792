/**
 * The two query shapes the catalog and order controllers share:
 * a paginated `findAndCountAll` answered through `formatPagination`, and a
 * `findAll` with a plain `LIMIT`.
 */
module Listing {
  import opened Wrappers
  import opened Query
  import opened Helpers
  import opened ErrorHandler

  /** What Sequelize throws when MySQL rejects a negative LIMIT or OFFSET. */
  const QueryFailed := Other(DatabaseName, [])

  /** The matching rows in key order: what the query selects before OFFSET and LIMIT apply. */
  function Ranked<T>(xs: seq<T>, p: T -> bool, key: T -> seq<int>): (s: seq<T>)
    ensures |s| == Count(xs, p)
  {
    SortByCorrect(Filter(xs, p), key);
    SortBy(Filter(xs, p), key)
  }

  /**
   * `findAndCountAll({ where: p, order: key, offset, limit })` for page
   * `page`, wrapped by `formatPagination`: the total counts every matching
   * row, the page holds at most `limit` of them, all matching and in key order,
   * and the page count and next/previous flags follow from the total.
   */
  function ListPage<T>(xs: seq<T>, p: T -> bool, key: T -> seq<int>, page: int, limit: int)
    : (r: Result<Paged<T>, Thrown>)
    ensures r.Failure? <==> GetPagination(page, limit).offset < 0 || limit < 0
    ensures r.Failure? ==> r.error == QueryFailed
    ensures r.Success? ==>
      && DescribesPage(r.value.pagination, Count(xs, p), page, limit)
      && |r.value.rows| <= limit
      && (forall i :: 0 <= i < |r.value.rows| ==> p(r.value.rows[i]) && r.value.rows[i] in xs)
      && SortedBy(r.value.rows, key)
    ensures r.Success? ==> IsWindow(r.value.rows, Ranked(xs, p, key), GetPagination(page, limit).offset, limit)
  {
    var pg := GetPagination(page, limit);
    match Window(SortBy(Filter(xs, p), key), pg.offset, pg.limit)
    case None => Failure(QueryFailed)
    case Some(rows) =>
      PageRows(xs, p, key, pg.offset, pg.limit);
      Success(FormatPagination(rows, Count(xs, p), page, limit))
  }

  /** Two conditions that agree on every row select the same page. */
  lemma ListPageSameTest<T>(xs: seq<T>, p: T -> bool, q: T -> bool, key: T -> seq<int>, page: int, limit: int)
    requires forall i :: 0 <= i < |xs| ==> p(xs[i]) == q(xs[i])
    ensures ListPage(xs, p, key, page, limit) == ListPage(xs, q, key, page, limit)
  {
    FilterSameTest(xs, p, q);
  }

  lemma PageRows<T>(xs: seq<T>, p: T -> bool, key: T -> seq<int>, offset: int, limit: int)
    requires Window(SortBy(Filter(xs, p), key), offset, limit).Some?
    ensures var rows := Window(SortBy(Filter(xs, p), key), offset, limit).value;
      && |rows| <= limit
      && (forall i :: 0 <= i < |rows| ==> p(rows[i]) && rows[i] in xs)
      && SortedBy(rows, key)
  {
    var matching := Filter(xs, p);
    var sorted := SortBy(matching, key);
    SortedFilteredPage(xs, p, key, offset, limit);
    var rows := Window(sorted, offset, limit).value;
    forall i | 0 <= i < |rows|
      ensures rows[i] in xs
    {
      assert rows[i] == sorted[offset + i];
      SortByMembers(matching, key, rows[i]);
    }
  }

  /**
   * `findAll({ where: p, order: key, limit })`: the first `limit` matching
   * rows in key order, or all of them when there are fewer.
   */
  function ListTop<T>(xs: seq<T>, p: T -> bool, key: T -> seq<int>, limit: int)
    : (r: Result<seq<T>, Thrown>)
    ensures r.Failure? <==> limit < 0
    ensures r.Failure? ==> r.error == QueryFailed
    ensures r.Success? ==>
      && |r.value| == (if limit <= Count(xs, p) then limit else Count(xs, p))
      && (forall i :: 0 <= i < |r.value| ==> p(r.value[i]) && r.value[i] in xs)
      && SortedBy(r.value, key)
    ensures r.Success? ==> r.value == Ranked(xs, p, key)[..|r.value|]
  {
    var matching := Filter(xs, p);
    var sorted := SortBy(matching, key);
    match Take(sorted, limit)
    case None => Failure(QueryFailed)
    case Some(rows) =>
      TopRows(xs, p, key, limit);
      Success(rows)
  }

  lemma TopRows<T>(xs: seq<T>, p: T -> bool, key: T -> seq<int>, limit: int)
    requires limit >= 0
    ensures var rows := Take(SortBy(Filter(xs, p), key), limit).value;
      && |rows| == (if limit <= Count(xs, p) then limit else Count(xs, p))
      && (forall i :: 0 <= i < |rows| ==> p(rows[i]) && rows[i] in xs)
      && SortedBy(rows, key)
  {
    var matching := Filter(xs, p);
    var sorted := SortBy(matching, key);
    SortByCorrect(matching, key);
    var rows := Take(sorted, limit).value;
    forall i | 0 <= i < |rows|
      ensures p(rows[i]) && rows[i] in xs
    {
      assert rows[i] == sorted[i];
      SortByMembers(matching, key, rows[i]);
    }
    forall i, j | 0 <= i < j < |rows|
      ensures KeyLe(key(rows[i]), key(rows[j]))
    {
      assert rows[i] == sorted[i] && rows[j] == sorted[j];
    }
  }

  /**
   * The top list is the best of the matching rows: it takes rows from the
   * matching ones without inventing or repeating any, and every matching
   * row left out ranks no better than every row returned.
   */
  lemma ListTopRanksFirst<T>(xs: seq<T>, p: T -> bool, key: T -> seq<int>, limit: int)
    requires limit >= 0
    ensures var rows := ListTop(xs, p, key, limit).value;
      && multiset(rows) <= multiset(Filter(xs, p))
      && forall x, y :: x in multiset(Filter(xs, p)) - multiset(rows) && y in rows ==> KeyLe(key(y), key(x))
  {
    var sorted := SortBy(Filter(xs, p), key);
    SortByCorrect(Filter(xs, p), key);
    var rows := ListTop(xs, p, key, limit).value;
    assert rows == sorted[..|rows|];
    PrefixRanksFirst(sorted, key, |rows|);
  }

  /** In a sorted sequence, whatever lies past a prefix ranks no better than the prefix. */
  lemma PrefixRanksFirst<T>(sorted: seq<T>, key: T -> seq<int>, k: nat)
    requires k <= |sorted| && SortedBy(sorted, key)
    ensures multiset(sorted[..k]) <= multiset(sorted)
    ensures forall x, y :: x in multiset(sorted) - multiset(sorted[..k]) && y in sorted[..k] ==> KeyLe(key(y), key(x))
  {
    assert sorted == sorted[..k] + sorted[k..];
    assert multiset(sorted) == multiset(sorted[..k]) + multiset(sorted[k..]);
    forall x, y | x in multiset(sorted) - multiset(sorted[..k]) && y in sorted[..k]
      ensures KeyLe(key(y), key(x))
    {
      assert x in multiset(sorted[k..]);
      var j :| 0 <= j < |sorted| - k && sorted[k..][j] == x;
      var i :| 0 <= i < k && sorted[..k][i] == y;
      assert sorted[i] == y && sorted[k + j] == x;
    }
  }
}
