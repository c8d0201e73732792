/**
 * The part of a Sequelize `findAll`/`findAndCountAll`/`count` that the
 * controllers rely on, over a table held as a sequence: a WHERE filter, an
 * ORDER BY on integer key columns (descending columns are negated by the
 * caller), and LIMIT/OFFSET.
 */
module Query {
  import opened Wrappers

  // -------------------------------------------------------------------------
  // WHERE and COUNT

  function Filter<T>(xs: seq<T>, p: T -> bool): (r: seq<T>)
    ensures |r| <= |xs|
    ensures forall i :: 0 <= i < |r| ==> p(r[i])
    ensures forall i :: 0 <= i < |r| ==> r[i] in xs
    ensures forall i :: 0 <= i < |xs| && p(xs[i]) ==> xs[i] in r
  {
    if xs == [] then []
    else if p(xs[0]) then [xs[0]] + Filter(xs[1..], p)
    else Filter(xs[1..], p)
  }

  /** `Model.count({ where })`. */
  function Count<T>(xs: seq<T>, p: T -> bool): nat {
    |Filter(xs, p)|
  }

  lemma {:induction false} FilterAppend<T>(a: seq<T>, b: seq<T>, p: T -> bool)
    ensures Filter(a + b, p) == Filter(a, p) + Filter(b, p)
  {
    if a == [] {
      assert a + b == b;
    } else {
      assert (a + b)[0] == a[0];
      assert (a + b)[1..] == a[1..] + b;
      FilterAppend(a[1..], b, p);
    }
  }

  /** Counting splits over concatenation: adding a row changes a count by at most one. */
  lemma CountAppend<T>(a: seq<T>, b: seq<T>, p: T -> bool)
    ensures Count(a + b, p) == Count(a, p) + Count(b, p)
  {
    FilterAppend(a, b, p);
  }

  /** Keeps the rows that pass the test, in table order: filtering twice by the same test changes nothing. */
  lemma {:induction false} FilterIdempotent<T>(xs: seq<T>, p: T -> bool)
    ensures Filter(Filter(xs, p), p) == Filter(xs, p)
  {
    if xs != [] {
      FilterIdempotent(xs[1..], p);
    }
  }

  /** Rows that all pass a test are left as they are. */
  lemma {:induction false} FilterAll<T>(xs: seq<T>, p: T -> bool)
    requires forall i :: 0 <= i < |xs| ==> p(xs[i])
    ensures Filter(xs, p) == xs
  {
    if xs != [] {
      FilterAll(xs[1..], p);
    }
  }

  /** The rows kept depend only on what the test says about each row. */
  lemma {:induction false} FilterSameTest<T>(xs: seq<T>, p: T -> bool, q: T -> bool)
    requires forall i :: 0 <= i < |xs| ==> p(xs[i]) == q(xs[i])
    ensures Filter(xs, p) == Filter(xs, q)
  {
    if xs != [] {
      FilterSameTest(xs[1..], p, q);
    }
  }

  // -------------------------------------------------------------------------
  // ORDER BY

  /** Lexicographic order on key tuples: `a` may come before `b`. */
  predicate KeyLe(a: seq<int>, b: seq<int>) {
    if a == [] then true
    else if b == [] then false
    else a[0] < b[0] || (a[0] == b[0] && KeyLe(a[1..], b[1..]))
  }

  lemma {:induction false} KeyLeTotal(a: seq<int>, b: seq<int>)
    ensures KeyLe(a, b) || KeyLe(b, a)
  {
    if a != [] && b != [] && a[0] == b[0] {
      KeyLeTotal(a[1..], b[1..]);
    }
  }

  lemma {:induction false} KeyLeTrans(a: seq<int>, b: seq<int>, c: seq<int>)
    requires KeyLe(a, b) && KeyLe(b, c)
    ensures KeyLe(a, c)
  {
    if a != [] && b != [] && c != [] && a[0] == b[0] && b[0] == c[0] {
      KeyLeTrans(a[1..], b[1..], c[1..]);
    }
  }

  /** Ordering by one column. */
  lemma KeyLeOne(a: int, b: int)
    ensures KeyLe([a], [b]) <==> a <= b
  {
    assert [a][1..] == [] && [b][1..] == [];
  }

  /** Ordering by two columns: the second breaks ties in the first. */
  lemma KeyLeTwo(a0: int, a1: int, b0: int, b1: int)
    ensures KeyLe([a0, a1], [b0, b1]) <==> a0 < b0 || (a0 == b0 && a1 <= b1)
  {
    assert [a0, a1][1..] == [a1] && [b0, b1][1..] == [b1];
    KeyLeOne(a1, b1);
  }

  ghost predicate SortedBy<T>(xs: seq<T>, key: T -> seq<int>) {
    forall i, j :: 0 <= i < j < |xs| ==> KeyLe(key(xs[i]), key(xs[j]))
  }

  function Insert<T>(x: T, xs: seq<T>, key: T -> seq<int>): seq<T> {
    if xs == [] then [x]
    else if KeyLe(key(x), key(xs[0])) then [x] + xs
    else [xs[0]] + Insert(x, xs[1..], key)
  }

  /** The model's ORDER BY: an insertion sort on the key tuple. */
  function SortBy<T>(xs: seq<T>, key: T -> seq<int>): seq<T> {
    if xs == [] then [] else Insert(xs[0], SortBy(xs[1..], key), key)
  }

  lemma {:induction false} InsertPerm<T>(x: T, xs: seq<T>, key: T -> seq<int>)
    ensures multiset(Insert(x, xs, key)) == multiset(xs) + multiset{x}
  {
    if xs != [] && !KeyLe(key(x), key(xs[0])) {
      InsertPerm(x, xs[1..], key);
      assert xs == [xs[0]] + xs[1..];
    }
  }

  lemma {:induction false} InsertSorted<T>(x: T, xs: seq<T>, key: T -> seq<int>)
    requires SortedBy(xs, key)
    ensures SortedBy(Insert(x, xs, key), key)
  {
    if xs == [] {
    } else if KeyLe(key(x), key(xs[0])) {
      forall j | 0 <= j < |xs| ensures KeyLe(key(x), key(xs[j])) {
        if j > 0 { KeyLeTrans(key(x), key(xs[0]), key(xs[j])); }
      }
    } else {
      KeyLeTotal(key(x), key(xs[0]));
      var rest := Insert(x, xs[1..], key);
      InsertSorted(x, xs[1..], key);
      InsertPerm(x, xs[1..], key);
      forall j | 0 <= j < |rest| ensures KeyLe(key(xs[0]), key(rest[j])) {
        assert rest[j] in multiset(rest);
        if rest[j] != x {
          assert rest[j] in multiset(xs[1..]);
          var k :| 1 <= k < |xs| && xs[k] == rest[j] by {
            assert rest[j] in xs[1..];
            var k' :| 0 <= k' < |xs[1..]| && xs[1..][k'] == rest[j];
            assert xs[k' + 1] == rest[j];
          }
        }
      }
    }
  }

  /** ORDER BY returns the same rows, ordered by the key. */
  lemma {:induction false} SortByCorrect<T>(xs: seq<T>, key: T -> seq<int>)
    ensures multiset(SortBy(xs, key)) == multiset(xs)
    ensures |SortBy(xs, key)| == |xs|
    ensures SortedBy(SortBy(xs, key), key)
  {
    if xs == [] {
    } else {
      SortByCorrect(xs[1..], key);
      InsertPerm(xs[0], SortBy(xs[1..], key), key);
      InsertSorted(xs[0], SortBy(xs[1..], key), key);
      assert xs == [xs[0]] + xs[1..];
    }
    var r := SortBy(xs, key);
    assert |r| == |multiset(r)| == |multiset(xs)| == |xs|;
  }

  /** Sorting never adds or drops a row: membership is exactly that of the table. */
  lemma SortByMembers<T>(xs: seq<T>, key: T -> seq<int>, x: T)
    ensures x in SortBy(xs, key) <==> x in xs
  {
    SortByCorrect(xs, key);
    assert x in SortBy(xs, key) <==> x in multiset(SortBy(xs, key));
    assert x in xs <==> x in multiset(xs);
  }

  // -------------------------------------------------------------------------
  // Rows without repeats

  ghost predicate NoDuplicates<T>(s: seq<T>) {
    forall i, j :: 0 <= i < j < |s| ==> s[i] != s[j]
  }

  lemma {:induction false} NoDuplicatesCountOnce<T>(s: seq<T>, x: T)
    requires NoDuplicates(s)
    ensures multiset(s)[x] <= 1
  {
    if s != [] {
      assert s == [s[0]] + s[1..];
      assert NoDuplicates(s[1..]) by {
        forall i, j | 0 <= i < j < |s[1..]|
          ensures s[1..][i] != s[1..][j]
        {
          assert s[1..][i] == s[i + 1] && s[1..][j] == s[j + 1];
        }
      }
      NoDuplicatesCountOnce(s[1..], x);
      if s[0] == x {
        assert x !in s[1..] by {
          forall k | 0 <= k < |s[1..]|
            ensures s[1..][k] != x
          {
            assert s[1..][k] == s[k + 1];
          }
        }
      }
    }
  }

  lemma RepeatCountsTwice<T>(s: seq<T>, i: int, j: int)
    requires 0 <= i < j < |s|
    ensures s[i] == s[j] ==> multiset(s)[s[i]] >= 2
  {
    assert s == s[..j] + s[j..];
    assert s[i] == s[..j][i];
    assert s[j] == s[j..][0];
  }

  /** A reordering of rows without repeats has none either. */
  lemma PermutationKeepsNoDuplicates<T>(a: seq<T>, b: seq<T>)
    requires multiset(a) == multiset(b) && NoDuplicates(a)
    ensures NoDuplicates(b)
  {
    forall i, j | 0 <= i < j < |b|
      ensures b[i] != b[j]
    {
      NoDuplicatesCountOnce(a, b[i]);
      RepeatCountsTwice(b, i, j);
    }
  }

  lemma {:induction false} FilterKeepsNoDuplicates<T>(xs: seq<T>, p: T -> bool)
    requires NoDuplicates(xs)
    ensures NoDuplicates(Filter(xs, p))
  {
    if xs != [] {
      var rest := xs[1..];
      assert NoDuplicates(rest) by {
        forall i, j | 0 <= i < j < |rest|
          ensures rest[i] != rest[j]
        {
          assert rest[i] == xs[i + 1] && rest[j] == xs[j + 1];
        }
      }
      FilterKeepsNoDuplicates(rest, p);
      if p(xs[0]) {
        var r := Filter(xs, p);
        assert r == [xs[0]] + Filter(rest, p);
        forall i, j | 0 <= i < j < |r|
          ensures r[i] != r[j]
        {
          if i == 0 {
            var m :| 0 <= m < |rest| && rest[m] == r[j];
            assert rest[m] == xs[m + 1];
          } else {
            assert r[i] == Filter(rest, p)[i - 1] && r[j] == Filter(rest, p)[j - 1];
          }
        }
      }
    }
  }

  // -------------------------------------------------------------------------
  // LIMIT / OFFSET

  /**
   * `rows` is what `OFFSET offset LIMIT limit` selects from `s`: the
   * elements of `s` from position `offset` on, as many as `limit` allows
   * and `s` still has.
   */
  ghost predicate IsWindow<T>(rows: seq<T>, s: seq<T>, offset: int, limit: int) {
    && 0 <= offset && 0 <= limit
    && |rows| == (if offset >= |s| then 0 else if offset + limit <= |s| then limit else |s| - offset)
    && forall i :: 0 <= i < |rows| ==> offset + i < |s| && rows[i] == s[offset + i]
  }

  /**
   * `LIMIT offset, limit`. The database rejects a negative offset or limit,
   * which reaches the request as a database error (None).
   */
  function Window<T>(xs: seq<T>, offset: int, limit: int): (r: Option<seq<T>>)
    ensures r.None? <==> offset < 0 || limit < 0
    ensures r.Some? ==> |r.value| <= limit
    ensures r.Some? ==> forall i :: 0 <= i < |r.value| ==> offset + i < |xs| && r.value[i] == xs[offset + i]
    ensures r.Some? && offset + limit <= |xs| ==> |r.value| == limit
    ensures r.Some? && offset <= |xs| < offset + limit ==> |r.value| == |xs| - offset
    ensures r.Some? ==> IsWindow(r.value, xs, offset, limit)
  {
    if offset < 0 || limit < 0 then None
    else if offset >= |xs| then Some([])
    else if offset + limit >= |xs| then Some(xs[offset..])
    else Some(xs[offset..offset + limit])
  }

  /** `LIMIT limit` (no offset), as the hot and recommended lists use it. */
  function Take<T>(xs: seq<T>, limit: int): (r: Option<seq<T>>)
    ensures r.None? <==> limit < 0
    ensures r.Some? ==> |r.value| <= limit && |r.value| <= |xs| && r.value == xs[..|r.value|]
    ensures r.Some? ==> |r.value| == if limit <= |xs| then limit else |xs|
  {
    if limit < 0 then None else if limit >= |xs| then Some(xs) else Some(xs[..limit])
  }

  /** A page of a sorted result is sorted, and holds only rows of that result. */
  lemma WindowSorted<T>(xs: seq<T>, key: T -> seq<int>, offset: int, limit: int)
    requires SortedBy(xs, key)
    requires Window(xs, offset, limit).Some?
    ensures SortedBy(Window(xs, offset, limit).value, key)
    ensures forall i :: 0 <= i < |Window(xs, offset, limit).value| ==> Window(xs, offset, limit).value[i] in xs
  {
    var w := Window(xs, offset, limit).value;
    forall i, j | 0 <= i < j < |w|
      ensures KeyLe(key(w[i]), key(w[j]))
    {
      assert w[i] == xs[offset + i] && w[j] == xs[offset + j];
    }
  }

  /**
   * One page of `SELECT ... WHERE p ORDER BY key`: its rows all satisfy the
   * condition and come in key order.
   */
  lemma SortedFilteredPage<T>(xs: seq<T>, p: T -> bool, key: T -> seq<int>, offset: int, limit: int)
    requires Window(SortBy(Filter(xs, p), key), offset, limit).Some?
    ensures var w := Window(SortBy(Filter(xs, p), key), offset, limit).value;
      && SortedBy(w, key)
      && (forall i :: 0 <= i < |w| ==> p(w[i]))
  {
    var matching := Filter(xs, p);
    var sorted := SortBy(matching, key);
    SortByCorrect(matching, key);
    WindowSorted(sorted, key, offset, limit);
    var w := Window(sorted, offset, limit).value;
    forall i | 0 <= i < |w|
      ensures p(w[i])
    {
      SortByMembers(matching, key, w[i]);
      var k :| 0 <= k < |matching| && matching[k] == w[i];
    }
  }
}
