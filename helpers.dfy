/**
 * Utilities of the backend: order and payment numbers, pagination arithmetic
 * and masking of sensitive fields (backend/src/utils/helpers.js).
 * The clock and `Math.random()` are parameters.
 */
module Helpers {
  import opened Wrappers
  import opened Strings
  import opened Js

  // -------------------------------------------------------------------------
  // Order and payment numbers

  /** `Math.floor(Math.random() * 9000) + 1000` for a draw `random` in [0, 1). */
  function RandomSuffix(random: real): (n: nat)
    requires 0.0 <= random < 1.0
    ensures 1000 <= n <= 9999
  {
    var f := (random * 9000.0).Floor;
    assert 0 <= f < 9000 by {
      assert f as real <= random * 9000.0 < f as real + 1.0;
    }
    f + 1000
  }

  lemma FourDigits(n: nat)
    requires 1000 <= n <= 9999
    ensures NumDigits(n) == 4
  {
    var a := n / 10;
    var b := a / 10;
    var c := b / 10;
    assert 1 <= c <= 9 && NumDigits(c) == 1;
    assert 10 <= b <= 99 && NumDigits(b) == 2;
    assert 100 <= a <= 999 && NumDigits(a) == 3;
  }

  /** The decimal timestamp followed by the four-digit suffix, as `${timestamp}${random}` writes it. */
  function StampWithSuffix(timestamp: nat, suffix: nat): (s: string)
    requires 1000 <= suffix <= 9999
    ensures AllDigits(s) && |s| == NumDigits(timestamp) + 4
    ensures ParseNat(s[..|s| - 4]) == timestamp
    ensures ParseNat(s[|s| - 4..]) == suffix
  {
    FourDigits(suffix);
    ParseNatToString(timestamp);
    ParseNatToString(suffix);
    var s := NatToString(timestamp) + NatToString(suffix);
    assert s[..|s| - 4] == NatToString(timestamp);
    assert s[|s| - 4..] == NatToString(suffix);
    s
  }

  /**
   * `generateOrderNo`: all digits; dropping the last four gives back the
   * timestamp and the last four read as a number in 1000..9999.
   */
  function GenerateOrderNo(now: nat, random: real): (no: string)
    requires 0.0 <= random < 1.0
    ensures AllDigits(no) && |no| == NumDigits(now) + 4
    ensures ParseNat(no[..|no| - 4]) == now
    ensures 1000 <= ParseNat(no[|no| - 4..]) <= 9999
  {
    StampWithSuffix(now, RandomSuffix(random))
  }

  /** `generatePaymentNo`: "PAY", then the decimal timestamp, then a four-digit suffix. */
  function GeneratePaymentNo(now: nat, random: real): (no: string)
    requires 0.0 <= random < 1.0
    ensures |no| == 3 + NumDigits(now) + 4
    ensures no[..3] == "PAY" && AllDigits(no[3..])
    ensures ParseNat(no[3..|no| - 4]) == now
    ensures 1000 <= ParseNat(no[|no| - 4..]) <= 9999
  {
    var tail := StampWithSuffix(now, RandomSuffix(random));
    var no := "PAY" + tail;
    assert no[3..] == tail;
    assert no[3..|no| - 4] == tail[..|tail| - 4];
    assert no[|no| - 4..] == tail[|tail| - 4..];
    no
  }

  /** Two order numbers drawn at different instants differ. */
  lemma OrderNoDeterminesTime(t1: nat, r1: real, t2: nat, r2: real)
    requires 0.0 <= r1 < 1.0 && 0.0 <= r2 < 1.0
    requires GenerateOrderNo(t1, r1) == GenerateOrderNo(t2, r2)
    ensures t1 == t2 && RandomSuffix(r1) == RandomSuffix(r2)
  {
    var a := GenerateOrderNo(t1, r1);
    assert ParseNat(a[..|a| - 4]) == t1 && ParseNat(a[..|a| - 4]) == t2;
    assert ParseNat(a[|a| - 4..]) == RandomSuffix(r1) == RandomSuffix(r2);
  }

  // -------------------------------------------------------------------------
  // Pagination

  const DefaultPage := 1
  const DefaultLimit := 10

  datatype Pagination = Pagination(offset: int, limit: int)

  /** `getPagination`: page `page` (counted from 1) starts `(page - 1) * limit` rows in. */
  function GetPagination(page: int, limit: int): (r: Pagination)
    ensures r.limit == limit
    ensures page == 1 ==> r.offset == 0
    ensures page >= 1 && limit >= 0 ==> r.offset >= 0
    ensures r.offset + r.limit == page * limit
  {
    Pagination((page - 1) * limit, limit)
  }

  /** Consecutive pages tile the rows: each page starts where the previous one ends. */
  lemma PagesTile(page: int, limit: int)
    ensures GetPagination(page + 1, limit).offset == GetPagination(page, limit).offset + limit
  {
  }

  /** `Math.ceil(total / limit)` as a JavaScript number: limit 0 gives NaN or Infinity. */
  datatype PageCount = Pages(n: int) | Infinity | NaN

  function TotalPages(total: nat, limit: int): (r: PageCount)
    ensures limit == 0 ==> r == (if total == 0 then NaN else Infinity)
    ensures limit != 0 ==> r.Pages?
    ensures limit > 0 ==> r.Pages? && r.n >= 0 && r.n * limit >= total && (r.n == 0 || (r.n - 1) * limit < total)
    ensures limit < 0 ==> r.Pages? && r.n <= 0
  {
    if limit == 0 then (if total == 0 then NaN else Infinity)
    else if limit > 0 then
      var n := (total + limit - 1) / limit;
      assert n * limit >= total && (n == 0 || (n - 1) * limit < total) by {
        var m := (total + limit - 1) % limit;
        assert total + limit - 1 == n * limit + m && 0 <= m < limit;
        assert (n - 1) * limit == n * limit - limit;
      }
      Pages(n)
    else Pages(-(total / (-limit)))
  }

  /** `page < totalPages` for a JavaScript number on the right. */
  predicate PageBefore(page: int, tp: PageCount) {
    match tp
    case Pages(n) => page < n
    case Infinity => true
    case NaN => false
  }

  datatype PageInfo = PageInfo(current: int, pageSize: int, total: nat, totalPages: PageCount, hasNext: bool, hasPrev: bool)
  datatype Paged<T> = Paged(rows: seq<T>, pagination: PageInfo)

  /** `formatPagination` over the rows and the count of a `findAndCountAll`. */
  function FormatPagination<T>(rows: seq<T>, total: nat, page: int, limit: int): (r: Paged<T>)
    ensures r.rows == rows && r.pagination.total == total
    ensures r.pagination.current == page && r.pagination.pageSize == limit
    ensures r.pagination.totalPages == TotalPages(total, limit)
    ensures r.pagination.hasNext <==> PageBefore(page, TotalPages(total, limit))
    ensures r.pagination.hasPrev <==> page > 1
  {
    var tp := TotalPages(total, limit);
    Paged(rows, PageInfo(page, limit, total, tp, PageBefore(page, tp), page > 1))
  }

  /**
   * What `formatPagination` reports for page `page` of `limit` rows out of
   * `total`: the page and its size as requested, the total, the page count,
   * a next page iff this page comes before the last, a previous one iff
   * this is not the first.
   */
  predicate DescribesPage(info: PageInfo, total: nat, page: int, limit: int) {
    && info.current == page && info.pageSize == limit && info.total == total
    && info.totalPages == TotalPages(total, limit)
    && (info.hasNext <==> PageBefore(page, TotalPages(total, limit)))
    && (info.hasPrev <==> page > 1)
  }

  /** For a positive page size, there is a next page exactly when rows remain beyond this page. */
  lemma HasNextIffRowsRemain<T>(rows: seq<T>, total: nat, page: int, limit: int)
    requires page >= 1 && limit > 0
    ensures FormatPagination(rows, total, page, limit).pagination.hasNext <==> page * limit < total
  {
    var n := TotalPages(total, limit).n;
    if page < n {
      MulMono(page, n - 1, limit);
    } else {
      MulMono(n, page, limit);
    }
  }

  lemma MulMono(a: int, b: int, k: int)
    requires a <= b && k > 0
    ensures a * k <= b * k
  {
    assert b * k - a * k == (b - a) * k;
  }

  /** No rows: zero pages and no next page (for any page from 0 on). */
  lemma EmptyHasNoPages<T>(rows: seq<T>, page: int, limit: int)
    requires page >= 0
    ensures limit != 0 ==> FormatPagination(rows, 0, page, limit).pagination.totalPages == Pages(0)
    ensures !FormatPagination(rows, 0, page, limit).pagination.hasNext
  {
  }

  // -------------------------------------------------------------------------
  // Masking

  const Stars := "****"

  /** The mask of one value: short values vanish entirely, longer ones keep two characters at each end. */
  function MaskValue(v: string): (r: string)
    ensures |v| <= 4 ==> r == Stars
    ensures |v| > 4 ==> |r| == 8 && r[..2] == v[..2] && r[2..6] == Stars && r[6..] == v[|v| - 2..]
  {
    if |v| <= 4 then Stars else v[..2] + Stars + v[|v| - 2..]
  }

  /** Masking a masked value changes nothing. */
  lemma MaskValueIdempotent(v: string)
    ensures MaskValue(MaskValue(v)) == MaskValue(v)
  {
    var m := MaskValue(v);
    if |v| > 4 {
      assert m == m[..2] + Stars + m[6..];
    }
  }

  /** What `maskSensitiveData` leaves in one field. */
  function MaskedEntry(v: JsValue): JsValue {
    Str(MaskValue(ToJsString(v)))
  }

  /** What `maskSensitiveData` leaves under key `k` once the fields `fs` are done. */
  function MaskedAfter(data: map<string, JsValue>, fs: seq<string>, k: string): JsValue
    requires k in data
  {
    if k in fs && Truthy(data[k]) then MaskedEntry(data[k]) else data[k]
  }

  /** One round of the masking loop: the next field is masked unless it is absent, falsy or already masked. */
  lemma MaskStep(data: map<string, JsValue>, fields: seq<string>, i: nat, masked: map<string, JsValue>)
    requires i < |fields|
    requires masked.Keys == data.Keys
    requires forall k :: k in data ==> masked[k] == MaskedAfter(data, fields[..i], k)
    ensures var f := fields[i];
      var next := if f in masked && Truthy(masked[f]) then masked[f := MaskedEntry(masked[f])] else masked;
      next.Keys == data.Keys && forall k :: k in data ==> next[k] == MaskedAfter(data, fields[..i + 1], k)
  {
    var f := fields[i];
    assert fields[..i + 1] == fields[..i] + [f];
    if f in masked && Truthy(masked[f]) {
      MaskValueIdempotent(ToJsString(data[f]));
      assert MaskedEntry(masked[f]) == MaskedEntry(data[f]);
    }
  }

  /**
   * `maskSensitiveData(data, fields)`: the copy has the same keys; a field is
   * masked exactly when it is listed and its value is truthy, and every other
   * entry is copied unchanged. `data` itself is a value and is not touched.
   */
  method MaskSensitiveData(data: map<string, JsValue>, fields: seq<string>) returns (masked: map<string, JsValue>)
    ensures masked.Keys == data.Keys
    ensures forall k :: k in data ==>
      masked[k] == (if k in fields && Truthy(data[k]) then MaskedEntry(data[k]) else data[k])
  {
    masked := data;
    var i := 0;
    while i < |fields|
      invariant 0 <= i <= |fields|
      invariant masked.Keys == data.Keys
      invariant forall k :: k in data ==> masked[k] == MaskedAfter(data, fields[..i], k)
    {
      var field := fields[i];
      MaskStep(data, fields, i, masked);
      if field in masked && Truthy(masked[field]) {
        var value := ToJsString(masked[field]);
        var m := if |value| <= 4 then Stars else value[..2] + Stars + value[|value| - 2..];
        assert Str(m) == MaskedEntry(masked[field]);
        masked := masked[field := Str(m)];
      }
      i := i + 1;
    }
    assert fields[..i] == fields;
    assert forall k :: k in data ==> masked[k] == MaskedAfter(data, fields, k);
  }
}
