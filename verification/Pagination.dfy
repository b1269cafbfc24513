/** Offsets, page counts and how pages tile a list, in Go's 64-bit arithmetic. */
module Pagination {
  import opened Common

  const MAX_PAGE_SIZE := 100

  function Offset(page: int, pageSize: int): int {
    Wrap64(Wrap64(page - 1) * pageSize)
  }

  datatype Meta = Meta(page: int, pageSize: int, total: int, totalPages: int, hasNext: bool, hasPrevious: bool)

  function TotalPages(pageSize: int, total: int): int
    requires pageSize > 0
  {
    if total > 0 then Quotient(Wrap64(Wrap64(total + pageSize) - 1), pageSize) else 0
  }

  function MetaFor(page: int, pageSize: int, total: int): Meta
    requires pageSize > 0
  {
    var totalPages := TotalPages(pageSize, total);
    Meta(page, pageSize, total, totalPages, page < totalPages, page > 1 && totalPages > 0)
  }

  /** LIMIT and OFFSET; PostgreSQL refuses a negative offset. */
  function Slice<T>(s: seq<T>, limit: nat, offset: int): Option<seq<T>> {
    if offset < 0 then None
    else if offset >= |s| then Some([])
    else if offset + limit >= |s| then Some(s[offset..])
    else Some(s[offset..offset + limit])
  }

  // ================================================================ exactness

  predicate ValidPage(page: int, pageSize: int) {
    1 <= page <= MAX_INT64 && 1 <= pageSize <= MAX_PAGE_SIZE
  }

  /** The offset is the intended one exactly when it fits; otherwise it has wrapped around. */
  lemma OffsetExactIff(page: int, pageSize: int)
    requires ValidPage(page, pageSize)
    ensures Offset(page, pageSize) == (page - 1) * pageSize <==> (page - 1) * pageSize <= MAX_INT64
  {
  }

  /** A page far past the end that the service answers with the first page. */
  lemma FarPageIsTheFirst<T>(s: seq<T>)
    ensures ValidPage(0x4000_0000_0000_0001, 4)
    ensures Offset(0x4000_0000_0000_0001, 4) == 0
    ensures Slice(s, 4, Offset(0x4000_0000_0000_0001, 4)) == Slice(s, 4, Offset(1, 4))
  {
  }

  lemma {:induction false} MulMonotone(a: nat, b: nat, c: nat)
    requires a <= b
    ensures a * c <= b * c
    decreases b
  {
  }

  lemma DivideBounds(a: nat, b: nat)
    requires b > 0
    ensures a / b * b <= a < a / b * b + b
  {
  }

  /** Page `p` starts before the end of `total` rows exactly when p <= ceil(total / size). */
  lemma CeilCounts(total: nat, size: nat, p: nat)
    requires size > 0
    ensures p < (total + size - 1) / size <==> p * size < total
  {
    var n := (total + size - 1) / size;
    DivideBounds(total + size - 1, size);
    if p < n {
      MulMonotone(p + 1, n, size);
      assert (p + 1) * size == p * size + size;
    } else {
      MulMonotone(n, p, size);
    }
  }

  /** The page count is ceil(total / size) exactly when the sum in it does not overflow. */
  lemma TotalPagesExactIff(pageSize: int, total: int)
    requires 1 <= pageSize <= MAX_PAGE_SIZE && 0 <= total <= MAX_INT64
    ensures TotalPages(pageSize, total) == (total + pageSize - 1) / pageSize <==> total + pageSize - 1 <= MAX_INT64
  {
    var sum := total + pageSize - 1;
    if total > 0 {
      if sum <= MAX_INT64 {
        assert Wrap64(Wrap64(total + pageSize) - 1) == sum;
      } else {
        assert Wrap64(Wrap64(total + pageSize) - 1) < 0;
        NegativeQuotient(Wrap64(Wrap64(total + pageSize) - 1), pageSize);
        CeilCounts(total, pageSize, 0);
      }
    } else {
      SmallQuotient(pageSize - 1, pageSize);
    }
  }

  lemma NegativeQuotient(a: int, b: int)
    requires a < 0 && b > 0
    ensures Quotient(a, b) <= 0
  {
  }

  lemma SmallQuotient(a: nat, b: nat)
    requires a < b
    ensures a / b == 0
  {
  }

  // ================================================================ tiling

  /** Pages 1..k of a list, one after the other, each fetched at the computed offset. */
  function Pages<T>(s: seq<T>, pageSize: nat, k: nat): Option<seq<T>> {
    if k == 0 then Some([])
    else
      var before := Pages(s, pageSize, k - 1);
      var page := Slice(s, pageSize, Offset(k, pageSize));
      if before.Some? && page.Some? then Some(before.value + page.value) else None
  }

  function Min(a: int, b: int): int {
    if a <= b then a else b
  }

  function Max(a: int, b: int): int {
    if a <= b then b else a
  }

  lemma SliceLength<T>(s: seq<T>, size: nat, from: nat)
    ensures Slice(s, size, from).Some? && |Slice(s, size, from).value| == Min(size, Max(0, |s| - from))
  {
  }

  /** A page holds min(size, max(0, total - offset)) rows from its offset on; it is refused exactly
      when the offset has wrapped around to a negative number. */
  lemma PageLength<T>(s: seq<T>, page: int, pageSize: int)
    requires ValidPage(page, pageSize)
    ensures var from := Offset(page, pageSize);
      var rows := Slice(s, pageSize, from);
      && from == Wrap64((page - 1) * pageSize)
      && (rows.None? <==> from < 0)
      && (rows.Some? ==> |rows.value| == Min(pageSize, Max(0, |s| - from))
                         && forall i :: 0 <= i < |rows.value| ==> rows.value[i] == s[from + i])
  {
  }

  // The page at `from` extends the rows before it.
  lemma PageStep<T>(s: seq<T>, size: nat, from: nat)
    requires from < |s|
    ensures Slice(s, size, from).Some? && s[..from] + Slice(s, size, from).value == s[..Min(from + size, |s|)]
  {
  }

  lemma NextMultiple(k: nat, size: nat)
    requires k > 0 && size > 0
    ensures k * size == (k - 1) * size + size && k - 1 <= (k - 1) * size
  {
    MulMonotone(1, size, k - 1);
  }

  lemma {:induction false} PagesArePrefix<T>(s: seq<T>, pageSize: nat, k: nat)
    requires 1 <= pageSize <= MAX_PAGE_SIZE && |s| + pageSize - 1 <= MAX_INT64
    requires k > 0 ==> (k - 1) * pageSize < |s|
    ensures Pages(s, pageSize, k) == Some(s[..Min(k * pageSize, |s|)])
  {
    if k > 0 {
      var from := (k - 1) * pageSize;
      NextMultiple(k, pageSize);
      if k > 1 {
        NextMultiple(k - 1, pageSize);
      }
      PagesArePrefix(s, pageSize, k - 1);
      OffsetExactIff(k, pageSize);
      PageStep(s, pageSize, from);
    }
  }

  /** Pages 1..TotalPages are the whole list, each row once and in order. */
  lemma PagesTile<T>(s: seq<T>, pageSize: nat)
    requires 1 <= pageSize <= MAX_PAGE_SIZE && |s| + pageSize - 1 <= MAX_INT64
    ensures TotalPages(pageSize, |s|) >= 0
    ensures Pages(s, pageSize, TotalPages(pageSize, |s|)) == Some(s)
  {
    var n := TotalPages(pageSize, |s|);
    TotalPagesExactIff(pageSize, |s|);
    CeilCounts(|s|, pageSize, n);
    if n > 0 {
      CeilCounts(|s|, pageSize, n - 1);
    }
    PagesArePrefix(s, pageSize, n);
    assert s[..|s|] == s;
  }

  /** A page announces a next one exactly when rows of the list are left after it. The next page
      then has rows and otherwise has none, except when its offset wraps around into the list. */
  lemma HasNextIff<T>(s: seq<T>, pageSize: nat, page: nat)
    requires ValidPage(page, pageSize) && |s| + pageSize - 1 <= MAX_INT64
    ensures MetaFor(page, pageSize, |s|).hasNext <==> page * pageSize < |s|
    ensures page < MAX_INT64 ==>
      var from := Offset(page + 1, pageSize);
      var next := Slice(s, pageSize, from);
      (MetaFor(page, pageSize, |s|).hasNext <==> next.Some? && next.value != [])
      <==> !(page * pageSize > MAX_INT64 && 0 <= from < |s|)
  {
    var from := page * pageSize;
    MulMonotone(0, page, pageSize);
    assert TotalPages(pageSize, |s|) == (|s| + pageSize - 1) / pageSize by {
      TotalPagesExactIff(pageSize, |s|);
    }
    CeilCounts(|s|, pageSize, page);
    if page < MAX_INT64 {
      OffsetExactIff(page + 1, pageSize);
      if Offset(page + 1, pageSize) >= 0 {
        SliceLength(s, pageSize, Offset(page + 1, pageSize));
      }
    }
  }

  /** What the page information of a listing says: the page asked for, the number of rows, how many
      pages they fill, and whether there is a page on either side. */
  lemma MetaIs(page: nat, pageSize: nat, total: nat)
    requires ValidPage(page, pageSize) && total + pageSize - 1 <= MAX_INT64
    ensures var m := MetaFor(page, pageSize, total);
      && m.page == page && m.pageSize == pageSize && m.total == total
      && m.totalPages >= 0 && m.totalPages * pageSize >= total && (m.totalPages > 0 ==> (m.totalPages - 1) * pageSize < total)
      && (m.hasNext <==> page * pageSize < total)
      && (m.hasPrevious <==> page > 1 && total > 0)
  {
    var n := TotalPages(pageSize, total);
    TotalPagesExactIff(pageSize, total);
    DivideBounds(total + pageSize - 1, pageSize);
    CeilCounts(total, pageSize, page);
    CeilCounts(total, pageSize, 0);
    CeilCounts(total, pageSize, n);
    if n > 0 {
      CeilCounts(total, pageSize, n - 1);
    }
  }
}
