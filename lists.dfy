/**
  * The array operations the list pipelines are built from: `Array.prototype.filter`,
  * `Array.prototype.slice` (with ECMAScript's index normalisation), the ceiling division
  * behind `Math.ceil(total / pageSize)`, and the page window cut out of a filtered list.
  */
module Lists {

  /** `a` is an order-preserving subsequence of `b`: `b` with some elements left out. */
  predicate Subsequence<T(==)>(a: seq<T>, b: seq<T>)
    decreases |b|
  {
    if a == [] then true
    else if b == [] then false
    else (a[0] == b[0] && Subsequence(a[1..], b[1..])) || Subsequence(a, b[1..])
  }

  /** `s.filter(p)`: the elements of `s` that satisfy `p`, in their original order. */
  function Filter<T>(s: seq<T>, p: T -> bool): (r: seq<T>)
    ensures |r| <= |s|
    ensures forall i :: 0 <= i < |r| ==> p(r[i])
  {
    if s == [] then []
    else if p(s[0]) then [s[0]] + Filter(s[1..], p)
    else Filter(s[1..], p)
  }

  /** Dropping elements twice is dropping elements once. */
  lemma {:induction false} SubsequenceTrans<T>(a: seq<T>, b: seq<T>, c: seq<T>)
    requires Subsequence(a, b) && Subsequence(b, c)
    ensures Subsequence(a, c)
    decreases |c|
  {
    if a == [] {
    } else if b[0] == c[0] && Subsequence(b[1..], c[1..]) {
      if a[0] == b[0] && Subsequence(a[1..], b[1..]) {
        SubsequenceTrans(a[1..], b[1..], c[1..]);
      } else {
        SubsequenceTrans(a, b[1..], c[1..]);
      }
    } else {
      SubsequenceTrans(a, b, c[1..]);
    }
  }

  /** Every element of a subsequence occurs in the longer sequence. */
  lemma {:induction false} SubsequenceMember<T>(a: seq<T>, b: seq<T>, i: nat)
    requires Subsequence(a, b) && i < |a|
    ensures a[i] in b
    decreases |b|
  {
    if a[0] == b[0] && Subsequence(a[1..], b[1..]) {
      if i > 0 {
        SubsequenceMember(a[1..], b[1..], i - 1);
      }
    } else {
      SubsequenceMember(a, b[1..], i);
    }
  }

  /** One step of `filter` over the suffix of `s` from index `k`. */
  lemma FilterStep<T>(s: seq<T>, k: nat, p: T -> bool)
    requires k < |s|
    ensures Filter(s[k..], p) == if p(s[k]) then [s[k]] + Filter(s[k + 1..], p) else Filter(s[k + 1..], p)
  {
    assert s[k..][1..] == s[k + 1..];
  }

  /** What `filter` returns is an order-preserving subsequence of its input. */
  lemma {:induction false} FilterSubsequence<T>(s: seq<T>, p: T -> bool)
    ensures Subsequence(Filter(s, p), s)
  {
    if s != [] {
      FilterSubsequence(s[1..], p);
      if p(s[0]) {
        assert Filter(s, p)[1..] == Filter(s[1..], p);
      }
    }
  }

  /** `filter` loses no element that satisfies the predicate. */
  lemma {:induction false} FilterComplete<T>(s: seq<T>, p: T -> bool, i: nat)
    requires i < |s| && p(s[i])
    ensures s[i] in Filter(s, p)
  {
    if i > 0 {
      FilterComplete(s[1..], p, i - 1);
    }
  }

  /** `filter` with a predicate every element satisfies returns its input unchanged. */
  lemma {:induction false} FilterAll<T>(s: seq<T>, p: T -> bool)
    requires forall i :: 0 <= i < |s| ==> p(s[i])
    ensures Filter(s, p) == s
  {
    if s != [] {
      FilterAll(s[1..], p);
    }
  }

  /** Two `filter` calls in a row keep exactly what satisfies both predicates. */
  lemma {:induction false} FilterFusion<T>(s: seq<T>, p: T -> bool, q: T -> bool, both: T -> bool)
    requires forall i :: 0 <= i < |s| ==> both(s[i]) == (p(s[i]) && q(s[i]))
    ensures Filter(Filter(s, p), q) == Filter(s, both)
  {
    if s != [] {
      FilterFusion(s[1..], p, q, both);
      if p(s[0]) {
        assert Filter(s, p) == [s[0]] + Filter(s[1..], p);
        assert Filter(s, p)[1..] == Filter(s[1..], p);
      }
    }
  }

  /** `filter` depends only on what its predicate says about the elements present. */
  lemma {:induction false} FilterExt<T>(s: seq<T>, p: T -> bool, q: T -> bool)
    requires forall i :: 0 <= i < |s| ==> p(s[i]) == q(s[i])
    ensures Filter(s, p) == Filter(s, q)
  {
    if s != [] {
      FilterExt(s[1..], p, q);
    }
  }

  /** A contiguous part of a sequence is a subsequence of it. */
  lemma {:induction false} SliceSubsequence<T>(s: seq<T>, i: nat, j: nat)
    requires i <= j <= |s|
    ensures Subsequence(s[i..j], s)
    decreases |s|
  {
    if i == j {
    } else if i > 0 {
      SliceSubsequence(s[1..], i - 1, j - 1);
      assert s[1..][i - 1..j - 1] == s[i..j];
    } else {
      SliceSubsequence(s[1..], 0, j - 1);
      assert s[1..][0..j - 1] == s[i..j][1..];
    }
  }

  /**
    * ECMAScript's relative index for `slice` on a sequence of length `len`: a negative
    * index counts from the end, and the result is clamped to `0..len`.
    */
  function ClampIndex(x: int, len: nat): (r: nat)
    ensures r <= len
    ensures 0 <= x <= len ==> r == x
    ensures x > len ==> r == len
    ensures x < 0 ==> r == if len + x < 0 then 0 else len + x
  {
    if x < 0 then (if len + x < 0 then 0 else len + x)
    else if x > len then len
    else x
  }

  /**
    * `s.slice(start, end)`: the elements from the normalised start up to, not including, the
    * normalised end, and nothing when the normalised end does not lie past the normalised start.
    */
  function JsSlice<T>(s: seq<T>, start: int, end: int): (r: seq<T>)
    ensures var a, b := ClampIndex(start, |s|), ClampIndex(end, |s|);
      |r| == (if a < b then b - a else 0) &&
      forall k :: 0 <= k < |r| ==> r[k] == s[a + k]
  {
    var a, b := ClampIndex(start, |s|), ClampIndex(end, |s|);
    if a < b then s[a..b] else []
  }

  /** A slice keeps the order and never holds more than `end - start` elements. */
  lemma JsSliceProperties<T>(s: seq<T>, start: int, end: int)
    ensures Subsequence(JsSlice(s, start, end), s)
    ensures start <= end ==> |JsSlice(s, start, end)| <= end - start
    ensures start == end ==> JsSlice(s, start, end) == []
    ensures 0 <= start ==> forall k :: 0 <= k < |JsSlice(s, start, end)| ==> JsSlice(s, start, end)[k] == s[start + k]
    ensures 0 <= start <= end ==>
      |JsSlice(s, start, end)| == if start >= |s| then 0 else if end <= |s| then end - start else |s| - start
  {
    var a, b := ClampIndex(start, |s|), ClampIndex(end, |s|);
    if a < b {
      SliceSubsequence(s, a, b);
    }
  }

  /** `Math.ceil(total / size)` for a positive `size`. */
  function CeilDiv(total: nat, size: int): (r: nat)
    requires size > 0
    ensures (r - 1) * size < total <= r * size
    ensures r == 0 <==> total == 0
  {
    var q := (total + size - 1) / size;
    assert q * size <= total + size - 1 < q * size + size;
    assert (q - 1) * size == q * size - size;
    q
  }

  /** The first index of page `page` (numbered from 1) with `size` items per page. */
  function PageStart(page: int, size: int): (r: int)
    ensures page >= 1 && size >= 0 ==> r >= 0
  {
    var r := (page - 1) * size;
    assert page >= 1 && size >= 0 ==> r >= 0 by {
      if page >= 1 && size >= 0 {
        MulNonNeg(page - 1, size);
      }
    }
    r
  }

  /** `page * size`, the end index `useProducts` slices to, is the start of the next page. */
  lemma PageEnd(page: int, size: int)
    ensures page * size == PageStart(page, size) + size
  {
    assert (page - 1) * size == page * size - size;
  }

  lemma MulNonNeg(x: int, y: int)
    requires x >= 0 && y >= 0
    ensures x * y >= 0
  {
  }

  /** `s.slice(start, start + size)`: `size` items from index `start` on. */
  function Window<T>(s: seq<T>, start: int, size: int): (r: seq<T>)
    ensures Subsequence(r, s)
    ensures size >= 0 ==> |r| <= size
    ensures size == 0 ==> r == []
    ensures start >= 0 && size >= 0 ==>
      |r| == (if start >= |s| then 0 else if start + size <= |s| then size else |s| - start) &&
      forall k :: 0 <= k < |r| ==> r[k] == s[start + k]
  {
    JsSliceProperties(s, start, start + size);
    JsSlice(s, start, start + size)
  }

  /** `s.slice((page - 1) * size, (page - 1) * size + size)`: page `page` (numbered from 1) of `s`. */
  function PageWindow<T>(s: seq<T>, page: int, size: int): (r: seq<T>)
    ensures Subsequence(r, s)
    ensures size >= 0 ==> |r| <= size
    ensures size == 0 ==> r == []
    ensures page >= 1 && size >= 0 ==>
      |r| == (if PageStart(page, size) >= |s| then 0
              else if PageStart(page, size) + size <= |s| then size
              else |s| - PageStart(page, size)) &&
      forall k :: 0 <= k < |r| ==> r[k] == s[PageStart(page, size) + k]
  {
    Window(s, PageStart(page, size), size)
  }

  /** A page past the last one, `ceil(|s| / size)`, is empty; a non-empty page lies within the page count. */
  lemma PastLastPageEmpty<T>(s: seq<T>, page: int, size: int)
    requires size > 0 && page > CeilDiv(|s|, size)
    ensures PageWindow(s, page, size) == []
  {
    var n := CeilDiv(|s|, size);
    assert PageStart(page, size) >= |s| by {
      assert page - 1 >= n;
      MulMono(n, page - 1, size);
    }
  }

  lemma MulMono(x: int, y: int, z: int)
    requires x <= y && z >= 0
    ensures x * z <= y * z
  {
    assert y * z - x * z == (y - x) * z;
    MulNonNeg(y - x, z);
  }
}
