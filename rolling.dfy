/** Sums and the trailing-window mean that pandas' `rolling(window).mean()` computes. */
module Rolling {
  import opened Wrappers

  function Sum(s: seq<real>): real
    decreases |s|
  {
    if s == [] then 0.0 else s[0] + Sum(s[1..])
  }

  /** Mean of the `w` values ending at position `i`; undefined (NaN, here `None`) while
      fewer than `w` values are available. */
  function RollingMean(xs: seq<real>, w: nat, i: nat): (r: Option<real>)
    requires w >= 1 && i < |xs|
    ensures r.Some? <==> i + 1 >= w
  {
    if i + 1 < w then None else Some(Sum(xs[i + 1 - w .. i + 1]) / w as real)
  }

  /** The first `n` entries of the column `rolling(window=w).mean()`, one per position. */
  function RollingColumn(xs: seq<real>, w: nat, n: nat): (col: seq<Option<real>>)
    requires w >= 1 && n <= |xs|
    ensures |col| == n
    ensures forall k :: 0 <= k < n ==> (col[k].Some? <==> k + 1 >= w)
    decreases n
  {
    if n == 0 then [] else RollingColumn(xs, w, n - 1) + [RollingMean(xs, w, n - 1)]
  }

  /** Entry `k` of the column is the rolling mean ending at position `k`. */
  lemma {:induction false} RollingColumnAt(xs: seq<real>, w: nat, n: nat, k: nat)
    requires w >= 1 && n <= |xs| && k < n
    ensures RollingColumn(xs, w, n)[k] == RollingMean(xs, w, k)
    decreases n
  {
    if k < n - 1 {
      RollingColumnAt(xs, w, n - 1, k);
    }
  }

  /** Once defined, the mean times the window is the sum over the window. */
  lemma RollingMeanTimesWindow(xs: seq<real>, w: nat, i: nat)
    requires w >= 1 && i < |xs| && i + 1 >= w
    ensures RollingMean(xs, w, i).value * w as real == Sum(xs[i + 1 - w .. i + 1])
  {
  }

  lemma {:induction false} SumConstant(s: seq<real>, c: real)
    requires forall k :: 0 <= k < |s| ==> s[k] == c
    ensures Sum(s) == |s| as real * c
    decreases |s|
  {
    if s != [] {
      SumConstant(s[1..], c);
    }
  }

  lemma {:induction false} SumNonNegative(s: seq<real>)
    requires forall k :: 0 <= k < |s| ==> s[k] >= 0.0
    ensures Sum(s) >= 0.0
    decreases |s|
  {
    if s != [] {
      SumNonNegative(s[1..]);
    }
  }

  /** A sum of non-negative values is zero only when every value is. */
  lemma {:induction false} SumZeroOnlyIfAllZero(s: seq<real>, k: nat)
    requires forall j :: 0 <= j < |s| ==> s[j] >= 0.0
    requires Sum(s) == 0.0 && k < |s|
    ensures s[k] == 0.0
    decreases |s|
  {
    SumNonNegative(s[1..]);
    if k > 0 {
      SumZeroOnlyIfAllZero(s[1..], k - 1);
    }
  }

  /** Over a window of equal values the rolling mean, once defined, is that value. */
  lemma MeanOfConstant(xs: seq<real>, w: nat, i: nat, c: real)
    requires w >= 1 && i < |xs| && i + 1 >= w
    requires forall k :: 0 <= k < |xs| ==> xs[k] == c
    ensures RollingMean(xs, w, i) == Some(c)
  {
    var win := xs[i + 1 - w .. i + 1];
    SumConstant(win, c);
    assert Sum(win) / w as real == (w as real * c) / w as real == c;
  }

  lemma {:induction false} SumAppend(a: seq<real>, b: seq<real>)
    ensures Sum(a + b) == Sum(a) + Sum(b)
    decreases |a|
  {
    if a == [] {
      assert a + b == b;
    } else {
      assert (a + b)[0] == a[0];
      assert (a + b)[1..] == a[1..] + b;
      SumAppend(a[1..], b);
    }
  }

  lemma SumOfTwoRuns(a: seq<real>, b: seq<real>, c1: real, c2: real)
    requires forall k :: 0 <= k < |a| ==> a[k] == c1
    requires forall k :: 0 <= k < |b| ==> b[k] == c2
    ensures Sum(a + b) == |a| as real * c1 + |b| as real * c2
  {
    SumAppend(a, b);
    SumConstant(a, c1);
    SumConstant(b, c2);
  }

  /** The sum of `xs[lo..hi]` when `xs` holds `c1` before position `mid` and `c2` from it on. */
  lemma StepWindowSum(xs: seq<real>, lo: nat, mid: nat, hi: nat, c1: real, c2: real)
    requires lo <= mid <= hi <= |xs|
    requires forall k :: 0 <= k < mid ==> xs[k] == c1
    requires forall k :: mid <= k < |xs| ==> xs[k] == c2
    ensures Sum(xs[lo..hi]) == (mid - lo) as real * c1 + (hi - mid) as real * c2
  {
    var left, right := xs[lo..mid], xs[mid..hi];
    assert xs[lo..hi] == left + right;
    SumOfTwoRuns(left, right, c1, c2);
  }

  /** The rolling mean at `i` over values that step from `c1` to `c2` at position `mid`:
      the window of `width` values holds `before` copies of `c1` and `after` copies of `c2`. */
  lemma StepWindowMean(xs: seq<real>, w: nat, i: nat, mid: nat, c1: real, c2: real,
                       before: real, after: real, width: real)
    requires w >= 1 && i < |xs| && i + 1 >= w && i + 1 - w <= mid <= i + 1
    requires before == (mid - (i + 1 - w)) as real && after == (i + 1 - mid) as real
    requires width == w as real
    requires forall k :: 0 <= k < mid ==> xs[k] == c1
    requires forall k :: mid <= k < |xs| ==> xs[k] == c2
    ensures RollingMean(xs, w, i) == Some((before * c1 + after * c2) / width)
  {
    var lo := i + 1 - w;
    StepWindowSum(xs, lo, mid, i + 1, c1, c2);
    var total := Sum(xs[lo..i + 1]);
    assert RollingMean(xs, w, i) == Some(total / w as real);
    assert total == before * c1 + after * c2;
  }

  /** The sum over `xs[lo..hi]` of values that are zero except possibly at positions `a`
      and `b` (with `a < b`) is what those two positions contribute. */
  lemma {:induction false} SumOfSpikes(xs: seq<real>, lo: nat, hi: nat, a: nat, b: nat)
    requires lo <= hi <= |xs| && a < b
    requires forall k :: lo <= k < hi && k != a && k != b ==> xs[k] == 0.0
    ensures Sum(xs[lo..hi]) == (if lo <= a < hi then xs[a] else 0.0) + (if lo <= b < hi then xs[b] else 0.0)
    decreases hi - lo
  {
    if lo < hi {
      assert xs[lo..hi] == [xs[lo]] + xs[lo + 1..hi];
      SumAppend([xs[lo]], xs[lo + 1..hi]);
      SumOfSpikes(xs, lo + 1, hi, a, b);
    }
  }

  lemma MeanNonNegative(xs: seq<real>, w: nat, i: nat)
    requires w >= 1 && i < |xs| && i + 1 >= w
    requires forall k :: 0 <= k < |xs| ==> xs[k] >= 0.0
    ensures RollingMean(xs, w, i).value >= 0.0
  {
    var win := xs[i + 1 - w .. i + 1];
    assert forall k :: 0 <= k < |win| ==> win[k] == xs[i + 1 - w + k];
    SumNonNegative(win);
  }
}
