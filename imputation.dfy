/** Median imputation of a numeric column, as `col.fillna(col.median())` does it:
    the median skips missing entries, and filling with the median of a column that has no
    value at all leaves the column as it is. */
module Imputation {
  import opened Wrappers
  import opened Rows

  /** The values present in a column, in row order: what pandas' `median` looks at. */
  function PresentValues(col: seq<Option<real>>): (r: seq<real>)
    ensures |r| <= |col|
    ensures forall i :: 0 <= i < |col| && col[i].Some? ==> col[i].value in r
    ensures forall v :: v in r ==> Some(v) in col
  {
    if col == [] then []
    else
      var rest := PresentValues(col[1..]);
      assert col == [col[0]] + col[1..];
      assert forall i :: 1 <= i < |col| ==> col[i] == col[1..][i - 1];
      if col[0].Some? then [col[0].value] + rest else rest
  }

  /** Every present value occurs among the present values exactly as often as in the column:
      the median sees each value with its multiplicity. */
  lemma {:induction false} PresentValuesCount(col: seq<Option<real>>)
    ensures forall v :: multiset(PresentValues(col))[v] == multiset(col)[Some(v)]
  {
    if col != [] {
      PresentValuesCount(col[1..]);
      assert col == [col[0]] + col[1..];
    }
  }

  function Identity(x: real): real { x }

  /** The mask `x <= m`. */
  function AtMost(m: real): real -> bool { x => x <= m }

  /** The mask `x >= m`. */
  function AtLeast(m: real): real -> bool { x => x >= m }

  /** The middle of a sorted non-empty list: its middle element, or the mean of its two middle
      elements when the length is even. */
  function Middle(t: seq<real>): real
    requires t != []
  {
    var k := |t| / 2;
    if |t| % 2 == 1 then t[k] else (t[k - 1] + t[k]) / 2.0
  }

  /** The median of a non-empty list: the middle of the sorted list. */
  function Median(values: seq<real>): real
    requires values != []
  {
    Middle(SortBy(values, Identity))
  }

  /** When the first `lo` values are at most `m`, at least `lo` values are. */
  lemma PrefixAtMost(t: seq<real>, lo: nat, m: real)
    requires lo <= |t|
    requires forall i :: 0 <= i < lo ==> t[i] <= m
    ensures |Where(t, AtMost(m))| >= lo
  {
    assert t == t[..lo] + t[lo..];
    WhereConcat(t[..lo], t[lo..], AtMost(m));
    WhereKeepsAll(t[..lo], AtMost(m));
  }

  /** When the values from position `k` on are at least `m`, at least `|t| - k` values are. */
  lemma SuffixAtLeast(t: seq<real>, k: nat, m: real)
    requires k <= |t|
    requires forall i :: k <= i < |t| ==> t[i] >= m
    ensures |Where(t, AtLeast(m))| >= |t| - k
  {
    assert t == t[..k] + t[k..];
    WhereConcat(t[..k], t[k..], AtLeast(m));
    WhereKeepsAll(t[k..], AtLeast(m));
  }

  /** At least half of a sorted list is at most its middle. */
  lemma MiddleBoundsLowerHalf(t: seq<real>)
    requires t != []
    requires forall i, j :: 0 <= i < j < |t| ==> t[i] <= t[j]
    ensures 2 * |Where(t, AtMost(Middle(t)))| >= |t|
  {
    var m := Middle(t);
    var k := |t| / 2;
    if |t| % 2 == 1 {
      assert m == t[k];
      PrefixAtMost(t, k + 1, m);
    } else {
      assert t[k - 1] <= m;
      PrefixAtMost(t, k, m);
    }
  }

  /** At least half of a sorted list is at least its middle. */
  lemma MiddleBoundsUpperHalf(t: seq<real>)
    requires t != []
    requires forall i, j :: 0 <= i < j < |t| ==> t[i] <= t[j]
    ensures 2 * |Where(t, AtLeast(Middle(t)))| >= |t|
  {
    var k := |t| / 2;
    assert Middle(t) <= t[k];
    SuffixAtLeast(t, k, Middle(t));
  }

  /** What makes the median a median: at least half of the values are at most it and at least
      half are at least it; with an odd count it is one of the values. */
  lemma MedianSplitsHalves(values: seq<real>)
    requires values != []
    ensures 2 * |Where(values, AtMost(Median(values)))| >= |values|
    ensures 2 * |Where(values, AtLeast(Median(values)))| >= |values|
    ensures |values| % 2 == 1 ==> Median(values) in values
  {
    var t := SortBy(values, Identity);
    var m := Middle(t);
    SortedByPairs(t, Identity);
    forall i, j | 0 <= i < j < |t| ensures t[i] <= t[j] {
      assert Identity(t[i]) <= Identity(t[j]);
    }
    SortByPermutes(values, Identity);
    MiddleBoundsLowerHalf(t);
    MiddleBoundsUpperHalf(t);
    WherePermutation(values, t, AtMost(m));
    WherePermutation(values, t, AtLeast(m));
    if |t| % 2 == 1 {
      assert t[|t| / 2] in multiset(t);
    }
  }

  /** Fills every missing entry with `v`. */
  function FillNa(col: seq<Option<real>>, v: real): (r: seq<Option<real>>)
    ensures |r| == |col|
    ensures forall i :: 0 <= i < |col| ==> r[i] == if col[i].Some? then col[i] else Some(v)
  {
    Map((o: Option<real>) => if o.Some? then o else Some(v), col)
  }

  /** The value a missing entry of `col` is filled with: the median of the present values,
      or nothing when no value is present. */
  function MedianFill(col: seq<Option<real>>): Option<real> {
    var present := PresentValues(col);
    if present == [] then None else Some(Median(present))
  }

  /** `col.fillna(col.median())`: present entries are kept, missing ones become the median of
      the present ones; no entry stays missing unless the whole column was missing. */
  function ImputeMedian(col: seq<Option<real>>): (r: seq<Option<real>>)
    ensures |r| == |col|
    ensures forall i :: 0 <= i < |col| && col[i].Some? ==> r[i] == col[i]
    ensures forall i :: 0 <= i < |col| && col[i].None? ==> r[i] == MedianFill(col)
    ensures (exists i :: 0 <= i < |col| && col[i].Some?) ==> forall i :: 0 <= i < |r| ==> r[i].Some?
    ensures (forall i :: 0 <= i < |col| ==> col[i].None?) ==> r == col
  {
    var present := PresentValues(col);
    if present == [] then col
    else
      assert present[0] in present;
      FillNa(col, Median(present))
  }
}
