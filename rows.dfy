/** The row-level operations that the pandas expressions of the source reduce to:
    selection by a boolean mask (`df[mask]`), column projection and sorting by a key. */
module Rows {

  /** `a` is `b` with some elements deleted and the rest kept in their order. */
  ghost predicate IsSubsequence<T>(a: seq<T>, b: seq<T>)
    decreases |b|
  {
    if a == [] then true
    else if b == [] then false
    else (a[0] == b[0] && IsSubsequence(a[1..], b[1..])) || IsSubsequence(a, b[1..])
  }

  /** Deleting elements twice is deleting elements once. */
  lemma {:induction false} SubsequenceTransitive<T>(a: seq<T>, b: seq<T>, c: seq<T>)
    requires IsSubsequence(a, b) && IsSubsequence(b, c)
    ensures IsSubsequence(a, c)
    decreases |c|
  {
    if a != [] && c != [] {
      if b[0] == c[0] && IsSubsequence(b[1..], c[1..]) {
        if a[0] == b[0] && IsSubsequence(a[1..], b[1..]) {
          SubsequenceTransitive(a[1..], b[1..], c[1..]);
        } else {
          SubsequenceTransitive(a, b[1..], c[1..]);
        }
      } else {
        SubsequenceTransitive(a, b, c[1..]);
      }
    }
  }

  /** `df[mask]`: the elements of `s` for which `keep` holds, in their original order.
      Each kept element keeps its multiplicity; every other element is gone. */
  function Where<T(!new)>(s: seq<T>, keep: T -> bool): (r: seq<T>)
    ensures |r| <= |s|
    ensures forall i :: 0 <= i < |r| ==> keep(r[i])
    ensures forall x :: multiset(r)[x] == if keep(x) then multiset(s)[x] else 0
    ensures IsSubsequence(r, s)
  {
    if s == [] then []
    else
      var rest := Where(s[1..], keep);
      assert s == [s[0]] + s[1..];
      if keep(s[0]) then [s[0]] + rest else rest
  }

  /** A mask distributes over concatenation. */
  lemma {:induction false} WhereConcat<T(!new)>(a: seq<T>, b: seq<T>, keep: T -> bool)
    ensures Where(a + b, keep) == Where(a, keep) + Where(b, keep)
  {
    if a == [] {
      assert a + b == b;
    } else {
      assert (a + b)[1..] == a[1..] + b;
      WhereConcat(a[1..], b, keep);
    }
  }

  /** A mask that holds everywhere selects the whole input. */
  lemma {:induction false} WhereKeepsAll<T(!new)>(s: seq<T>, keep: T -> bool)
    requires forall i :: 0 <= i < |s| ==> keep(s[i])
    ensures Where(s, keep) == s
  {
    if s != [] {
      WhereKeepsAll(s[1..], keep);
    }
  }

  /** The number of selected elements depends only on the multiset of the input. */
  lemma WherePermutation<T(!new)>(a: seq<T>, b: seq<T>, keep: T -> bool)
    requires multiset(a) == multiset(b)
    ensures |Where(a, keep)| == |Where(b, keep)|
  {
    assert multiset(Where(a, keep)) == multiset(Where(b, keep));
    assert |multiset(Where(a, keep))| == |Where(a, keep)|;
  }

  /** `df[mask].iloc[0]`: the first selected element is the input's first element that satisfies
      the mask, and there is one exactly when some element satisfies it. */
  lemma {:induction false} WhereFirst<T(!new)>(s: seq<T>, keep: T -> bool)
    ensures Where(s, keep) != [] <==> exists i :: 0 <= i < |s| && keep(s[i])
    ensures Where(s, keep) != [] ==>
      exists i :: 0 <= i < |s| && s[i] == Where(s, keep)[0] && keep(s[i]) &&
        forall j :: 0 <= j < i ==> !keep(s[j])
  {
    if s != [] {
      WhereFirst(s[1..], keep);
      if !keep(s[0]) {
        if exists i :: 0 <= i < |s| && keep(s[i]) {
          var i :| 0 <= i < |s| && keep(s[i]);
          assert i > 0 && keep(s[1..][i - 1]);
        }
        if Where(s, keep) != [] {
          var i :| 0 <= i < |s| - 1 && s[1..][i] == Where(s[1..], keep)[0] && keep(s[1..][i]) &&
            forall j :: 0 <= j < i ==> !keep(s[1..][j]);
          assert forall j :: 0 <= j < i + 1 ==> !keep(s[j]) by {
            forall j | 0 <= j < i + 1 ensures !keep(s[j]) {
              if j > 0 { assert s[j] == s[1..][j - 1]; }
            }
          }
          assert s[i + 1] == Where(s, keep)[0];
        }
      }
    }
  }

  /** The positions of `s` whose element satisfies `keep`. */
  ghost function Positions<T(!new)>(s: seq<T>, keep: T -> bool): set<nat> {
    set i: nat | i < |s| && keep(s[i])
  }

  /** Appending one element adds its position when it satisfies the mask. */
  lemma PositionsSnoc<T(!new)>(s: seq<T>, x: T, keep: T -> bool)
    ensures |Positions(s + [x], keep)| == |Positions(s, keep)| + if keep(x) then 1 else 0
  {
    var n := |s|;
    var last: set<nat> := if keep(x) then {n} else {};
    assert Positions(s + [x], keep) == Positions(s, keep) + last by {
      forall i: nat | i in Positions(s + [x], keep) ensures i in Positions(s, keep) + last {
        if i < n { assert (s + [x])[i] == s[i]; }
      }
      forall i: nat | i in Positions(s, keep) ensures i in Positions(s + [x], keep) {
        assert (s + [x])[i] == s[i];
      }
    }
    assert Positions(s, keep) !! last;
  }

  /** The number of selected elements is the number of positions whose element satisfies the mask. */
  lemma {:induction false} WhereCountsPositions<T(!new)>(s: seq<T>, keep: T -> bool)
    ensures |Where(s, keep)| == |Positions(s, keep)|
  {
    if s == [] {
      assert Positions(s, keep) == {};
    } else {
      var n := |s| - 1;
      assert s == s[..n] + [s[n]];
      WhereConcat(s[..n], [s[n]], keep);
      WhereCountsPositions(s[..n], keep);
      PositionsSnoc(s[..n], s[n], keep);
    }
  }

  /** `[f(x) for x in s]`: applies `f` to every element, keeping the order. */
  function Map<A, B>(f: A -> B, s: seq<A>): (r: seq<B>)
    ensures |r| == |s|
    ensures forall i :: 0 <= i < |s| ==> r[i] == f(s[i])
  {
    if s == [] then [] else [f(s[0])] + Map(f, s[1..])
  }

  /** Selecting with a mask that only looks at the projection `f` commutes with projecting. */
  lemma {:induction false} MapWhere<A(!new), B(!new)>(f: A -> B, s: seq<A>, keep: B -> bool, keepRow: A -> bool)
    requires forall x :: keepRow(x) == keep(f(x))
    ensures Map(f, Where(s, keepRow)) == Where(Map(f, s), keep)
  {
    if s != [] {
      MapWhere(f, s[1..], keep, keepRow);
      assert Map(f, s)[1..] == Map(f, s[1..]);
    }
  }

  /** `s` is ordered non-decreasingly by `key`: each element's key is at most the next one's. */
  ghost predicate SortedBy<T>(s: seq<T>, key: T -> real)
    decreases |s|
  {
    |s| < 2 || (key(s[0]) <= key(s[1]) && SortedBy(s[1..], key))
  }

  /** In a sorted sequence every element's key is at most the key of every later element. */
  lemma {:induction false} SortedByPairs<T>(s: seq<T>, key: T -> real)
    requires SortedBy(s, key)
    ensures forall i, j :: 0 <= i < j < |s| ==> key(s[i]) <= key(s[j])
    decreases |s|
  {
    if |s| >= 2 {
      SortedByPairs(s[1..], key);
      forall i, j | 0 <= i < j < |s| ensures key(s[i]) <= key(s[j]) {
        if i == 0 {
          if j > 1 { assert key(s[1..][0]) <= key(s[1..][j - 1]); }
        } else {
          assert key(s[1..][i - 1]) <= key(s[1..][j - 1]);
        }
      }
    }
  }

  /** Inserts `x` into a sorted sequence in front of the first element whose key is not smaller. */
  function Insert<T>(x: T, s: seq<T>, key: T -> real): (r: seq<T>)
    requires SortedBy(s, key)
    ensures SortedBy(r, key)
    ensures |r| == |s| + 1 && (r[0] == x || (s != [] && r[0] == s[0]))
  {
    if s == [] || key(x) <= key(s[0]) then
      assert ([x] + s)[1..] == s;
      [x] + s
    else
      var rest := Insert(x, s[1..], key);
      assert ([s[0]] + rest)[1..] == rest;
      [s[0]] + rest
  }

  /** Sorting by a key: the result is ordered non-decreasingly by `key`
      (and is a permutation of the input, by SortByPermutes). */
  function SortBy<T>(s: seq<T>, key: T -> real): (r: seq<T>)
    ensures SortedBy(r, key)
    ensures |r| == |s|
  {
    if s == [] then [] else Insert(s[0], SortBy(s[1..], key), key)
  }

  /** Insertion adds exactly the inserted element. */
  lemma {:induction false} InsertPermutes<T>(x: T, s: seq<T>, key: T -> real)
    requires SortedBy(s, key)
    ensures multiset(Insert(x, s, key)) == multiset(s) + multiset{x}
  {
    if s != [] && key(x) > key(s[0]) {
      InsertPermutes(x, s[1..], key);
      assert Insert(x, s, key) == [s[0]] + Insert(x, s[1..], key);
      assert multiset(s) == multiset{s[0]} + multiset(s[1..]) by {
        assert s == [s[0]] + s[1..];
      }
    }
  }

  /** Sorting neither loses nor adds elements: the result is a permutation of the input. */
  lemma {:induction false} SortByPermutes<T>(s: seq<T>, key: T -> real)
    ensures multiset(SortBy(s, key)) == multiset(s)
  {
    if s != [] {
      var t := SortBy(s[1..], key);
      SortByPermutes(s[1..], key);
      InsertPermutes(s[0], t, key);
      assert SortBy(s, key) == Insert(s[0], t, key);
      assert multiset(s) == multiset{s[0]} + multiset(s[1..]) by {
        assert s == [s[0]] + s[1..];
      }
    }
  }

  /** Every element of a sorted sequence comes from the input. */
  lemma SortByElements<T>(s: seq<T>, key: T -> real)
    ensures forall i :: 0 <= i < |SortBy(s, key)| ==> SortBy(s, key)[i] in s
  {
    SortByPermutes(s, key);
    assert forall i :: 0 <= i < |SortBy(s, key)| ==> SortBy(s, key)[i] in multiset(SortBy(s, key));
  }
}
