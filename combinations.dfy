/**
 * Combinations of a card slice: the index-vector iterator (`Combinations`), the recursive
 * enumeration behind the channel form (`findCombinations`), and the reference enumeration
 * both are proved against. Combinations are identified by strictly increasing vectors of
 * positions into the slice; the reference lists them in lexicographic order.
 */
module Combinations {
  import opened Wrappers
  import opened Cards
  import opened Combinatorics

  /** Every sequence of `xss`, with `x` in front. */
  function Prepend<T>(x: T, xss: seq<seq<T>>): (r: seq<seq<T>>)
    ensures |r| == |xss|
    ensures forall i :: 0 <= i < |xss| ==> r[i] == [x] + xss[i]
  {
    seq(|xss|, i requires 0 <= i < |xss| => [x] + xss[i])
  }

  predicate Increasing(t: seq<int>)
  {
    forall i, j :: 0 <= i < j < |t| ==> t[i] < t[j]
  }

  predicate InRange(t: seq<int>, lo: int, n: int)
  {
    forall i :: 0 <= i < |t| ==> lo <= t[i] < n
  }

  /** `t` picks `k` distinct positions of `[lo, n)`, in increasing order. */
  predicate IsCombo(t: seq<int>, lo: int, n: int, k: nat)
  {
    |t| == k && Increasing(t) && InRange(t, lo, n)
  }

  /** The consecutive positions `a, a+1, ..., a+len-1`. */
  function Ramp(a: int, len: nat): (r: seq<int>)
    ensures |r| == len
    ensures forall i :: 0 <= i < len ==> r[i] == a + i
  {
    seq(len, i => a + i)
  }

  /**
   * Reference enumeration: all `k`-combinations of the positions `[lo, n)`, in
   * lexicographic order (those holding `lo` first, then those that do not).
   */
  function IndexCombos(lo: int, n: int, k: nat): (r: seq<seq<int>>)
    ensures forall i :: 0 <= i < |r| ==> |r[i]| == k && InRange(r[i], lo, n)
    decreases k, n - lo
  {
    if k == 0 then [[]]
    else if lo >= n then []
    else
      var withLo := IndexCombos(lo + 1, n, k - 1);
      PrependInRange(lo, withLo, n, k);
      Prepend(lo, withLo) + IndexCombos(lo + 1, n, k)
  }

  lemma {:induction false} PrependInRange(lo: int, ts: seq<seq<int>>, n: int, k: nat)
    requires lo < n && k >= 1
    requires forall i :: 0 <= i < |ts| ==> |ts[i]| == k - 1 && InRange(ts[i], lo + 1, n)
    ensures forall i :: 0 <= i < |ts| ==> |Prepend(lo, ts)[i]| == k && InRange(Prepend(lo, ts)[i], lo, n)
  {
    forall i | 0 <= i < |ts|
      ensures InRange(Prepend(lo, ts)[i], lo, n)
    {
      var t := Prepend(lo, ts)[i];
      assert t == [lo] + ts[i];
      assert forall j :: 1 <= j < |t| ==> t[j] == ts[i][j - 1];
    }
  }

  /** Every enumerated vector is a combination: its positions strictly increase. */
  lemma {:induction false} IndexCombosValid(lo: int, n: int, k: nat)
    ensures forall i :: 0 <= i < |IndexCombos(lo, n, k)| ==> IsCombo(IndexCombos(lo, n, k)[i], lo, n, k)
    decreases k, n - lo
  {
    if k > 0 && lo < n {
      var a := IndexCombos(lo + 1, n, k - 1);
      var b := IndexCombos(lo + 1, n, k);
      var r := IndexCombos(lo, n, k);
      IndexCombosValid(lo + 1, n, k - 1);
      IndexCombosValid(lo + 1, n, k);
      assert r == Prepend(lo, a) + b;
      forall i | 0 <= i < |r|
        ensures Increasing(r[i])
      {
        if i < |a| {
          var t := r[i];
          assert t == [lo] + a[i];
          assert forall j :: 1 <= j < |t| ==> t[j] == a[i][j - 1];
        } else {
          assert r[i] == b[i - |a|];
        }
      }
    }
  }

  /** There are C(n - lo, k) of them. */
  lemma {:induction false} IndexCombosCount(lo: int, n: int, k: nat)
    requires lo <= n
    ensures |IndexCombos(lo, n, k)| == Binomial(n - lo, k)
    decreases k, n - lo
  {
    if k > 0 && lo < n {
      IndexCombosCount(lo + 1, n, k - 1);
      IndexCombosCount(lo + 1, n, k);
    }
  }

  /** The enumeration is empty exactly when fewer than `k` positions are available. */
  lemma {:induction false} IndexCombosNonEmpty(lo: int, n: int, k: nat)
    requires lo <= n
    ensures |IndexCombos(lo, n, k)| > 0 <==> lo + k <= n
  {
    IndexCombosCount(lo, n, k);
    BinomialPositive(n - lo, k);
  }

  /** The first combination is the lowest run of positions. */
  lemma {:induction false} IndexCombosFirst(lo: int, n: int, k: nat)
    requires lo + k <= n
    ensures |IndexCombos(lo, n, k)| > 0 && IndexCombos(lo, n, k)[0] == Ramp(lo, k)
    decreases k
  {
    if k > 0 {
      IndexCombosFirst(lo + 1, n, k - 1);
      assert [lo] + Ramp(lo + 1, k - 1) == Ramp(lo, k);
    }
  }

  /** Every increasing choice of `k` positions from `[lo, n)` is enumerated. */
  lemma {:induction false} IndexCombosComplete(t: seq<int>, lo: int, n: int, k: nat)
    requires IsCombo(t, lo, n, k)
    ensures t in IndexCombos(lo, n, k)
    decreases k, n - lo
  {
    if k > 0 {
      var a := IndexCombos(lo + 1, n, k - 1);
      var b := IndexCombos(lo + 1, n, k);
      assert lo <= t[0] < n;
      assert IndexCombos(lo, n, k) == Prepend(lo, a) + b;
      if t[0] == lo {
        ComboTail(t, lo, n, k);
        IndexCombosComplete(t[1..], lo + 1, n, k - 1);
        PrependMember(lo, t[1..], a);
        assert [lo] + t[1..] == t;
        assert t in Prepend(lo, a);
      } else {
        ComboSkip(t, lo, n, k);
        IndexCombosComplete(t, lo + 1, n, k);
        assert t in b;
      }
    }
  }

  lemma {:induction false} ComboTail(t: seq<int>, lo: int, n: int, k: nat)
    requires IsCombo(t, lo, n, k) && k >= 1 && t[0] == lo
    ensures IsCombo(t[1..], lo + 1, n, k - 1)
  {
    assert forall j :: 0 < j < k ==> t[0] < t[j];
  }

  lemma {:induction false} ComboSkip(t: seq<int>, lo: int, n: int, k: nat)
    requires IsCombo(t, lo, n, k) && k >= 1 && t[0] != lo
    ensures IsCombo(t, lo + 1, n, k)
  {
    assert forall j :: 0 < j < k ==> t[0] < t[j];
  }

  lemma {:induction false} PrependMember<T>(x: T, u: seq<T>, r: seq<seq<T>>)
    requires u in r
    ensures [x] + u in Prepend(x, r)
  {
    var i :| 0 <= i < |r| && r[i] == u;
    assert Prepend(x, r)[i] == [x] + u;
  }

  /** Strict lexicographic order on position vectors of equal length. */
  predicate LexLess(a: seq<int>, b: seq<int>)
  {
    |a| > 0 && |b| > 0 && (a[0] < b[0] || (a[0] == b[0] && LexLess(a[1..], b[1..])))
  }

  lemma {:induction false} LexLessIrreflexive(a: seq<int>)
    ensures !LexLess(a, a)
  {
    if |a| > 0 {
      LexLessIrreflexive(a[1..]);
    }
  }

  lemma {:induction false} LexLessDistinct(u: seq<int>, v: seq<int>)
    requires LexLess(u, v)
    ensures u != v
  {
    LexLessIrreflexive(u);
  }

  lemma {:induction false} SortedWithin(lo: int, a: seq<seq<int>>, b: seq<seq<int>>, i: nat, j: nat)
    requires i < j < |a| && LexLess(a[i], a[j])
    ensures LexLess((Prepend(lo, a) + b)[i], (Prepend(lo, a) + b)[j])
  {
    var r := Prepend(lo, a) + b;
    assert r[i] == [lo] + a[i] && r[j] == [lo] + a[j];
    assert r[i][1..] == a[i] && r[j][1..] == a[j];
  }

  lemma {:induction false} SortedAfter(lo: int, a: seq<seq<int>>, b: seq<seq<int>>, i: nat, j: nat)
    requires |a| <= i < j < |a| + |b| && LexLess(b[i - |a|], b[j - |a|])
    ensures LexLess((Prepend(lo, a) + b)[i], (Prepend(lo, a) + b)[j])
  {
  }

  lemma {:induction false} SortedAcross(lo: int, n: int, a: seq<seq<int>>, b: seq<seq<int>>, i: nat, j: nat)
    requires i < |a| <= j < |a| + |b| && |b[j - |a|]| > 0 && InRange(b[j - |a|], lo + 1, n)
    ensures LexLess((Prepend(lo, a) + b)[i], (Prepend(lo, a) + b)[j])
  {
    var r := Prepend(lo, a) + b;
    assert r[i] == [lo] + a[i];
  }

  /** Every element of `ts` is lexicographically below every later one. */
  predicate LexSorted(ts: seq<seq<int>>)
  {
    forall i, j :: 0 <= i < j < |ts| ==> LexLess(ts[i], ts[j])
  }

  /**
   * Putting `lo` in front of a sorted run keeps it sorted, and a sorted run of vectors
   * that all start above `lo` may follow it.
   */
  lemma {:induction false} PrependSorted(lo: int, n: int, a: seq<seq<int>>, b: seq<seq<int>>)
    requires LexSorted(a) && LexSorted(b)
    requires forall q :: 0 <= q < |b| ==> |b[q]| > 0 && InRange(b[q], lo + 1, n)
    ensures LexSorted(Prepend(lo, a) + b)
  {
    var r := Prepend(lo, a) + b;
    forall i, j | 0 <= i < j < |r|
      ensures LexLess(r[i], r[j])
    {
      if j < |a| {
        SortedWithin(lo, a, b, i, j);
      } else if i >= |a| {
        SortedAfter(lo, a, b, i, j);
      } else {
        SortedAcross(lo, n, a, b, i, j);
      }
    }
  }

  /** The enumeration is strictly increasing in lexicographic order. */
  lemma {:induction false} IndexCombosSorted(lo: int, n: int, k: nat)
    ensures LexSorted(IndexCombos(lo, n, k))
    decreases k, n - lo
  {
    if k > 0 && lo < n {
      var a := IndexCombos(lo + 1, n, k - 1);
      var b := IndexCombos(lo + 1, n, k);
      IndexCombosSorted(lo + 1, n, k - 1);
      IndexCombosSorted(lo + 1, n, k);
      PrependSorted(lo, n, a, b);
      assert IndexCombos(lo, n, k) == Prepend(lo, a) + b;
    }
  }

  /* ---------- the successor step of the index-vector iterator ---------- */

  /**
   * The rightmost position below `j` whose index has not yet reached its largest value
   * `n - |t| + p` in an `n`-card slice; -1 when there is none.
   */
  function Pivot(t: seq<int>, n: int, j: nat): (p: int)
    requires j <= |t|
    ensures -1 <= p < j
  {
    if j == 0 then -1
    else if t[j - 1] < n - |t| + (j - 1) then j - 1
    else Pivot(t, n, j - 1)
  }

  /**
   * The next combination after `t`: advance the pivot and lay the positions after it out
   * consecutively; `None` when every position is at its largest value.
   */
  function Successor(t: seq<int>, n: int): (r: Option<seq<int>>)
    ensures r.Some? ==> |r.value| == |t|
  {
    var p := Pivot(t, n, |t|);
    if p < 0 then None else Some(t[..p] + Ramp(t[p] + 1, |t| - p))
  }

  lemma {:induction false} PivotPrepend(x: int, u: seq<int>, n: int, j: nat)
    requires j <= |u|
    ensures Pivot([x] + u, n, j + 1)
         == if Pivot(u, n, j) >= 0 then Pivot(u, n, j) + 1
            else if x < n - |u| - 1 then 0 else -1
  {
    if j > 0 {
      PivotPrepend(x, u, n, j - 1);
    }
  }

  lemma {:induction false} SuccessorPrepend(x: int, u: seq<int>, n: int)
    ensures Successor([x] + u, n)
         == match Successor(u, n)
            case Some(v) => Some([x] + v)
            case None => if x < n - |u| - 1 then Some(Ramp(x + 1, |u| + 1)) else None
  {
    PivotPrepend(x, u, n, |u|);
    var p := Pivot(u, n, |u|);
    if p >= 0 {
      var t := [x] + u;
      var ramp := Ramp(u[p] + 1, |u| - p);
      assert t[..p + 1] == [x] + u[..p];
      assert t[p + 1] == u[p];
      assert Successor(t, n) == Some(t[..p + 1] + ramp);
      assert Successor(u, n) == Some(u[..p] + ramp);
      assert t[..p + 1] + ramp == [x] + (u[..p] + ramp);
    } else {
      var t := [x] + u;
      assert t[..0] + Ramp(x + 1, |u| + 1) == Ramp(x + 1, |u| + 1);
    }
  }

  /** The successor of the `i`-th vector of `r` is the next one, or `None` after the last. */
  ghost predicate Chained(r: seq<seq<int>>, n: int, i: nat)
    requires i < |r|
  {
    Successor(r[i], n) == if i + 1 < |r| then Some(r[i + 1]) else None
  }

  /**
   * The successor step walks the reference enumeration: it maps each combination to the
   * one after it, and the last one to `None`.
   */
  lemma {:induction false} SuccessorChain(lo: int, n: int, k: nat, i: nat)
    requires lo <= n
    requires i < |IndexCombos(lo, n, k)|
    ensures Chained(IndexCombos(lo, n, k), n, i)
    decreases k, n - lo, 1
  {
    if k == 0 {
      assert Pivot([], n, 0) == -1;
    } else {
      ChainParts(lo, n, k, i);
      ChainJunction(lo, n, k);
      ChainConcat(lo, IndexCombos(lo + 1, n, k - 1), IndexCombos(lo + 1, n, k), n, k, i);
    }
  }

  /** The induction hypotheses: the chain property within each half of the enumeration. */
  lemma {:induction false} ChainParts(lo: int, n: int, k: nat, i: nat)
    requires lo < n && k >= 1
    requires i < |IndexCombos(lo + 1, n, k - 1)| + |IndexCombos(lo + 1, n, k)|
    ensures i < |IndexCombos(lo + 1, n, k - 1)| ==> Chained(IndexCombos(lo + 1, n, k - 1), n, i)
    ensures i >= |IndexCombos(lo + 1, n, k - 1)| ==>
      Chained(IndexCombos(lo + 1, n, k), n, i - |IndexCombos(lo + 1, n, k - 1)|)
    decreases k, n - lo, 0
  {
    var a := IndexCombos(lo + 1, n, k - 1);
    if i < |a| {
      SuccessorChain(lo + 1, n, k - 1, i);
    } else {
      SuccessorChain(lo + 1, n, k, i - |a|);
    }
  }

  /** Where the two halves meet: the second half starts at the lowest run above `lo`. */
  lemma {:induction false} ChainJunction(lo: int, n: int, k: nat)
    requires lo < n && k >= 1
    ensures |IndexCombos(lo + 1, n, k)| > 0 <==> lo < n - k
    ensures |IndexCombos(lo + 1, n, k)| > 0 ==> IndexCombos(lo + 1, n, k)[0] == Ramp(lo + 1, k)
  {
    IndexCombosNonEmpty(lo + 1, n, k);
    if lo < n - k {
      IndexCombosFirst(lo + 1, n, k);
    }
  }

  /** The chain property of `Prepend(lo, a) + b` follows from those of its two parts. */
  lemma {:induction false} ChainConcat(lo: int, a: seq<seq<int>>, b: seq<seq<int>>, n: int, k: nat, i: nat)
    requires k >= 1 && i < |a| + |b|
    requires forall j :: 0 <= j < |a| ==> |a[j]| == k - 1
    requires i < |a| ==> Chained(a, n, i)
    requires i >= |a| ==> Chained(b, n, i - |a|)
    requires |b| > 0 <==> lo < n - k
    requires |b| > 0 ==> b[0] == Ramp(lo + 1, k)
    ensures Chained(Prepend(lo, a) + b, n, i)
  {
    var r := Prepend(lo, a) + b;
    if i < |a| {
      SuccessorPrepend(lo, a[i], n);
      assert r[i] == [lo] + a[i];
      if i + 1 < |a| {
        assert r[i + 1] == [lo] + a[i + 1];
      }
    } else {
      assert r[i] == b[i - |a|];
    }
  }

  /** Advancing a position modulo its bound wraps to 0 exactly from the largest value. */
  lemma {:induction false} WrapAround(x: int, m: int)
    requires 0 <= x < m
    ensures (x + 1) % m == if x + 1 == m then 0 else x + 1
  {
  }

  /** When position `inc` is below its largest value and none after it is, it is the pivot. */
  lemma {:induction false} SuccessorAt(t: seq<int>, n: int, inc: nat)
    requires inc < |t| && Pivot(t, n, |t|) == Pivot(t, n, inc + 1)
    requires t[inc] < n - |t| + inc
    ensures Successor(t, n) == Some(t[..inc] + Ramp(t[inc] + 1, |t| - inc))
  {
    assert Pivot(t, n, inc + 1) == inc;
  }

  /** With no position below its largest value there is no successor. */
  lemma {:induction false} SuccessorNone(t: seq<int>, n: int)
    requires Pivot(t, n, |t|) == Pivot(t, n, 0)
    ensures Successor(t, n) == None
  {
  }

  /** After the carry stops at `inc`, the positions up to `inc` still ascend. */
  lemma {:induction false} PrimeReady(r: seq<int>, t: seq<int>, inc: nat)
    requires |r| == |t| && inc < |t| && Ascending(t) && 0 <= t[inc]
    requires forall j :: 0 <= j < inc ==> r[j] == t[j]
    requires r[inc] == t[inc] + 1
    ensures forall i :: 0 < i <= inc ==> r[i - 1] < r[i]
    ensures r[inc] >= 0
  {
  }

  /** A vector that keeps `t` before `inc` and counts up from `t[inc] + 1` after it. */
  lemma {:induction false} RunFrom(r: seq<int>, t: seq<int>, inc: nat)
    requires |r| == |t| && inc < |t|
    requires forall j :: 0 <= j < |r| ==> r[j] == if j < inc then t[j] else t[inc] + 1 + (j - inc)
    ensures r == t[..inc] + Ramp(t[inc] + 1, |t| - inc)
  {
  }

  /** Each position is above its left neighbour. */
  predicate Ascending(t: seq<int>)
  {
    forall i :: 0 < i < |t| ==> t[i - 1] < t[i]
  }

  /** Position `i` lies between 0 and its largest value `n - |t| + i`. */
  predicate Bounded(t: seq<int>, n: int)
  {
    forall i :: 0 <= i < |t| ==> 0 <= t[i] <= n - |t| + i
  }

  lemma {:induction false} ComboShape(t: seq<int>, n: int)
    requires IsCombo(t, 0, n, |t|)
    ensures Ascending(t) && Bounded(t, n)
  {
    forall i | 0 <= i < |t|
      ensures t[i] <= n - |t| + i
    {
      ComboBound(t, n, i);
    }
  }

  /** An increasing vector of positions below `n` has `t[i] <= n - |t| + i`. */
  lemma {:induction false} ComboBound(t: seq<int>, n: int, i: nat)
    requires Increasing(t) && InRange(t, 0, n)
    requires i < |t|
    ensures t[i] <= n - |t| + i
    decreases |t| - i
  {
    if i + 1 < |t| {
      ComboBound(t, n, i + 1);
    }
  }

  /* ---------- from positions to cards ---------- */

  /** The cards of `s` at the positions `t`. */
  function Pick(s: seq<Card>, t: seq<int>): (r: seq<Card>)
    requires InRange(t, 0, |s|)
    ensures |r| == |t|
    ensures forall i :: 0 <= i < |t| ==> r[i] == s[t[i]]
  {
    seq(|t|, i requires 0 <= i < |t| => s[t[i]])
  }

  function PickAll(s: seq<Card>, ts: seq<seq<int>>): (r: seq<seq<Card>>)
    requires forall i :: 0 <= i < |ts| ==> InRange(ts[i], 0, |s|)
    ensures |r| == |ts|
    ensures forall i :: 0 <= i < |ts| ==> r[i] == Pick(s, ts[i])
  {
    seq(|ts|, i requires 0 <= i < |ts| => Pick(s, ts[i]))
  }

  /** The `k`-card combinations of `s`, in the order the iterator yields them. */
  function CardCombos(s: seq<Card>, k: nat): (r: seq<seq<Card>>)
    ensures forall i :: 0 <= i < |r| ==> |r[i]| == k
  {
    PickAll(s, IndexCombos(0, |s|, k))
  }

  /** There are C(|s|, k) card combinations. */
  lemma {:induction false} CardCombosCount(s: seq<Card>, k: nat)
    ensures |CardCombos(s, k)| == Binomial(|s|, k)
  {
    IndexCombosCount(0, |s|, k);
  }

  lemma {:induction false} PickInjective(s: seq<Card>, a: seq<int>, b: seq<int>)
    requires forall i, j :: 0 <= i < j < |s| ==> s[i] != s[j]
    requires InRange(a, 0, |s|) && InRange(b, 0, |s|) && |a| == |b|
    requires Pick(s, a) == Pick(s, b)
    ensures a == b
  {
    forall i | 0 <= i < |a|
      ensures a[i] == b[i]
    {
      assert Pick(s, a)[i] == Pick(s, b)[i];
    }
  }

  /** From a slice of distinct cards, no combination is yielded twice. */
  lemma {:induction false} CardCombosDistinct(s: seq<Card>, k: nat, i: nat, j: nat)
    requires forall x, y :: 0 <= x < y < |s| ==> s[x] != s[y]
    requires i < j < |CardCombos(s, k)|
    ensures CardCombos(s, k)[i] != CardCombos(s, k)[j]
  {
    var r := IndexCombos(0, |s|, k);
    IndexCombosSorted(0, |s|, k);
    LexLessDistinct(r[i], r[j]);
    if CardCombos(s, k)[i] == CardCombos(s, k)[j] {
      PickInjective(s, r[i], r[j]);
    }
  }

  /** Every combination of positions `[lo, |s|)` draws its cards from `s[lo..]`. */
  lemma {:induction false} PickSubMultiset(s: seq<Card>, lo: nat, k: nat, i: nat)
    requires lo <= |s| && i < |IndexCombos(lo, |s|, k)|
    ensures multiset(Pick(s, IndexCombos(lo, |s|, k)[i])) <= multiset(s[lo..])
  {
    IndexCombosValid(lo, |s|, k);
    PickIncreasing(s, lo, IndexCombos(lo, |s|, k)[i]);
  }

  /** Drawing strictly increasing positions of `[lo, |s|)` takes each card of `s[lo..]` at most once. */
  lemma {:induction false} PickIncreasing(s: seq<Card>, lo: nat, t: seq<int>)
    requires lo <= |s| && Increasing(t) && InRange(t, lo, |s|)
    ensures multiset(Pick(s, t)) <= multiset(s[lo..])
    decreases |t|
  {
    if |t| > 0 {
      IncreasingTail(t, lo, |s|);
      PickIncreasing(s, t[0] + 1, t[1..]);
      PickIncreasingStep(s, lo, t);
    }
  }

  lemma {:induction false} IncreasingTail(t: seq<int>, lo: int, n: int)
    requires |t| > 0 && Increasing(t) && InRange(t, lo, n)
    ensures lo <= t[0] < n && Increasing(t[1..]) && InRange(t[1..], t[0] + 1, n)
  {
  }

  lemma {:induction false} PickIncreasingStep(s: seq<Card>, lo: nat, t: seq<int>)
    requires |t| > 0 && lo <= t[0] < |s| && InRange(t, lo, |s|) && InRange(t[1..], t[0] + 1, |s|)
    requires multiset(Pick(s, t[1..])) <= multiset(s[t[0] + 1..])
    ensures multiset(Pick(s, t)) <= multiset(s[lo..])
  {
    var p, u := t[0], t[1..];
    assert t == [p] + u;
    PickCons(s, p, u);
    SuffixWithin(s, lo, p);
  }

  lemma {:induction false} SuffixWithin(s: seq<Card>, lo: nat, p: nat)
    requires lo <= p <= |s|
    ensures multiset(s[p..]) <= multiset(s[lo..])
  {
    assert s[lo..] == s[lo..p] + s[p..];
  }

  lemma {:induction false} SuffixSubMultiset(s: seq<Card>, lo: nat)
    requires lo < |s|
    ensures multiset(s[lo..]) == multiset{s[lo]} + multiset(s[lo + 1..])
  {
    assert s[lo..] == [s[lo]] + s[lo + 1..];
  }

  /** Drawing position `lo` first adds the card at `lo` to a draw from `s[lo + 1..]`. */
  lemma {:induction false} PickCons(s: seq<Card>, lo: nat, u: seq<int>)
    requires lo < |s| && InRange(u, 0, |s|)
    requires multiset(Pick(s, u)) <= multiset(s[lo + 1..])
    ensures InRange([lo] + u, 0, |s|)
    ensures multiset(Pick(s, [lo] + u)) <= multiset(s[lo..])
  {
    assert Pick(s, [lo] + u) == [s[lo]] + Pick(s, u);
    SuffixSubMultiset(s, lo);
  }

  /** Every card combination of `s` is a sub-multiset of `s`. */
  lemma {:induction false} CardCombosSubMultiset(s: seq<Card>, k: nat, c: seq<Card>)
    requires c in CardCombos(s, k)
    ensures multiset(c) <= multiset(s)
  {
    var i :| 0 <= i < |CardCombos(s, k)| && CardCombos(s, k)[i] == c;
    PickSubMultiset(s, 0, k, i);
    assert s[0..] == s;
  }

  /* ---------- the recursive enumeration (findCombinations) ---------- */

  /**
   * The combinations `findCombinations` sends for `choose >= 1`: for each card of the
   * slice in turn, that card followed by each combination of the cards after it.
   */
  function FindCombinations(s: seq<Card>, choose: nat): (r: seq<seq<Card>>)
    requires choose >= 1
    decreases |s|, 1
  {
    FindFrom(s, 0, choose)
  }

  function FindFrom(s: seq<Card>, i: nat, choose: nat): (r: seq<seq<Card>>)
    requires i <= |s| && choose >= 1
    decreases |s|, 0, |s| - i
  {
    if i == |s| then []
    else
      var here := if choose == 1 then [[s[i]]] else Prepend(s[i], FindCombinations(s[i + 1..], choose - 1));
      here + FindFrom(s, i + 1, choose)
  }

  lemma {:induction false} PickAllAppend(s: seq<Card>, x: seq<seq<int>>, y: seq<seq<int>>)
    requires forall i :: 0 <= i < |x + y| ==> InRange((x + y)[i], 0, |s|)
    ensures forall i :: 0 <= i < |x| ==> InRange(x[i], 0, |s|)
    ensures forall i :: 0 <= i < |y| ==> InRange(y[i], 0, |s|)
    ensures PickAll(s, x + y) == PickAll(s, x) + PickAll(s, y)
  {
    assert forall i :: 0 <= i < |x| ==> x[i] == (x + y)[i];
    assert forall i :: 0 <= i < |y| ==> y[i] == (x + y)[|x| + i];
  }

  lemma {:induction false} PickAllPrepend(s: seq<Card>, x: int, ts: seq<seq<int>>)
    requires 0 <= x < |s|
    requires forall i :: 0 <= i < |ts| ==> InRange(ts[i], 0, |s|)
    ensures forall i :: 0 <= i < |ts| ==> InRange(Prepend(x, ts)[i], 0, |s|)
    ensures PickAll(s, Prepend(x, ts)) == Prepend(s[x], PickAll(s, ts))
  {
    forall i | 0 <= i < |ts|
      ensures InRange(Prepend(x, ts)[i], 0, |s|)
      ensures PickAll(s, Prepend(x, ts))[i] == Prepend(s[x], PickAll(s, ts))[i]
    {
      var t := Prepend(x, ts)[i];
      assert t == [x] + ts[i];
      assert forall j :: 1 <= j < |t| ==> t[j] == ts[i][j - 1];
    }
  }

  /** Positions counted from `d` in `s` are positions counted from 0 in `s[d..]`. */
  lemma {:induction false} PickAllShift(s: seq<Card>, d: nat, lo: nat, k: nat)
    requires d + lo <= |s|
    ensures PickAll(s[d..], IndexCombos(lo, |s| - d, k)) == PickAll(s, IndexCombos(lo + d, |s|, k))
    decreases k, |s| - d - lo
  {
    var s' := s[d..];
    if k == 0 {
      assert IndexCombos(lo, |s| - d, k) == IndexCombos(lo + d, |s|, k) == [[]];
    } else if lo < |s| - d {
      PickAllShift(s, d, lo + 1, k - 1);
      PickAllShift(s, d, lo + 1, k);
      PickAllShiftCase(s, d, lo, k);
    }
  }

  /** The step of `PickAllShift` for a first position `lo`, given the shifts of the two tails. */
  lemma {:induction false} PickAllShiftCase(s: seq<Card>, d: nat, lo: nat, k: nat)
    requires k > 0 && d + lo < |s|
    requires PickAll(s[d..], IndexCombos(lo + 1, |s| - d, k - 1)) == PickAll(s, IndexCombos(lo + 1 + d, |s|, k - 1))
    requires PickAll(s[d..], IndexCombos(lo + 1, |s| - d, k)) == PickAll(s, IndexCombos(lo + 1 + d, |s|, k))
    ensures PickAll(s[d..], IndexCombos(lo, |s| - d, k)) == PickAll(s, IndexCombos(lo + d, |s|, k))
  {
    var s' := s[d..];
    var a := IndexCombos(lo + 1, |s| - d, k - 1);
    var b := IndexCombos(lo + 1, |s| - d, k);
    var a' := IndexCombos(lo + 1 + d, |s|, k - 1);
    var b' := IndexCombos(lo + 1 + d, |s|, k);
    IndexCombosWithin(lo + 1, |s| - d, k - 1);
    IndexCombosWithin(lo + 1, |s| - d, k);
    IndexCombosWithin(lo + 1 + d, |s|, k - 1);
    IndexCombosWithin(lo + 1 + d, |s|, k);
    IndexCombosStep(lo, |s| - d, k);
    IndexCombosStepAt(lo + d, lo + 1 + d, |s|, k);
    PickAllStep(s', lo, a, b, s, lo + d, a', b');
  }

  /** The positions of every reference combination of `[lo, n)` are positions of `[0, n)`. */
  lemma {:induction false} IndexCombosWithin(lo: nat, n: int, k: nat)
    ensures forall i :: 0 <= i < |IndexCombos(lo, n, k)| ==> InRange(IndexCombos(lo, n, k)[i], 0, n)
  {
    var r := IndexCombos(lo, n, k);
    forall i | 0 <= i < |r|
      ensures InRange(r[i], 0, n)
    {
      assert InRange(r[i], lo, n);
    }
  }

  /** Picking with a first position prepended to some lists and other lists after them agrees on two slices that agree on the parts. */
  lemma {:induction false} PickAllStep(s: seq<Card>, x: int, a: seq<seq<int>>, b: seq<seq<int>>,
                                       t: seq<Card>, y: int, c: seq<seq<int>>, e: seq<seq<int>>)
    requires 0 <= x < |s| && 0 <= y < |t| && s[x] == t[y]
    requires forall i :: 0 <= i < |a| ==> InRange(a[i], 0, |s|)
    requires forall i :: 0 <= i < |b| ==> InRange(b[i], 0, |s|)
    requires forall i :: 0 <= i < |c| ==> InRange(c[i], 0, |t|)
    requires forall i :: 0 <= i < |e| ==> InRange(e[i], 0, |t|)
    requires PickAll(s, a) == PickAll(t, c) && PickAll(s, b) == PickAll(t, e)
    ensures forall i :: 0 <= i < |Prepend(x, a) + b| ==> InRange((Prepend(x, a) + b)[i], 0, |s|)
    ensures forall i :: 0 <= i < |Prepend(y, c) + e| ==> InRange((Prepend(y, c) + e)[i], 0, |t|)
    ensures PickAll(s, Prepend(x, a) + b) == PickAll(t, Prepend(y, c) + e)
  {
    PickAllPrepend(s, x, a);
    PickAllPrepend(t, y, c);
    forall i | 0 <= i < |Prepend(x, a) + b|
      ensures InRange((Prepend(x, a) + b)[i], 0, |s|)
    {
      if i >= |a| {
        assert (Prepend(x, a) + b)[i] == b[i - |a|];
      }
    }
    forall i | 0 <= i < |Prepend(y, c) + e|
      ensures InRange((Prepend(y, c) + e)[i], 0, |t|)
    {
      if i >= |c| {
        assert (Prepend(y, c) + e)[i] == e[i - |c|];
      }
    }
    PickAllAppend(s, Prepend(x, a), b);
    PickAllAppend(t, Prepend(y, c), e);
  }

  /** `FindFrom(s, i, k)` lists the reference combinations whose positions start at `i`. */
  lemma {:induction false} FindFromMatches(s: seq<Card>, i: nat, k: nat)
    requires i <= |s| && k >= 1
    ensures FindFrom(s, i, k) == PickAll(s, IndexCombos(i, |s|, k))
    decreases |s|, 1, |s| - i
  {
    if i < |s| {
      var a := IndexCombos(i + 1, |s|, k - 1);
      var b := IndexCombos(i + 1, |s|, k);
      FindFromMatches(s, i + 1, k);
      assert IndexCombos(i, |s|, k) == Prepend(i, a) + b;
      PickAllPrepend(s, i, a);
      PickAllAppend(s, Prepend(i, a), b);
      FindHere(s, i, k);
    }
  }

  /** The combinations `findCombinations` sends with `s[i]` in the current slot. */
  lemma {:induction false} FindHere(s: seq<Card>, i: nat, k: nat)
    requires i < |s| && k >= 1
    ensures (if k == 1 then [[s[i]]] else Prepend(s[i], FindCombinations(s[i + 1..], k - 1)))
         == Prepend(s[i], PickAll(s, IndexCombos(i + 1, |s|, k - 1)))
    decreases |s|, 0, 1
  {
    if k == 1 {
      LastSlot(s, i);
    } else {
      FindRest(s, i, k - 1);
    }
  }

  lemma {:induction false} FindRest(s: seq<Card>, i: nat, k: nat)
    requires i < |s| && k >= 1
    ensures FindCombinations(s[i + 1..], k) == PickAll(s, IndexCombos(i + 1, |s|, k))
    decreases |s|, 0, 0
  {
    FindFromMatches(s[i + 1..], 0, k);
    PickAllShift(s, i + 1, 0, k);
  }

  lemma {:induction false} LastSlot(s: seq<Card>, i: nat)
    requires i < |s|
    ensures [[s[i]]] == Prepend(s[i], PickAll(s, IndexCombos(i + 1, |s|, 0)))
  {
    var a := IndexCombos(i + 1, |s|, 0);
    assert a == [[]];
    assert Pick(s, []) == [];
    assert PickAll(s, a) == [[]];
    assert Prepend(s[i], [[]])[0] == [s[i]];
  }

  /**
   * The recursive enumeration yields the same combinations, in the same order, as the
   * index-vector iterator.
   */
  lemma {:induction false} FindCombinationsMatchesIterator(s: seq<Card>, k: nat)
    requires k >= 1
    ensures FindCombinations(s, k) == CardCombos(s, k)
  {
    FindFromMatches(s, 0, k);
  }

  /* ---------- the index-vector iterator ---------- */

  /**
   * Iterator over the `choose`-card combinations of `slice`: `index` holds the positions
   * of the next combination to return, `done` is set once the last one has been returned.
   */
  class ComboIterator {
    var slice: seq<Card>
    var choose: nat
    var index: array<int>
    var done: bool
    /** How many combinations have been returned so far. */
    ghost var pos: nat

    /**
     * Before the last combination has been returned, `index` holds the positions of
     * the next one in the reference enumeration.
     */
    ghost predicate Valid()
      reads this, index
    {
      index.Length == choose && choose <= |slice|
      && pos <= |IndexCombos(0, |slice|, choose)|
      && (done <==> pos == |IndexCombos(0, |slice|, choose)|)
      && (!done ==> index[..] == IndexCombos(0, |slice|, choose)[pos])
    }

    /** The combinations still to be returned. */
    ghost function Remaining(): seq<seq<Card>>
      reads this, index
      requires Valid()
    {
      CardCombos(slice, choose)[pos..]
    }

    /** Starts at the lowest positions; choosing more cards than the slice holds panics. */
    constructor Combinations(slice: seq<Card>, choose: nat)
      requires choose <= |slice|
      ensures Valid() && fresh(index)
      ensures this.slice == slice && this.choose == choose
      ensures Remaining() == CardCombos(slice, choose)
    {
      var primed := new int[choose](_ => 0);
      Prime(primed, 0);
      IndexCombosFirst(0, |slice|, choose);
      assert primed[..] == Ramp(0, choose);
      this.slice := slice;
      this.choose := choose;
      index := primed;
      done := false;
      pos := 0;
      assert CardCombos(slice, choose)[0..] == CardCombos(slice, choose);
    }

    /**
     * Makes the positions after `p` consecutive: each one not above its left neighbour
     * becomes one more than it. Called with the positions after `p` reset to 0.
     */
    static method Prime(index: array<int>, ghost p: nat)
      requires forall i :: 0 < i <= p && i < index.Length ==> index[i - 1] < index[i]
      requires p < index.Length ==> index[p] >= 0
      requires forall i :: p < i < index.Length ==> index[i] == 0
      modifies index
      ensures forall i :: 0 <= i < index.Length ==>
        index[i] == if i <= p then old(index[i]) else old(index[p]) + (i - p)
    {
      var i := 1;
      while i < index.Length
        invariant 1 <= i && (i <= index.Length || index.Length == 0)
        invariant forall j :: 0 <= j < index.Length ==>
          index[j] == if j >= i then old(index[j])
                      else if j <= p then old(index[j]) else old(index[p]) + (j - p)
      {
        if index[i] <= index[i - 1] {
          index[i] := index[i - 1] + 1;
        }
        i := i + 1;
      }
    }

    /** Advances `index` to the successor combination, or sets `done` after the last. */
    method MoveNext()
      requires !done && index.Length == choose
      requires Ascending(index[..]) && Bounded(index[..], |slice|)
      modifies this`done, index
      ensures done <==> Successor(old(index[..]), |slice|).None?
      ensures !done ==> index[..] == Successor(old(index[..]), |slice|).value
    {
      ghost var t := index[..];
      ghost var n := |slice|;
      var inc := Carry(index, |slice|);
      if inc < 0 {
        SuccessorNone(t, n);
        done := true;
      } else {
        SuccessorAt(t, n, inc);
        if inc < choose - 1 {
          PrimeReady(index[..], t, inc);
          Prime(index, inc);
        }
        RunFrom(index[..], t, inc);
      }
    }

    /**
     * The first loop of `moveNext`: from the last position back, step each index
     * on, wrapping the ones at their maximum to 0, until one does not wrap. That
     * one, `inc`, is the pivot; -1 when every index wrapped.
     */
    static method Carry(index: array<int>, n: int) returns (inc: int)
      requires Bounded(index[..], n)
      modifies index
      ensures -1 <= inc < index.Length && inc == Pivot(old(index[..]), n, index.Length)
      ensures inc >= 0 ==> old(index[inc]) < n - index.Length + inc && index[inc] == old(index[inc]) + 1
      ensures forall j :: 0 <= j < inc ==> index[j] == old(index[j])
      ensures forall j :: inc < j < index.Length ==> index[j] == 0
    {
      ghost var t := index[..];
      inc := index.Length - 1;
      while inc >= 0
        invariant -1 <= inc < index.Length
        invariant forall j :: 0 <= j <= inc ==> index[j] == t[j]
        invariant forall j :: inc < j < index.Length ==> index[j] == 0
        invariant Pivot(t, n, index.Length) == Pivot(t, n, inc + 1)
        decreases inc
      {
        var maxSliceIndex := n - (index.Length - inc - 1);
        WrapAround(t[inc], maxSliceIndex);
        index[inc] := (index[inc] + 1) % maxSliceIndex;
        if index[inc] == 0 {
          inc := inc - 1;
        } else {
          return;
        }
      }
    }

    /** Whether a combination remains to be returned. */
    function HasNext(): (b: bool)
      reads this, index
      requires Valid()
      ensures b <==> Remaining() != []
    {
      !done
    }

    /** Returns the cards at the current positions and advances to the next combination. */
    method Next() returns (combo: seq<Card>)
      requires Valid() && !done
      modifies this, index
      ensures Valid() && index == old(index)
      ensures slice == old(slice) && choose == old(choose)
      ensures |old(Remaining())| > 0 && combo == old(Remaining())[0]
      ensures Remaining() == old(Remaining())[1..]
    {
      CurrentCombo(slice, choose, pos);
      combo := CopyCurrent();
      MoveNext();
      NextPosition(slice, choose, pos, done, index[..]);
      SplitFirst(CardCombos(slice, choose), pos);
      pos := pos + 1;
    }

    /** The cards at the current positions, copied into a new slice. */
    method CopyCurrent() returns (combo: seq<Card>)
      requires index.Length == choose && InRange(index[..], 0, |slice|)
      ensures combo == Pick(slice, index[..])
    {
      var c := new Card[choose];
      for i := 0 to choose
        invariant forall j :: 0 <= j < i ==> c[j] == slice[index[j]]
      {
        c[i] := slice[index[i]];
      }
      combo := c[..];
    }
  }

  /** Drains a fresh iterator: the combinations come out exactly as the reference lists them. */
  method AllCombinations(slice: seq<Card>, choose: nat) returns (combos: seq<seq<Card>>)
    requires choose <= |slice|
    ensures combos == CardCombos(slice, choose)
  {
    var itr := new ComboIterator.Combinations(slice, choose);
    combos := [];
    while itr.HasNext()
      invariant itr.Valid() && fresh(itr.index)
      invariant itr.slice == slice && itr.choose == choose
      invariant combos + itr.Remaining() == CardCombos(slice, choose)
      decreases |itr.Remaining()|
    {
      ghost var rest := itr.Remaining();
      var c := itr.Next();
      DrainStep(combos, rest, c, itr.Remaining());
      combos := combos + [c];
    }
  }

  /** Moving the head of what remains to the end of what was collected keeps their concatenation. */
  lemma {:induction false} DrainStep<T>(collected: seq<T>, rest: seq<T>, c: T, after: seq<T>)
    requires |rest| > 0 && c == rest[0] && after == rest[1..]
    ensures collected + [c] + after == collected + rest
  {
    assert rest == [c] + after;
  }

  lemma {:induction false} AppendAssoc<T>(a: seq<T>, b: seq<T>, c: seq<T>)
    ensures a + b + c == a + (b + c)
  {
  }

  /**
   * One successor step moves from step `pos` of the enumeration to step `pos + 1`, and
   * the combinations from step `pos` on are the one at `pos` followed by the rest.
   */
  lemma {:induction false} NextPosition(slice: seq<Card>, choose: nat, pos: nat, done: bool, u: seq<int>)
    requires pos < |IndexCombos(0, |slice|, choose)|
    requires done <==> Successor(IndexCombos(0, |slice|, choose)[pos], |slice|).None?
    requires !done ==> u == Successor(IndexCombos(0, |slice|, choose)[pos], |slice|).value
    ensures done <==> pos + 1 == |IndexCombos(0, |slice|, choose)|
    ensures !done ==> u == IndexCombos(0, |slice|, choose)[pos + 1]
  {
    SuccessorChain(0, |slice|, choose, pos);
  }

  lemma {:induction false} SplitFirst<T>(r: seq<T>, pos: nat)
    requires pos < |r|
    ensures r[pos..] == [r[pos]] + r[pos + 1..]
  {
  }

  /**
   * The positions at step `pos` of the enumeration form a combination, and the cards
   * they select are the combination returned at that step.
   */
  lemma {:induction false} CurrentCombo(slice: seq<Card>, choose: nat, pos: nat)
    requires pos < |IndexCombos(0, |slice|, choose)|
    ensures Ascending(IndexCombos(0, |slice|, choose)[pos])
    ensures Bounded(IndexCombos(0, |slice|, choose)[pos], |slice|)
    ensures InRange(IndexCombos(0, |slice|, choose)[pos], 0, |slice|)
    ensures pos < |CardCombos(slice, choose)|
    ensures CardCombos(slice, choose)[pos] == Pick(slice, IndexCombos(0, |slice|, choose)[pos])
  {
    var t := IndexCombos(0, |slice|, choose)[pos];
    IndexCombosValid(0, |slice|, choose);
    assert IsCombo(t, 0, |slice|, choose);
    ComboShape(t, |slice|);
  }

  lemma {:induction false} PrependOne(x: int, u: seq<int>)
    ensures Prepend(x, [u]) == [[x] + u]
  {
  }

  /** One step of the reference recursion, for arguments the prover should not evaluate. */
  lemma {:induction false} IndexCombosStep(lo: int, n: int, k: nat)
    requires k >= 1 && lo < n
    ensures IndexCombos(lo, n, k) == Prepend(lo, IndexCombos(lo + 1, n, k - 1)) + IndexCombos(lo + 1, n, k)
  {
  }

  /** `IndexCombosStep` with the next position `next` named by the caller. */
  lemma {:induction false} IndexCombosStepAt(lo: int, next: int, n: int, k: nat)
    requires k >= 1 && lo < n && next == lo + 1
    ensures IndexCombos(lo, n, k) == Prepend(lo, IndexCombos(next, n, k - 1)) + IndexCombos(next, n, k)
  {
    IndexCombosStep(lo, n, k);
  }

  /** The single positions of `[lo, n)`, in order. */
  lemma {:induction false} Singles(lo: int, n: int)
    requires lo <= n
    ensures |IndexCombos(lo, n, 1)| == n - lo
    ensures forall i :: 0 <= i < n - lo ==> IndexCombos(lo, n, 1)[i] == [lo + i]
    decreases n - lo
  {
    if lo < n {
      var rest := IndexCombos(lo + 1, n, 1);
      Singles(lo + 1, n);
      IndexCombosStep(lo, n, 1);
      assert IndexCombos(lo + 1, n, 0) == [[]];
      assert Prepend(lo, [[]]) == [[lo]] by {
        assert Prepend(lo, [[]])[0] == [lo] + [] == [lo];
      }
      var all := IndexCombos(lo, n, 1);
      assert all == [[lo]] + rest;
      forall i | 0 <= i < n - lo
        ensures all[i] == [lo + i]
      {
        if i > 0 {
          assert all[i] == rest[i - 1];
        }
      }
    }
  }

  /** The two-position combinations of positions 1..3 out of four, in order. */
  lemma {:induction false} TwoOfFourTail(n: int)
    requires n == 4
    ensures IndexCombos(1, n, 2) == [[1, 2], [1, 3], [2, 3]]
  {
    Singles(2, n);
    Singles(3, n);
    var s2, s3 := IndexCombos(2, n, 1), IndexCombos(3, n, 1);
    assert s3 == [[3]];
    assert s2 == [[2], [3]];
    IndexCombosStep(3, n, 2);
    assert IndexCombos(3, n, 2) == [];
    IndexCombosStep(2, n, 2);
    assert Prepend(2, s3) == [[2, 3]] by {
      assert Prepend(2, s3)[0] == [2] + [3] == [2, 3];
    }
    assert IndexCombos(2, n, 2) == [[2, 3]];
    IndexCombosStep(1, n, 2);
    assert Prepend(1, s2) == [[1, 2], [1, 3]] by {
      assert Prepend(1, s2)[0] == [1] + [2] == [1, 2];
      assert Prepend(1, s2)[1] == [1] + [3] == [1, 3];
    }
  }

  /** The two-position combinations of four positions, in order. */
  lemma {:induction false} TwoOfFourFirst(n: int)
    requires n == 4
    ensures Prepend(0, IndexCombos(1, n, 1)) == [[0, 1], [0, 2], [0, 3]]
  {
    Singles(1, n);
    var s1 := IndexCombos(1, n, 1);
    assert s1 == [[1], [2], [3]];
    assert Prepend(0, s1)[0] == [0] + [1] == [0, 1];
    assert Prepend(0, s1)[1] == [0] + [2] == [0, 2];
    assert Prepend(0, s1)[2] == [0] + [3] == [0, 3];
  }

  lemma {:induction false} TwoOfFourPositions(n: int)
    requires n == 4
    ensures IndexCombos(0, n, 2) == [[0, 1], [0, 2], [0, 3], [1, 2], [1, 3], [2, 3]]
  {
    IndexCombosStep(0, n, 2);
    TwoOfFourFirst(n);
    TwoOfFourTail(n);
    assert [[0, 1], [0, 2], [0, 3]] + [[1, 2], [1, 3], [2, 3]] == [[0, 1], [0, 2], [0, 3], [1, 2], [1, 3], [2, 3]];
  }

  /** The two-card combinations of 4♠ 5♥ 6♦ 7♣ come out in lexicographic order. */
  lemma {:induction false} TwoOfFourExample(hand: seq<Card>)
    requires hand == [Card(Four, Spades), Card(Five, Hearts), Card(Six, Diamonds), Card(Seven, Clubs)]
    ensures CardCombos(hand, 2) == [
        [Card(Four, Spades), Card(Five, Hearts)],
        [Card(Four, Spades), Card(Six, Diamonds)],
        [Card(Four, Spades), Card(Seven, Clubs)],
        [Card(Five, Hearts), Card(Six, Diamonds)],
        [Card(Five, Hearts), Card(Seven, Clubs)],
        [Card(Six, Diamonds), Card(Seven, Clubs)]]
  {
    TwoOfFourPositions(|hand|);
    var r := IndexCombos(0, |hand|, 2);
    var cc := CardCombos(hand, 2);
    assert cc[0] == Pick(hand, r[0]) == [hand[0], hand[1]];
    assert cc[1] == Pick(hand, r[1]) == [hand[0], hand[2]];
    assert cc[2] == Pick(hand, r[2]) == [hand[0], hand[3]];
    assert cc[3] == Pick(hand, r[3]) == [hand[1], hand[2]];
    assert cc[4] == Pick(hand, r[4]) == [hand[1], hand[3]];
    assert cc[5] == Pick(hand, r[5]) == [hand[2], hand[3]];
  }
}
