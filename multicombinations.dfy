/**
 * Combinations of several disjoint groups drawn from one pool (`MultipleCombinations`):
 * group `i` picks `choose[i]` cards from what is left after the picks of groups
 * `0..i-1`, and the last group varies fastest. A reference enumeration lists the
 * group tuples in that order; the set iterator, built from one combination iterator
 * per group, is proved to yield exactly that list.
 */
module MultiCombinations {
  import opened Wrappers
  import opened Cards
  import opened Combinatorics
  import opened Combinations

  /* ---------- the reference enumeration ---------- */

  /**
   * Every tuple of groups of sizes `ks`, taken from `pool` one group after the other,
   * in the order the set iterator yields them.
   */
  function MultiCombos(pool: seq<Card>, ks: seq<nat>): (r: seq<seq<seq<Card>>>)
    decreases |ks|, 1
  {
    if ks == [] then [[]] else MultiFrom(pool, CardCombos(pool, ks[0]), ks[1..])
  }

  /** For each first group `c` of `cs` in turn, `c` followed by every tuple of the later groups. */
  function MultiFrom(pool: seq<Card>, cs: seq<seq<Card>>, rest: seq<nat>): (r: seq<seq<seq<Card>>>)
    decreases |rest|, 2, |cs|
  {
    if cs == [] then []
    else Prepend(cs[0], MultiCombos(WithoutAll(pool, cs[0]), rest)) + MultiFrom(pool, cs[1..], rest)
  }

  lemma {:induction false} MultiFromCons(pool: seq<Card>, c: seq<Card>, cs: seq<seq<Card>>, rest: seq<nat>)
    ensures MultiFrom(pool, [c] + cs, rest)
         == Prepend(c, MultiCombos(WithoutAll(pool, c), rest)) + MultiFrom(pool, cs, rest)
  {
    assert ([c] + cs)[1..] == cs;
  }

  lemma {:induction false} MultiCombosCons(pool: seq<Card>, k: nat, rest: seq<nat>)
    ensures MultiCombos(pool, [k] + rest) == MultiFrom(pool, CardCombos(pool, k), rest)
  {
    assert ([k] + rest)[1..] == rest;
  }

  lemma {:induction false} PrependAppend<T>(x: T, a: seq<seq<T>>, b: seq<seq<T>>)
    ensures Prepend(x, a + b) == Prepend(x, a) + Prepend(x, b)
  {
  }

  /** A tuple of groups of sizes `ks`. */
  predicate Shaped(ks: seq<nat>, t: seq<seq<Card>>)
  {
    |t| == |ks| && forall i :: 0 <= i < |t| ==> |t[i]| == ks[i]
  }

  /** Every tuple of the reference enumeration has one group per size, each of its size. */
  lemma {:induction false} MultiCombosShape(pool: seq<Card>, ks: seq<nat>)
    ensures forall j :: 0 <= j < |MultiCombos(pool, ks)| ==> Shaped(ks, MultiCombos(pool, ks)[j])
    decreases |ks|, 1
  {
    if ks != [] {
      var cs := CardCombos(pool, ks[0]);
      CardCombosDrawn(pool, ks[0]);
      assert forall j :: 0 <= j < |cs| ==> Drawn(pool, ks[0], cs[j]);
      MultiFromShape(pool, cs, ks[0], ks[1..]);
      assert [ks[0]] + ks[1..] == ks;
    }
  }

  lemma {:induction false} MultiFromShape(pool: seq<Card>, cs: seq<seq<Card>>, k: nat, rest: seq<nat>)
    requires forall j :: 0 <= j < |cs| ==> |cs[j]| == k
    ensures forall j :: 0 <= j < |MultiFrom(pool, cs, rest)| ==> Shaped([k] + rest, MultiFrom(pool, cs, rest)[j])
    decreases |rest|, 2, |cs|
  {
    if cs != [] {
      var later := MultiCombos(WithoutAll(pool, cs[0]), rest);
      MultiCombosShape(WithoutAll(pool, cs[0]), rest);
      MultiFromShape(pool, cs[1..], k, rest);
      var front, back := Prepend(cs[0], later), MultiFrom(pool, cs[1..], rest);
      forall j | 0 <= j < |front|
        ensures Shaped([k] + rest, front[j])
      {
        assert front[j] == [cs[0]] + later[j];
      }
      assert MultiFrom(pool, cs, rest) == front + back;
    }
  }

  /* ---------- size and disjointness of the groups ---------- */

  /** The elements of the parts, one part after the other (the cards of a tuple's groups, say). */
  function Concat<T>(t: seq<seq<T>>): seq<T>
  {
    if t == [] then [] else t[0] + Concat(t[1..])
  }

  /** Each group is drawn from what the pool still holds once the earlier groups are taken out. */
  ghost predicate DrawnInTurn(pool: seq<Card>, t: seq<seq<Card>>)
  {
    forall i :: 0 <= i < |t| ==> multiset(t[i]) <= multiset(WithoutAll(pool, Concat(t[..i])))
  }

  /** Each card occurs at most once. */
  predicate NoRepeats(s: seq<Card>)
  {
    forall c :: c in s ==> multiset(s)[c] <= 1
  }

  /** A first group drawn from the pool, ahead of later groups drawn in turn from what it leaves. */
  lemma {:induction false} DrawnInTurnCons(pool: seq<Card>, c: seq<Card>, u: seq<seq<Card>>)
    requires multiset(c) <= multiset(pool) && DrawnInTurn(WithoutAll(pool, c), u)
    ensures DrawnInTurn(pool, [c] + u)
  {
    var t := [c] + u;
    forall i | 0 <= i < |t|
      ensures multiset(t[i]) <= multiset(WithoutAll(pool, Concat(t[..i])))
    {
      if i == 0 {
        assert t[0] == c && t[..0] == [];
        assert WithoutAll(pool, Concat(t[..0])) == pool;
      } else {
        TakenBefore(pool, c, u, i - 1);
        assert multiset(u[i - 1]) <= multiset(WithoutAll(WithoutAll(pool, c), Concat(u[..i - 1])));
      }
    }
  }

  /** What is left before group `i + 1` of `[c] + u` is what is left of `pool - c` before group `i` of `u`. */
  lemma {:induction false} TakenBefore(pool: seq<Card>, c: seq<Card>, u: seq<seq<Card>>, i: nat)
    requires i < |u|
    ensures ([c] + u)[i + 1] == u[i]
    ensures WithoutAll(pool, Concat(([c] + u)[..i + 1])) == WithoutAll(WithoutAll(pool, c), Concat(u[..i]))
  {
    var t := [c] + u;
    assert t[..i + 1] == [c] + u[..i];
    assert Concat(t[..i + 1]) == c + Concat(u[..i]);
    WithoutAllAppend(pool, c, Concat(u[..i]));
  }

  /** The converse: the first group is in the pool and the later groups are drawn in turn from the rest. */
  lemma {:induction false} DrawnInTurnTail(pool: seq<Card>, t: seq<seq<Card>>)
    requires |t| > 0 && DrawnInTurn(pool, t)
    ensures multiset(t[0]) <= multiset(pool) && DrawnInTurn(WithoutAll(pool, t[0]), t[1..])
  {
    assert t[..0] == [];
    assert WithoutAll(pool, Concat(t[..0])) == pool;
    var u := t[1..];
    forall i | 0 <= i < |u|
      ensures multiset(u[i]) <= multiset(WithoutAll(WithoutAll(pool, t[0]), Concat(u[..i])))
    {
      TakenBefore(pool, t[0], u, i);
      assert ([t[0]] + u)[..i + 1] == t[..i + 1];
      assert multiset(t[i + 1]) <= multiset(WithoutAll(pool, Concat(t[..i + 1])));
    }
  }

  /** Every tuple of the reference enumeration takes its groups from the pool in turn. */
  lemma {:induction false} MultiCombosDrawnInTurn(pool: seq<Card>, ks: seq<nat>)
    ensures forall j :: 0 <= j < |MultiCombos(pool, ks)| ==> DrawnInTurn(pool, MultiCombos(pool, ks)[j])
    decreases |ks|, 1
  {
    if ks == [] {
      assert MultiCombos(pool, ks) == [[]];
    } else {
      var cs := CardCombos(pool, ks[0]);
      forall j | 0 <= j < |cs|
        ensures multiset(cs[j]) <= multiset(pool)
      {
        CardCombosSubMultiset(pool, ks[0], cs[j]);
      }
      MultiFromDrawnInTurn(pool, cs, ks[1..]);
    }
  }

  lemma {:induction false} MultiFromDrawnInTurn(pool: seq<Card>, cs: seq<seq<Card>>, rest: seq<nat>)
    requires forall j :: 0 <= j < |cs| ==> multiset(cs[j]) <= multiset(pool)
    ensures forall j :: 0 <= j < |MultiFrom(pool, cs, rest)| ==> DrawnInTurn(pool, MultiFrom(pool, cs, rest)[j])
    decreases |rest|, 2, |cs|
  {
    if cs != [] {
      var later := MultiCombos(WithoutAll(pool, cs[0]), rest);
      MultiCombosDrawnInTurn(WithoutAll(pool, cs[0]), rest);
      MultiFromDrawnInTurn(pool, cs[1..], rest);
      var front, back := Prepend(cs[0], later), MultiFrom(pool, cs[1..], rest);
      forall j | 0 <= j < |front|
        ensures DrawnInTurn(pool, front[j])
      {
        assert front[j] == [cs[0]] + later[j];
        DrawnInTurnCons(pool, cs[0], later[j]);
      }
      assert MultiFrom(pool, cs, rest) == front + back;
    }
  }

  /** Groups drawn in turn use, all together, no card more often than the pool holds it. */
  lemma {:induction false} DrawnWithinPool(pool: seq<Card>, t: seq<seq<Card>>)
    requires DrawnInTurn(pool, t)
    ensures multiset(Concat(t)) <= multiset(pool)
    decreases |t|
  {
    if |t| > 0 {
      DrawnInTurnTail(pool, t);
      DrawnWithinPool(WithoutAll(pool, t[0]), t[1..]);
      WithoutAllPresent(pool, t[0]);
    }
  }

  /** Groups drawn in turn from a pool without repeated cards never share a card. */
  lemma {:induction false} DrawnApart(pool: seq<Card>, t: seq<seq<Card>>)
    requires DrawnInTurn(pool, t) && NoRepeats(pool)
    ensures forall a, b, x :: 0 <= a < b < |t| && x in t[a] ==> x !in t[b]
    decreases |t|
  {
    if |t| > 0 {
      var rest := WithoutAll(pool, t[0]);
      FirstApart(pool, t);
      DrawnApart(rest, t[1..]);
      forall a, b, x | 0 < a < b < |t| && x in t[a]
        ensures x !in t[b]
      {
        assert t[a] == t[1..][a - 1] && t[b] == t[1..][b - 1];
      }
    }
  }

  /** The first group shares no card with a later one, and what it leaves has no repeated card. */
  lemma {:induction false} FirstApart(pool: seq<Card>, t: seq<seq<Card>>)
    requires |t| > 0 && DrawnInTurn(pool, t) && NoRepeats(pool)
    ensures DrawnInTurn(WithoutAll(pool, t[0]), t[1..]) && NoRepeats(WithoutAll(pool, t[0]))
    ensures forall b, x :: 0 < b < |t| && x in t[0] ==> x !in t[b]
  {
    var rest := WithoutAll(pool, t[0]);
    DrawnInTurnTail(pool, t);
    NoRepeatsLeft(pool, t[0]);
    forall b, x | 0 < b < |t| && x in t[0]
      ensures x !in t[b]
    {
      TakenOut(pool, t[0], x);
      if x in t[b] {
        InGroup(rest, t[1..], b - 1, x);
        assert false;
      }
    }
  }

  /** What is left of a pool without repeated cards has none either. */
  lemma {:induction false} NoRepeatsLeft(pool: seq<Card>, c: seq<Card>)
    requires NoRepeats(pool)
    ensures NoRepeats(WithoutAll(pool, c))
  {
    WithoutAllShrinks(pool, c);
  }

  /** A card taken out of a pool that held it once is no longer there. */
  lemma {:induction false} TakenOut(pool: seq<Card>, c: seq<Card>, x: Card)
    requires NoRepeats(pool) && multiset(c) <= multiset(pool) && x in c
    ensures x !in multiset(WithoutAll(pool, c))
  {
    WithoutAllPresent(pool, c);
    assert x in multiset(c);
  }

  /** A card of a group drawn in turn is still in the pool the groups started from. */
  lemma {:induction false} InGroup(pool: seq<Card>, t: seq<seq<Card>>, i: nat, x: Card)
    requires DrawnInTurn(pool, t) && i < |t| && x in t[i]
    ensures x in multiset(pool)
  {
    assert x in multiset(t[i]);
    WithoutAllShrinks(pool, Concat(t[..i]));
  }

  /**
   * The groups of a yielded tuple never use more cards than the pool holds and, for a
   * pool without repeated cards, never share a card.
   */
  lemma {:induction false} MultiCombosDisjoint(pool: seq<Card>, ks: seq<nat>, j: nat)
    requires j < |MultiCombos(pool, ks)|
    ensures multiset(Concat(MultiCombos(pool, ks)[j])) <= multiset(pool)
    ensures NoRepeats(pool) ==>
      forall a, b, x :: 0 <= a < b < |MultiCombos(pool, ks)[j]| && x in MultiCombos(pool, ks)[j][a] ==> x !in MultiCombos(pool, ks)[j][b]
  {
    var t := MultiCombos(pool, ks)[j];
    MultiCombosDrawnInTurn(pool, ks);
    DrawnWithinPool(pool, t);
    if NoRepeats(pool) {
      DrawnApart(pool, t);
    }
  }

  /** The number of tuples: the product of C(n - k_0 - ... - k_{i-1}, k_i) over the groups. */
  function GroupCount(n: nat, ks: seq<nat>): nat
  {
    if ks == [] then 1
    else if ks[0] > n then 0
    else Binomial(n, ks[0]) * GroupCount(n - ks[0], ks[1..])
  }

  /** When every first group leaves `g` tuples for the later groups, there are `|cs| * g` tuples. */
  lemma {:induction false} MultiFromCount(pool: seq<Card>, cs: seq<seq<Card>>, rest: seq<nat>, g: nat)
    requires forall i :: 0 <= i < |cs| ==> |MultiCombos(WithoutAll(pool, cs[i]), rest)| == g
    ensures |MultiFrom(pool, cs, rest)| == |cs| * g
  {
    if cs != [] {
      var m := |cs| - 1;
      MultiFromCount(pool, cs[1..], rest, g);
      assert |MultiFrom(pool, cs, rest)| == g + m * g;
      Distribute(m, 1, g);
    }
  }

  /** Where part `i` starts when every part holds `g` elements: `i * g`, counted part by part. */
  function Offset(i: nat, g: nat): nat
  {
    if i == 0 then 0 else Offset(i - 1, g) + g
  }

  /** With parts of `g` elements each, element `j` of part `i` sits at `Offset(i, g) + j`. */
  lemma {:induction false} ConcatAt<T>(t: seq<seq<T>>, g: nat, i: nat, j: nat)
    requires forall m :: 0 <= m < |t| ==> |t[m]| == g
    requires i < |t| && j < g
    ensures Offset(i, g) + j < |Concat(t)| && Concat(t)[Offset(i, g) + j] == t[i][j]
    decreases i
  {
    if i > 0 {
      ConcatAt(t[1..], g, i - 1, j);
      assert (t[0] + Concat(t[1..]))[g + Offset(i - 1, g) + j] == Concat(t[1..])[Offset(i - 1, g) + j];
    }
  }

  /** The tuples `MultiFrom` lists for each first group: the group ahead of every later tuple. */
  function Blocks(pool: seq<Card>, cs: seq<seq<Card>>, rest: seq<nat>): (r: seq<seq<seq<seq<Card>>>>)
    ensures |r| == |cs|
  {
    seq(|cs|, m requires 0 <= m < |cs| => Prepend(cs[m], MultiCombos(WithoutAll(pool, cs[m]), rest)))
  }

  /** `MultiFrom` lists the blocks one after the other. */
  lemma {:induction false} MultiFromBlocks(pool: seq<Card>, cs: seq<seq<Card>>, rest: seq<nat>)
    ensures MultiFrom(pool, cs, rest) == Concat(Blocks(pool, cs, rest))
    decreases |cs|
  {
    if cs != [] {
      MultiFromBlocks(pool, cs[1..], rest);
      assert Blocks(pool, cs, rest)[1..] == Blocks(pool, cs[1..], rest);
    }
  }

  /**
   * The tuples are listed block by block: with `g` tuples after each first group, tuple
   * `j` of block `i` is the `i`-th first group followed by the `j`-th tuple of the later groups.
   */
  lemma {:induction false} MultiFromAt(pool: seq<Card>, cs: seq<seq<Card>>, rest: seq<nat>, g: nat, i: nat, j: nat)
    requires forall m :: 0 <= m < |cs| ==> |MultiCombos(WithoutAll(pool, cs[m]), rest)| == g
    requires i < |cs| && j < g
    ensures Offset(i, g) + j < |MultiFrom(pool, cs, rest)|
    ensures MultiFrom(pool, cs, rest)[Offset(i, g) + j] == [cs[i]] + MultiCombos(WithoutAll(pool, cs[i]), rest)[j]
  {
    var bs := Blocks(pool, cs, rest);
    MultiFromBlocks(pool, cs, rest);
    ConcatAt(bs, g, i, j);
  }

  /** Every combination of `k` cards drawn from a pool leaves `k` fewer cards in it. */
  lemma {:induction false} CardCombosLeave(pool: seq<Card>, k: nat)
    ensures forall i :: 0 <= i < |CardCombos(pool, k)| ==> |WithoutAll(pool, CardCombos(pool, k)[i])| == |pool| - k
  {
    var cs := CardCombos(pool, k);
    forall i | 0 <= i < |cs|
      ensures |WithoutAll(pool, cs[i])| == |pool| - k
    {
      CardCombosSubMultiset(pool, k, cs[i]);
      WithoutAllPresent(pool, cs[i]);
    }
  }

  /** The set iterator yields the product of binomials many tuples. */
  lemma {:induction false} MultiCombosCount(pool: seq<Card>, ks: seq<nat>)
    ensures |MultiCombos(pool, ks)| == GroupCount(|pool|, ks)
    decreases |ks|
  {
    if ks != [] {
      var k, rest := ks[0], ks[1..];
      var cs := CardCombos(pool, k);
      CardCombosCount(pool, k);
      assert MultiCombos(pool, ks) == MultiFrom(pool, cs, rest);
      if k <= |pool| {
        var g := GroupCount(|pool| - k, rest);
        CardCombosLeave(pool, k);
        forall i | 0 <= i < |cs|
          ensures |MultiCombos(WithoutAll(pool, cs[i]), rest)| == g
        {
          MultiCombosCount(WithoutAll(pool, cs[i]), rest);
        }
        MultiFromCount(pool, cs, rest, g);
      } else {
        BinomialPositive(|pool|, k);
        assert cs == [];
      }
    }
  }

  /* ---------- what the set iterator still has to yield ---------- */

  /**
   * The tuples still to come from group `i` on, the current one first: `nexts[i..]`
   * and then, level by level from the last group up, the tuples that start with a
   * later pick of that level. `pools[j]` is group `j`'s pool, `nexts[j]` its current
   * pick and `rems[j]` the picks its iterator has not returned yet.
   */
  ghost function Pending(pools: seq<seq<Card>>, ks: seq<nat>, nexts: seq<seq<Card>>,
                         rems: seq<seq<seq<Card>>>, i: nat): seq<seq<seq<Card>>>
    requires |pools| == |ks| == |nexts| == |rems| && i <= |ks|
    decreases |ks| - i
  {
    if i == |ks| then [[]]
    else Prepend(nexts[i], Pending(pools, ks, nexts, rems, i + 1)) + MultiFrom(pools[i], rems[i], ks[i + 1..])
  }

  /** The current tuple is the first one still to come. */
  lemma {:induction false} PendingHead(pools: seq<seq<Card>>, ks: seq<nat>, nexts: seq<seq<Card>>,
                                       rems: seq<seq<seq<Card>>>, i: nat)
    requires |pools| == |ks| == |nexts| == |rems| && i <= |ks|
    ensures |Pending(pools, ks, nexts, rems, i)| > 0
    ensures Pending(pools, ks, nexts, rems, i)[0] == nexts[i..]
    decreases |ks| - i
  {
    if i < |ks| {
      PendingHead(pools, ks, nexts, rems, i + 1);
      PendingStep(pools, ks, nexts, rems, i);
      assert nexts[i..] == [nexts[i]] + nexts[i + 1..];
    }
  }

  /** The tuples to come from group `i` on start with the current pick of group `i` followed by those from `i + 1` on. */
  lemma {:induction false} PendingStep(pools: seq<seq<Card>>, ks: seq<nat>, nexts: seq<seq<Card>>,
                                       rems: seq<seq<seq<Card>>>, i: nat)
    requires |pools| == |ks| == |nexts| == |rems| && i < |ks|
    requires |Pending(pools, ks, nexts, rems, i + 1)| > 0
    ensures |Pending(pools, ks, nexts, rems, i)| > 0
    ensures Pending(pools, ks, nexts, rems, i)[0] == [nexts[i]] + Pending(pools, ks, nexts, rems, i + 1)[0]
  {
    var later := Pending(pools, ks, nexts, rems, i + 1);
    var started := MultiFrom(pools[i], rems[i], ks[i + 1..]);
    PrependHead(nexts[i], later, started);
  }

  lemma {:induction false} PrependHead<T>(x: T, p: seq<seq<T>>, q: seq<seq<T>>)
    requires |p| > 0
    ensures |Prepend(x, p) + q| > 0 && (Prepend(x, p) + q)[0] == [x] + p[0]
  {
  }

  /** When no group from `i` on has a pick left, only the current tuple remains. */
  lemma {:induction false} PendingExhausted(pools: seq<seq<Card>>, ks: seq<nat>, nexts: seq<seq<Card>>,
                                            rems: seq<seq<seq<Card>>>, i: nat)
    requires |pools| == |ks| == |nexts| == |rems| && i <= |ks|
    requires forall j :: i <= j < |ks| ==> rems[j] == []
    ensures Pending(pools, ks, nexts, rems, i) == [nexts[i..]]
    decreases |ks| - i
  {
    if i < |ks| {
      PendingExhausted(pools, ks, nexts, rems, i + 1);
      assert rems[i] == [];
      calc {
        Pending(pools, ks, nexts, rems, i);
        Prepend(nexts[i], [nexts[i + 1..]]) + MultiFrom(pools[i], rems[i], ks[i + 1..]);
        Prepend(nexts[i], [nexts[i + 1..]]) + [];
        { PrependSingle(nexts, i); }
        [nexts[i..]] + [];
        [nexts[i..]];
      }
    } else {
      assert nexts[i..] == [];
    }
  }

  /** Group `j` has just been started: its current pick is its first combination, the rest are to come. */
  ghost predicate Started(pools: seq<seq<Card>>, ks: seq<nat>, nexts: seq<seq<Card>>,
                          rems: seq<seq<seq<Card>>>, j: nat)
    requires j < |pools| && j < |ks| && j < |nexts| && j < |rems|
  {
    var cs := CardCombos(pools[j], ks[j]);
    |cs| > 0 && nexts[j] == cs[0] && rems[j] == cs[1..]
  }

  /** Starting group `|nexts|` keeps the groups below it and the ones started since `n0` as they were. */
  lemma {:induction false} StartedPush(pools: seq<seq<Card>>, ks: seq<nat>, nexts: seq<seq<Card>>, rems: seq<seq<seq<Card>>>,
                    n0: nat, pool: seq<Card>, c: seq<Card>, rem: seq<seq<Card>>,
                    pools': seq<seq<Card>>, nexts': seq<seq<Card>>, rems': seq<seq<seq<Card>>>)
    requires n0 <= |nexts| < |pools| && |nexts| < |ks| && |nexts| < |rems|
    requires forall l :: n0 <= l < |nexts| ==> Started(pools, ks, nexts, rems, l)
    requires |CardCombos(pool, ks[|nexts|])| > 0
    requires c == CardCombos(pool, ks[|nexts|])[0] && rem == CardCombos(pool, ks[|nexts|])[1..]
    requires pools' == pools[|nexts| := pool] && nexts' == nexts + [c] && rems' == rems[|nexts| := rem]
    ensures forall l :: n0 <= l < |nexts'| ==> Started(pools', ks, nexts', rems', l)
  {
    var i := |nexts|;
    forall l | n0 <= l < i + 1
      ensures Started(pools', ks, nexts', rems', l)
    {
      if l < i {
        assert pools'[l] == pools[l] && nexts'[l] == nexts[l] && rems'[l] == rems[l];
        assert Started(pools, ks, nexts, rems, l);
      }
    }
  }

  /** From group `lo` on, each active group's pool is the previous pool without the previous pick. */
  ghost predicate PoolsChained(pools: seq<seq<Card>>, nexts: seq<seq<Card>>, lo: nat)
    requires |nexts| <= |pools|
  {
    forall l {:trigger WithoutAll(pools[l], nexts[l])} ::
      lo <= l && l + 1 < |nexts| ==> pools[l + 1] == WithoutAll(pools[l], nexts[l])
  }

  /**
   * A group's first pick in front of every tuple of the pool it leaves, followed by the
   * tuples that start with its later picks: every tuple of the group's own pool.
   */
  lemma {:induction false} FirstPickThenRest(pool: seq<Card>, k: nat, rest: seq<nat>, next: seq<Card>,
                                             rem: seq<seq<Card>>, later: seq<seq<seq<Card>>>)
    requires CardCombos(pool, k) == [next] + rem
    requires later == MultiCombos(WithoutAll(pool, next), rest)
    ensures Prepend(next, later) + MultiFrom(pool, rem, rest) == MultiCombos(pool, [k] + rest)
  {
    MultiFromCons(pool, next, rem, rest);
    MultiCombosCons(pool, k, rest);
  }

  /** Freshly started groups from `i` on still have every tuple of their pool to yield. */
  lemma {:induction false} PendingStarted(pools: seq<seq<Card>>, ks: seq<nat>, nexts: seq<seq<Card>>,
                                          rems: seq<seq<seq<Card>>>, i: nat)
    requires |pools| == |ks| == |nexts| == |rems| && i < |ks|
    requires forall j :: i <= j < |ks| ==> Started(pools, ks, nexts, rems, j)
    requires PoolsChained(pools, nexts, i)
    ensures Pending(pools, ks, nexts, rems, i) == MultiCombos(pools[i], ks[i..])
    decreases |ks| - i
  {
    var rest := ks[i + 1..];
    var later := Pending(pools, ks, nexts, rems, i + 1);
    assert Started(pools, ks, nexts, rems, i);
    var cs := CardCombos(pools[i], ks[i]);
    assert cs == [nexts[i]] + rems[i] by {
      assert cs == [cs[0]] + cs[1..];
    }
    if i + 1 < |ks| {
      assert pools[i + 1] == WithoutAll(pools[i], nexts[i]);
      PendingStarted(pools, ks, nexts, rems, i + 1);
    } else {
      assert rest == [];
    }
    FirstPickThenRest(pools[i], ks[i], rest, nexts[i], rems[i], later);
    assert ks[i..] == [ks[i]] + rest;
  }

  /**
   * The group that advances: every group after `inc` had no pick left, group `inc`
   * takes its next pick, and the groups after it are started afresh from the new pools.
   * What was to come from `inc` on is the current tuple's tail followed by what is to
   * come afterwards.
   */
  lemma {:induction false} PendingAdvanceHere(ks: seq<nat>, pools: seq<seq<Card>>, nexts: seq<seq<Card>>,
                           rems: seq<seq<seq<Card>>>, pools': seq<seq<Card>>,
                           nexts': seq<seq<Card>>, rems': seq<seq<seq<Card>>>, inc: nat)
    requires |pools| == |ks| == |nexts| == |rems| && |pools'| == |ks| == |nexts'| == |rems'|
    requires inc < |ks|
    requires forall l :: inc < l < |ks| ==> rems[l] == []
    requires pools'[inc] == pools[inc] && rems[inc] == [nexts'[inc]] + rems'[inc]
    requires inc + 1 < |ks| ==> pools'[inc + 1] == WithoutAll(pools[inc], nexts'[inc])
    requires forall l :: inc < l < |ks| ==> Started(pools', ks, nexts', rems', l)
    requires PoolsChained(pools', nexts', inc + 1)
    ensures Pending(pools, ks, nexts, rems, inc) == [nexts[inc..]] + Pending(pools', ks, nexts', rems', inc)
  {
    var rest := ks[inc + 1..];
    var c := nexts'[inc];
    var later := MultiCombos(WithoutAll(pools[inc], c), rest);
    PendingExhausted(pools, ks, nexts, rems, inc + 1);
    if inc + 1 < |ks| {
      PendingStarted(pools', ks, nexts', rems', inc + 1);
    } else {
      assert rest == [];
    }
    assert Pending(pools', ks, nexts', rems', inc + 1) == later;
    MultiFromCons(pools[inc], c, rems'[inc], rest);
    PrependSingle(nexts, inc);
  }

  lemma {:induction false} PrependSingle(nexts: seq<seq<Card>>, j: nat)
    requires j < |nexts|
    ensures Prepend(nexts[j], [nexts[j + 1..]]) == [nexts[j..]]
  {
    assert nexts[j..] == [nexts[j]] + nexts[j + 1..];
    assert Prepend(nexts[j], [nexts[j + 1..]])[0] == nexts[j..];
  }

  /**
   * One advance of the set iterator, seen from any group `j <= inc`: what was still to
   * come is the current tuple followed by what is still to come afterwards.
   */
  lemma {:induction false} PendingAdvance(ks: seq<nat>, pools: seq<seq<Card>>, nexts: seq<seq<Card>>,
                                          rems: seq<seq<seq<Card>>>, pools': seq<seq<Card>>,
                                          nexts': seq<seq<Card>>, rems': seq<seq<seq<Card>>>,
                                          inc: nat, j: nat)
    requires |pools| == |ks| == |nexts| == |rems| && |pools'| == |ks| == |nexts'| == |rems'|
    requires j <= inc < |ks|
    requires forall l :: 0 <= l < inc ==> pools'[l] == pools[l] && nexts'[l] == nexts[l] && rems'[l] == rems[l]
    requires Pending(pools, ks, nexts, rems, inc) == [nexts[inc..]] + Pending(pools', ks, nexts', rems', inc)
    ensures Pending(pools, ks, nexts, rems, j) == [nexts[j..]] + Pending(pools', ks, nexts', rems', j)
    decreases inc - j
  {
    if j < inc {
      var after := Pending(pools', ks, nexts', rems', j + 1);
      var m := MultiFrom(pools[j], rems[j], ks[j + 1..]);
      PendingAdvance(ks, pools, nexts, rems, pools', nexts', rems', inc, j + 1);
      assert pools'[j] == pools[j] && nexts'[j] == nexts[j] && rems'[j] == rems[j];
      PrependAppend(nexts[j], [nexts[j + 1..]], after);
      PrependSingle(nexts, j);
      assert Pending(pools', ks, nexts', rems', j) == Prepend(nexts[j], after) + m;
      calc {
        Pending(pools, ks, nexts, rems, j);
        Prepend(nexts[j], [nexts[j + 1..]] + after) + m;
        [nexts[j..]] + Prepend(nexts[j], after) + m;
        { AppendAssoc([nexts[j..]], Prepend(nexts[j], after), m); }
        [nexts[j..]] + (Prepend(nexts[j], after) + m);
      }
    }
  }

  /** The advancing group's pick is the next one its iterator had left. */
  lemma {:induction false} AdvanceAt(ks: seq<nat>, pools: seq<seq<Card>>, nexts: seq<seq<Card>>,
                  rems: seq<seq<seq<Card>>>, pools': seq<seq<Card>>,
                  nexts': seq<seq<Card>>, rems': seq<seq<seq<Card>>>, inc: nat)
    requires |pools| == |ks| == |nexts| == |rems| && |pools'| == |ks| == |nexts'| == |rems'|
    requires inc < |ks| && |rems[inc]| > 0
    requires forall l :: inc < l < |ks| ==> rems[l] == []
    requires pools'[inc] == pools[inc] && nexts'[inc] == rems[inc][0] && rems'[inc] == rems[inc][1..]
    requires forall l :: inc < l < |ks| ==> Started(pools', ks, nexts', rems', l)
    requires PoolsChained(pools', nexts', inc)
    ensures Pending(pools, ks, nexts, rems, inc) == [nexts[inc..]] + Pending(pools', ks, nexts', rems', inc)
  {
    assert rems[inc] == [nexts'[inc]] + rems'[inc];
    if inc + 1 < |ks| {
      assert pools'[inc + 1] == WithoutAll(pools'[inc], nexts'[inc]);
    }
    PendingAdvanceHere(ks, pools, nexts, rems, pools', nexts', rems', inc);
  }

  /**
   * A whole advance: the tuple that was current comes first among those to come, and
   * the rest of them are what is to come from the new state.
   */
  lemma {:induction false} AdvanceStep(ks: seq<nat>, pools: seq<seq<Card>>, nexts: seq<seq<Card>>,
                    rems: seq<seq<seq<Card>>>, pools': seq<seq<Card>>,
                    nexts': seq<seq<Card>>, rems': seq<seq<seq<Card>>>, inc: nat)
    requires |pools| == |ks| == |nexts| == |rems| && |pools'| == |ks| == |nexts'| == |rems'|
    requires inc < |ks| && |rems[inc]| > 0
    requires forall l :: inc < l < |ks| ==> rems[l] == []
    requires forall l :: 0 <= l < inc ==> pools'[l] == pools[l] && nexts'[l] == nexts[l] && rems'[l] == rems[l]
    requires pools'[inc] == pools[inc] && nexts'[inc] == rems[inc][0] && rems'[inc] == rems[inc][1..]
    requires forall l :: inc < l < |ks| ==> Started(pools', ks, nexts', rems', l)
    requires PoolsChained(pools', nexts', inc)
    ensures Pending(pools, ks, nexts, rems, 0) == [nexts] + Pending(pools', ks, nexts', rems', 0)
    ensures |Pending(pools', ks, nexts', rems', 0)| > 0
  {
    AdvanceAt(ks, pools, nexts, rems, pools', nexts', rems', inc);
    PendingAdvance(ks, pools, nexts, rems, pools', nexts', rems', inc, 0);
    PendingHead(pools', ks, nexts', rems', 0);
    assert nexts[0..] == nexts;
  }

  /* ---------- pool sizes ---------- */

  /** The number of cards the groups from `i` on take together. */
  function Needed(ks: seq<nat>, i: nat): nat
    decreases |ks| - i
  {
    if i >= |ks| then 0 else ks[i] + Needed(ks, i + 1)
  }

  /**
   * Taking a pick of group `i` out of its pool leaves exactly `ks[i]` cards fewer, which
   * is still enough for the groups after it.
   */
  lemma {:induction false} PoolShrinks(pool: seq<Card>, c: seq<Card>, ks: seq<nat>, i: nat)
    requires i < |ks| && Needed(ks, i) <= |pool|
    requires Drawn(pool, ks[i], c)
    ensures |WithoutAll(pool, c)| == |pool| - ks[i]
    ensures Needed(ks, i + 1) <= |WithoutAll(pool, c)|
  {
    WithoutAllPresent(pool, c);
  }

  /** A group whose pool has enough cards for the groups from it on has enough for itself. */
  lemma {:induction false} GroupHasPick(pool: seq<Card>, ks: seq<nat>, i: nat)
    requires i < |ks| && Needed(ks, i) <= |pool|
    ensures ks[i] <= |pool|
  {
  }

  /* ---------- the groups of the set iterator ---------- */

  /** `c` is a pick of `k` cards from `pool`, each taken at most as often as `pool` holds it. */
  ghost predicate Drawn(pool: seq<Card>, k: nat, c: seq<Card>)
  {
    |c| == k && multiset(c) <= multiset(pool)
  }

  /** Every combination of the reference enumeration is a pick from its pool. */
  lemma {:induction false} CardCombosDrawn(pool: seq<Card>, k: nat)
    ensures forall j :: 0 <= j < |CardCombos(pool, k)| ==> Drawn(pool, k, CardCombos(pool, k)[j])
  {
    forall j | 0 <= j < |CardCombos(pool, k)|
      ensures Drawn(pool, k, CardCombos(pool, k)[j])
    {
      CardCombosSubMultiset(pool, k, CardCombos(pool, k)[j]);
    }
  }

  /** An active group: its current pick and every pick its iterator has left are drawn from its pool. */
  ghost predicate Level(pool: seq<Card>, k: nat, pick: seq<Card>, rem: seq<seq<Card>>)
  {
    Drawn(pool, k, pick) && forall j :: 0 <= j < |rem| ==> Drawn(pool, k, rem[j])
  }

  /**
   * The groups `0..|nexts|-1` are active and at their `Level`; each group's pool is the
   * previous pool without the previous pick, and every pool is large enough for the
   * groups from it on.
   */
  ghost predicate Stack(pools: seq<seq<Card>>, ks: seq<nat>, nexts: seq<seq<Card>>, its: seq<seq<seq<Card>>>)
  {
    1 <= |ks| && |pools| == |ks| && |its| == |ks| && |nexts| <= |ks|
    && (forall i {:trigger Level(pools[i], ks[i], nexts[i], its[i])} ::
          0 <= i < |nexts| ==> Level(pools[i], ks[i], nexts[i], its[i]))
    && PoolsChained(pools, nexts, 0)
    && Needed(ks, 0) <= |pools[0]|
    && (forall i {:trigger Needed(ks, i)} :: 0 <= i < |nexts| ==> Needed(ks, i) <= |pools[i]|)
  }

  /** Starting group `|nexts|` from `pool`, whose pool relation and size hold, keeps the stack. */
  lemma {:induction false} StackPush(pools: seq<seq<Card>>, ks: seq<nat>, nexts: seq<seq<Card>>, its: seq<seq<seq<Card>>>,
                  pool: seq<Card>, c: seq<Card>, rem: seq<seq<Card>>)
    requires Stack(pools, ks, nexts, its) && |nexts| < |ks|
    requires |nexts| == 0 ==> pool == pools[0]
    requires |nexts| > 0 ==> pool == WithoutAll(pools[|nexts| - 1], nexts[|nexts| - 1])
    requires Needed(ks, |nexts|) <= |pool| && Level(pool, ks[|nexts|], c, rem)
    ensures Stack(pools[|nexts| := pool], ks, nexts + [c], its[|nexts| := rem])
  {
    var i := |nexts|;
    var pools', nexts', its' := pools[i := pool], nexts + [c], its[i := rem];
    forall l | 0 <= l < i + 1
      ensures Level(pools'[l], ks[l], nexts'[l], its'[l]) && Needed(ks, l) <= |pools'[l]|
    {
      if l < i {
        assert pools'[l] == pools[l] && nexts'[l] == nexts[l] && its'[l] == its[l];
      }
    }
    forall l | 0 <= l && l + 1 < |nexts'|
      ensures pools'[l + 1] == WithoutAll(pools'[l], nexts'[l])
    {
      assert pools'[l] == pools[l] && nexts'[l] == nexts[l];
      if l + 1 < i {
        assert pools[l + 1] == WithoutAll(pools[l], nexts[l]);
      }
    }
  }

  /** Dropping the last active group keeps the stack. */
  lemma {:induction false} StackPop(pools: seq<seq<Card>>, ks: seq<nat>, nexts: seq<seq<Card>>, its: seq<seq<seq<Card>>>)
    requires Stack(pools, ks, nexts, its) && |nexts| > 0
    ensures Stack(pools, ks, nexts[..|nexts| - 1], its)
  {
    var n := |nexts| - 1;
    assert forall l :: 0 <= l < n ==> nexts[..n][l] == nexts[l];
  }

  /** The top group taking the next pick its iterator has left keeps the stack. */
  lemma {:induction false} StackAdvance(pools: seq<seq<Card>>, ks: seq<nat>, nexts: seq<seq<Card>>, its: seq<seq<seq<Card>>>)
    requires Stack(pools, ks, nexts, its) && |nexts| > 0 && |its[|nexts| - 1]| > 0
    ensures var top := |nexts| - 1;
      Stack(pools, ks, nexts[top := its[top][0]], its[top := its[top][1..]])
  {
    var top := |nexts| - 1;
    var nexts', its' := nexts[top := its[top][0]], its[top := its[top][1..]];
    assert Level(pools[top], ks[top], nexts[top], its[top]);
    forall l | 0 <= l < |nexts'|
      ensures Level(pools[l], ks[l], nexts'[l], its'[l])
    {
      if l < top {
        assert nexts'[l] == nexts[l] && its'[l] == its[l];
        assert Level(pools[l], ks[l], nexts[l], its[l]);
      } else {
        assert forall j :: 0 <= j < |its'[l]| ==> its'[l][j] == its[top][j + 1];
      }
    }
    forall l | 0 <= l && l + 1 < |nexts'|
      ensures pools[l + 1] == WithoutAll(pools[l], nexts'[l])
    {
      assert nexts'[l] == nexts[l];
      assert pools[l + 1] == WithoutAll(pools[l], nexts[l]);
    }
  }

  /** The pool of the next group to start, the top pool without the top pick, is large enough for the groups from it on. */
  lemma {:induction false} StackNextPool(pools: seq<seq<Card>>, ks: seq<nat>, nexts: seq<seq<Card>>, its: seq<seq<seq<Card>>>)
    requires Stack(pools, ks, nexts, its) && 0 < |nexts| < |ks|
    ensures Needed(ks, |nexts|) <= |WithoutAll(pools[|nexts| - 1], nexts[|nexts| - 1])|
  {
    var i := |nexts| - 1;
    assert Level(pools[i], ks[i], nexts[i], its[i]);
    PoolShrinks(pools[i], nexts[i], ks, i);
  }

  /**
   * The set iterator's invariant over its fields: the groups form a stack and, while
   * not done, `rest` (the tuples still to be returned) is the current tuple followed by
   * those after it; once done nothing is left.
   */
  ghost predicate SetState(pools: seq<seq<Card>>, ks: seq<nat>, nexts: seq<seq<Card>>, its: seq<seq<seq<Card>>>,
                           done: bool, rest: seq<seq<seq<Card>>>)
  {
    Stack(pools, ks, nexts, its)
    && (done <==> |nexts| == 0)
    && (done ==> rest == [])
    && (!done ==> |nexts| == |ks| && Pending(pools, ks, nexts, its, 0) == rest)
  }

  /** Returning the last tuple: every group had run out, so the iterator is done. */
  lemma {:induction false} ExhaustState(pools: seq<seq<Card>>, ks: seq<nat>, nexts: seq<seq<Card>>, its: seq<seq<seq<Card>>>,
                     rest: seq<seq<seq<Card>>>)
    requires SetState(pools, ks, nexts, its, false, rest)
    requires forall l :: 0 <= l < |ks| ==> its[l] == []
    requires Stack(pools, ks, [], its)
    ensures rest == [nexts]
    ensures SetState(pools, ks, [], its, true, rest[1..])
  {
    PendingExhausted(pools, ks, nexts, its, 0);
    assert nexts[0..] == nexts;
  }

  /** Returning a tuple that is not the last: the advanced state yields the rest. */
  lemma {:induction false} AdvanceState(ks: seq<nat>, pools: seq<seq<Card>>, nexts: seq<seq<Card>>,
                     rems: seq<seq<seq<Card>>>, pools': seq<seq<Card>>,
                     nexts': seq<seq<Card>>, rems': seq<seq<seq<Card>>>, inc: nat,
                     rest: seq<seq<seq<Card>>>, mid: seq<seq<Card>>, mids: seq<seq<seq<Card>>>)
    requires SetState(pools, ks, nexts, rems, false, rest)
    requires inc < |ks| && |rems[inc]| > 0
    requires forall l :: inc < l < |ks| ==> rems[l] == []
    requires mid == nexts[..inc + 1][inc := rems[inc][0]] && mids == rems[inc := rems[inc][1..]]
    requires Stack(pools', ks, nexts', rems') && |nexts'| == |ks|
    requires nexts'[..|mid|] == mid && pools'[..|mid|] == pools[..|mid|] && rems'[..|mid|] == mids[..|mid|]
    requires forall l :: |mid| <= l < |ks| ==> Started(pools', ks, nexts', rems', l)
    ensures |rest| > 1 && rest[0] == nexts
    ensures SetState(pools', ks, nexts', rems', false, rest[1..])
  {
    assert forall l :: 0 <= l < |mid| ==> nexts'[l] == nexts'[..|mid|][l] && pools'[l] == pools'[..|mid|][l] && rems'[l] == rems'[..|mid|][l];
    assert forall l :: 0 <= l < inc ==> nexts'[l] == nexts[l] && rems'[l] == rems[l];
    assert pools'[inc] == pools[inc] && nexts'[inc] == rems[inc][0] && rems'[inc] == rems[inc][1..];
    AdvanceStep(ks, pools, nexts, rems, pools', nexts', rems', inc);
  }

  /* ---------- the set iterator ---------- */

  /**
   * `prime` on the group state: starts every group from `|nexts|` on. Each one's pool
   * is a copy of the previous pool with the previous group's pick removed, and its
   * current pick is the first combination of that pool; the groups below stay as they are.
   */
  method PrimeGroups(pools: seq<seq<Card>>, ks: seq<nat>, nexts: seq<seq<Card>>, its: seq<seq<seq<Card>>>)
    returns (pools': seq<seq<Card>>, nexts': seq<seq<Card>>, its': seq<seq<seq<Card>>>)
    requires Stack(pools, ks, nexts, its)
    ensures Stack(pools', ks, nexts', its') && |nexts'| == |ks| && pools'[0] == pools[0]
    ensures nexts'[..|nexts|] == nexts && pools'[..|nexts|] == pools[..|nexts|] && its'[..|nexts|] == its[..|nexts|]
    ensures forall l :: |nexts| <= l < |ks| ==> Started(pools', ks, nexts', its', l)
  {
    pools', nexts', its' := pools, nexts, its;
    var i := |nexts|;
    while i < |ks|
      invariant Stack(pools', ks, nexts', its') && i == |nexts'| && |nexts| <= i
      invariant pools'[0] == pools[0]
      invariant nexts'[..|nexts|] == nexts && pools'[..|nexts|] == pools[..|nexts|] && its'[..|nexts|] == its[..|nexts|]
      invariant forall l :: |nexts| <= l < i ==> Started(pools', ks, nexts', its', l)
      decreases |ks| - i
    {
      var pool := pools'[i];
      if i > 0 {
        StackNextPool(pools', ks, nexts', its');
        pool := CopyWithout(pools'[i - 1], nexts'[i - 1]);
      }
      var itr := CardCombos(pool, ks[i]);
      GroupHasPick(pool, ks, i);
      CardCombosCount(pool, ks[i]);
      BinomialPositive(|pool|, ks[i]);
      assert |itr| > 0;
      CardCombosDrawn(pool, ks[i]);
      assert Level(pool, ks[i], itr[0], itr[1..]);
      StackPush(pools', ks, nexts', its', pool, itr[0], itr[1..]);
      StartedPush(pools', ks, nexts', its', |nexts|, pool, itr[0], itr[1..],
                  pools'[i := pool], nexts' + [itr[0]], its'[i := itr[1..]]);
      assert (nexts' + [itr[0]])[..|nexts|] == nexts'[..|nexts|];
      assert pools'[i := pool][..|nexts|] == pools'[..|nexts|] && its'[i := itr[1..]][..|nexts|] == its'[..|nexts|];
      pools', nexts', its' := pools'[i := pool], nexts' + [itr[0]], its'[i := itr[1..]];
      i := i + 1;
    }
  }


  /**
   * One combination iterator per group. `slice[i]` is group `i`'s pool, `iterators[i]`
   * the combinations its iterator has still to return and `next[i]` its current pick;
   * `next` is cut back while groups run out and refilled by `Prime`.
   */
  class ComboSetIterator {
    var slice: seq<seq<Card>>
    var choose: seq<nat>
    var iterators: seq<seq<seq<Card>>>
    var next: seq<seq<Card>>
    var done: bool

    /** The tuples still to be returned, in order. */
    ghost var remaining: seq<seq<seq<Card>>>

    ghost predicate Valid()
      reads this
    {
      SetState(slice, choose, next, iterators, done, remaining)
    }

    /**
     * Group 0 draws from `slice` and every group is started at once. An empty `choose`
     * has no group 0, and a group larger than what is left for it panics.
     */
    constructor MultipleCombinations(slice: seq<Card>, choose: seq<nat>)
      requires 1 <= |choose| && Needed(choose, 0) <= |slice|
      ensures Valid() && this.choose == choose && remaining == MultiCombos(slice, choose)
    {
      var pools, nexts, its := PrimeGroups(seq(|choose|, i => if i == 0 then slice else []), choose, [],
                                           seq(|choose|, _ => []));
      PendingStarted(pools, choose, nexts, its, 0);
      PendingHead(pools, choose, nexts, its, 0);
      assert choose[0..] == choose;
      this.slice, this.choose, iterators, next, done := pools, choose, its, nexts, false;
      remaining := MultiCombos(slice, choose);
    }

    /**
     * Advances the last group whose iterator has a pick left, dropping the exhausted
     * groups after it, and starts those groups again; done when no group has a pick left.
     */
    method MoveNext()
      requires Valid() && !done
      modifies this
      ensures Valid() && choose == old(choose)
      ensures |old(remaining)| > 0 && old(remaining)[0] == old(next) && remaining == old(remaining)[1..]
    {
      var its0 := iterators;
      ghost var pools0, nexts0, rest0 := slice, next, remaining;
      assert SetState(pools0, choose, nexts0, its0, false, rest0);
      var nx, inc := DropExhausted(slice, choose, next, its0);
      if inc < 0 {
        ExhaustState(pools0, choose, nexts0, its0, rest0);
        next, done := nx, true;
      } else {
        StackAdvance(pools0, choose, nx, its0);
        ghost var mid, mids := nx[inc := its0[inc][0]], its0[inc := its0[inc][1..]];
        next, iterators := nx[inc := its0[inc][0]], its0[inc := its0[inc][1..]];
        Prime();
        AdvanceState(choose, pools0, nexts0, its0, slice, next, iterators, inc, rest0, mid, mids);
      }
      remaining := rest0[1..];
    }

    /** Starts every group from `|next|` on, as `PrimeGroups` describes. */
    method Prime()
      requires Stack(slice, choose, next, iterators)
      modifies this
      ensures choose == old(choose) && done == old(done) && remaining == old(remaining)
      ensures Stack(slice, choose, next, iterators) && |next| == |choose|
      ensures next[..|old(next)|] == old(next)
      ensures slice[..|old(next)|] == old(slice[..|next|]) && iterators[..|old(next)|] == old(iterators[..|next|])
      ensures forall l :: |old(next)| <= l < |choose| ==> Started(slice, choose, next, iterators, l)
    {
      slice, next, iterators := PrimeGroups(slice, choose, next, iterators);
    }

    method HasNext() returns (b: bool)
      requires Valid()
      ensures b <==> remaining != []
    {
      b := !done;
      if !done {
        PendingHead(slice, choose, next, iterators, 0);
      }
    }

    /** Returns a copy of the current tuple and moves on. */
    method Next() returns (combo: seq<seq<Card>>)
      requires Valid() && !done
      modifies this
      ensures Valid() && choose == old(choose)
      ensures |old(remaining)| > 0 && combo == old(remaining)[0] && remaining == old(remaining)[1..]
    {
      combo := next;
      MoveNext();
    }
  }

  /**
   * The first loop of `moveNext`: from the last group back, drop the current pick of
   * every group whose iterator has run out; `inc` is the group left on top, or -1.
   */
  method DropExhausted(pools: seq<seq<Card>>, ks: seq<nat>, nexts: seq<seq<Card>>, its: seq<seq<seq<Card>>>)
    returns (nx: seq<seq<Card>>, inc: int)
    requires Stack(pools, ks, nexts, its) && |nexts| == |ks|
    ensures -1 <= inc < |ks| && nx == nexts[..inc + 1]
    ensures Stack(pools, ks, nx, its)
    ensures forall l :: inc < l < |ks| ==> its[l] == []
    ensures inc >= 0 ==> its[inc] != []
  {
    nx := nexts;
    inc := |ks| - 1;
    while inc >= 0 && |its[inc]| == 0
      invariant -1 <= inc < |ks| && nx == nexts[..inc + 1]
      invariant Stack(pools, ks, nx, its)
      invariant forall l :: inc < l < |ks| ==> its[l] == []
      decreases inc
    {
      StackPop(pools, ks, nx, its);
      nx := nx[..inc];
      inc := inc - 1;
    }
  }

  /** Drains a fresh iterator: the tuples come out exactly as the reference lists them. */
  method AllMultiCombinations(slice: seq<Card>, choose: seq<nat>) returns (tuples: seq<seq<seq<Card>>>)
    requires 1 <= |choose| && Needed(choose, 0) <= |slice|
    ensures tuples == MultiCombos(slice, choose)
  {
    var itr := new ComboSetIterator.MultipleCombinations(slice, choose);
    tuples := [];
    var more := itr.HasNext();
    while more
      invariant itr.Valid()
      invariant more <==> itr.remaining != []
      invariant tuples + itr.remaining == MultiCombos(slice, choose)
      decreases |itr.remaining|
    {
      ghost var rest := itr.remaining;
      var tuple := itr.Next();
      DrainStep(tuples, rest, tuple, itr.remaining);
      tuples := tuples + [tuple];
      more := itr.HasNext();
    }
  }

  method CopyWithout(pool: seq<Card>, cards: seq<Card>) returns (rest: seq<Card>)
    ensures rest == WithoutAll(pool, cards)
  {
    var nextSlice := new Card[|pool|](j requires 0 <= j < |pool| => pool[j]);
    assert nextSlice[..nextSlice.Length] == pool;
    var len := RemoveCards(nextSlice, nextSlice.Length, cards);
    rest := nextSlice[..len];
  }
}
