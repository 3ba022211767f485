/**
 * What the category searches of `calculateHandStrength` mean: the category
 * packed into the strength of a hand is the best one the hand makes, in the
 * order straight flush, quads, full house, flush, straight, trips, two pair,
 * pair, high card; no hand is ever rated `NoHand`.
 */
module PokerCategories {
  import opened Wrappers
  import opened Cards
  import opened PokerStrength
  import opened PokerEval

  // ---------------------------------------------------------------------------
  // The categories, stated on ranks and suits

  /** Some suit holds five consecutive ranks (the ace counting low or high). */
  predicate HasStraightFlush(st: SuitTally)
    requires SuitsFormed(st)
  {
    exists suit :: 0 <= suit < 4 && StraightHigh(st.suitBitSet[suit]).Some?
  }

  /** Some rank has at least `need` cards. */
  predicate HasSet(rt: RankTally, need: nat)
    requires RanksFormed(rt)
  {
    exists r: Rank :: rt.rankCount[r] >= need
  }

  /** One rank has three cards and another rank two. */
  predicate HasFullHouse(rt: RankTally)
    requires RanksFormed(rt)
  {
    exists r1: Rank, r2: Rank :: r1 != r2 && rt.rankCount[r1] >= 3 && rt.rankCount[r2] >= 2
  }

  /** Some suit has at least five cards (and so at least one rank). */
  predicate HasFlush(st: SuitTally)
    requires SuitsFormed(st)
  {
    exists suit :: 0 <= suit < 4 && st.suitCount[suit] >= 5 && Value(st.suitBitSet[suit]) > 0
  }

  /** The ranks present hold five consecutive ranks. */
  predicate HasStraight(rt: RankTally)
  {
    StraightHigh(rt.bitSet).Some?
  }

  /** Two different ranks have two cards each. */
  predicate HasTwoPair(rt: RankTally)
    requires RanksFormed(rt)
  {
    exists r1: Rank, r2: Rank :: r1 != r2 && rt.rankCount[r1] >= 2 && rt.rankCount[r2] >= 2
  }

  /** The best category the tallies make, in poker's order. */
  function BestCategory(rt: RankTally, st: SuitTally): HandRank
    requires RanksFormed(rt) && SuitsFormed(st)
  {
    if HasStraightFlush(st) then StraightFlush
    else if HasSet(rt, 4) then Quads
    else if HasFullHouse(rt) then FullHouse
    else if HasFlush(st) then Flush
    else if HasStraight(rt) then Straight
    else if HasSet(rt, 3) then Trips
    else if HasTwoPair(rt) then TwoPair
    else if HasSet(rt, 2) then Pair
    else HighCard
  }

  // ---------------------------------------------------------------------------
  // Strengths 1..13 stand for the ranks, the ace as 13

  /** The high strength of a rank: the ace counts 13, the rest their own number. */
  function HighStrengthOf(r: Rank): (s: CardStrength)
    ensures 1 <= s <= AceHigh && StrengthRank(s) == r
  {
    if r == Ace then AceHigh else r as int as CardStrength
  }

  /** Two strengths in 1..13 stand for the same rank only when they are equal. */
  lemma {:induction false} StrengthRankInjective(s: CardStrength, t: CardStrength)
    requires 1 <= s <= AceHigh && 1 <= t <= AceHigh && s != t
    ensures StrengthRank(s) != StrengthRank(t)
  {
  }

  /** A rank with `need` cards is a strength in 1..`s` with `need` cards, and back. */
  lemma {:induction false} SetByStrength(rt: RankTally, need: nat)
    requires RanksFormed(rt)
    ensures HasSet(rt, need) <==> exists t: CardStrength :: 1 <= t <= AceHigh && Count(rt, t) >= need
  {
    if HasSet(rt, need) {
      var r: Rank :| rt.rankCount[r] >= need;
      assert Count(rt, HighStrengthOf(r)) >= need;
    }
  }

  // ---------------------------------------------------------------------------
  // Each search finds its category exactly when the hand makes it

  /** The straights found per suit: some exactly when a suit has one, each at most the high ace. */
  lemma {:induction false} SuitStraightsSpec(st: SuitTally, n: nat)
    requires SuitsFormed(st) && n <= 4
    ensures |SuitStraights(st, n)| > 0 <==> exists suit :: 0 <= suit < n && StraightHigh(st.suitBitSet[suit]).Some?
    ensures forall i :: 0 <= i < |SuitStraights(st, n)| ==> SuitStraights(st, n)[i] <= AceHigh
  {
    if n > 0 {
      SuitStraightsSpec(st, n - 1);
      StraightHighSpec(st.suitBitSet[n - 1]);
    }
  }

  lemma {:induction false} StraightFlushPartSpec(st: SuitTally)
    requires SuitsFormed(st)
    ensures StraightFlushPart(st).Some? <==> HasStraightFlush(st)
    ensures StraightFlushPart(st).Some? ==> HandStrengthRank(StraightFlushPart(st).value) == StraightFlush
  {
    var straights := SuitStraights(st, 4);
    SuitStraightsSpec(st, 4);
    if |straights| > 0 {
      SeqMaxIsMax(straights, 0);
      PackedRank(StraightFlush, SeqMax(straights), 0, 0);
    }
  }

  /** The quads and trips search finds a strength exactly when one in 1..`s` has `need` cards. */
  lemma {:induction false} SetFromSpec(rt: RankTally, need: nat, category: HandRank, kickers: int, s: CardStrength)
    requires RanksFormed(rt) && s <= AceHigh
    ensures SetFrom(rt, need, category, kickers, s).Some? <==> exists t: CardStrength :: 1 <= t <= s && Count(rt, t) >= need
    ensures SetFrom(rt, need, category, kickers, s).Some? ==> HandStrengthRank(SetFrom(rt, need, category, kickers, s).value) == category
    decreases s
  {
    if s != AceLow {
      if Count(rt, s) >= need {
        PackedRank(category, s, 0, KickerWord(HighKickers(Drop(rt.bitSet, s), kickers, AceHigh)));
        assert 1 <= s <= s && Count(rt, s) >= need;
      } else {
        SetFromSpec(rt, need, category, kickers, s - 1);
        assert (exists t: CardStrength :: 1 <= t <= s && Count(rt, t) >= need) ==>
               (exists t: CardStrength :: 1 <= t <= s - 1 && Count(rt, t) >= need);
      }
    }
  }

  /** The full house's pair: some strength in 1..`lo` other than `hi` with two cards. */
  lemma {:induction false} FullHousePairSpec(rt: RankTally, hi: CardStrength, lo: CardStrength)
    requires RanksFormed(rt) && lo <= AceHigh
    ensures FullHousePair(rt, hi, lo).Some? <==> exists t: CardStrength :: 1 <= t <= lo && t != hi && Count(rt, t) >= 2
    ensures FullHousePair(rt, hi, lo).Some? ==> FullHousePair(rt, hi, lo).value <= lo
    decreases lo
  {
    if lo != AceLow {
      FullHousePairSpec(rt, hi, lo - 1);
    }
  }

  /** The full house search finds one exactly when a strength in 1..`hi` has three cards and another two. */
  lemma {:induction false} FullHouseFromSpec(rt: RankTally, hi: CardStrength)
    requires RanksFormed(rt) && hi <= AceHigh
    ensures FullHouseFrom(rt, hi).Some? <==>
      exists t: CardStrength, u: CardStrength :: 1 <= t <= hi && 1 <= u <= AceHigh && t != u && Count(rt, t) >= 3 && Count(rt, u) >= 2
    ensures FullHouseFrom(rt, hi).Some? ==> HandStrengthRank(FullHouseFrom(rt, hi).value) == FullHouse
    decreases hi
  {
    if hi != AceLow {
      FullHouseFromSpec(rt, hi - 1);
      FullHousePairSpec(rt, hi, AceHigh);
      var pair := FullHousePair(rt, hi, AceHigh);
      if Count(rt, hi) >= 3 && pair.Some? {
        PackedRank(FullHouse, hi, pair.value, 0);
      }
    }
  }

  lemma {:induction false} FullHouseByStrength(rt: RankTally)
    requires RanksFormed(rt)
    ensures HasFullHouse(rt) <==>
      exists t: CardStrength, u: CardStrength :: 1 <= t <= AceHigh && 1 <= u <= AceHigh && t != u && Count(rt, t) >= 3 && Count(rt, u) >= 2
  {
    if HasFullHouse(rt) {
      var r1: Rank, r2: Rank :| r1 != r2 && rt.rankCount[r1] >= 3 && rt.rankCount[r2] >= 2;
      assert Count(rt, HighStrengthOf(r1)) >= 3 && Count(rt, HighStrengthOf(r2)) >= 2;
    }
    if exists t: CardStrength, u: CardStrength :: 1 <= t <= AceHigh && 1 <= u <= AceHigh && t != u && Count(rt, t) >= 3 && Count(rt, u) >= 2 {
      var t: CardStrength, u: CardStrength :| 1 <= t <= AceHigh && 1 <= u <= AceHigh && t != u && Count(rt, t) >= 3 && Count(rt, u) >= 2;
      StrengthRankInjective(t, u);
      assert rt.rankCount[StrengthRank(t)] >= 3 && rt.rankCount[StrengthRank(u)] >= 2;
    }
  }

  /**
   * The flush suit: some suit is chosen exactly when one before `n` has five
   * cards, and the chosen ranks are at least those of every such suit.
   */
  lemma {:induction false} FlushPickSpec(st: SuitTally, n: nat)
    requires SuitsFormed(st) && n <= 4
    ensures Value(FlushPick(st, n)) > 0 <==> exists suit :: 0 <= suit < n && st.suitCount[suit] >= 5 && Value(st.suitBitSet[suit]) > 0
    ensures forall suit :: 0 <= suit < n && st.suitCount[suit] >= 5 ==> Value(st.suitBitSet[suit]) <= Value(FlushPick(st, n))
  {
    FlushPickFound(st, n);
    FlushPickBest(st, n);
  }

  /** Some suit is chosen exactly when one before `n` has five cards. */
  lemma {:induction false} FlushPickFound(st: SuitTally, n: nat)
    requires SuitsFormed(st) && n <= 4
    ensures Value(FlushPick(st, n)) > 0 <==> exists suit :: 0 <= suit < n && st.suitCount[suit] >= 5 && Value(st.suitBitSet[suit]) > 0
  {
    if n > 0 {
      FlushPickFound(st, n - 1);
      var best, bits := FlushPick(st, n - 1), st.suitBitSet[n - 1];
      if st.suitCount[n - 1] >= 5 && Value(bits) > Value(best) {
        assert FlushPick(st, n) == bits;
        assert 0 <= n - 1 < n && st.suitCount[n - 1] >= 5 && Value(st.suitBitSet[n - 1]) > 0;
      } else {
        assert FlushPick(st, n) == best;
        if exists suit :: 0 <= suit < n && st.suitCount[suit] >= 5 && Value(st.suitBitSet[suit]) > 0 {
          var suit :| 0 <= suit < n && st.suitCount[suit] >= 5 && Value(st.suitBitSet[suit]) > 0;
          if suit < n - 1 {
            assert 0 <= suit < n - 1 && st.suitCount[suit] >= 5 && Value(st.suitBitSet[suit]) > 0;
          }
        }
      }
    } else {
      ValueEmpty();
    }
  }

  /** The chosen ranks are at least those of every suit before `n` with five cards. */
  lemma {:induction false} FlushPickBest(st: SuitTally, n: nat)
    requires SuitsFormed(st) && n <= 4
    ensures forall suit :: 0 <= suit < n && st.suitCount[suit] >= 5 ==> Value(st.suitBitSet[suit]) <= Value(FlushPick(st, n))
  {
    if n > 0 {
      FlushPickBest(st, n - 1);
    }
  }

  lemma {:induction false} FlushPartSpec(st: SuitTally)
    requires SuitsFormed(st)
    ensures FlushPart(st).Some? <==> HasFlush(st)
    ensures FlushPart(st).Some? ==> HandStrengthRank(FlushPart(st).value) == Flush
  {
    FlushPickSpec(st, 4);
    PackedRank(Flush, 0, 0, KickerWord(HighKickers(FlushPick(st, 4), 5, AceHigh)));
  }

  lemma {:induction false} StraightPartSpec(rt: RankTally)
    ensures StraightPart(rt).Some? <==> HasStraight(rt)
    ensures StraightPart(rt).Some? ==> HandStrengthRank(StraightPart(rt).value) == Straight
  {
    StraightHighSpec(rt.bitSet);
    var found := StraightHigh(rt.bitSet);
    if found.Some? {
      PackedRank(Straight, found.value, 0, 0);
    }
  }

  /** The second pair: some strength in 1..`lo` with two cards. */
  lemma {:induction false} SecondPairSpec(rt: RankTally, lo: CardStrength)
    requires RanksFormed(rt) && lo <= AceHigh
    ensures SecondPair(rt, lo).Some? <==> exists t: CardStrength :: 1 <= t <= lo && Count(rt, t) >= 2
    ensures SecondPair(rt, lo).Some? ==> 1 <= SecondPair(rt, lo).value <= lo && Count(rt, SecondPair(rt, lo).value) >= 2
    decreases lo
  {
    if lo != AceLow {
      SecondPairSpec(rt, lo - 1);
    }
  }

  /** Two strengths in 1..`hi` have two cards each. */
  predicate TwoPairsUpTo(rt: RankTally, hi: CardStrength)
    requires RanksFormed(rt)
  {
    exists t: CardStrength, u: CardStrength :: 1 <= u < t <= hi && Count(rt, t) >= 2 && Count(rt, u) >= 2
  }

  /**
   * The pairs search finds a pair exactly when a strength in 1..`hi` has two
   * cards, and two pair exactly when two of them do.
   */
  lemma {:induction false} PairsFromSpec(rt: RankTally, hi: CardStrength)
    requires RanksFormed(rt) && hi <= AceHigh
    ensures PairsFrom(rt, hi).Some? <==> exists t: CardStrength :: 1 <= t <= hi && Count(rt, t) >= 2
    ensures PairsFrom(rt, hi).Some? ==>
      var category := HandStrengthRank(PairsFrom(rt, hi).value);
      (category == TwoPair <==> TwoPairsUpTo(rt, hi)) && (category == TwoPair || category == Pair)
    decreases hi
  {
    if hi != AceLow {
      if Count(rt, hi) >= 2 {
        PairsAtSpec(rt, hi);
      } else {
        PairsFromSpec(rt, hi - 1);
        if TwoPairsUpTo(rt, hi) {
          var t: CardStrength, u: CardStrength :| 1 <= u < t <= hi && Count(rt, t) >= 2 && Count(rt, u) >= 2;
          assert t <= hi - 1;
        }
      }
    }
  }

  /** The step of `PairsFromSpec` where strength `hi` itself has two cards. */
  lemma {:induction false} PairsAtSpec(rt: RankTally, hi: CardStrength)
    requires RanksFormed(rt) && 1 <= hi <= AceHigh && Count(rt, hi) >= 2
    ensures PairsFrom(rt, hi).Some?
    ensures var category := HandStrengthRank(PairsFrom(rt, hi).value);
      (category == TwoPair <==> TwoPairsUpTo(rt, hi)) && (category == TwoPair || category == Pair)
  {
    SecondPairSpec(rt, hi - 1);
    var lo := SecondPair(rt, hi - 1);
    if lo.Some? {
      PackedRank(TwoPair, hi, lo.value, KickerWord(HighKickers(DropTwo(rt.bitSet, hi, lo.value), 1, AceHigh)));
      assert Count(rt, hi) >= 2 && Count(rt, lo.value) >= 2 && 1 <= lo.value < hi;
    } else {
      PackedRank(Pair, hi, 0, KickerWord(HighKickers(Drop(rt.bitSet, hi), 3, AceHigh)));
    }
  }

  lemma {:induction false} TwoPairByStrength(rt: RankTally)
    requires RanksFormed(rt)
    ensures HasTwoPair(rt) <==> TwoPairsUpTo(rt, AceHigh)
  {
    if HasTwoPair(rt) {
      var r1: Rank, r2: Rank :| r1 != r2 && rt.rankCount[r1] >= 2 && rt.rankCount[r2] >= 2;
      var t, u := HighStrengthOf(r1), HighStrengthOf(r2);
      if u < t {
        assert Count(rt, t) >= 2 && Count(rt, u) >= 2;
      } else {
        assert Count(rt, u) >= 2 && Count(rt, t) >= 2;
      }
    }
    if TwoPairsUpTo(rt, AceHigh) {
      var t: CardStrength, u: CardStrength :| 1 <= u < t <= AceHigh && Count(rt, t) >= 2 && Count(rt, u) >= 2;
      StrengthRankInjective(t, u);
      assert rt.rankCount[StrengthRank(t)] >= 2 && rt.rankCount[StrengthRank(u)] >= 2;
    }
  }

  // ---------------------------------------------------------------------------
  // The cascade

  /**
   * The category of the strength `calculateHandStrength` computes is the best
   * category the tallies make.
   */
  lemma {:induction false} HighCategory(rt: RankTally, st: SuitTally)
    requires RanksFormed(rt) && SuitsFormed(st)
    ensures HandStrengthRank(HighOf(rt, st)) == BestCategory(rt, st)
  {
    StraightFlushPartSpec(st);
    SetLink(rt, 4, Quads, 1);
    FullHouseLink(rt);
    FlushPartSpec(st);
    StraightPartSpec(rt);
    SetLink(rt, 3, Trips, 2);
    PairsLink(rt);
    PackedRank(HighCard, 0, 0, KickerWord(HighKickers(rt.bitSet, 5, AceHigh)));
  }

  /** The quads or trips search finds a set exactly when the hand has one. */
  lemma {:induction false} SetLink(rt: RankTally, need: nat, category: HandRank, kickers: int)
    requires RanksFormed(rt)
    ensures SetFrom(rt, need, category, kickers, AceHigh).Some? <==> HasSet(rt, need)
    ensures SetFrom(rt, need, category, kickers, AceHigh).Some? ==>
      HandStrengthRank(SetFrom(rt, need, category, kickers, AceHigh).value) == category
  {
    SetFromSpec(rt, need, category, kickers, AceHigh);
    SetByStrength(rt, need);
  }

  /** The full house search finds one exactly when the hand has one. */
  lemma {:induction false} FullHouseLink(rt: RankTally)
    requires RanksFormed(rt)
    ensures FullHouseFrom(rt, AceHigh).Some? <==> HasFullHouse(rt)
    ensures FullHouseFrom(rt, AceHigh).Some? ==> HandStrengthRank(FullHouseFrom(rt, AceHigh).value) == FullHouse
  {
    FullHouseFromSpec(rt, AceHigh);
    FullHouseByStrength(rt);
  }

  /** The pairs search finds a pair exactly when the hand has one, and two pair exactly when it has two. */
  lemma {:induction false} PairsLink(rt: RankTally)
    requires RanksFormed(rt)
    ensures PairsFrom(rt, AceHigh).Some? <==> HasSet(rt, 2)
    ensures PairsFrom(rt, AceHigh).Some? ==>
      var category := HandStrengthRank(PairsFrom(rt, AceHigh).value);
      (category == TwoPair <==> HasTwoPair(rt)) && (category == TwoPair || category == Pair)
  {
    PairsFromSpec(rt, AceHigh);
    SetByStrength(rt, 2);
    TwoPairByStrength(rt);
  }

  /** No hand is rated `NoHand`: every hand makes at least a high card. */
  lemma {:induction false} HighNeverNoHand(hand: seq<Card>)
    ensures HighCard <= HandStrengthRank(HighStrength(hand)) <= StraightFlush
  {
    HighCategory(RankTallyOf(hand), SuitTallyOf(hand));
    BestCategoryRange(RankTallyOf(hand), SuitTallyOf(hand));
  }

  lemma {:induction false} BestCategoryRange(rt: RankTally, st: SuitTally)
    requires RanksFormed(rt) && SuitsFormed(st)
    ensures HighCard <= BestCategory(rt, st) <= StraightFlush
  {
  }

  // ---------------------------------------------------------------------------
  // Low hands

  /**
   * The eight-or-better cut compares the kicker mask with the bit of strength
   * 9; since the ace counts 0, strength 8 is the Nine, so the cut admits
   * exactly the low hands whose cards are all Nine or lower.
   */
  lemma {:induction false} QualifiesMeans(kickers: set<int>)
    requires forall i :: i in kickers ==> 0 <= i < MaskWidth
    ensures Qualifies(kickers) <==> forall i :: i in kickers ==> i <= Nine as int
  {
    ValueSingle(9);
    Pow2Values();
    ValueBelowPow2(kickers, 9, MaskWidth);
    NineCutMask();
  }

  /** The low kickers are strengths 0 (the ace) to 12 (the King). */
  lemma {:induction false} LowKickersRange(bits: set<int>, left: int)
    ensures forall i :: i in LowKickers(bits, left, AceLow) ==> 0 <= i <= King as int
  {
    forall i | i in LowKickers(bits, left, AceLow)
      ensures 0 <= i <= King as int
    {
      LowKickersChosen(bits, left, AceLow, i);
    }
  }

  /**
   * Under eight-or-better, `GetLowHandStrength` never panics: the hand is a
   * high-card low when its five lowest ranks (or all its cards, when fewer)
   * are distinct and all Nine or lower, and otherwise it is `NoHand`.
   */
  lemma {:induction false} LowEightOrBetter(hand: seq<Card>)
    ensures var rt := RankTallyOf(hand);
      var kickers := LowKickers(rt.bitSet, 5, AceLow);
      var found := LowFound(rt.bitSet, 5, AceLow);
      LowStrength(hand, true) ==
        Some(if (found == 5 || found == |hand|) && (forall i :: i in kickers ==> i <= Nine as int)
             then MakeHandStrength(HighCard, 0, 0, KickerWord(kickers))
             else NoHandStrength)
    ensures var category := HandStrengthRank(LowStrength(hand, true).value);
      category == HighCard || category == NoHand
  {
    var rt := RankTallyOf(hand);
    var kickers := LowKickers(rt.bitSet, 5, AceLow);
    LowKickersRange(rt.bitSet, 5);
    QualifiesMeans(kickers);
    PackedRank(HighCard, 0, 0, KickerWord(kickers));
    NoHandPacked();
  }

  /** The low two pair search rates what it finds as two pair. */
  lemma {:induction false} LowTwoPairRank(rt: RankTally, n: int, lo: CardStrength, hi: CardStrength)
    requires RanksFormed(rt) && lo < AceHigh && hi <= AceHigh
    ensures LowTwoPairFrom(rt, n, lo, hi).Some? ==> HandStrengthRank(LowTwoPairFrom(rt, n, lo, hi).value) == TwoPair
    decreases AceHigh - hi
  {
    if hi != AceHigh {
      LowTwoPairRank(rt, n, lo, hi + 1);
      PackedRank(TwoPair, hi, lo, KickerWord(LowKickers(DropTwo(rt.bitSet, lo, hi), 1, AceLow)));
    }
  }

  /** The low pairs search rates what it finds as one pair or two pair. */
  lemma {:induction false} LowPairsRank(rt: RankTally, n: int, lo: CardStrength)
    requires RanksFormed(rt) && lo <= AceHigh
    ensures LowPairsFrom(rt, n, lo).Some? ==>
      HandStrengthRank(LowPairsFrom(rt, n, lo).value) in {Pair, TwoPair}
    decreases AceHigh - lo
  {
    if lo != AceHigh {
      LowPairsRank(rt, n, lo + 1);
      LowTwoPairRank(rt, n, lo, lo + 1);
      PackedRank(Pair, lo, 0, KickerWord(LowKickers(Drop(rt.bitSet, lo), 3, AceLow)));
    }
  }

  /** The full house's pair in the low search is at most strength 12, the King. */
  lemma {:induction false} LowFullHousePairRange(rt: RankTally, hi: CardStrength, lo: CardStrength)
    requires RanksFormed(rt) && lo <= AceHigh
    ensures LowFullHousePair(rt, hi, lo).Some? ==> LowFullHousePair(rt, hi, lo).value < AceHigh
    decreases AceHigh - lo
  {
    if lo != AceHigh {
      LowFullHousePairRange(rt, hi, lo + 1);
    }
  }

  /** The low trips search rates what it finds as trips or a full house. */
  lemma {:induction false} LowTripsRank(rt: RankTally, n: int, hi: CardStrength)
    requires RanksFormed(rt) && hi <= AceHigh
    ensures LowTripsFrom(rt, n, hi).Some? ==>
      HandStrengthRank(LowTripsFrom(rt, n, hi).value) in {Trips, FullHouse}
    decreases AceHigh - hi
  {
    if hi != AceHigh {
      LowTripsRank(rt, n, hi + 1);
      PackedRank(Trips, hi, 0, KickerWord(LowKickers(Drop(rt.bitSet, hi), 2, AceLow)));
      LowFullHousePairRange(rt, hi, AceLow);
      var lo := LowFullHousePair(rt, hi, AceLow);
      if lo.Some? {
        PackedRank(FullHouse, hi, lo.value, 0);
      }
    }
  }

  /** The low quads search rates what it finds as quads. */
  lemma {:induction false} LowQuadsRank(rt: RankTally, s: CardStrength)
    requires RanksFormed(rt) && s <= AceHigh
    ensures LowQuadsFrom(rt, s).Some? ==> HandStrengthRank(LowQuadsFrom(rt, s).value) == Quads
    decreases AceHigh - s
  {
    if s != AceHigh {
      LowQuadsRank(rt, s + 1);
      PackedRank(Quads, s, 0, KickerWord(LowKickers(Drop(rt.bitSet, s), 1, AceLow)));
    }
  }

  /**
   * Without the eight-or-better cut, a low hand is never rated `NoHand`:
   * whatever `GetLowHandStrength` returns (when it does not panic) is a real
   * category from high card to quads; straights and flushes do not count
   * against a low hand.
   */
  lemma {:induction false} LowNeverNoHand(hand: seq<Card>)
    ensures LowStrength(hand, false).Some? ==>
      HandStrengthRank(LowStrength(hand, false).value) in {HighCard, Pair, TwoPair, Trips, FullHouse, Quads}
  {
    var rt := RankTallyOf(hand);
    PackedRank(HighCard, 0, 0, KickerWord(LowKickers(rt.bitSet, 5, AceLow)));
    LowPairsRank(rt, |hand|, AceLow);
    LowTripsRank(rt, |hand|, AceLow);
    LowQuadsRank(rt, AceLow);
  }
}
