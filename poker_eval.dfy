/**
 * Hand evaluation: `calculateHandStrength`, `GetLowHandStrength` and the
 * memo behind `GetHandStrength`.
 *
 * Each evaluator first tallies the hand (the ranks present, per-rank and
 * per-suit counts in unsigned bytes, the ranks present per suit), then tries
 * the categories from best to worst and returns at the first that applies.
 * The functions below state each category's search the way its loop walks
 * the strengths; the methods that perform the searches are proved equal to
 * them, and the lemmas at the end state what the answers mean.
 */
module PokerEval {
  import opened Wrappers
  import opened Cards
  import opened PokerStrength

  // ---------------------------------------------------------------------------
  // Tallies

  /** The ranks present (`bitSet`) and the per-rank counts (`rankCount`). */
  datatype RankTally = RankTally(bitSet: set<int>, rankCount: seq<nat>)

  /** The ranks present in each suit (`suitBitSet`) and the per-suit counts (`suitCount`). */
  datatype SuitTally = SuitTally(suitBitSet: seq<set<int>>, suitCount: seq<nat>)

  predicate RanksFormed(rt: RankTally)
  {
    |rt.rankCount| == 13
  }

  predicate SuitsFormed(st: SuitTally)
  {
    |st.suitBitSet| == 4 && |st.suitCount| == 4
  }

  /** `x++` on a `uint8` counter. */
  function Bump(count: nat): nat
  {
    (count + 1) % 0x100
  }

  function AddRank(rt: RankTally, c: Card): (u: RankTally)
    requires RanksFormed(rt)
    ensures RanksFormed(u)
  {
    RankTally(rt.bitSet + RankBits(c.rank), rt.rankCount[c.rank := Bump(rt.rankCount[c.rank])])
  }

  function AddSuit(st: SuitTally, c: Card): (u: SuitTally)
    requires SuitsFormed(st)
    ensures SuitsFormed(u)
  {
    SuitTally(st.suitBitSet[c.suit := st.suitBitSet[c.suit] + RankBits(c.rank)],
              st.suitCount[c.suit := Bump(st.suitCount[c.suit])])
  }

  /** The rank tally of a hand, one card at a time in hand order. */
  function RankTallyOf(hand: seq<Card>): (rt: RankTally)
    ensures RanksFormed(rt)
  {
    if |hand| == 0 then RankTally({}, seq(13, _ => 0))
    else AddRank(RankTallyOf(hand[..|hand| - 1]), hand[|hand| - 1])
  }

  /** The suit tally of a hand, one card at a time in hand order. */
  function SuitTallyOf(hand: seq<Card>): (st: SuitTally)
    ensures SuitsFormed(st)
  {
    if |hand| == 0 then SuitTally([{}, {}, {}, {}], [0, 0, 0, 0])
    else AddSuit(SuitTallyOf(hand[..|hand| - 1]), hand[|hand| - 1])
  }

  /** How many cards of the hand have rank `r`. */
  function RankTotal(hand: seq<Card>, r: Rank): nat
  {
    if |hand| == 0 then 0
    else RankTotal(hand[..|hand| - 1], r) + (if hand[|hand| - 1].rank == r then 1 else 0)
  }

  /** How many cards of the hand have suit `s`. */
  function SuitTotal(hand: seq<Card>, s: Suit): nat
  {
    if |hand| == 0 then 0
    else SuitTotal(hand[..|hand| - 1], s) + (if hand[|hand| - 1].suit == s then 1 else 0)
  }

  /** A `uint8` counter that has wrapped still counts modulo 256 after one more. */
  lemma BumpWraps(n: nat)
    ensures Bump(n % 0x100) == (n + 1) % 0x100
  {
    assert (n % 0x100 + 1) % 0x100 == (n + 1) % 0x100;
  }

  /** Each rank count is the number of cards of that rank, modulo 256. */
  lemma {:induction false} RankCountContents(hand: seq<Card>)
    ensures forall r: Rank :: RankTallyOf(hand).rankCount[r] == RankTotal(hand, r) % 0x100
  {
    if |hand| > 0 {
      var init, last := hand[..|hand| - 1], hand[|hand| - 1];
      RankCountContents(init);
      forall r: Rank
        ensures RankTallyOf(hand).rankCount[r] == RankTotal(hand, r) % 0x100
      {
        if last.rank == r {
          BumpWraps(RankTotal(init, r));
        }
      }
    }
  }

  /** Each suit count is the number of cards of that suit, modulo 256. */
  lemma {:induction false} SuitCountContents(hand: seq<Card>)
    ensures forall s: Suit :: SuitTallyOf(hand).suitCount[s] == SuitTotal(hand, s) % 0x100
  {
    if |hand| > 0 {
      var init, last := hand[..|hand| - 1], hand[|hand| - 1];
      SuitCountContents(init);
      forall s: Suit
        ensures SuitTallyOf(hand).suitCount[s] == SuitTotal(hand, s) % 0x100
      {
        var st := SuitTallyOf(init);
        assert SuitTallyOf(hand) == AddSuit(st, last);
        if last.suit == s {
          assert SuitTallyOf(hand).suitCount[s] == Bump(st.suitCount[s]);
          BumpWraps(SuitTotal(init, s));
        } else {
          assert SuitTallyOf(hand).suitCount[s] == st.suitCount[s];
        }
      }
    }
  }

  /** The rank bits are the ranks of the hand. */
  lemma {:induction false} RankBitsContents(hand: seq<Card>)
    ensures RankTallyOf(hand).bitSet == set c | c in hand :: c.rank as int
  {
    if |hand| > 0 {
      var init, last := hand[..|hand| - 1], hand[|hand| - 1];
      RankBitsContents(init);
      assert hand == init + [last];
      assert (set c | c in hand :: c.rank as int) == (set c | c in init :: c.rank as int) + {last.rank as int};
    }
  }

  /** The bits of each suit are the ranks of the hand's cards of that suit. */
  lemma {:induction false} SuitBitsContents(hand: seq<Card>)
    ensures forall s: Suit :: SuitTallyOf(hand).suitBitSet[s] == set c | c in hand && c.suit == s :: c.rank as int
  {
    if |hand| > 0 {
      var init, last := hand[..|hand| - 1], hand[|hand| - 1];
      SuitBitsContents(init);
      assert hand == init + [last];
      forall s: Suit
        ensures SuitTallyOf(hand).suitBitSet[s] == set c | c in hand && c.suit == s :: c.rank as int
      {
        if last.suit == s {
          assert (set c | c in hand && c.suit == s :: c.rank as int) ==
            (set c | c in init && c.suit == s :: c.rank as int) + {last.rank as int};
        } else {
          assert (set c | c in hand && c.suit == s :: c.rank as int) ==
            (set c | c in init && c.suit == s :: c.rank as int);
        }
      }
    }
  }

  /**
   * The tallies hold what their names say: each rank's and each suit's card
   * count modulo 256, the ranks of the hand, and the ranks of each suit.
   */
  lemma {:induction false} TallyContents(hand: seq<Card>)
    ensures forall r: Rank :: RankTallyOf(hand).rankCount[r] == RankTotal(hand, r) % 0x100
    ensures forall s: Suit :: SuitTallyOf(hand).suitCount[s] == SuitTotal(hand, s) % 0x100
    ensures RankTallyOf(hand).bitSet == set c | c in hand :: c.rank as int
    ensures forall s: Suit :: SuitTallyOf(hand).suitBitSet[s] == set c | c in hand && c.suit == s :: c.rank as int
  {
    RankCountContents(hand);
    SuitCountContents(hand);
    RankBitsContents(hand);
    SuitBitsContents(hand);
  }

  /** Adding two cards in either order gives the same tallies. */
  lemma {:induction false} AddCommutes(rt: RankTally, st: SuitTally, a: Card, b: Card)
    requires RanksFormed(rt) && SuitsFormed(st)
    ensures AddRank(AddRank(rt, a), b) == AddRank(AddRank(rt, b), a)
    ensures AddSuit(AddSuit(st, a), b) == AddSuit(AddSuit(st, b), a)
  {
    if a.rank == b.rank {
      assert AddRank(AddRank(rt, a), b).rankCount == AddRank(AddRank(rt, b), a).rankCount;
    }
    if a.suit == b.suit {
      assert AddSuit(AddSuit(st, a), b).suitCount == AddSuit(AddSuit(st, b), a).suitCount;
      var u, v := AddSuit(AddSuit(st, a), b).suitBitSet, AddSuit(AddSuit(st, b), a).suitBitSet;
      assert u[a.suit] == v[a.suit];
      assert forall i :: 0 <= i < 4 ==> u[i] == v[i];
    }
  }

  /** The tallies of a hand with one more card at the end. */
  lemma {:induction false} TallySnoc(hand: seq<Card>, c: Card)
    ensures RankTallyOf(hand + [c]) == AddRank(RankTallyOf(hand), c)
    ensures SuitTallyOf(hand + [c]) == AddSuit(SuitTallyOf(hand), c)
  {
    assert (hand + [c])[..|hand|] == hand;
  }

  /** A card may be moved to the end of the hand without changing the tallies. */
  lemma {:induction false} TallyMoveLast(front: seq<Card>, x: Card, back: seq<Card>)
    ensures RankTallyOf(front + [x] + back) == RankTallyOf(front + back + [x])
    ensures SuitTallyOf(front + [x] + back) == SuitTallyOf(front + back + [x])
    decreases |back|
  {
    if |back| == 0 {
      assert front + [x] + back == front + back + [x];
    } else {
      var init, y := back[..|back| - 1], back[|back| - 1];
      var fi := front + init;
      TallyMoveLast(front, x, init);
      assert front + [x] + back == (front + [x] + init) + [y];
      TallySnoc(front + [x] + init, y);
      TallySnoc(fi, x);
      assert front + back == fi + [y];
      TallySnoc(fi, y);
      TallySnoc(front + back, x);
      AddCommutes(RankTallyOf(fi), SuitTallyOf(fi), x, y);
    }
  }

  /** Taking the last card of one hand and a matching card of another leaves the same cards in both. */
  lemma {:induction false} RemoveMatching(h1: seq<Card>, h2: seq<Card>, i: nat)
    requires multiset(h1) == multiset(h2) && |h1| > 0 && i < |h2| && h2[i] == h1[|h1| - 1]
    ensures h2 == h2[..i] + [h2[i]] + h2[i + 1..]
    ensures multiset(h1[..|h1| - 1]) == multiset(h2[..i] + h2[i + 1..])
  {
    var init, x := h1[..|h1| - 1], h1[|h1| - 1];
    var front, back := h2[..i], h2[i + 1..];
    assert h1 == init + [x];
    assert h2 == front + [x] + back;
    assert multiset(h1) == multiset(init) + multiset{x};
    assert multiset(h2) == multiset(front) + multiset{x} + multiset(back);
    assert multiset(front + back) == multiset(front) + multiset(back);
    assert multiset(init) == multiset(h1) - multiset{x};
    assert multiset(front + back) == multiset(h2) - multiset{x};
  }

  /** The tallies depend only on which cards the hand holds, not on their order. */
  lemma {:induction false} TallyPermutation(h1: seq<Card>, h2: seq<Card>)
    requires multiset(h1) == multiset(h2)
    ensures RankTallyOf(h1) == RankTallyOf(h2) && SuitTallyOf(h1) == SuitTallyOf(h2)
    decreases |h1|
  {
    if |h1| > 0 {
      var init, x := h1[..|h1| - 1], h1[|h1| - 1];
      assert h1 == init + [x];
      assert x in multiset(h2);
      var i :| 0 <= i < |h2| && h2[i] == x;
      var front, back := h2[..i], h2[i + 1..];
      RemoveMatching(h1, h2, i);
      TallyMoveLast(front, x, back);
      TallyPermutation(init, front + back);
      TallySnoc(init, x);
      TallySnoc(front + back, x);
    } else {
      assert |h2| == 0;
    }
  }

  /** `tally` followed by the loop of `calculateHandStrength`: both tallies, in one pass. */
  method TallyHand(hand: seq<Card>) returns (rt: RankTally, st: SuitTally)
    ensures rt == RankTallyOf(hand) && st == SuitTallyOf(hand)
  {
    var bitSet: set<int> := {};
    var suitBitSet: seq<set<int>> := [{}, {}, {}, {}];
    var rankCount: seq<nat> := seq(13, _ => 0);
    var suitCount: seq<nat> := [0, 0, 0, 0];
    for i := 0 to |hand|
      invariant RankTally(bitSet, rankCount) == RankTallyOf(hand[..i])
      invariant SuitTally(suitBitSet, suitCount) == SuitTallyOf(hand[..i])
    {
      var card := hand[i];
      assert hand[..i + 1][..i] == hand[..i];
      rankCount := rankCount[card.rank := (rankCount[card.rank] + 1) % 0x100];
      suitCount := suitCount[card.suit := (suitCount[card.suit] + 1) % 0x100];
      suitBitSet := suitBitSet[card.suit := suitBitSet[card.suit] + RankBits(card.rank)];
      bitSet := bitSet + RankBits(card.rank);
    }
    assert hand[..|hand|] == hand;
    rt, st := RankTally(bitSet, rankCount), SuitTally(suitBitSet, suitCount);
  }

  /** The loop of `GetLowHandStrength`, which tallies ranks only. */
  method TallyRanks(hand: seq<Card>) returns (rt: RankTally)
    ensures rt == RankTallyOf(hand)
  {
    var bitSet: set<int> := {};
    var rankCount: seq<nat> := seq(13, _ => 0);
    for i := 0 to |hand|
      invariant RankTally(bitSet, rankCount) == RankTallyOf(hand[..i])
    {
      var card := hand[i];
      assert hand[..i + 1][..i] == hand[..i];
      rankCount := rankCount[card.rank := (rankCount[card.rank] + 1) % 0x100];
      bitSet := bitSet + RankBits(card.rank);
    }
    assert hand[..|hand|] == hand;
    rt := RankTally(bitSet, rankCount);
  }

  // ---------------------------------------------------------------------------
  // Shared pieces of the searches

  /** `rankCount[strength.Rank()]`. */
  function Count(rt: RankTally, s: CardStrength): nat
    requires RanksFormed(rt)
  {
    rt.rankCount[StrengthRank(s)]
  }

  /** `bits &^ strength.Rank().Mask()`: the ranks without the one `s` stands for. */
  function Drop(bits: set<int>, s: CardStrength): set<int>
  {
    bits - RankBits(StrengthRank(s))
  }

  /** `bits &^ (a.Rank().Mask() | b.Rank().Mask())`: the ranks without those of two pairs. */
  function DropTwo(bits: set<int>, a: CardStrength, b: CardStrength): set<int>
  {
    bits - (RankBits(StrengthRank(a)) + RankBits(StrengthRank(b)))
  }

  /** A kicker mask as the 16-bit value packed into a hand strength. */
  function KickerWord(kickers: set<int>): Word16
  {
    Value(kickers) as Word16
  }

  // ---------------------------------------------------------------------------
  // High hands, best category first

  /** The straights `findStraight` reports for the suits before `n`, in suit order. */
  function SuitStraights(st: SuitTally, n: nat): seq<CardStrength>
    requires SuitsFormed(st) && n <= 4
  {
    if n == 0 then []
    else
      var found := StraightHigh(st.suitBitSet[n - 1]);
      SuitStraights(st, n - 1) + (if found.Some? then [found.value] else [])
  }

  /** The largest strength of a non-empty list. */
  function SeqMax(s: seq<CardStrength>): CardStrength
    requires |s| > 0
  {
    if |s| == 1 then s[0]
    else
      var m := SeqMax(s[..|s| - 1]);
      if s[|s| - 1] > m then s[|s| - 1] else m
  }

  /** `SeqMax` is a member and bounds every member, so it is the one value `MaxCardStrength` can return. */
  lemma {:induction false} SeqMaxIsMax(s: seq<CardStrength>, m: CardStrength)
    requires |s| > 0
    ensures SeqMax(s) in s && forall i :: 0 <= i < |s| ==> s[i] <= SeqMax(s)
    ensures m in s && (forall i :: 0 <= i < |s| ==> s[i] <= m) ==> m == SeqMax(s)
  {
    if |s| > 1 {
      SeqMaxIsMax(s[..|s| - 1], m);
      assert s == s[..|s| - 1] + [s[|s| - 1]];
    }
  }

  /** The straight flush: the best straight found in any one suit. */
  function StraightFlushPart(st: SuitTally): Option<HandStrength>
    requires SuitsFormed(st)
  {
    var straights := SuitStraights(st, 4);
    if |straights| > 0 then Some(MakeHandStrength(StraightFlush, SeqMax(straights), 0, 0)) else None
  }

  /**
   * Quads (`need` 4, one kicker) or trips (`need` 3, two kickers): the first
   * strength from `s` down to 1 with at least `need` cards, and the high
   * kickers among the other ranks.
   */
  function SetFrom(rt: RankTally, need: nat, category: HandRank, kickers: int, s: CardStrength): Option<HandStrength>
    requires RanksFormed(rt) && s <= AceHigh
    decreases s
  {
    if s == AceLow then None
    else if Count(rt, s) >= need then
      Some(MakeHandStrength(category, s, 0, KickerWord(HighKickers(Drop(rt.bitSet, s), kickers, AceHigh))))
    else SetFrom(rt, need, category, kickers, s - 1)
  }

  /** The full house's pair: the first strength from `lo` down to 1, other than `hi`, with two cards. */
  function FullHousePair(rt: RankTally, hi: CardStrength, lo: CardStrength): Option<CardStrength>
    requires RanksFormed(rt) && lo <= AceHigh
    decreases lo
  {
    if lo == AceLow then None
    else if lo != hi && Count(rt, lo) >= 2 then Some(lo)
    else FullHousePair(rt, hi, lo - 1)
  }

  /** The full house: the first strength from `hi` down with three cards that has a pair to go with it. */
  function FullHouseFrom(rt: RankTally, hi: CardStrength): Option<HandStrength>
    requires RanksFormed(rt) && hi <= AceHigh
    decreases hi
  {
    if hi == AceLow then None
    else if Count(rt, hi) >= 3 && FullHousePair(rt, hi, AceHigh).Some? then
      Some(MakeHandStrength(FullHouse, hi, FullHousePair(rt, hi, AceHigh).value, 0))
    else FullHouseFrom(rt, hi - 1)
  }

  /** The flush ranks chosen among the suits before `n`: a later suit with five cards replaces a smaller mask. */
  function FlushPick(st: SuitTally, n: nat): set<int>
    requires SuitsFormed(st) && n <= 4
  {
    if n == 0 then {}
    else
      var best := FlushPick(st, n - 1);
      if st.suitCount[n - 1] >= 5 && Value(st.suitBitSet[n - 1]) > Value(best) then st.suitBitSet[n - 1] else best
  }

  /** The flush: the five highest ranks of the chosen suit. */
  function FlushPart(st: SuitTally): Option<HandStrength>
    requires SuitsFormed(st)
  {
    var flush := FlushPick(st, 4);
    if Value(flush) > 0 then Some(MakeHandStrength(Flush, 0, 0, KickerWord(HighKickers(flush, 5, AceHigh)))) else None
  }

  /** The straight over all suits. */
  function StraightPart(rt: RankTally): Option<HandStrength>
  {
    var found := StraightHigh(rt.bitSet);
    if found.Some? then Some(MakeHandStrength(Straight, found.value, 0, 0)) else None
  }

  /** The second pair: the first strength from `lo` down to 1 with two cards. */
  function SecondPair(rt: RankTally, lo: CardStrength): Option<CardStrength>
    requires RanksFormed(rt) && lo <= AceHigh
    decreases lo
  {
    if lo == AceLow then None
    else if Count(rt, lo) >= 2 then Some(lo)
    else SecondPair(rt, lo - 1)
  }

  /** Two pair or one pair, led by the first strength from `hi` down with two cards. */
  function PairsFrom(rt: RankTally, hi: CardStrength): Option<HandStrength>
    requires RanksFormed(rt) && hi <= AceHigh
    decreases hi
  {
    if hi == AceLow then None
    else if Count(rt, hi) >= 2 then
      var lo := SecondPair(rt, hi - 1);
      if lo.Some? then
        var rest := DropTwo(rt.bitSet, hi, lo.value);
        Some(MakeHandStrength(TwoPair, hi, lo.value, KickerWord(HighKickers(rest, 1, AceHigh))))
      else Some(MakeHandStrength(Pair, hi, 0, KickerWord(HighKickers(Drop(rt.bitSet, hi), 3, AceHigh))))
    else PairsFrom(rt, hi - 1)
  }

  /** The high card: the five highest ranks. */
  function HighCardOf(rt: RankTally): HandStrength
  {
    MakeHandStrength(HighCard, 0, 0, KickerWord(HighKickers(rt.bitSet, 5, AceHigh)))
  }

  /** The category cascade of `calculateHandStrength` over the tallies. */
  function HighOf(rt: RankTally, st: SuitTally): HandStrength
    requires RanksFormed(rt) && SuitsFormed(st)
  {
    var straightFlush := StraightFlushPart(st);
    if straightFlush.Some? then straightFlush.value else
    var quads := SetFrom(rt, 4, Quads, 1, AceHigh);
    if quads.Some? then quads.value else
    var fullHouse := FullHouseFrom(rt, AceHigh);
    if fullHouse.Some? then fullHouse.value else
    var flush := FlushPart(st);
    if flush.Some? then flush.value else
    var straight := StraightPart(rt);
    if straight.Some? then straight.value else
    var trips := SetFrom(rt, 3, Trips, 2, AceHigh);
    if trips.Some? then trips.value else
    var pairs := PairsFrom(rt, AceHigh);
    if pairs.Some? then pairs.value else
    HighCardOf(rt)
  }

  /** The strength `calculateHandStrength` computes for a hand. */
  function HighStrength(hand: seq<Card>): HandStrength
  {
    HighOf(RankTallyOf(hand), SuitTallyOf(hand))
  }

  // ---------------------------------------------------------------------------
  // The searches of calculateHandStrength

  /** One step of the quads or trips walk. */
  lemma {:induction false} SetStep(rt: RankTally, need: nat, category: HandRank, kickers: int, s: CardStrength)
    requires RanksFormed(rt) && AceLow < s <= AceHigh
    ensures SetFrom(rt, need, category, kickers, s) ==
      if Count(rt, s) >= need
      then Some(MakeHandStrength(category, s, 0, KickerWord(HighKickers(Drop(rt.bitSet, s), kickers, AceHigh))))
      else SetFrom(rt, need, category, kickers, s - 1)
  {
  }

  /** One step of the walk for the full house's pair. */
  lemma {:induction false} FullHousePairStep(rt: RankTally, hi: CardStrength, lo: CardStrength)
    requires RanksFormed(rt) && AceLow < lo <= AceHigh
    ensures FullHousePair(rt, hi, lo) ==
      if lo != hi && Count(rt, lo) >= 2 then Some(lo) else FullHousePair(rt, hi, lo - 1)
  {
  }

  /** One step of the full house walk. */
  lemma {:induction false} FullHouseStep(rt: RankTally, hi: CardStrength)
    requires RanksFormed(rt) && AceLow < hi <= AceHigh
    ensures FullHouseFrom(rt, hi) ==
      if Count(rt, hi) >= 3 && FullHousePair(rt, hi, AceHigh).Some?
      then Some(MakeHandStrength(FullHouse, hi, FullHousePair(rt, hi, AceHigh).value, 0))
      else FullHouseFrom(rt, hi - 1)
  {
  }

  /** One step of the second-pair walk. */
  lemma {:induction false} SecondPairStep(rt: RankTally, lo: CardStrength)
    requires RanksFormed(rt) && AceLow < lo <= AceHigh
    ensures SecondPair(rt, lo) == if Count(rt, lo) >= 2 then Some(lo) else SecondPair(rt, lo - 1)
  {
  }

  /** One step of the pairs walk. */
  lemma {:induction false} PairsStep(rt: RankTally, hi: CardStrength)
    requires RanksFormed(rt) && AceLow < hi <= AceHigh
    ensures PairsFrom(rt, hi) ==
      if Count(rt, hi) < 2 then PairsFrom(rt, hi - 1)
      else
        var lo := SecondPair(rt, hi - 1);
        if lo.Some? then
          Some(MakeHandStrength(TwoPair, hi, lo.value, KickerWord(HighKickers(DropTwo(rt.bitSet, hi, lo.value), 1, AceHigh))))
        else Some(MakeHandStrength(Pair, hi, 0, KickerWord(HighKickers(Drop(rt.bitSet, hi), 3, AceHigh))))
  {
  }

  method StraightFlushSearch(st: SuitTally) returns (result: Option<HandStrength>)
    requires SuitsFormed(st)
    ensures result == StraightFlushPart(st)
  {
    var straights: seq<CardStrength> := [];
    for suit := 0 to 4
      invariant straights == SuitStraights(st, suit)
    {
      var strength, found := FindStraight(st.suitBitSet[suit]);
      if found {
        straights := straights + [strength];
      }
    }
    if |straights| > 0 {
      var strength := MaxCardStrength(straights);
      SeqMaxIsMax(straights, strength);
      return Some(MakeHandStrength(StraightFlush, strength, 0, 0));
    }
    return None;
  }

  /** The quads loop (`need` 4, one kicker) and the trips loop (`need` 3, two kickers). */
  method SetSearch(rt: RankTally, need: nat, category: HandRank, kickers: int) returns (result: Option<HandStrength>)
    requires RanksFormed(rt)
    ensures result == SetFrom(rt, need, category, kickers, AceHigh)
  {
    var strength := AceHigh;
    while strength > AceLow
      invariant strength <= AceHigh
      invariant SetFrom(rt, need, category, kickers, strength) == SetFrom(rt, need, category, kickers, AceHigh)
      decreases strength
    {
      SetStep(rt, need, category, kickers, strength);
      if rt.rankCount[StrengthRank(strength)] >= need {
        var k := GetKickers(Drop(rt.bitSet, strength), kickers);
        return Some(MakeHandStrength(category, strength, 0, KickerWord(k)));
      }
      strength := strength - 1;
    }
    return None;
  }

  method FullHouseSearch(rt: RankTally) returns (result: Option<HandStrength>)
    requires RanksFormed(rt)
    ensures result == FullHouseFrom(rt, AceHigh)
  {
    var hi := AceHigh;
    while hi > AceLow
      invariant hi <= AceHigh
      invariant FullHouseFrom(rt, hi) == FullHouseFrom(rt, AceHigh)
      decreases hi
    {
      FullHouseStep(rt, hi);
      if rt.rankCount[StrengthRank(hi)] >= 3 {
        var lo := AceHigh;
        while lo > AceLow
          invariant lo <= AceHigh
          invariant FullHousePair(rt, hi, lo) == FullHousePair(rt, hi, AceHigh)
          decreases lo
        {
          FullHousePairStep(rt, hi, lo);
          if lo != hi && rt.rankCount[StrengthRank(lo)] >= 2 {
            return Some(MakeHandStrength(FullHouse, hi, lo, 0));
          }
          lo := lo - 1;
        }
      }
      hi := hi - 1;
    }
    return None;
  }

  method FlushSearch(st: SuitTally) returns (result: Option<HandStrength>)
    requires SuitsFormed(st)
    ensures result == FlushPart(st)
  {
    var flushBitSet: set<int> := {};
    for suit := 0 to 4
      invariant flushBitSet == FlushPick(st, suit)
    {
      if st.suitCount[suit] >= 5 && Value(st.suitBitSet[suit]) > Value(flushBitSet) {
        flushBitSet := st.suitBitSet[suit];
      }
    }
    if Value(flushBitSet) > 0 {
      var kickers := GetKickers(flushBitSet, 5);
      return Some(MakeHandStrength(Flush, 0, 0, KickerWord(kickers)));
    }
    return None;
  }

  /** The inner loop of the pairs search: the next pair below the first. */
  method SecondPairSearch(rt: RankTally, start: CardStrength) returns (result: Option<CardStrength>)
    requires RanksFormed(rt) && start <= AceHigh
    ensures result == SecondPair(rt, start)
  {
    var lo := start;
    while lo > AceLow
      invariant lo <= start
      invariant SecondPair(rt, lo) == SecondPair(rt, start)
      decreases lo
    {
      SecondPairStep(rt, lo);
      if rt.rankCount[StrengthRank(lo)] >= 2 {
        return Some(lo);
      }
      lo := lo - 1;
    }
    return None;
  }

  method PairsSearch(rt: RankTally) returns (result: Option<HandStrength>)
    requires RanksFormed(rt)
    ensures result == PairsFrom(rt, AceHigh)
  {
    var hi := AceHigh;
    while hi > AceLow
      invariant hi <= AceHigh
      invariant PairsFrom(rt, hi) == PairsFrom(rt, AceHigh)
      decreases hi
    {
      PairsStep(rt, hi);
      if rt.rankCount[StrengthRank(hi)] >= 2 {
        var lo := SecondPairSearch(rt, hi - 1);
        if lo.Some? {
          var rest := DropTwo(rt.bitSet, hi, lo.value);
          var kickers := GetKickers(rest, 1);
          return Some(MakeHandStrength(TwoPair, hi, lo.value, KickerWord(kickers)));
        }
        var kickers := GetKickers(Drop(rt.bitSet, hi), 3);
        return Some(MakeHandStrength(Pair, hi, 0, KickerWord(kickers)));
      }
      hi := hi - 1;
    }
    return None;
  }

  /** `calculateHandStrength`: tally the hand, then try each category from the best down. */
  method CalculateHandStrength(hand: seq<Card>) returns (strength: HandStrength)
    ensures strength == HighStrength(hand)
  {
    var rt, st := TallyHand(hand);
    var result := StraightFlushSearch(st);
    if result.Some? { return result.value; }
    result := SetSearch(rt, 4, Quads, 1);
    if result.Some? { return result.value; }
    result := FullHouseSearch(rt);
    if result.Some? { return result.value; }
    result := FlushSearch(st);
    if result.Some? { return result.value; }
    var straightStrength, found := FindStraight(rt.bitSet);
    if found { return MakeHandStrength(Straight, straightStrength, 0, 0); }
    result := SetSearch(rt, 3, Trips, 2);
    if result.Some? { return result.value; }
    result := PairsSearch(rt);
    if result.Some? { return result.value; }
    var kickers := GetKickers(rt.bitSet, 5);
    return MakeHandStrength(HighCard, 0, 0, KickerWord(kickers));
  }

  // ---------------------------------------------------------------------------
  // Low hands, best category first; `n` is the number of cards in the hand

  /** Two pair over the pair at `lo`: the first `hi` from the given one up to 12 with two cards whose kicker count fits. */
  function LowTwoPairFrom(rt: RankTally, n: int, lo: CardStrength, hi: CardStrength): Option<HandStrength>
    requires RanksFormed(rt) && hi <= AceHigh
    decreases AceHigh - hi
  {
    if hi == AceHigh then None
    else
      var rest := DropTwo(rt.bitSet, lo, hi);
      if Count(rt, hi) >= 2 && (LowFound(rest, 1, AceLow) == 1 || n == 4) then
        Some(MakeHandStrength(TwoPair, hi, lo, KickerWord(LowKickers(rest, 1, AceLow))))
      else LowTwoPairFrom(rt, n, lo, hi + 1)
  }

  /**
   * One pair or two pair: the first strength from `lo` up to 12 with two
   * cards that either has its three kickers (or every other card) or a
   * second pair above it that fits.
   */
  function LowPairsFrom(rt: RankTally, n: int, lo: CardStrength): Option<HandStrength>
    requires RanksFormed(rt) && lo <= AceHigh
    decreases AceHigh - lo
  {
    if lo == AceHigh then None
    else if Count(rt, lo) >= 2 && LowPairAt(rt, n, lo).Some? then LowPairAt(rt, n, lo)
    else LowPairsFrom(rt, n, lo + 1)
  }

  /**
   * What a pair at `lo` makes of the hand: one pair when its three kickers (or every
   * other card) are there, otherwise the first second pair above it that fits, if any.
   */
  function LowPairAt(rt: RankTally, n: int, lo: CardStrength): Option<HandStrength>
    requires RanksFormed(rt) && lo < AceHigh
  {
    var rest := Drop(rt.bitSet, lo);
    var found := LowFound(rest, 3, AceLow);
    if found == 3 || found == n - 2 then Some(MakeHandStrength(Pair, lo, 0, KickerWord(LowKickers(rest, 3, AceLow))))
    else LowTwoPairFrom(rt, n, lo, lo + 1)
  }

  /** The full house's pair: the first strength from `lo` up to 12, other than `hi`, with two cards. */
  function LowFullHousePair(rt: RankTally, hi: CardStrength, lo: CardStrength): Option<CardStrength>
    requires RanksFormed(rt) && lo <= AceHigh
    decreases AceHigh - lo
  {
    if lo == AceHigh then None
    else if lo != hi && Count(rt, lo) >= 2 then Some(lo)
    else LowFullHousePair(rt, hi, lo + 1)
  }

  /**
   * Trips or a full house: the first strength from `hi` up to 12 with three
   * cards that either has its two kickers (or every other card) or a pair to
   * make a full house.
   */
  function LowTripsFrom(rt: RankTally, n: int, hi: CardStrength): Option<HandStrength>
    requires RanksFormed(rt) && hi <= AceHigh
    decreases AceHigh - hi
  {
    if hi == AceHigh then None
    else if Count(rt, hi) >= 3 then
      var rest := Drop(rt.bitSet, hi);
      var found := LowFound(rest, 2, AceLow);
      if found == 2 || found == n - 3 then Some(MakeHandStrength(Trips, hi, 0, KickerWord(LowKickers(rest, 2, AceLow))))
      else
        var lo := LowFullHousePair(rt, hi, AceLow);
        if lo.Some? then Some(MakeHandStrength(FullHouse, hi, lo.value, 0)) else LowTripsFrom(rt, n, hi + 1)
    else LowTripsFrom(rt, n, hi + 1)
  }

  /** Quads: the first strength from `s` up to 12 with four cards, and the lowest other rank. */
  function LowQuadsFrom(rt: RankTally, s: CardStrength): Option<HandStrength>
    requires RanksFormed(rt) && s <= AceHigh
    decreases AceHigh - s
  {
    if s == AceHigh then None
    else if Count(rt, s) >= 4 then
      Some(MakeHandStrength(Quads, s, 0, KickerWord(LowKickers(Drop(rt.bitSet, s), 1, AceLow))))
    else LowQuadsFrom(rt, s + 1)
  }

  /** The eight-or-better cut: the low kickers lie below `CardStrength(9).Mask()`. */
  predicate Qualifies(kickers: set<int>)
  {
    Value(kickers) < NineCut
  }

  /** `CardStrength(9).Mask()` as a number. */
  const NineCut: nat := 0x200

  /** The cut is the mask of strength 9. */
  lemma {:induction false} NineCutMask()
    ensures Value(StrengthBits(9)) == NineCut
  {
    ValueSingle(9);
    Pow2Values();
  }

  /**
   * The cascade of `GetLowHandStrength`; `None` is its panic, reached only
   * when no category applies.
   */
  function LowOf(rt: RankTally, n: int, eightOrBetter: bool): Option<HandStrength>
    requires RanksFormed(rt)
  {
    var kickers := LowKickers(rt.bitSet, 5, AceLow);
    var found := LowFound(rt.bitSet, 5, AceLow);
    if (found == 5 || found == n) && (!eightOrBetter || Qualifies(kickers)) then
      Some(MakeHandStrength(HighCard, 0, 0, KickerWord(kickers)))
    else if eightOrBetter then Some(NoHandStrength)
    else
      var pairs := LowPairsFrom(rt, n, AceLow);
      if pairs.Some? then pairs else
      var trips := LowTripsFrom(rt, n, AceLow);
      if trips.Some? then trips else
      LowQuadsFrom(rt, AceLow)
  }

  /** The strength `GetLowHandStrength` computes for a hand, or `None` where it panics. */
  function LowStrength(hand: seq<Card>, eightOrBetter: bool): Option<HandStrength>
  {
    LowOf(RankTallyOf(hand), |hand|, eightOrBetter)
  }

  // ---------------------------------------------------------------------------
  // The searches of GetLowHandStrength

  /** One step of the low pairs walk. */
  lemma {:induction false} LowPairsStep(rt: RankTally, n: int, lo: CardStrength)
    requires RanksFormed(rt) && lo < AceHigh
    ensures LowPairsFrom(rt, n, lo) ==
      if Count(rt, lo) >= 2 && LowPairAt(rt, n, lo).Some? then LowPairAt(rt, n, lo) else LowPairsFrom(rt, n, lo + 1)
  {
  }

  /** One step of the low trips walk. */
  lemma {:induction false} LowTripsStep(rt: RankTally, n: int, hi: CardStrength)
    requires RanksFormed(rt) && hi < AceHigh
    ensures LowTripsFrom(rt, n, hi) ==
      if Count(rt, hi) < 3 then LowTripsFrom(rt, n, hi + 1)
      else
        var rest := Drop(rt.bitSet, hi);
        var found := LowFound(rest, 2, AceLow);
        if found == 2 || found == n - 3 then Some(MakeHandStrength(Trips, hi, 0, KickerWord(LowKickers(rest, 2, AceLow))))
        else
          var lo := LowFullHousePair(rt, hi, AceLow);
          if lo.Some? then Some(MakeHandStrength(FullHouse, hi, lo.value, 0)) else LowTripsFrom(rt, n, hi + 1)
  {
  }

  /** One step of the low walk for the full house's pair. */
  lemma {:induction false} LowFullHousePairStep(rt: RankTally, hi: CardStrength, lo: CardStrength)
    requires RanksFormed(rt) && lo < AceHigh
    ensures LowFullHousePair(rt, hi, lo) ==
      if lo != hi && Count(rt, lo) >= 2 then Some(lo) else LowFullHousePair(rt, hi, lo + 1)
  {
  }

  /** One step of the low quads walk. */
  lemma {:induction false} LowQuadsStep(rt: RankTally, s: CardStrength)
    requires RanksFormed(rt) && s < AceHigh
    ensures LowQuadsFrom(rt, s) ==
      if Count(rt, s) >= 4 then Some(MakeHandStrength(Quads, s, 0, KickerWord(LowKickers(Drop(rt.bitSet, s), 1, AceLow))))
      else LowQuadsFrom(rt, s + 1)
  {
  }

  /** One step of the second-pair walk. */
  lemma {:induction false} LowTwoPairStep(rt: RankTally, n: int, lo: CardStrength, hi: CardStrength)
    requires RanksFormed(rt) && hi < AceHigh
    ensures var rest := DropTwo(rt.bitSet, lo, hi);
      LowTwoPairFrom(rt, n, lo, hi) ==
        if Count(rt, hi) >= 2 && (LowFound(rest, 1, AceLow) == 1 || n == 4)
        then Some(MakeHandStrength(TwoPair, hi, lo, KickerWord(LowKickers(rest, 1, AceLow))))
        else LowTwoPairFrom(rt, n, lo, hi + 1)
  {
  }

  /** The inner loop of the low pairs search: a second pair above the one at `lo`. */
  method LowTwoPairSearch(rt: RankTally, n: int, lo: CardStrength) returns (result: Option<HandStrength>)
    requires RanksFormed(rt) && lo < AceHigh
    ensures result == LowTwoPairFrom(rt, n, lo, lo + 1)
  {
    var hi := lo + 1;
    while hi < AceHigh
      invariant lo < hi <= AceHigh
      invariant LowTwoPairFrom(rt, n, lo, hi) == LowTwoPairFrom(rt, n, lo, lo + 1)
      decreases AceHigh - hi
    {
      LowTwoPairStep(rt, n, lo, hi);
      result := LowTwoPairAt(rt, n, lo, hi);
      if result.Some? {
        return;
      }
      hi := hi + 1;
    }
    return None;
  }

  /** One turn of `LowTwoPairSearch`: the two pair with a second pair at `hi`, when it fits. */
  method LowTwoPairAt(rt: RankTally, n: int, lo: CardStrength, hi: CardStrength) returns (result: Option<HandStrength>)
    requires RanksFormed(rt) && hi < AceHigh
    ensures var rest := DropTwo(rt.bitSet, lo, hi);
      result == if Count(rt, hi) >= 2 && (LowFound(rest, 1, AceLow) == 1 || n == 4)
        then Some(MakeHandStrength(TwoPair, hi, lo, KickerWord(LowKickers(rest, 1, AceLow))))
        else None
  {
    result := None;
    if rt.rankCount[StrengthRank(hi)] >= 2 {
      var kickers, found := GetLowKickers(DropTwo(rt.bitSet, lo, hi), 1);
      if found == 1 || n == 4 {
        result := Some(MakeHandStrength(TwoPair, hi, lo, KickerWord(kickers)));
      }
    }
  }

  method LowPairsSearch(rt: RankTally, n: int) returns (result: Option<HandStrength>)
    requires RanksFormed(rt)
    ensures result == LowPairsFrom(rt, n, AceLow)
  {
    var lo := AceLow;
    while lo < AceHigh
      invariant lo <= AceHigh
      invariant LowPairsFrom(rt, n, lo) == LowPairsFrom(rt, n, AceLow)
      decreases AceHigh - lo
    {
      LowPairsStep(rt, n, lo);
      if rt.rankCount[StrengthRank(lo)] >= 2 {
        result := LowPairSearch(rt, n, lo);
        if result.Some? {
          return;
        }
      }
      lo := lo + 1;
    }
    return None;
  }

  /** The body of the low pairs search for a strength with two cards. */
  method LowPairSearch(rt: RankTally, n: int, lo: CardStrength) returns (result: Option<HandStrength>)
    requires RanksFormed(rt) && lo < AceHigh
    ensures result == LowPairAt(rt, n, lo)
  {
    var kickers, found := GetLowKickers(Drop(rt.bitSet, lo), 3);
    if found == 3 || found == n - 2 {
      return Some(MakeHandStrength(Pair, lo, 0, KickerWord(kickers)));
    }
    result := LowTwoPairSearch(rt, n, lo);
  }

  /** The inner loop of the low trips search: a pair, other than the trips, from the ace up. */
  method LowFullHousePairSearch(rt: RankTally, hi: CardStrength) returns (result: Option<CardStrength>)
    requires RanksFormed(rt)
    ensures result == LowFullHousePair(rt, hi, AceLow)
  {
    var lo := AceLow;
    while lo < AceHigh
      invariant lo <= AceHigh
      invariant LowFullHousePair(rt, hi, lo) == LowFullHousePair(rt, hi, AceLow)
      decreases AceHigh - lo
    {
      LowFullHousePairStep(rt, hi, lo);
      if lo != hi && rt.rankCount[StrengthRank(lo)] >= 2 {
        return Some(lo);
      }
      lo := lo + 1;
    }
    return None;
  }

  method LowTripsSearch(rt: RankTally, n: int) returns (result: Option<HandStrength>)
    requires RanksFormed(rt)
    ensures result == LowTripsFrom(rt, n, AceLow)
  {
    var hi := AceLow;
    while hi < AceHigh
      invariant hi <= AceHigh
      invariant LowTripsFrom(rt, n, hi) == LowTripsFrom(rt, n, AceLow)
      decreases AceHigh - hi
    {
      LowTripsStep(rt, n, hi);
      if rt.rankCount[StrengthRank(hi)] >= 3 {
        var kickers, found := GetLowKickers(Drop(rt.bitSet, hi), 2);
        if found == 2 || found == n - 3 {
          return Some(MakeHandStrength(Trips, hi, 0, KickerWord(kickers)));
        }
        var lo := LowFullHousePairSearch(rt, hi);
        if lo.Some? {
          return Some(MakeHandStrength(FullHouse, hi, lo.value, 0));
        }
      }
      hi := hi + 1;
    }
    return None;
  }

  method LowQuadsSearch(rt: RankTally) returns (result: Option<HandStrength>)
    requires RanksFormed(rt)
    ensures result == LowQuadsFrom(rt, AceLow)
  {
    var strength := AceLow;
    while strength < AceHigh
      invariant strength <= AceHigh
      invariant LowQuadsFrom(rt, strength) == LowQuadsFrom(rt, AceLow)
      decreases AceHigh - strength
    {
      LowQuadsStep(rt, strength);
      if rt.rankCount[StrengthRank(strength)] >= 4 {
        var kickers, _ := GetLowKickers(Drop(rt.bitSet, strength), 1);
        return Some(MakeHandStrength(Quads, strength, 0, KickerWord(kickers)));
      }
      strength := strength + 1;
    }
    return None;
  }

  /**
   * `GetLowHandStrength`: the five lowest ranks when they make a hand (and,
   * under eight-or-better, qualify), else the lowest paired category.
   * `None` stands for the panic when nothing applies.
   */
  method GetLowHandStrength(hand: seq<Card>, eightOrBetter: bool) returns (strength: Option<HandStrength>)
    ensures strength == LowStrength(hand, eightOrBetter)
  {
    var rt := TallyRanks(hand);
    var kickers, found := GetLowKickers(rt.bitSet, 5);
    if found == 5 || found == |hand| {
      NineCutMask();
      if !eightOrBetter || Value(kickers) < Value(StrengthBits(9)) {
        return Some(MakeHandStrength(HighCard, 0, 0, KickerWord(kickers)));
      }
    }
    if eightOrBetter {
      NoHandPacked();
      return Some(MakeHandStrength(NoHand, 0, 0, 0));
    }
    strength := LowPairsSearch(rt, |hand|);
    if strength.Some? { return; }
    strength := LowTripsSearch(rt, |hand|);
    if strength.Some? { return; }
    strength := LowQuadsSearch(rt);
  }

  // ---------------------------------------------------------------------------
  // The memo behind GetHandStrength

  /**
   * The cache `GetHandStrength` consults, keyed by the cards of the hand
   * regardless of order; `hands` records, for the proof only, a hand each
   * entry was computed from.
   */
  class StrengthCache {
    var entries: map<multiset<Card>, HandStrength>
    ghost var hands: map<multiset<Card>, seq<Card>>

    /** Every entry is the strength of a hand holding exactly the cards of its key. */
    ghost predicate Valid()
      reads this
    {
      CacheFaithful(entries, hands, HighStrength)
    }

    constructor ()
      ensures Valid() && entries == map[]
    {
      entries := map[];
      hands := map[];
    }

    /** `GetHandStrength`: the cached strength on a hit, else compute it and add it. */
    method GetHandStrength(hand: seq<Card>) returns (strength: HandStrength)
      requires Valid()
      modifies this
      ensures Valid()
      ensures strength == HighStrength(hand)
      ensures entries == old(entries)[multiset(hand) := strength]
    {
      var key := multiset(hand);
      if key in entries {
        strength := entries[key];
        CacheHit(entries, hands, HighStrength, hand);
        HighStrengthPermutation(hands[key], hand);
        return;
      }
      strength := CalculateHandStrength(hand);
      CacheAdd(entries, hands, HighStrength, hand, strength);
      entries := entries[key := strength];
      hands := hands[key := hand];
    }
  }

  /** Every entry is the rating of a hand holding exactly the cards of its key. */
  ghost predicate CacheFaithful(entries: map<multiset<Card>, HandStrength>, hands: map<multiset<Card>, seq<Card>>,
                                rate: seq<Card> -> HandStrength)
  {
    entries.Keys == hands.Keys &&
    forall key :: key in entries ==> multiset(hands[key]) == key && entries[key] == rate(hands[key])
  }

  /** A hit returns the rating of a hand holding the same cards as the one asked about. */
  lemma {:induction false} CacheHit(entries: map<multiset<Card>, HandStrength>, hands: map<multiset<Card>, seq<Card>>,
                                    rate: seq<Card> -> HandStrength, hand: seq<Card>)
    requires CacheFaithful(entries, hands, rate) && multiset(hand) in entries
    ensures multiset(hands[multiset(hand)]) == multiset(hand) && entries[multiset(hand)] == rate(hands[multiset(hand)])
  {
  }

  /** Adding a hand's own rating keeps every entry faithful. */
  lemma {:induction false} CacheAdd(entries: map<multiset<Card>, HandStrength>, hands: map<multiset<Card>, seq<Card>>,
                                    rate: seq<Card> -> HandStrength, hand: seq<Card>, strength: HandStrength)
    requires CacheFaithful(entries, hands, rate) && strength == rate(hand)
    ensures CacheFaithful(entries[multiset(hand) := strength], hands[multiset(hand) := hand], rate)
  {
  }

  /** The high strength depends only on which cards the hand holds, so the cache may ignore order. */
  lemma {:induction false} HighStrengthPermutation(h1: seq<Card>, h2: seq<Card>)
    requires multiset(h1) == multiset(h2)
    ensures HighStrength(h1) == HighStrength(h2)
  {
    TallyPermutation(h1, h2);
  }
}
