/**
 * Hand strengths of the poker evaluator (poker/poker.go): hand categories,
 * card strengths, the packed 32-bit hand strength, the maximum and minimum
 * searches, and the three mask scans the evaluators share: the straight
 * search and the high and low kicker collectors.
 *
 * The evaluator's 16-bit masks are modelled as the sets of their bit
 * positions: `|=` is union, `&^` is difference, a non-zero `&` with a single
 * bit is membership and `mask & m == m` is inclusion. Where the source uses a
 * mask as a number (packing kickers, comparing two masks) the model uses
 * `Value`, the sum of the powers of two of its positions below 16.
 */
module PokerStrength {
  import opened Wrappers
  import opened Cards
  import opened Bytes

  // ---------------------------------------------------------------------------
  // Masks as sets of bit positions

  function Pow2(n: nat): (p: nat)
    ensures p >= 1
  {
    if n == 0 then 1 else 2 * Pow2(n - 1)
  }

  /** The number the bits of `m` below position `n` stand for. */
  function ValueBelow(m: set<int>, n: nat): (v: nat)
    ensures v < Pow2(n)
  {
    if n == 0 then 0 else ValueBelow(m, n - 1) + (if n - 1 in m then Pow2(n - 1) else 0)
  }

  /** The width of a mask in bits. */
  const MaskWidth: nat := 16

  /** The unsigned 16-bit number a mask stands for. */
  function Value(m: set<int>): (v: nat)
    ensures v < 0x1_0000
  {
    MaskBound(m);
    ValueBelow(m, MaskWidth)
  }

  lemma {:induction false} MaskBound(m: set<int>)
    ensures ValueBelow(m, MaskWidth) < 0x1_0000
  {
    Pow2Values();
  }

  /** A single bit below the width stands for its power of two. */
  lemma {:induction false} ValueSingle(i: nat)
    requires i < MaskWidth
    ensures Value({i}) == Pow2(i)
  {
    SingleBelow(i, MaskWidth);
  }

  lemma {:induction false} SingleBelow(i: nat, n: nat)
    ensures ValueBelow({i}, n) == if i < n then Pow2(i) else 0
  {
    if n > 0 {
      SingleBelow(i, n - 1);
    }
  }

  /** The empty mask is zero. */
  lemma {:induction false} ValueEmpty()
    ensures Value({}) == 0
  {
    ValueBelowPow2({}, 0, MaskWidth);
  }

  lemma {:induction false} Pow2Values()
    ensures Pow2(9) == 0x200 && Pow2(16) == 0x1_0000
  {
    assert Pow2(4) == 16;
    assert Pow2(8) == 0x100;
  }

  /** A mask below `Pow2(k)` has no bit at position `k` or above (up to n), and conversely. */
  lemma {:induction false} ValueBelowPow2(m: set<int>, k: nat, n: nat)
    requires k <= n
    ensures ValueBelow(m, n) < Pow2(k) <==> forall i :: k <= i < n ==> i !in m
    decreases n
  {
    if n > k {
      ValueBelowPow2(m, k, n - 1);
      PowMonotone(k, n - 1);
      if n - 1 in m {
        assert ValueBelow(m, n) >= Pow2(n - 1);
      }
    }
  }

  lemma {:induction false} PowMonotone(k: nat, n: nat)
    requires k <= n
    ensures Pow2(k) <= Pow2(n)
    decreases n
  {
    if k < n {
      PowMonotone(k, n - 1);
    }
  }

  /**
   * Masks that agree above position `i` (below `n`) compare as their bit at
   * `i` does: the highest differing bit decides which is larger.
   */
  lemma {:induction false} ValueCompare(a: set<int>, b: set<int>, n: nat, i: nat)
    requires i < n
    requires i in b && i !in a
    requires forall j :: i < j < n ==> (j in a <==> j in b)
    ensures ValueBelow(a, n) < ValueBelow(b, n)
    decreases n
  {
    if n - 1 == i {
      assert ValueBelow(a, n) == ValueBelow(a, i) < Pow2(i);
      assert ValueBelow(b, n) >= Pow2(i);
    } else {
      ValueCompare(a, b, n - 1, i);
    }
  }

  // ---------------------------------------------------------------------------
  // Categories and card strengths

  /** A hand category, an unsigned byte; larger is better for high hands. */
  newtype HandRank = x: int | 0 <= x < 0x100

  const NoHand: HandRank := 0
  const HighCard: HandRank := 1
  const Pair: HandRank := 2
  const TwoPair: HandRank := 3
  const Trips: HandRank := 4
  const Straight: HandRank := 5
  const Flush: HandRank := 6
  const FullHouse: HandRank := 7
  const Quads: HandRank := 8
  const StraightFlush: HandRank := 9

  /**
   * The strength of a card within a category, an unsigned byte: the rank's own
   * number, with the ace counted either as 0 (low) or as 13 (high).
   */
  newtype CardStrength = x: int | 0 <= x < 0x100

  const AceLow: CardStrength := 0
  const AceHigh: CardStrength := 13

  /** The rank a strength stands for: the strength modulo 13. */
  function StrengthRank(cs: CardStrength): Rank
  {
    (cs as int % 13) as Rank
  }

  /** A rank's own number stands for that rank, and 13 stands for the ace. */
  lemma {:induction false} StrengthRankInverse(r: Rank)
    ensures StrengthRank(r as int as CardStrength) == r
    ensures StrengthRank(AceHigh) == Ace
  {
  }

  /** `uint16(1) << cs`: the single bit `cs`, or no bit once the shift reaches 16. */
  function StrengthBits(cs: CardStrength): set<int>
  {
    if cs < 16 then {cs as int} else {}
  }

  /** `r.Mask()`: the single bit `r`. */
  function RankBits(r: Rank): set<int>
  {
    {r as int}
  }

  /** The set view of `Rank.Mask` agrees with the 16-bit mask bit by bit. */
  lemma {:induction false} RankBitsAgree(r: Rank, i: Rank)
    ensures i as int in RankBits(r) <==> RankMask(r) & RankMask(i) != 0
  {
    if r != i {
      RankMasksDisjoint(r, i);
    } else {
      RankMaskBit(r);
    }
  }

  /** Whether the rank strength `s` stands for is among the ranks of `bits`. */
  predicate Present(bits: set<int>, s: CardStrength)
  {
    StrengthRank(s) as int in bits
  }

  // ---------------------------------------------------------------------------
  // Packed hand strengths

  /** A 16-bit kicker mask as a number. */
  newtype Word16 = x: int | 0 <= x < 0x1_0000

  /** A hand strength: an unsigned 32-bit value compared as a number. */
  newtype HandStrength = x: int | 0 <= x < 0x1_0000_0000

  /**
   * `rank << 24 | strength1 << 20 | strength2 << 16 | kickers`, in 32 bits.
   * Byte 3 is `rank` with the high nibble of `strength1` or-ed in, byte 2 is
   * the low nibble of `strength1` above `strength2`, or-ed together, and the
   * low half is `kickers`; the truncation to 32 bits loses nothing.
   */
  function MakeHandStrength(rank: HandRank, strength1: CardStrength, strength2: CardStrength, kickers: Word16): HandStrength
  {
    var top := (rank as bv8) | ((strength1 as bv8) >> 4);
    var mid := ((strength1 as bv8) << 4) | (strength2 as bv8);
    (top as int * 0x100_0000 + mid as int * 0x1_0000 + kickers as int) as HandStrength
  }

  /** The category in the top byte. */
  function HandStrengthRank(hs: HandStrength): HandRank
  {
    (hs as int / 0x100_0000) as HandRank
  }

  /** The top byte: the category, since a strength below 16 has no high nibble. */
  lemma {:induction false} TopByte(rank: HandRank, strength1: CardStrength)
    requires strength1 < 16
    ensures ((rank as bv8) | ((strength1 as bv8) >> 4)) as int == rank as int
  {
    SmallByte(strength1 as int);
    ByteRoundTrip(rank as int);
  }

  /** The second byte: the two strengths as nibbles. */
  lemma {:induction false} MidByte(strength1: CardStrength, strength2: CardStrength)
    requires strength1 < 16 && strength2 < 16
    ensures (((strength1 as bv8) << 4) | (strength2 as bv8)) as int == strength1 as int * 16 + strength2 as int
  {
    SmallByte(strength1 as int);
    SmallByte(strength2 as int);
    ByteRoundTrip(strength1 as int);
    ByteRoundTrip(strength2 as int);
    Nibbles(strength1 as bv8, strength2 as bv8);
  }

  /** The packed value when both strengths fit in a nibble. */
  lemma {:induction false} PackedValue(rank: HandRank, strength1: CardStrength, strength2: CardStrength, kickers: Word16)
    requires strength1 < 16 && strength2 < 16
    ensures MakeHandStrength(rank, strength1, strength2, kickers) as int ==
      rank as int * 0x100_0000 + strength1 as int * 0x10_0000 + strength2 as int * 0x1_0000 + kickers as int
  {
    TopByte(rank, strength1);
    MidByte(strength1, strength2);
  }

  /**
   * With both strengths below 16 the four operands occupy disjoint fields:
   * the category from bit 24, `strength1` in bits 20-23, `strength2` in bits
   * 16-19 and the kickers in bits 0-15, and each reads back unchanged.
   */
  lemma {:induction false} PackedFields(rank: HandRank, strength1: CardStrength, strength2: CardStrength, kickers: Word16)
    requires strength1 < 16 && strength2 < 16
    ensures HandStrengthRank(MakeHandStrength(rank, strength1, strength2, kickers)) == rank
    ensures MakeHandStrength(rank, strength1, strength2, kickers) as int / 0x10_0000 % 16 == strength1 as int
    ensures MakeHandStrength(rank, strength1, strength2, kickers) as int / 0x1_0000 % 16 == strength2 as int
    ensures MakeHandStrength(rank, strength1, strength2, kickers) as int % 0x1_0000 == kickers as int
  {
    PackedValue(rank, strength1, strength2, kickers);
    var x := MakeHandStrength(rank, strength1, strength2, kickers) as int;
    var r, a, b, k := rank as int, strength1 as int, strength2 as int, kickers as int;
    DivideOut(x, r, a * 0x10_0000 + b * 0x1_0000 + k, 0x100_0000);
    DivideOut(x, r * 16 + a, b * 0x1_0000 + k, 0x10_0000);
    DivideOut(r * 16 + a, r, a, 16);
    DivideOut(x, (r * 16 + a) * 16 + b, k, 0x1_0000);
    DivideOut((r * 16 + a) * 16 + b, r * 16 + a, b, 16);
  }

  /** The category reads back from a packed strength. */
  lemma {:induction false} PackedRank(rank: HandRank, strength1: CardStrength, strength2: CardStrength, kickers: Word16)
    requires strength1 < 16 && strength2 < 16
    ensures HandStrengthRank(MakeHandStrength(rank, strength1, strength2, kickers)) == rank
  {
    PackedFields(rank, strength1, strength2, kickers);
  }

  /** What `MakeHandStrength(NoHand, 0, 0, 0)` packs to. */
  const NoHandStrength: HandStrength := 0

  /** `NoHand` with empty fields packs to zero, whose category is `NoHand`. */
  lemma {:induction false} NoHandPacked()
    ensures MakeHandStrength(NoHand, 0, 0, 0) == NoHandStrength
    ensures HandStrengthRank(NoHandStrength) == NoHand
  {
    PackedValue(NoHand, 0, 0, 0);
  }

  /** Division by `c` undoes `q * c + rem` when `rem` is a remainder. */
  lemma {:induction false} DivideOut(x: int, q: int, rem: int, c: int)
    requires c > 0 && 0 <= rem < c && x == q * c + rem
    ensures x / c == q && x % c == rem
  {
    var d, m := x / c, x % c;
    assert x == d * c + m && 0 <= m < c;
    if d < q {
      MulLe(d + 1, q, c);
    } else if q < d {
      MulLe(q + 1, d, c);
    }
  }

  lemma {:induction false} MulLe(a: int, b: int, c: int)
    requires a <= b && c > 0
    ensures a * c <= b * c
  {
    assert b * c - a * c == (b - a) * c;
  }

  /**
   * With both strengths below 16, packed strengths compare by category first,
   * then `strength1`, then `strength2`, then the kickers: a better category
   * always wins whatever the other fields hold.
   */
  lemma {:induction false} PackedOrder(r1: HandRank, a1: CardStrength, b1: CardStrength, k1: Word16,
                                       r2: HandRank, a2: CardStrength, b2: CardStrength, k2: Word16)
    requires a1 < 16 && b1 < 16 && a2 < 16 && b2 < 16
    ensures MakeHandStrength(r1, a1, b1, k1) < MakeHandStrength(r2, a2, b2, k2) <==>
      r1 < r2 || (r1 == r2 && (a1 < a2 || (a1 == a2 && (b1 < b2 || (b1 == b2 && k1 < k2)))))
  {
    PackedValue(r1, a1, b1, k1);
    PackedValue(r2, a2, b2, k2);
  }

  // ---------------------------------------------------------------------------
  // Maxima and minima; each panics on an empty slice

  method MaxCardStrength(strengths: seq<CardStrength>) returns (max: CardStrength)
    requires |strengths| > 0
    ensures max in strengths
    ensures forall i :: 0 <= i < |strengths| ==> strengths[i] <= max
  {
    max := strengths[0];
    for i := 1 to |strengths|
      invariant max in strengths[..i]
      invariant forall j :: 0 <= j < i ==> strengths[j] <= max
    {
      if strengths[i] > max {
        max := strengths[i];
      }
    }
  }

  method MaxHandStrength(strengths: seq<HandStrength>) returns (max: HandStrength)
    requires |strengths| > 0
    ensures max in strengths
    ensures forall i :: 0 <= i < |strengths| ==> strengths[i] <= max
  {
    max := strengths[0];
    for i := 1 to |strengths|
      invariant max in strengths[..i]
      invariant forall j :: 0 <= j < i ==> strengths[j] <= max
    {
      if strengths[i] > max {
        max := strengths[i];
      }
    }
  }

  method MinHandStrength(strengths: seq<HandStrength>) returns (min: HandStrength)
    requires |strengths| > 0
    ensures min in strengths
    ensures forall i :: 0 <= i < |strengths| ==> min <= strengths[i]
  {
    min := strengths[0];
    for i := 1 to |strengths|
      invariant min in strengths[..i]
      invariant forall j :: 0 <= j < i ==> min <= strengths[j]
    {
      if strengths[i] < min {
        min := strengths[i];
      }
    }
  }

  // ---------------------------------------------------------------------------
  // Straights

  /** `0x1F << (r - Five)`: the five consecutive rank bits ending at rank `r`. */
  function WindowMask(r: Rank): set<int>
    requires r >= Five
  {
    var k := r as int;
    {k - 4, k - 3, k - 2, k - 1, k}
  }

  /** `0x1E01`: Ten, Jack, Queen, King, and the ace at bit 0. */
  const AceHighMask: set<int> := {0, 9, 10, 11, 12}

  /** All five ranks ending at `r` are present (ending at Five, that is the wheel A-2-3-4-5). */
  predicate RunAt(bits: set<int>, r: Rank)
    requires r >= Five
  {
    forall i :: r as int - 4 <= i <= r as int ==> i in bits
  }

  /** Ten, Jack, Queen, King and Ace are all present. */
  predicate AceHighRun(bits: set<int>)
  {
    Ten as int in bits && Jack as int in bits && Queen as int in bits && King as int in bits && Ace as int in bits
  }

  /** The highest window ending at or below `r` (down to Five) whose ranks are all present. */
  function StraightFrom(bits: set<int>, r: int): Option<CardStrength>
    requires r <= King as int
    decreases r
  {
    if r < Five as int then None
    else if WindowMask(r as Rank) <= bits then Some(r as CardStrength)
    else StraightFrom(bits, r - 1)
  }

  /** The straight `findStraight` reports: the ace-high one first, then the highest other. */
  function StraightHigh(bits: set<int>): Option<CardStrength>
  {
    if AceHighMask <= bits then Some(AceHigh) else StraightFrom(bits, King as int)
  }

  method FindStraight(bitSet: set<int>) returns (strength: CardStrength, found: bool)
    ensures found <==> StraightHigh(bitSet).Some?
    ensures strength == if found then StraightHigh(bitSet).value else 0
  {
    var mask := AceHighMask;
    if mask <= bitSet {
      return AceHigh, true;
    }
    var r: int := King as int;
    while r >= Five as int
      invariant Five as int - 1 <= r <= King as int
      invariant StraightFrom(bitSet, r) == StraightHigh(bitSet)
      decreases r
    {
      mask := WindowMask(r as Rank);
      if mask <= bitSet {
        return r as CardStrength, true;
      }
      r := r - 1;
    }
    return 0, false;
  }

  /** The window test is the five single-rank tests. */
  lemma {:induction false} WindowRun(bits: set<int>, r: Rank)
    requires r >= Five
    ensures WindowMask(r) <= bits <==> RunAt(bits, r)
  {
    var k := r as int;
    if WindowMask(r) <= bits {
      assert k - 4 in bits && k - 3 in bits && k - 2 in bits && k - 1 in bits && k in bits;
    }
  }

  /**
   * `StraightFrom(bits, r)` is the highest rank q in Five..r with a full run
   * ending at q, and None exactly when there is none.
   */
  lemma {:induction false} StraightFromHighest(bits: set<int>, r: int)
    requires r <= King as int
    ensures StraightFrom(bits, r).None? <==> forall q: Rank :: Five <= q && q as int <= r ==> !RunAt(bits, q)
    ensures StraightFrom(bits, r).Some? ==>
      var s := StraightFrom(bits, r).value;
      Five as int <= s as int <= r && RunAt(bits, s as int as Rank) &&
      forall q: Rank :: s as int < q as int <= r ==> !RunAt(bits, q)
    decreases r
  {
    if r >= Five as int {
      WindowRun(bits, r as Rank);
      StraightFromHighest(bits, r - 1);
    }
  }

  /**
   * `findStraight`'s answer: the high ace exactly when Ten through Ace are all
   * present; otherwise the highest rank from King down to Five ending a run of
   * five present ranks; and nothing when neither exists.
   */
  lemma {:induction false} StraightHighSpec(bits: set<int>)
    ensures StraightHigh(bits) == Some(AceHigh) <==> AceHighRun(bits)
    ensures StraightHigh(bits).None? <==> !AceHighRun(bits) && forall q: Rank :: Five <= q ==> !RunAt(bits, q)
    ensures StraightHigh(bits).Some? && StraightHigh(bits) != Some(AceHigh) ==>
      var s := StraightHigh(bits).value;
      !AceHighRun(bits) && Five as int <= s as int <= King as int && RunAt(bits, s as int as Rank) &&
      forall q: Rank :: s as int < q as int ==> !RunAt(bits, q)
  {
    StraightFromHighest(bits, King as int);
    assert AceHighMask <= bits <==> AceHighRun(bits);
  }

  // ---------------------------------------------------------------------------
  // Kickers

  /** How many strengths in `lo..hi` are present. */
  function CountPresent(bits: set<int>, lo: int, hi: int): nat
    requires 0 <= lo && hi <= AceHigh as int
    decreases hi - lo
  {
    if hi < lo then 0
    else CountPresent(bits, lo, hi - 1) + (if Present(bits, hi as CardStrength) then 1 else 0)
  }

  /** Counting from the bottom end: peel off strength `lo`. */
  lemma {:induction false} CountFromBelow(bits: set<int>, lo: int, hi: int)
    requires 0 <= lo <= hi <= AceHigh as int
    ensures CountPresent(bits, lo, hi) ==
      (if Present(bits, lo as CardStrength) then 1 else 0) + CountPresent(bits, lo + 1, hi)
    decreases hi - lo
  {
    if lo < hi {
      CountFromBelow(bits, lo, hi - 1);
    }
  }

  /**
   * The high kickers `getKickers` collects: walking strengths from `s` down to
   * 1, take the bit of each present one, stopping right after the one that
   * brings `left` down to zero (never, when `left` starts below 1).
   */
  function HighKickers(bits: set<int>, left: int, s: CardStrength): set<int>
    requires s <= AceHigh
    decreases s
  {
    if s == AceLow then {}
    else if Present(bits, s) then
      if left == 1 then StrengthBits(s) else StrengthBits(s) + HighKickers(bits, left - 1, s - 1)
    else HighKickers(bits, left, s - 1)
  }

  /** One step of the high walk. */
  lemma {:induction false} HighKickersStep(bits: set<int>, left: int, s: CardStrength)
    requires AceLow < s <= AceHigh
    ensures HighKickers(bits, left, s) ==
      if !Present(bits, s) then HighKickers(bits, left, s - 1)
      else if left == 1 then StrengthBits(s)
      else StrengthBits(s) + HighKickers(bits, left - 1, s - 1)
  {
  }

  /** The high walk's invariant carried over one strength, with the kickers so far in front. */
  lemma {:induction false} HighWalkStep(bits: set<int>, left: int, s: CardStrength, kickers: set<int>, goal: set<int>)
    requires AceLow < s <= AceHigh
    requires kickers + HighKickers(bits, left, s) == goal
    ensures !Present(bits, s) ==> kickers + HighKickers(bits, left, s - 1) == goal
    ensures Present(bits, s) && left == 1 ==> kickers + StrengthBits(s) == goal
    ensures Present(bits, s) && left != 1 ==> kickers + StrengthBits(s) + HighKickers(bits, left - 1, s - 1) == goal
  {
    HighKickersStep(bits, left, s);
    var rest := HighKickers(bits, left - 1, s - 1);
    assert kickers + StrengthBits(s) + rest == kickers + (StrengthBits(s) + rest);
  }

  method GetKickers(bitSet: set<int>, max: int) returns (kickers: set<int>)
    ensures kickers == HighKickers(bitSet, max, AceHigh)
  {
    kickers := {};
    var found := 0;
    var strength := AceHigh;
    while strength > AceLow
      invariant strength <= AceHigh
      invariant kickers + HighKickers(bitSet, max - found, strength) == HighKickers(bitSet, max, AceHigh)
      decreases strength
    {
      HighWalkStep(bitSet, max - found, strength, kickers, HighKickers(bitSet, max, AceHigh));
      if StrengthRank(strength) as int in bitSet {
        kickers := kickers + StrengthBits(strength);
        found := found + 1;
        if found == max {
          return kickers;
        }
      }
      strength := strength - 1;
    }
  }

  /**
   * Strength `t` is taken exactly when it lies in 1..s, is present, and fewer
   * than `left` present strengths lie above it (any number, when `left` < 1):
   * the kickers are the `left` highest present strengths, or all of them.
   */
  lemma {:induction false} HighKickersChosen(bits: set<int>, left: int, s: CardStrength, t: int)
    requires s <= AceHigh
    ensures t in HighKickers(bits, left, s) <==>
      1 <= t <= s as int && Present(bits, t as CardStrength) && (left < 1 || CountPresent(bits, t + 1, s as int) < left)
    decreases s
  {
    if s != AceLow {
      if t == s as int {
        assert CountPresent(bits, t + 1, s as int) == 0;
      }
      if Present(bits, s) {
        if left != 1 {
          HighKickersChosen(bits, left - 1, s - 1, t);
        } else if 1 <= t < s as int {
          assert CountPresent(bits, t + 1, s as int) >= 1;
        }
      } else {
        HighKickersChosen(bits, left, s - 1, t);
      }
    }
  }

  /** `getKickers` takes `left` strengths, or every present one when there are fewer or `left` < 1. */
  lemma {:induction false} HighKickersCount(bits: set<int>, left: int, s: CardStrength)
    requires s <= AceHigh
    ensures var n := CountPresent(bits, 1, s as int);
      |HighKickers(bits, left, s)| == if left < 1 || n < left then n else left
    decreases s
  {
    if s != AceLow {
      if Present(bits, s) {
        if left != 1 {
          HighKickersCount(bits, left - 1, s - 1);
          HighKickersChosen(bits, left - 1, s - 1, s as int);
          assert StrengthBits(s) !! HighKickers(bits, left - 1, s - 1);
        } else {
          assert CountPresent(bits, 1, s as int) >= 1;
        }
      } else {
        HighKickersCount(bits, left, s - 1);
      }
    }
  }

  /**
   * The low kickers `getLowKickers` collects: walking strengths from `s` up
   * to 12, take the bit of each present one, stopping right after the one
   * that brings `left` down to zero (never, when `left` starts below 1).
   */
  function LowKickers(bits: set<int>, left: int, s: CardStrength): set<int>
    requires s <= AceHigh
    decreases AceHigh - s
  {
    if s == AceHigh then {}
    else if Present(bits, s) then
      if left == 1 then StrengthBits(s) else StrengthBits(s) + LowKickers(bits, left - 1, s + 1)
    else LowKickers(bits, left, s + 1)
  }

  /** The count `getLowKickers` reports alongside `LowKickers`, walking the same way. */
  function LowFound(bits: set<int>, left: int, s: CardStrength): nat
    requires s <= AceHigh
    decreases AceHigh - s
  {
    if s == AceHigh then 0
    else if Present(bits, s) then
      if left == 1 then 1 else 1 + LowFound(bits, left - 1, s + 1)
    else LowFound(bits, left, s + 1)
  }

  /** One step of the low walk. */
  lemma {:induction false} LowKickersStep(bits: set<int>, left: int, s: CardStrength)
    requires s < AceHigh
    ensures LowKickers(bits, left, s) ==
      if !Present(bits, s) then LowKickers(bits, left, s + 1)
      else if left == 1 then StrengthBits(s)
      else StrengthBits(s) + LowKickers(bits, left - 1, s + 1)
    ensures LowFound(bits, left, s) ==
      if !Present(bits, s) then LowFound(bits, left, s + 1)
      else if left == 1 then 1
      else 1 + LowFound(bits, left - 1, s + 1)
  {
  }

  /** The low walk's invariant carried over one strength, with the kickers and count so far in front. */
  lemma {:induction false} LowWalkStep(bits: set<int>, left: int, s: CardStrength, kickers: set<int>, found: int,
                                       goal: set<int>, count: nat)
    requires s < AceHigh
    requires kickers + LowKickers(bits, left, s) == goal && found + LowFound(bits, left, s) == count
    ensures !Present(bits, s) ==> kickers + LowKickers(bits, left, s + 1) == goal && found + LowFound(bits, left, s + 1) == count
    ensures Present(bits, s) && left == 1 ==> kickers + StrengthBits(s) == goal && found + 1 == count
    ensures Present(bits, s) && left != 1 ==>
      kickers + StrengthBits(s) + LowKickers(bits, left - 1, s + 1) == goal && found + 1 + LowFound(bits, left - 1, s + 1) == count
  {
    LowKickersStep(bits, left, s);
    var rest := LowKickers(bits, left - 1, s + 1);
    assert kickers + StrengthBits(s) + rest == kickers + (StrengthBits(s) + rest);
  }

  method GetLowKickers(bitSet: set<int>, max: int) returns (kickers: set<int>, found: int)
    ensures kickers == LowKickers(bitSet, max, AceLow)
    ensures found == LowFound(bitSet, max, AceLow)
  {
    kickers := {};
    found := 0;
    var strength := AceLow;
    while strength < AceHigh
      invariant strength <= AceHigh && 0 <= found
      invariant kickers + LowKickers(bitSet, max - found, strength) == LowKickers(bitSet, max, AceLow)
      invariant found + LowFound(bitSet, max - found, strength) == LowFound(bitSet, max, AceLow)
      decreases AceHigh - strength
    {
      LowWalkStep(bitSet, max - found, strength, kickers, found, LowKickers(bitSet, max, AceLow), LowFound(bitSet, max, AceLow));
      if StrengthRank(strength) as int in bitSet {
        kickers := kickers + StrengthBits(strength);
        found := found + 1;
        if found == max {
          return kickers, found;
        }
      }
      strength := strength + 1;
    }
  }

  /**
   * Strength `t` is taken exactly when it lies in s..12, is present, and fewer
   * than `left` present strengths lie below it (any number, when `left` < 1):
   * the kickers are the `left` lowest present strengths, or all of them.
   */
  lemma {:induction false} LowKickersChosen(bits: set<int>, left: int, s: CardStrength, t: int)
    requires s <= AceHigh
    ensures t in LowKickers(bits, left, s) <==>
      s as int <= t < AceHigh as int && Present(bits, t as CardStrength) &&
      (left < 1 || CountPresent(bits, s as int, t - 1) < left)
    decreases AceHigh - s
  {
    if s != AceHigh {
      if s as int <= t - 1 && t < AceHigh as int {
        CountFromBelow(bits, s as int, t - 1);
      }
      if Present(bits, s) {
        if left != 1 {
          LowKickersChosen(bits, left - 1, s + 1, t);
        }
      } else {
        LowKickersChosen(bits, left, s + 1, t);
      }
    }
  }

  /**
   * The count `getLowKickers` reports is the number of present strengths in
   * s..12, capped at `left` when `left` is at least 1, and it is the number of
   * kickers taken.
   */
  lemma {:induction false} LowKickersFound(bits: set<int>, left: int, s: CardStrength)
    requires s <= AceHigh
    ensures var n := CountPresent(bits, s as int, AceHigh as int - 1);
      LowFound(bits, left, s) == (if left < 1 || n < left then n else left) &&
      |LowKickers(bits, left, s)| == LowFound(bits, left, s)
    decreases AceHigh - s
  {
    if s != AceHigh {
      CountFromBelow(bits, s as int, AceHigh as int - 1);
      if Present(bits, s) {
        if left != 1 {
          LowKickersFound(bits, left - 1, s + 1);
          LowKickersChosen(bits, left - 1, s + 1, s as int);
          assert StrengthBits(s) !! LowKickers(bits, left - 1, s + 1);
        } else {
          assert CountPresent(bits, s as int, AceHigh as int - 1) >= 1;
        }
      } else {
        LowKickersFound(bits, left, s + 1);
      }
    }
  }
}
