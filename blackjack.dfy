/**
 * Blackjack scoring (blackjack/blackjack.go): the value of one card, and the
 * value of a hand, where each ace counts 11 unless that would bust the hand,
 * in which case as many aces as needed count 1 instead.
 */
module Blackjack {
  import opened Cards

  // ---------------------------------------------------------------------------
  // Cards

  /** The blackjack value of a card: its pips for Two to Nine, ten for Ten and the faces, eleven for an Ace. */
  function CardValue(c: Card): (v: nat)
    ensures c.rank == Ace <==> v == 11
    ensures c.rank != Ace ==> v == if c.rank as int + 1 < 10 then c.rank as int + 1 else 10
    ensures 2 <= v <= 11
  {
    match c.rank
    case 1 => 2
    case 2 => 3
    case 3 => 4
    case 4 => 5
    case 5 => 6
    case 6 => 7
    case 7 => 8
    case 8 => 9
    case 9 | 10 | 11 | 12 => 10
    case 0 => 11
  }

  /** One for an ace, nothing for any other card. */
  function AceUnit(c: Card): (n: nat)
    ensures n == 1 <==> c.rank == Ace
    ensures n <= 1
  {
    if c.rank == Ace then 1 else 0
  }

  // ---------------------------------------------------------------------------
  // Sums over a hand

  /** The sum of `f` over the cards of `hand`, first card first. */
  function SumOf(hand: seq<Card>, f: Card -> nat): nat
  {
    if hand == [] then 0 else f(hand[0]) + SumOf(hand[1..], f)
  }

  /** Every ace at eleven: the value before any ace is softened. */
  function RawValue(hand: seq<Card>): nat
  {
    SumOf(hand, CardValue)
  }

  /** The number of aces in the hand. */
  function AceCount(hand: seq<Card>): nat
  {
    SumOf(hand, AceUnit)
  }

  /** A sum over two pieces of a hand is the sum of the sums. */
  lemma {:induction false} SumOfAppend(a: seq<Card>, b: seq<Card>, f: Card -> nat)
    ensures SumOf(a + b, f) == SumOf(a, f) + SumOf(b, f)
    decreases |a|
  {
    if a == [] {
      assert a + b == b;
    } else {
      assert (a + b)[0] == a[0] && (a + b)[1..] == a[1..] + b;
      SumOfAppend(a[1..], b, f);
    }
  }

  /** Taking card `k` out of a hand leaves the rest of the sum. */
  lemma {:induction false} SumOfRemove(b: seq<Card>, k: nat, f: Card -> nat)
    requires k < |b|
    ensures SumOf(b, f) == f(b[k]) + SumOf(b[..k] + b[k + 1..], f)
  {
    assert b == (b[..k] + [b[k]]) + b[k + 1..];
    SumOfAppend(b[..k] + [b[k]], b[k + 1..], f);
    SumOfAppend(b[..k], [b[k]], f);
    SumOfAppend(b[..k], b[k + 1..], f);
  }

  /** Two hands with the same cards still have the same cards once one copy of `b[k]` leaves each. */
  lemma {:induction false} RemoveMatching(a: seq<Card>, b: seq<Card>, k: nat)
    requires multiset(a) == multiset(b) && a != [] && k < |b| && b[k] == a[0]
    ensures multiset(a[1..]) == multiset(b[..k] + b[k + 1..])
  {
    assert b == b[..k] + [b[k]] + b[k + 1..];
    assert multiset(b) == multiset(b[..k]) + multiset{b[k]} + multiset(b[k + 1..]);
    assert a == [a[0]] + a[1..];
    assert multiset(a) == multiset{a[0]} + multiset(a[1..]);
    calc {
      multiset(a[1..]);
      multiset(a) - multiset{a[0]};
      multiset(b) - multiset{b[k]};
      multiset(b[..k]) + multiset(b[k + 1..]);
      multiset(b[..k] + b[k + 1..]);
    }
  }

  /** A sum over a hand does not depend on the order of its cards. */
  lemma {:induction false} SumOfPermutation(a: seq<Card>, b: seq<Card>, f: Card -> nat)
    requires multiset(a) == multiset(b)
    ensures SumOf(a, f) == SumOf(b, f)
    decreases |a|
  {
    if a == [] {
      assert |b| == |multiset(b)| == 0;
    } else {
      assert a[0] in multiset(b);
      var k :| 0 <= k < |b| && b[k] == a[0];
      RemoveMatching(a, b, k);
      SumOfPermutation(a[1..], b[..k] + b[k + 1..], f);
      SumOfRemove(b, k, f);
    }
  }

  /** Every ace is worth eleven in the raw value, so softening each one by ten never goes below zero. */
  lemma {:induction false} RawCoversAces(hand: seq<Card>)
    ensures RawValue(hand) >= 11 * AceCount(hand)
    ensures RawValue(hand) >= 2 * |hand| + 9 * AceCount(hand)
    decreases |hand|
  {
    if hand != [] {
      RawCoversAces(hand[1..]);
    }
  }

  // ---------------------------------------------------------------------------
  // The hand value

  /**
   * How many aces of a hand with raw value `raw` and `aces` aces count one:
   * the fewest that bring the hand to 21 or less, or all of them when none does.
   */
  function Softenings(raw: nat, aces: nat): (j: nat)
    ensures j <= aces
    ensures raw - 10 * j <= 21 || j == aces
    ensures forall k: nat :: k < j ==> raw - 10 * k > 21
  {
    if raw <= 21 then 0
    else if (raw - 12) / 10 < aces then (raw - 12) / 10
    else aces
  }

  /** The value of a hand: its raw value with the softened aces counted one instead of eleven. */
  function Value(hand: seq<Card>): (v: nat)
  {
    RawCoversAces(hand);
    RawValue(hand) - 10 * Softenings(RawValue(hand), AceCount(hand))
  }

  /**
   * A hand that does not bust with every ace at eleven keeps that value; a
   * hand that does softens its aces one at a time until it stops busting, so
   * it ends at most 21 exactly when softening every ace gets there, above 11
   * when it does (one ace fewer would still bust), and with every ace
   * counting one otherwise.
   */
  lemma {:induction false} ValueMeaning(hand: seq<Card>)
    ensures RawValue(hand) <= 21 ==> Value(hand) == RawValue(hand)
    ensures RawValue(hand) > 21 ==> (Value(hand) <= 21 <==> RawValue(hand) - 10 * AceCount(hand) <= 21)
    ensures RawValue(hand) > 21 && Value(hand) <= 21 ==> Value(hand) > 11
    ensures Value(hand) > 21 ==> Value(hand) == RawValue(hand) - 10 * AceCount(hand)
  {
    var raw, aces := RawValue(hand), AceCount(hand);
    var j := Softenings(raw, aces);
    RawCoversAces(hand);
    if j < aces {
      assert raw - 10 * j <= 21;
    }
    if j > 0 {
      assert raw - 10 * (j - 1) > 21;
    }
  }

  /** Reordering the cards of a hand does not change its value. */
  lemma {:induction false} ValuePermutation(a: seq<Card>, b: seq<Card>)
    requires multiset(a) == multiset(b)
    ensures Value(a) == Value(b)
  {
    SumOfPermutation(a, b, CardValue);
    SumOfPermutation(a, b, AceUnit);
  }

  /** Every hand is worth at least one per card, and more for the cards that are not aces. */
  lemma {:induction false} ValueAtLeast(hand: seq<Card>)
    ensures Value(hand) >= |hand|
  {
    RawCoversAces(hand);
    var j := Softenings(RawValue(hand), AceCount(hand));
    assert 10 * j <= 10 * AceCount(hand);
  }

  /**
   * `HandValue`: the raw value and the number of aces in one pass, then ten
   * off for each ace while the hand is over 21 and an ace is left.
   */
  method HandValue(hand: seq<Card>) returns (value: nat)
    ensures value == Value(hand)
  {
    var aces: nat := 0;
    value := 0;
    for i := 0 to |hand|
      invariant value == RawValue(hand[..i]) && aces == AceCount(hand[..i])
    {
      SumOfAppend(hand[..i], [hand[i]], CardValue);
      SumOfAppend(hand[..i], [hand[i]], AceUnit);
      assert hand[..i + 1] == hand[..i] + [hand[i]];
      value := value + CardValue(hand[i]);
      if hand[i].rank == Ace {
        aces := aces + 1;
      }
    }
    assert hand[..|hand|] == hand;
    RawCoversAces(hand);
    value := Soften(value, aces, RawValue(hand), AceCount(hand));
  }

  /** The softening loop of `HandValue`, from the raw value and the number of aces. */
  method Soften(raw: nat, aceCount: nat, ghost rawValue: nat, ghost totalAces: nat) returns (value: nat)
    requires raw == rawValue && aceCount == totalAces && raw >= 11 * aceCount
    ensures value == rawValue - 10 * Softenings(rawValue, totalAces)
  {
    value := raw;
    var aces: nat := aceCount;
    while value > 21 && aces > 0
      invariant aces <= aceCount && value == raw - 10 * (aceCount - aces)
      invariant value >= 11 * aces
      invariant aces < aceCount ==> value + 10 > 21
      decreases aces
    {
      value := value - 10;
      aces := aces - 1;
    }
    ghost var j := aceCount - aces;
    assert j <= Softenings(raw, aceCount) by {
      if j > 0 {
        assert raw - 10 * (j - 1) > 21;
        assert raw > 21 && 10 * j <= raw - 12;
        assert j <= (raw - 12) / 10;
      }
    }
  }

  // ---------------------------------------------------------------------------
  // Fixtures

  /** Two twos. */
  lemma {:induction false} TwoTwos()
    ensures Value([Card(Two, Clubs), Card(Two, Diamonds)]) == 4
  {
    assert [Card(Two, Clubs), Card(Two, Diamonds)] == [Card(1, 0), Card(1, 1)];
    assert RawValue([Card(1, 0), Card(1, 1)]) == 4 && AceCount([Card(1, 0), Card(1, 1)]) == 0;
  }

  /** Two aces: one softened. */
  lemma {:induction false} TwoAces()
    ensures Value([Card(Ace, Spades), Card(Ace, Hearts)]) == 12
  {
    assert [Card(Ace, Spades), Card(Ace, Hearts)] == [Card(0, 3), Card(0, 2)];
    assert RawValue([Card(0, 3), Card(0, 2)]) == 22 && AceCount([Card(0, 3), Card(0, 2)]) == 2;
  }

  /** Three aces: two softened. */
  lemma {:induction false} ThreeAces()
    ensures Value([Card(Ace, Spades), Card(Ace, Hearts), Card(Ace, Clubs)]) == 13
  {
    assert [Card(Ace, Spades), Card(Ace, Hearts), Card(Ace, Clubs)] == [Card(0, 3), Card(0, 2), Card(0, 0)];
    assert RawValue([Card(0, 3), Card(0, 2), Card(0, 0)]) == 33 && AceCount([Card(0, 3), Card(0, 2), Card(0, 0)]) == 3;
  }

  /** Four aces: three softened. */
  lemma {:induction false} FourAces()
    ensures Value([Card(Ace, Spades), Card(Ace, Hearts), Card(Ace, Clubs), Card(Ace, Diamonds)]) == 14
  {
    assert [Card(Ace, Spades), Card(Ace, Hearts), Card(Ace, Clubs), Card(Ace, Diamonds)] == [Card(0, 3), Card(0, 2), Card(0, 0), Card(0, 1)];
    assert RawValue([Card(0, 3), Card(0, 2), Card(0, 0), Card(0, 1)]) == 44 && AceCount([Card(0, 3), Card(0, 2), Card(0, 0), Card(0, 1)]) == 4;
  }

  /** A queen and a ten. */
  lemma {:induction false} QueenTen()
    ensures Value([Card(Queen, Spades), Card(Ten, Clubs)]) == 20
  {
    assert [Card(Queen, Spades), Card(Ten, Clubs)] == [Card(11, 3), Card(9, 0)];
    assert RawValue([Card(11, 3), Card(9, 0)]) == 20 && AceCount([Card(11, 3), Card(9, 0)]) == 0;
  }

  /** A blackjack. */
  lemma {:induction false} JackAce()
    ensures Value([Card(Jack, Spades), Card(Ace, Hearts)]) == 21
  {
    assert [Card(Jack, Spades), Card(Ace, Hearts)] == [Card(10, 3), Card(0, 2)];
    assert RawValue([Card(10, 3), Card(0, 2)]) == 21 && AceCount([Card(10, 3), Card(0, 2)]) == 1;
  }

  /** Queen, jack and ace: the ace softened. */
  lemma {:induction false} QueenJackAce()
    ensures Value([Card(Queen, Hearts), Card(Jack, Spades), Card(Ace, Hearts)]) == 21
  {
    assert [Card(Queen, Hearts), Card(Jack, Spades), Card(Ace, Hearts)] == [Card(11, 2), Card(10, 3), Card(0, 2)];
    assert RawValue([Card(11, 2), Card(10, 3), Card(0, 2)]) == 31 && AceCount([Card(11, 2), Card(10, 3), Card(0, 2)]) == 1;
  }

  /** Five small cards. */
  lemma {:induction false} SmallCards()
    ensures Value([Card(Two, Hearts), Card(Four, Spades), Card(Nine, Hearts), Card(Three, Hearts), Card(Three, Diamonds)]) == 21
  {
    assert [Card(Two, Hearts), Card(Four, Spades), Card(Nine, Hearts), Card(Three, Hearts), Card(Three, Diamonds)] == [Card(1, 2), Card(3, 3), Card(8, 2), Card(2, 2), Card(2, 1)];
    assert RawValue([Card(1, 2), Card(3, 3), Card(8, 2), Card(2, 2), Card(2, 1)]) == 21 && AceCount([Card(1, 2), Card(3, 3), Card(8, 2), Card(2, 2), Card(2, 1)]) == 0;
  }

  /** Queen, jack and nine: a bust with no ace. */
  lemma {:induction false} QueenJackNine()
    ensures Value([Card(Queen, Hearts), Card(Jack, Spades), Card(Nine, Hearts)]) == 29
  {
    assert [Card(Queen, Hearts), Card(Jack, Spades), Card(Nine, Hearts)] == [Card(11, 2), Card(10, 3), Card(8, 2)];
    assert RawValue([Card(11, 2), Card(10, 3), Card(8, 2)]) == 29 && AceCount([Card(11, 2), Card(10, 3), Card(8, 2)]) == 0;
  }

  /** The hands of the package's tests and the values they expect. */
  lemma {:induction false} TestHandValues()
    ensures Value([Card(Two, Clubs), Card(Two, Diamonds)]) == 4
    ensures Value([Card(Ace, Spades), Card(Ace, Hearts)]) == 12
    ensures Value([Card(Ace, Spades), Card(Ace, Hearts), Card(Ace, Clubs)]) == 13
    ensures Value([Card(Ace, Spades), Card(Ace, Hearts), Card(Ace, Clubs), Card(Ace, Diamonds)]) == 14
    ensures Value([Card(Queen, Spades), Card(Ten, Clubs)]) == 20
    ensures Value([Card(Jack, Spades), Card(Ace, Hearts)]) == 21
    ensures Value([Card(Queen, Hearts), Card(Jack, Spades), Card(Ace, Hearts)]) == 21
    ensures Value([Card(Two, Hearts), Card(Four, Spades), Card(Nine, Hearts), Card(Three, Hearts), Card(Three, Diamonds)]) == 21
    ensures Value([Card(Queen, Hearts), Card(Jack, Spades), Card(Nine, Hearts)]) == 29
  {
    TwoTwos();
    TwoAces();
    ThreeAces();
    FourAces();
    QueenTen();
    JackAce();
    QueenJackAce();
    SmallCards();
    QueenJackNine();
  }
}
