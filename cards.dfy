/**
 * The card model of the library: suits and ranks with their rune forms and
 * single-bit masks, cards, deck construction, first-occurrence search and
 * removal, and the two-runes-per-card reader (fifty2.go).
 */
module Cards {
  import opened Wrappers

  /** A suit, ordered Clubs < Diamonds < Hearts < Spades as in the source's `iota` constants. */
  newtype Suit = x: int | 0 <= x < 4

  const Clubs: Suit := 0
  const Diamonds: Suit := 1
  const Hearts: Suit := 2
  const Spades: Suit := 3

  /** A rank; Ace is 0 and King is 12, so the Ace sits at the low end of every rank mask. */
  newtype Rank = x: int | 0 <= x < 13

  const Ace: Rank := 0
  const Two: Rank := 1
  const Three: Rank := 2
  const Four: Rank := 3
  const Five: Rank := 4
  const Six: Rank := 5
  const Seven: Rank := 6
  const Eight: Rank := 7
  const Nine: Rank := 8
  const Ten: Rank := 9
  const Jack: Rank := 10
  const Queen: Rank := 11
  const King: Rank := 12

  datatype Card = Card(rank: Rank, suit: Suit)

  /** The zero value of a card (Ace of Clubs), which fills slots a copy leaves untouched. */
  const ZeroCard: Card := Card(Ace, Clubs)

  datatype ParseError = UnknownSuit(r: char) | UnknownRank(r: char)

  // ---------------------------------------------------------------------------
  // Suits

  function ParseSuit(r: char): (res: Result<Suit, ParseError>)
    ensures res == Ok(Clubs) <==> r in {'c', 'C', '♣'}
    ensures res == Ok(Diamonds) <==> r in {'d', 'D', '♦'}
    ensures res == Ok(Hearts) <==> r in {'h', 'H', '♥'}
    ensures res == Ok(Spades) <==> r in {'s', 'S', '♠'}
    ensures res.Err? ==> res.error == UnknownSuit(r)
  {
    match r
    case 'c' | 'C' | '♣' => Ok(Clubs)
    case 'd' | 'D' | '♦' => Ok(Diamonds)
    case 'h' | 'H' | '♥' => Ok(Hearts)
    case 's' | 'S' | '♠' => Ok(Spades)
    case _ => Err(UnknownSuit(r))
  }

  /** The suit's glyph. */
  function SuitRune(s: Suit): char
  {
    if s == Clubs then '♣'
    else if s == Diamonds then '♦'
    else if s == Hearts then '♥'
    else '♠'
  }

  /** Printing a suit and parsing it back gives the same suit. */
  lemma {:induction false} SuitRoundTrip(s: Suit)
    ensures ParseSuit(SuitRune(s)) == Ok(s)
  {
  }

  /** `uint8(1) << s`: a single bit inside the low four bits. */
  function SuitMask(s: Suit): (m: bv8)
    ensures m != 0 && m & (m - 1) == 0
    ensures m < 0x10
  {
    (1 as bv8) << s
  }

  lemma {:induction false} SuitMasksDisjoint(s: Suit, t: Suit)
    requires s != t
    ensures SuitMask(s) & SuitMask(t) == 0
  {
  }

  // ---------------------------------------------------------------------------
  // Ranks

  /** ASCII upper case to lower case; every other rune is left alone. */
  function ToLower(c: char): char
  {
    if 'A' <= c <= 'Z' then (c as int + 32) as char else c
  }

  /** The rank's printed rune: A, 2..9, T, J, Q, K. */
  function RankRune(r: Rank): char
  {
    if r == Ace then 'A'
    else if r == Ten then 'T'
    else if r == Jack then 'J'
    else if r == Queen then 'Q'
    else if r == King then 'K'
    else ('1' as int + r as int) as char
  }

  /**
   * A rank rune is accepted exactly when it is the printed rune of a rank or
   * its lower-case form; any other rune is an `UnknownRank` error.
   */
  function ParseRank(r: char): (res: Result<Rank, ParseError>)
    ensures res.Ok? <==> r in {'a', 'A', '2', '3', '4', '5', '6', '7', '8', '9', 't', 'T', 'j', 'J', 'q', 'Q', 'k', 'K'}
    ensures res.Ok? ==> r == RankRune(res.value) || r == ToLower(RankRune(res.value))
    ensures res.Err? ==> res.error == UnknownRank(r)
  {
    match r
    case 'a' | 'A' => Ok(Ace)
    case '2' => Ok(Two)
    case '3' => Ok(Three)
    case '4' => Ok(Four)
    case '5' => Ok(Five)
    case '6' => Ok(Six)
    case '7' => Ok(Seven)
    case '8' => Ok(Eight)
    case '9' => Ok(Nine)
    case 't' | 'T' => Ok(Ten)
    case 'j' | 'J' => Ok(Jack)
    case 'q' | 'Q' => Ok(Queen)
    case 'k' | 'K' => Ok(King)
    case _ => Err(UnknownRank(r))
  }

  /** Printing a rank and parsing it back, in either case, gives the same rank. */
  lemma {:induction false} RankRoundTrip(r: Rank)
    ensures ParseRank(RankRune(r)) == Ok(r)
    ensures ParseRank(ToLower(RankRune(r))) == Ok(r)
  {
    if r == Ace || r >= Ten {
    } else {
      assert RankRune(r) == ('1' as int + r as int) as char;
    }
  }

  /** `uint16(1) << r`. */
  function RankMask(r: Rank): bv16
  {
    (1 as bv16) << r
  }

  /** A rank's mask is a single bit inside the low thirteen bits. */
  lemma {:induction false} RankMaskBit(r: Rank)
    ensures RankMask(r) != 0 && RankMask(r) & (RankMask(r) - 1) == 0
    ensures RankMask(r) < 0x2000
  {
  }

  lemma {:induction false} RankMasksDisjoint(r: Rank, t: Rank)
    requires r != t
    ensures RankMask(r) & RankMask(t) == 0
  {
  }

  // ---------------------------------------------------------------------------
  // Decks

  /** The deck order: suits Clubs..Spades, and within each suit ranks Ace..King. */
  function StandardDeck(): (deck: seq<Card>)
  {
    seq(52, i requires 0 <= i < 52 => Card((i % 13) as Rank, (i / 13) as Suit))
  }

  lemma {:induction false} StandardDeckLayout()
    ensures |StandardDeck()| == 52
    ensures forall s: Suit, r: Rank :: StandardDeck()[13 * s as int + r as int] == Card(r, s)
    ensures forall i, j :: 0 <= i < j < 52 ==> StandardDeck()[i] != StandardDeck()[j]
  {
    var d := StandardDeck();
    forall s: Suit, r: Rank ensures d[13 * s as int + r as int] == Card(r, s) {
      var i := 13 * s as int + r as int;
      assert i % 13 == r as int && i / 13 == s as int;
    }
  }

  /** Every card appears exactly once in the standard deck. */
  lemma {:induction false} StandardDeckComplete(c: Card)
    ensures c in StandardDeck()
  {
    StandardDeckLayout();
    assert StandardDeck()[13 * c.suit as int + c.rank as int] == c;
  }

  method NewDeck() returns (deck: seq<Card>)
    ensures deck == StandardDeck()
  {
    var a := new Card[52];
    var index := 0;
    for s := 0 to 4
      invariant index == 13 * s
      invariant forall t :: 0 <= t < index ==> a[t] == StandardDeck()[t]
    {
      for r := 0 to 13
        invariant index == 13 * s + r
        invariant forall t :: 0 <= t < index ==> a[t] == StandardDeck()[t]
      {
        a[index] := Card(r as Rank, s as Suit);
        index := index + 1;
      }
    }
    deck := a[..];
  }

  /** `decks` standard decks one after the other. */
  method NewDeckSet(decks: nat) returns (deckSet: seq<Card>)
    ensures |deckSet| == 52 * decks
    ensures forall d :: 0 <= d < decks ==> deckSet[52 * d .. 52 * d + 52] == StandardDeck()
  {
    var a := new Card[52 * decks](_ => ZeroCard);
    var start := 0;
    for d := 0 to decks
      invariant start == 52 * d
      invariant forall i :: 0 <= i < start ==> a[i] == StandardDeck()[i % 52]
    {
      var deck := NewDeck();
      for j := 0 to 52
        invariant forall i :: 0 <= i < start + j ==> a[i] == StandardDeck()[i % 52]
      {
        assert (start + j) % 52 == j;
        a[start + j] := deck[j];
      }
      start := start + 52;
    }
    deckSet := a[..];
    forall d | 0 <= d < decks
      ensures deckSet[52 * d .. 52 * d + 52] == StandardDeck()
    {
      forall j | 0 <= j < 52 ensures deckSet[52 * d .. 52 * d + 52][j] == StandardDeck()[j] {
        assert (52 * d + j) % 52 == j;
      }
    }
  }

  // ---------------------------------------------------------------------------
  // Search and removal

  /** The first position holding `card`, or -1 when no position does. */
  function Index(s: seq<Card>, card: Card): (i: int)
    ensures -1 <= i < |s|
    ensures i >= 0 ==> s[i] == card && card !in s[..i]
    ensures i == -1 <==> card !in s
  {
    if |s| == 0 then -1
    else if s[0] == card then 0
    else
      var j := Index(s[1..], card);
      if j < 0 then -1 else
        assert s[..j + 1] == [s[0]] + s[1..][..j];
        j + 1
  }

  /** `s` without its first occurrence of `card` (unchanged when there is none). */
  function Without(s: seq<Card>, card: Card): (r: seq<Card>)
    ensures card !in s ==> r == s
    ensures card in s ==> |r| == |s| - 1 && multiset(r) == multiset(s) - multiset{card}
  {
    var i := Index(s, card);
    if i < 0 then s
    else
      assert s == s[..i] + [s[i]] + s[i + 1..];
      s[..i] + s[i + 1..]
  }

  /** Removing a card whose first occurrence follows `pre` cuts exactly that occurrence out. */
  lemma {:induction false} WithoutAfter(pre: seq<Card>, card: Card, post: seq<Card>)
    requires card !in pre
    ensures Without(pre + [card] + post, card) == pre + post
  {
    var s := pre + [card] + post;
    var i := Index(s, card);
    assert s[|pre|] == card;
    assert s[..i] == pre && s[i + 1..] == post;
  }

  /** Repeated single-card removal, one card of `cards` after the other. */
  function WithoutAll(s: seq<Card>, cards: seq<Card>): (r: seq<Card>)
    ensures |r| <= |s|
  {
    if |cards| == 0 then s else WithoutAll(Without(s, cards[0]), cards[1..])
  }

  /** Removing cards that are all present (with multiplicity) removes exactly them. */
  lemma {:induction false} WithoutAllPresent(s: seq<Card>, cards: seq<Card>)
    requires multiset(cards) <= multiset(s)
    ensures multiset(WithoutAll(s, cards)) == multiset(s) - multiset(cards)
    ensures |WithoutAll(s, cards)| == |s| - |cards|
  {
    if |cards| > 0 {
      var c, rest := cards[0], cards[1..];
      var s' := Without(s, c);
      HeadPresent(s, cards);
      WithoutAllPresent(s', rest);
      assert WithoutAll(s, cards) == WithoutAll(s', rest);
      DiffDiff(multiset(s), multiset{c}, multiset(rest));
    }
  }

  /** The first card to remove is present, and the others are present in what is left. */
  lemma {:induction false} HeadPresent(s: seq<Card>, cards: seq<Card>)
    requires |cards| > 0 && multiset(cards) <= multiset(s)
    ensures cards[0] in s && multiset(cards) == multiset{cards[0]} + multiset(cards[1..])
    ensures multiset(cards[1..]) <= multiset(s) - multiset{cards[0]}
  {
    assert cards == [cards[0]] + cards[1..];
    assert cards[0] in multiset(cards);
  }

  lemma {:induction false} DiffDiff(a: multiset<Card>, b: multiset<Card>, c: multiset<Card>)
    ensures a - b - c == a - (b + c)
  {
  }

  /** Removing one more card at the end of the list removes it from the result. */
  lemma {:induction false} WithoutAllSnoc(s: seq<Card>, cards: seq<Card>, c: Card)
    ensures WithoutAll(s, cards + [c]) == Without(WithoutAll(s, cards), c)
    decreases |cards|
  {
    if |cards| == 0 {
      assert cards + [c] == [c];
    } else {
      assert (cards + [c])[1..] == cards[1..] + [c];
      WithoutAllSnoc(Without(s, cards[0]), cards[1..], c);
    }
  }

  /** Removing `a` and then `b` is removing `a + b`. */
  lemma {:induction false} WithoutAllAppend(s: seq<Card>, a: seq<Card>, b: seq<Card>)
    ensures WithoutAll(s, a + b) == WithoutAll(WithoutAll(s, a), b)
    decreases |a|
  {
    if |a| == 0 {
      assert a + b == b;
    } else {
      assert (a + b)[1..] == a[1..] + b;
      WithoutAllAppend(Without(s, a[0]), a[1..], b);
    }
  }

  /** Removal never adds a card: what is left is part of what there was. */
  lemma {:induction false} WithoutAllShrinks(s: seq<Card>, cards: seq<Card>)
    ensures multiset(WithoutAll(s, cards)) <= multiset(s)
    decreases |cards|
  {
    if |cards| > 0 {
      WithoutAllShrinks(Without(s, cards[0]), cards[1..]);
    }
  }

  /**
   * `Remove(slice, card)`: the slice header is (a, len); the first equal card
   * is deleted by shifting the rest of the backing array left, as `append`
   * does, and the new length is returned.
   */
  method Remove(a: array<Card>, len: nat, card: Card) returns (newLen: nat)
    requires len <= a.Length
    modifies a
    ensures newLen == if card in old(a[..len]) then len - 1 else len
    ensures a[..newLen] == Without(old(a[..len]), card)
    ensures newLen == len ==> a[..] == old(a[..])
    ensures newLen < len ==> a[len - 1..] == old(a[len - 1..])
  {
    ghost var s := a[..len];
    var index := Index(a[..len], card);
    if index < 0 {
      return len;
    }
    WithoutAt(s, card, index);
    assert s[..index] == a[..index] && s[index + 1..] == a[index + 1..len];
    ShiftLeft(a, index, len);
    newLen := len - 1;
  }

  lemma {:induction false} WithoutAt(s: seq<Card>, card: Card, index: nat)
    requires index == Index(s, card)
    ensures card in s && Without(s, card) == s[..index] + s[index + 1..]
  {
  }

  /** Closes the gap at `index` by moving every later element of `a[..len]` one place left. */
  method ShiftLeft(a: array<Card>, index: nat, len: nat)
    requires index < len <= a.Length
    modifies a
    ensures a[..len - 1] == old(a[..index]) + old(a[index + 1..len])
    ensures a[len - 1..] == old(a[len - 1..])
  {
    ghost var s := a[..len];
    var j := index;
    while j < len - 1
      invariant index <= j <= len - 1
      invariant forall t :: 0 <= t < index ==> a[t] == s[t]
      invariant forall t :: index <= t < j ==> a[t] == s[t + 1]
      invariant forall t :: j < t < len ==> a[t] == s[t]
      invariant a[len - 1..] == old(a[len - 1..])
    {
      a[j] := a[j + 1];
      j := j + 1;
    }
    Shifted(a[..len - 1], s, index);
    assert old(a[..index]) == s[..index] && old(a[index + 1..len]) == s[index + 1..];
  }

  /** A sequence that agrees with `s` before `index` and with `s` one place on after it. */
  lemma {:induction false} Shifted(r: seq<Card>, s: seq<Card>, index: nat)
    requires index < |s| && |r| == |s| - 1
    requires forall t :: 0 <= t < index ==> r[t] == s[t]
    requires forall t :: index <= t < |r| ==> r[t] == s[t + 1]
    ensures r == s[..index] + s[index + 1..]
  {
  }

  /** The variadic form `Remove(slice, cards...)`: one single-card removal per card, in order. */
  method RemoveCards(a: array<Card>, len: nat, cards: seq<Card>) returns (newLen: nat)
    requires len <= a.Length
    modifies a
    ensures newLen <= len
    ensures a[..newLen] == WithoutAll(old(a[..len]), cards)
    ensures a[len..] == old(a[len..])
  {
    ghost var s := a[..len];
    newLen := len;
    for i := 0 to |cards|
      invariant newLen <= len
      invariant a[..newLen] == WithoutAll(s, cards[..i])
      invariant a[len..] == old(a[len..])
    {
      WithoutAllStep(s, cards, i);
      ghost var before := a[..];
      newLen := Remove(a, newLen, cards[i]);
      assert a[len..] == before[len..];
    }
    assert cards[..|cards|] == cards;
  }

  /** One more removal step of `RemoveCards`. */
  lemma {:induction false} WithoutAllStep(s: seq<Card>, cards: seq<Card>, i: nat)
    requires i < |cards|
    ensures WithoutAll(s, cards[..i + 1]) == Without(WithoutAll(s, cards[..i]), cards[i])
  {
    assert cards[..i + 1] == cards[..i] + [cards[i]];
    WithoutAllSnoc(s, cards[..i], cards[i]);
  }

  // ---------------------------------------------------------------------------
  // Reading cards from runes

  /** What one `CardReader.Read` call produces. */
  datatype ReadOutcome = Read(card: Card) | EndOfInput | Failed(error: ParseError)

  /**
   * One `Read` on the remaining runes: a rank rune then a suit rune. Running
   * out of runes before either one is the end of input, even after a valid
   * rank rune.
   */
  function ReadCard(input: seq<char>): (r: ReadOutcome)
    ensures r.Read? ==> |input| >= 2
  {
    if |input| == 0 then EndOfInput
    else match ParseRank(input[0])
      case Err(e) => Failed(e)
      case Ok(rank) =>
        if |input| == 1 then EndOfInput
        else match ParseSuit(input[1])
          case Err(e) => Failed(e)
          case Ok(suit) => Read(Card(rank, suit))
  }

  /** What `ReadAll` returns: the cards read, and the error that stopped it if any. */
  datatype Parsed = Parsed(cards: seq<Card>, error: Option<ParseError>)

  function ParseCards(input: seq<char>): (r: Parsed)
    ensures 2 * |r.cards| <= |input|
    decreases |input|
  {
    match ReadCard(input)
    case Read(c) =>
      var rest := ParseCards(input[2..]);
      Parsed([c] + rest.cards, rest.error)
    case EndOfInput => Parsed([], None)
    case Failed(e) => Parsed([], Some(e))
  }

  method ReadAll(input: seq<char>) returns (cards: seq<Card>, err: Option<ParseError>)
    ensures Parsed(cards, err) == ParseCards(input)
  {
    cards := [];
    var pos := 0;
    assert input[pos..] == input;
    while true
      invariant pos <= |input|
      invariant ParseCards(input).cards == cards + ParseCards(input[pos..]).cards
      invariant ParseCards(input).error == ParseCards(input[pos..]).error
      decreases |input| - pos
    {
      var outcome := ReadCard(input[pos..]);
      match outcome {
        case Read(c) =>
          assert input[pos..][2..] == input[pos + 2..];
          cards := cards + [c];
          pos := pos + 2;
        case EndOfInput =>
          return cards, None;
        case Failed(e) =>
          return cards, Some(e);
      }
    }
  }

  /** The printed form of a card list, two runes per card (what `Card.String` concatenates). */
  function CardRunes(cards: seq<Card>): (runes: seq<char>)
    ensures |runes| == 2 * |cards|
  {
    if |cards| == 0 then []
    else [RankRune(cards[0].rank), SuitRune(cards[0].suit)] + CardRunes(cards[1..])
  }

  /** Reading back the printed form of any card list gives the same cards and no error. */
  lemma {:induction false} ReadAllRoundTrip(cards: seq<Card>)
    ensures ParseCards(CardRunes(cards)) == Parsed(cards, None)
  {
    if |cards| > 0 {
      var input := CardRunes(cards);
      RankRoundTrip(cards[0].rank);
      SuitRoundTrip(cards[0].suit);
      assert input[2..] == CardRunes(cards[1..]);
      ReadAllRoundTrip(cards[1..]);
    }
  }

  /** Reading a card's printed form gives that card, then reading goes on with what follows. */
  lemma {:induction false} ParsePrinted(c: Card, rest: seq<char>)
    ensures ParseCards([RankRune(c.rank), SuitRune(c.suit)] + rest)
         == Parsed([c] + ParseCards(rest).cards, ParseCards(rest).error)
  {
    var input := [RankRune(c.rank), SuitRune(c.suit)] + rest;
    RankRoundTrip(c.rank);
    SuitRoundTrip(c.suit);
    assert ReadCard(input) == Read(c);
    assert input[2..] == rest;
  }

  /** Reading resumes after any run of well-formed cards: their printed form is read back first. */
  lemma {:induction false} ReadAllPrefix(cards: seq<Card>, tail: seq<char>)
    ensures ParseCards(CardRunes(cards) + tail)
         == Parsed(cards + ParseCards(tail).cards, ParseCards(tail).error)
  {
    if |cards| > 0 {
      var rest := CardRunes(cards[1..]) + tail;
      assert CardRunes(cards) + tail == [RankRune(cards[0].rank), SuitRune(cards[0].suit)] + rest;
      var later := ParseCards(tail);
      assert ParseCards(rest) == Parsed(cards[1..] + later.cards, later.error) by {
        ReadAllPrefix(cards[1..], tail);
      }
      assert ParseCards(CardRunes(cards) + tail)
          == Parsed([cards[0]] + (cards[1..] + later.cards), later.error) by {
        ParsePrinted(cards[0], rest);
      }
      assert [cards[0]] + (cards[1..] + later.cards) == cards + later.cards;
    } else {
      assert CardRunes(cards) + tail == tail;
    }
  }

  /**
   * Text after a run of well-formed cards: an unknown rank rune stops reading
   * with an error and the cards read so far; a lone valid rank rune at the end
   * is dropped without an error.
   */
  lemma {:induction false} ReadAllStopsAt(cards: seq<Card>, tail: seq<char>)
    ensures |tail| > 0 && ParseRank(tail[0]).Err? ==>
      ParseCards(CardRunes(cards) + tail) == Parsed(cards, Some(UnknownRank(tail[0])))
    ensures |tail| > 1 && ParseRank(tail[0]).Ok? && ParseSuit(tail[1]).Err? ==>
      ParseCards(CardRunes(cards) + tail) == Parsed(cards, Some(UnknownSuit(tail[1])))
    ensures |tail| == 1 && ParseRank(tail[0]).Ok? ==>
      ParseCards(CardRunes(cards) + tail) == Parsed(cards, None)
  {
    ReadAllPrefix(cards, tail);
    assert cards + [] == cards;
  }

  /** "3C4D" reads as the three of clubs and the four of diamonds. */
  lemma {:induction false} ReadAllExample()
    ensures ParseCards("3C4D") == Parsed([Card(Three, Clubs), Card(Four, Diamonds)], None)
  {
    assert "3C4D"[2..] == "4D";
    assert "4D"[2..] == "";
  }
}
