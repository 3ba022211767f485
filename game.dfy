/**
 * The poker variants: per game, the number of cards dealt to each player
 * and to the board, and the functions that rate a player's high and low
 * hands from the board and the player's own cards.
 */
module Games {
  import opened Wrappers
  import opened Cards
  import opened Combinatorics
  import opened Combinations
  import opened PokerStrength
  import opened PokerEval
  import opened PokerCategories

  // ---------------------------------------------------------------------------
  // The table

  /** The strength functions a game may name (the closures of the table). */
  datatype StrengthFunc =
    | HoldemHigh      // GetHoldemHandStrength
    | OmahaHigh       // GetOmahaHandStrength
    | OmahaLow        // GetOmahaLowHandStrength
    | StudHigh        // the high hand of the player's own cards
    | StudEightLow    // the eight-or-better low of the player's own cards
    | RazzLow         // the unqualified low of the player's own cards

  /** A game; an absent strength function is Go's nil. */
  datatype Game = Game(name: string, handSize: int, boardSize: int,
                       hiStrength: Option<StrengthFunc>, loStrength: Option<StrengthFunc>)

  /** A game is played high-low when it has a low strength function. */
  predicate IsHiLo(g: Game)
  {
    g.loStrength.Some?
  }

  /** The zero `Game` a lookup of an unknown tag yields. */
  const NoGame: Game := Game("", 0, 0, None, None)

  /** The table, keyed by the game tags. */
  const GameTable: map<string, Game> := map[
    "holdem"  := Game("Texas Hold'em", 2, 5, Some(HoldemHigh), None),
    "omaha"   := Game("Omaha", 4, 5, Some(OmahaHigh), None),
    "omahahl" := Game("Omaha Hi/Lo", 4, 5, Some(OmahaHigh), Some(OmahaLow)),
    "stud7"   := Game("7-card Stud", 7, 0, Some(StudHigh), None),
    "stud7hl" := Game("7-card Stud Hi/Lo", 7, 0, Some(StudHigh), Some(StudEightLow)),
    "stud5"   := Game("5-card Stud", 5, 0, Some(StudHigh), None),
    "razz"    := Game("Razz", 7, 0, None, Some(RazzLow))
  ]

  /** `GetGame`: the table entry, or the zero game for a tag not in the table. */
  function GetGame(gt: string): (g: Game)
    ensures gt !in GameTable ==> g == NoGame
    ensures gt in GameTable ==> g.name != ""
  {
    if gt in GameTable then GameTable[gt] else NoGame
  }

  /** A tag names a game exactly when its game has a name. */
  lemma {:induction false} KnownGames(gt: string)
    ensures GetGame(gt).name != "" <==> gt in {"holdem", "omaha", "omahahl", "stud7", "stud7hl", "stud5", "razz"}
  {
    assert GameTable.Keys == {"holdem", "omaha", "omahahl", "stud7", "stud7hl", "stud5", "razz"};
  }

  /**
   * Omaha Hi/Lo, 7-card Stud Hi/Lo and Razz are the high-low games, and Razz
   * is the one known game without a high strength function.
   */
  lemma {:induction false} HiLoGames(gt: string)
    ensures IsHiLo(GetGame(gt)) <==> gt in {"omahahl", "stud7hl", "razz"}
    ensures GetGame(gt).name != "" && GetGame(gt).hiStrength.None? <==> gt == "razz"
  {
    assert GameTable.Keys == {"holdem", "omaha", "omahahl", "stud7", "stud7hl", "stud5", "razz"};
  }

  // ---------------------------------------------------------------------------
  // Seven-card hands from the pocket and the board

  /** Go's `copy(dst[at:], src)`: as many cards of `src` as fit, written from slot `at`. */
  function CopyInto(dst: seq<Card>, src: seq<Card>, at: nat): (r: seq<Card>)
    requires at <= |dst|
    ensures |r| == |dst|
  {
    seq(|dst|, i requires 0 <= i < |dst| => if at <= i < at + |src| then src[i - at] else dst[i])
  }

  /**
   * A fresh seven-card hand holding the pocket from slot 0 and the board from
   * slot 2; a slot neither fills keeps the zero card.
   */
  function SevenCards(pocket: seq<Card>, board: seq<Card>): seq<Card>
  {
    CopyInto(CopyInto(seq(7, _ => ZeroCard), pocket, 0), board, 2)
  }

  /**
   * Slot by slot: the board from slot 2 on, the pocket before the board's
   * slots, and the zero card (the ace of clubs) wherever neither reaches;
   * a two-card pocket and a five-card board make exactly the seven cards.
   */
  lemma {:induction false} SevenCardsLayout(pocket: seq<Card>, board: seq<Card>)
    ensures |SevenCards(pocket, board)| == 7
    ensures forall i :: 0 <= i < 7 ==>
      SevenCards(pocket, board)[i] == (if 2 <= i < 2 + |board| then board[i - 2] else if i < |pocket| then pocket[i] else ZeroCard)
    ensures |pocket| == 2 && |board| == 5 ==> SevenCards(pocket, board) == pocket + board
  {
    if |pocket| == 2 && |board| == 5 {
      assert forall i :: 0 <= i < 7 ==> SevenCards(pocket, board)[i] == (pocket + board)[i];
    }
  }

  // ---------------------------------------------------------------------------
  // The strength functions

  /** `GetHoldemHandStrength`: the high hand of the two pocket cards with the board. */
  function HoldemStrength(board: seq<Card>, pocket: seq<Card>): HandStrength
  {
    HighStrength(SevenCards(pocket, board))
  }

  /** The eight-or-better low of a hand, which never panics. */
  function EightLow(hand: seq<Card>): HandStrength
  {
    LowEightOrBetter(hand);
    LowStrength(hand, true).value
  }

  /** The eight-or-better evaluator always rates a hand, and `EightLow` is its rating. */
  lemma {:induction false} EightLowNeverPanics(hand: seq<Card>)
    ensures LowStrength(hand, true) == Some(EightLow(hand))
  {
    LowEightOrBetter(hand);
  }

  /** The rating of each two-card pick played with the board, in pick order. */
  function Ratings(rate: seq<Card> -> HandStrength, board: seq<Card>, picks: seq<seq<Card>>): (r: seq<HandStrength>)
    ensures |r| == |picks|
    ensures forall i :: 0 <= i < |picks| ==> r[i] == rate(SevenCards(picks[i], board))
  {
    if |picks| == 0 then []
    else [rate(SevenCards(picks[0], board))] + Ratings(rate, board, picks[1..])
  }

  /** The ratings of the picks played with the board that are not `NoHand`, in pick order. */
  function Qualifying(rate: seq<Card> -> HandStrength, board: seq<Card>, picks: seq<seq<Card>>): seq<HandStrength>
  {
    if |picks| == 0 then []
    else Kept(rate(SevenCards(picks[0], board))) + Qualifying(rate, board, picks[1..])
  }

  /** A rating is kept when its category is not `NoHand`. */
  function Kept(low: HandStrength): seq<HandStrength>
  {
    if HandStrengthRank(low) != NoHand then [low] else []
  }

  /** The largest strength of a non-empty list. */
  function MaxOf(s: seq<HandStrength>): HandStrength
    requires |s| > 0
  {
    if |s| == 1 then s[0]
    else
      var m := MaxOf(s[1..]);
      if s[0] > m then s[0] else m
  }

  /** The smallest strength of a non-empty list. */
  function MinOf(s: seq<HandStrength>): HandStrength
    requires |s| > 0
  {
    if |s| == 1 then s[0]
    else
      var m := MinOf(s[1..]);
      if s[0] < m then s[0] else m
  }

  /** `MaxOf` is a member bounding every member, and the only such value. */
  lemma {:induction false} MaxOfIsMax(s: seq<HandStrength>, m: HandStrength)
    requires |s| > 0
    ensures MaxOf(s) in s && forall i :: 0 <= i < |s| ==> s[i] <= MaxOf(s)
    ensures m in s && (forall i :: 0 <= i < |s| ==> s[i] <= m) ==> m == MaxOf(s)
  {
    if |s| > 1 {
      MaxOfIsMax(s[1..], m);
      assert forall i :: 1 <= i < |s| ==> s[i] == s[1..][i - 1];
    }
  }

  /** `MinOf` is a member bounded by every member, and the only such value. */
  lemma {:induction false} MinOfIsMin(s: seq<HandStrength>, m: HandStrength)
    requires |s| > 0
    ensures MinOf(s) in s && forall i :: 0 <= i < |s| ==> MinOf(s) <= s[i]
    ensures m in s && (forall i :: 0 <= i < |s| ==> m <= s[i]) ==> m == MinOf(s)
  {
    if |s| > 1 {
      MinOfIsMin(s[1..], m);
      assert forall i :: 1 <= i < |s| ==> s[i] == s[1..][i - 1];
    }
  }

  /** `GetOmahaHandStrength`: the best high hand over the two-card picks from the pocket. */
  function OmahaHighStrength(board: seq<Card>, pocket: seq<Card>): HandStrength
    requires |pocket| >= 2
  {
    CardCombosCount(pocket, 2);
    BinomialPositive(|pocket|, 2);
    MaxOf(Ratings(HighStrength, board, CardCombos(pocket, 2)))
  }

  /** `GetOmahaLowHandStrength`: the lowest qualifying low over the picks, else `NoHand`. */
  function OmahaLowStrength(board: seq<Card>, pocket: seq<Card>): HandStrength
  {
    var lows := Qualifying(EightLow, board, CardCombos(pocket, 2));
    if |lows| > 0 then MinOf(lows) else NoHandStrength
  }

  /**
   * A strength function applied to a board and a player's cards; `None`
   * stands for a panic (Omaha with fewer than two pocket cards, or a Razz
   * hand the low evaluator cannot rate).
   */
  function Evaluate(f: StrengthFunc, board: seq<Card>, hand: seq<Card>): Option<HandStrength>
  {
    match f
    case HoldemHigh => Some(HoldemStrength(board, hand))
    case OmahaHigh => if |hand| >= 2 then Some(OmahaHighStrength(board, hand)) else None
    case OmahaLow => if |hand| >= 2 then Some(OmahaLowStrength(board, hand)) else None
    case StudHigh => Some(HighStrength(hand))
    case StudEightLow => Some(EightLow(hand))
    case RazzLow => LowStrength(hand, false)
  }

  /** Calling a strength function value of the table; `None` where the call panics. */
  method Rate(f: StrengthFunc, board: seq<Card>, hand: seq<Card>) returns (strength: Option<HandStrength>)
    ensures strength == Evaluate(f, board, hand)
  {
    match f {
      case HoldemHigh =>
        var s := CalculateHandStrength(SevenCards(hand, board));
        strength := Some(s);
      case OmahaHigh =>
        if |hand| < 2 {
          return None;
        }
        var s := GetOmahaHandStrength(board, hand);
        strength := Some(s);
      case OmahaLow =>
        if |hand| < 2 {
          return None;
        }
        var s := GetOmahaLowHandStrength(board, hand);
        strength := Some(s);
      case StudHigh =>
        var s := CalculateHandStrength(hand);
        strength := Some(s);
      case StudEightLow =>
        var s := GetEightLow(hand);
        strength := Some(s);
      case RazzLow =>
        strength := GetLowHandStrength(hand, false);
    }
  }

  /** The stud and Razz functions rate the player's own cards and ignore the board. */
  lemma {:induction false} StudIgnoresBoard(f: StrengthFunc, board1: seq<Card>, board2: seq<Card>, hand: seq<Card>)
    requires f == StudHigh || f == StudEightLow || f == RazzLow
    ensures Evaluate(f, board1, hand) == Evaluate(f, board2, hand)
  {
    match f
    case StudHigh =>
    case StudEightLow =>
    case RazzLow =>
  }

  /** Every high function of the table rates any deal of the game's sizes. */
  lemma {:induction false} HighFunctionsTotal(gt: string, board: seq<Card>, hand: seq<Card>)
    requires GetGame(gt).hiStrength.Some? && |hand| == GetGame(gt).handSize
    ensures Evaluate(GetGame(gt).hiStrength.value, board, hand).Some?
  {
  }

  // ---------------------------------------------------------------------------
  // What the Omaha functions compute

  /** The best rating of a non-empty list of picks is one pick's rating and no pick rates higher. */
  lemma {:induction false} BestRating(rate: seq<Card> -> HandStrength, board: seq<Card>, picks: seq<seq<Card>>)
    requires |picks| > 0
    ensures exists i :: 0 <= i < |picks| && MaxOf(Ratings(rate, board, picks)) == rate(SevenCards(picks[i], board))
    ensures forall i :: 0 <= i < |picks| ==> rate(SevenCards(picks[i], board)) <= MaxOf(Ratings(rate, board, picks))
  {
    var r := Ratings(rate, board, picks);
    MaxOfIsMax(r, 0);
    var i :| 0 <= i < |r| && r[i] == MaxOf(r);
    assert MaxOf(r) == rate(SevenCards(picks[i], board));
  }

  /**
   * The Omaha high strength is the high strength of some two-card pick from
   * the pocket played with the board, and no pick does better.
   */
  lemma {:induction false} OmahaHighIsBest(board: seq<Card>, pocket: seq<Card>)
    requires |pocket| >= 2
    ensures exists i :: (0 <= i < |CardCombos(pocket, 2)| &&
      OmahaHighStrength(board, pocket) == HighStrength(SevenCards(CardCombos(pocket, 2)[i], board)))
    ensures forall i :: 0 <= i < |CardCombos(pocket, 2)| ==>
      HighStrength(SevenCards(CardCombos(pocket, 2)[i], board)) <= OmahaHighStrength(board, pocket)
  {
    CardCombosCount(pocket, 2);
    BinomialPositive(|pocket|, 2);
    BestRating(HighStrength, board, CardCombos(pocket, 2));
  }

  /** A four-card Omaha pocket has six two-card picks. */
  lemma {:induction false} OmahaSixPicks(pocket: seq<Card>)
    requires |pocket| == 4
    ensures |CardCombos(pocket, 2)| == 6
  {
    CardCombosCount(pocket, 2);
    assert Binomial(4, 2) == Binomial(3, 1) + Binomial(3, 2);
  }

  /** A strength is kept exactly when some pick rates it and it is not `NoHand`. */
  lemma {:induction false} QualifyingMembers(rate: seq<Card> -> HandStrength, board: seq<Card>, picks: seq<seq<Card>>, x: HandStrength)
    ensures x in Qualifying(rate, board, picks) <==>
      exists i :: 0 <= i < |picks| && x == rate(SevenCards(picks[i], board)) && HandStrengthRank(x) != NoHand
  {
    if |picks| > 0 {
      QualifyingMembers(rate, board, picks[1..], x);
      if exists i :: 0 <= i < |picks| && x == rate(SevenCards(picks[i], board)) && HandStrengthRank(x) != NoHand {
        var i :| 0 <= i < |picks| && x == rate(SevenCards(picks[i], board)) && HandStrengthRank(x) != NoHand;
        if i > 0 {
          assert picks[i] == picks[1..][i - 1];
        }
      }
      if x in Qualifying(rate, board, picks[1..]) {
        var i :| 0 <= i < |picks[1..]| && x == rate(SevenCards(picks[1..][i], board)) && HandStrengthRank(x) != NoHand;
        assert picks[1..][i] == picks[i + 1];
      }
    }
  }

  /** No rating is kept exactly when every pick rates `NoHand`. */
  lemma {:induction false} NoneQualifying(rate: seq<Card> -> HandStrength, board: seq<Card>, picks: seq<seq<Card>>)
    ensures |Qualifying(rate, board, picks)| == 0 <==>
      forall i :: 0 <= i < |picks| ==> HandStrengthRank(rate(SevenCards(picks[i], board))) == NoHand
  {
    var lows := Qualifying(rate, board, picks);
    if |lows| > 0 {
      QualifyingMembers(rate, board, picks, lows[0]);
    } else {
      forall i | 0 <= i < |picks|
        ensures HandStrengthRank(rate(SevenCards(picks[i], board))) == NoHand
      {
        QualifyingMembers(rate, board, picks, rate(SevenCards(picks[i], board)));
      }
    }
  }

  /** The lowest kept rating is one pick's rating, not `NoHand`, and no higher than any other kept rating. */
  lemma {:induction false} LowestQualifying(rate: seq<Card> -> HandStrength, board: seq<Card>, picks: seq<seq<Card>>)
    requires |Qualifying(rate, board, picks)| > 0
    ensures var low := MinOf(Qualifying(rate, board, picks));
      HandStrengthRank(low) != NoHand &&
      (exists i :: 0 <= i < |picks| && low == rate(SevenCards(picks[i], board))) &&
      forall i :: 0 <= i < |picks| && HandStrengthRank(rate(SevenCards(picks[i], board))) != NoHand ==>
        low <= rate(SevenCards(picks[i], board))
  {
    var lows := Qualifying(rate, board, picks);
    MinOfIsMin(lows, 0);
    QualifyingMembers(rate, board, picks, MinOf(lows));
    forall i | 0 <= i < |picks| && HandStrengthRank(rate(SevenCards(picks[i], board))) != NoHand
      ensures MinOf(lows) <= rate(SevenCards(picks[i], board))
    {
      QualifyingMembers(rate, board, picks, rate(SevenCards(picks[i], board)));
    }
  }

  /**
   * The Omaha low discards the picks whose eight-or-better low is `NoHand`:
   * it is `NoHand` exactly when no pick qualifies.
   */
  lemma {:induction false} OmahaLowNoHand(board: seq<Card>, pocket: seq<Card>)
    ensures var picks := CardCombos(pocket, 2);
      HandStrengthRank(OmahaLowStrength(board, pocket)) == NoHand <==>
        forall i :: 0 <= i < |picks| ==> HandStrengthRank(EightLow(SevenCards(picks[i], board))) == NoHand
  {
    var picks := CardCombos(pocket, 2);
    NoHandPacked();
    NoneQualifying(EightLow, board, picks);
    if |Qualifying(EightLow, board, picks)| > 0 {
      LowestQualifying(EightLow, board, picks);
    }
  }

  /**
   * When some pick qualifies, the Omaha low is one qualifying pick's low and
   * no higher than any other qualifying pick's low.
   */
  lemma {:induction false} OmahaLowIsBest(board: seq<Card>, pocket: seq<Card>)
    ensures var picks := CardCombos(pocket, 2);
      var low := OmahaLowStrength(board, pocket);
      HandStrengthRank(low) != NoHand ==>
        (exists i :: 0 <= i < |picks| && low == EightLow(SevenCards(picks[i], board))) &&
        forall i :: 0 <= i < |picks| && HandStrengthRank(EightLow(SevenCards(picks[i], board))) != NoHand ==>
          low <= EightLow(SevenCards(picks[i], board))
  {
    var picks := CardCombos(pocket, 2);
    NoHandPacked();
    if |Qualifying(EightLow, board, picks)| > 0 {
      LowestQualifying(EightLow, board, picks);
    }
  }

  // ---------------------------------------------------------------------------
  // The Omaha loops

  /** Rating the next pick extends the ratings so far by that pick's rating. */
  lemma {:induction false} RatingsStep(rate: seq<Card> -> HandStrength, board: seq<Card>, done: seq<HandStrength>, rest: seq<seq<Card>>)
    requires |rest| > 0
    ensures done + [rate(SevenCards(rest[0], board))] + Ratings(rate, board, rest[1..])
      == done + Ratings(rate, board, rest)
  {
    assert Ratings(rate, board, rest) == [rate(SevenCards(rest[0], board))] + Ratings(rate, board, rest[1..]);
  }

  /** Rating the next pick extends the kept ratings so far by that pick's rating when it is not `NoHand`. */
  lemma {:induction false} QualifyingKeep(rate: seq<Card> -> HandStrength, board: seq<Card>, done: seq<HandStrength>, rest: seq<seq<Card>>)
    requires |rest| > 0 && HandStrengthRank(rate(SevenCards(rest[0], board))) != NoHand
    ensures (done + [rate(SevenCards(rest[0], board))]) + Qualifying(rate, board, rest[1..]) == done + Qualifying(rate, board, rest)
  {
    var low := rate(SevenCards(rest[0], board));
    assert Qualifying(rate, board, rest) == [low] + Qualifying(rate, board, rest[1..]);
  }

  /** A pick whose rating is `NoHand` leaves the kept ratings as they are. */
  lemma {:induction false} QualifyingSkip(rate: seq<Card> -> HandStrength, board: seq<Card>, rest: seq<seq<Card>>)
    requires |rest| > 0 && HandStrengthRank(rate(SevenCards(rest[0], board))) == NoHand
    ensures Qualifying(rate, board, rest[1..]) == Qualifying(rate, board, rest)
  {
    var low := rate(SevenCards(rest[0], board));
    assert Qualifying(rate, board, rest) == [] + Qualifying(rate, board, rest[1..]);
  }

  /** `GetOmahaHandStrength`: walk the two-card picks, rate each with the board, keep the best. */
  method GetOmahaHandStrength(board: seq<Card>, pocket: seq<Card>) returns (strength: HandStrength)
    requires |pocket| >= 2
    ensures strength == OmahaHighStrength(board, pocket)
  {
    var strengths: seq<HandStrength> := [];
    var itr := new ComboIterator.Combinations(pocket, 2);
    while itr.HasNext()
      invariant itr.Valid() && fresh(itr.index) && itr.slice == pocket && itr.choose == 2
      invariant strengths + Ratings(HighStrength, board, itr.Remaining()) == Ratings(HighStrength, board, CardCombos(pocket, 2))
      decreases |itr.Remaining()|
    {
      ghost var before := itr.Remaining();
      var pick := itr.Next();
      var hand := SevenCards(pick, board);
      var s := CalculateHandStrength(hand);
      RatingsStep(HighStrength, board, strengths, before);
      strengths := strengths + [s];
    }
    assert itr.Remaining() == [];
    assert strengths == Ratings(HighStrength, board, CardCombos(pocket, 2));
    CardCombosCount(pocket, 2);
    BinomialPositive(|pocket|, 2);
    strength := MaxHandStrength(strengths);
    MaxOfIsMax(strengths, strength);
  }

  /** The eight-or-better low of a hand, through the low evaluator. */
  method GetEightLow(hand: seq<Card>) returns (low: HandStrength)
    ensures low == EightLow(hand)
  {
    var strength := GetLowHandStrength(hand, true);
    EightLowNeverPanics(hand);
    low := strength.value;
  }

  /** `GetOmahaLowHandStrength`: walk the picks, keep the qualifying lows, return the lowest or `NoHand`. */
  method GetOmahaLowHandStrength(board: seq<Card>, pocket: seq<Card>) returns (strength: HandStrength)
    requires |pocket| >= 2
    ensures strength == OmahaLowStrength(board, pocket)
  {
    var strengths := QualifyingLows(board, pocket);
    if |strengths| > 0 {
      strength := MinHandStrength(strengths);
      MinOfIsMin(strengths, strength);
      return;
    }
    NoHandPacked();
    return MakeHandStrength(NoHand, 0, 0, 0);
  }

  /** The loop of `GetOmahaLowHandStrength`: the eight-or-better lows of the two-card picks, in pick order. */
  method QualifyingLows(board: seq<Card>, pocket: seq<Card>) returns (strengths: seq<HandStrength>)
    requires |pocket| >= 2
    ensures strengths == Qualifying(EightLow, board, CardCombos(pocket, 2))
  {
    strengths := [];
    var itr := new ComboIterator.Combinations(pocket, 2);
    ghost var rest := itr.Remaining();
    while itr.HasNext()
      invariant itr.Valid() && fresh(itr.index) && itr.slice == pocket && itr.choose == 2
      invariant rest == itr.Remaining()
      invariant strengths + Qualifying(EightLow, board, rest) == Qualifying(EightLow, board, CardCombos(pocket, 2))
      decreases |rest|
    {
      var pick := itr.Next();
      strengths := KeepLow(board, strengths, pick, rest);
      rest := rest[1..];
    }
    assert rest == [];
    assert Qualifying(EightLow, board, rest) == [];
  }

  /** One turn of the loop of `GetOmahaLowHandStrength`: rate the pick with the board and keep it when it qualifies. */
  method KeepLow(board: seq<Card>, strengths: seq<HandStrength>, pick: seq<Card>, ghost rest: seq<seq<Card>>)
    returns (kept: seq<HandStrength>)
    requires |rest| > 0 && pick == rest[0]
    ensures kept + Qualifying(EightLow, board, rest[1..]) == strengths + Qualifying(EightLow, board, rest)
  {
    var hand := SevenCards(pick, board);
    var low := GetEightLow(hand);
    if HandStrengthRank(low) != NoHand {
      QualifyingKeep(EightLow, board, strengths, rest);
      kept := strengths + [low];
    } else {
      QualifyingSkip(EightLow, board, rest);
      kept := strengths;
    }
  }
}
