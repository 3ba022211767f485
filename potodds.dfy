/**
 * The exact pot-odds count of the `potodds` tool: the command line is checked
 * and turned into a game, a board and the players' known cards; every way to
 * deal the unknown cards is enumerated group by group (board first, then each
 * player); each player's high hand is rated and every player is credited a win,
 * a tie or a loss for that deal.
 */
module PotOdds {
  import opened Wrappers
  import opened Cards
  import opened Combinatorics
  import opened MultiCombinations
  import opened PokerStrength
  import opened Games

  // ---------------------------------------------------------------------------
  // Tallies

  /** One player's counts of won, tied and lost deals. */
  datatype Tally = Tally(wins: int, ties: int, losses: int)
  {
    /** The number of deals counted. */
    function Total(): int
    {
      wins + ties + losses
    }

    /** Component-wise sum; the totals add up. */
    function Add(t2: Tally): (r: Tally)
      ensures r.Total() == Total() + t2.Total()
      ensures r.wins - wins == t2.wins && r.ties - ties == t2.ties && r.losses - losses == t2.losses
    {
      Tally(wins + t2.wins, ties + t2.ties, losses + t2.losses)
    }
  }

  const NoTally: Tally := Tally(0, 0, 0)
  const Win: Tally := Tally(1, 0, 0)
  const Tie: Tally := Tally(0, 1, 0)
  const Loss: Tally := Tally(0, 0, 1)

  /** A `GameTally` plus another, seat by seat, as long as the first. */
  function AddAll(gt: seq<Tally>, gt2: seq<Tally>): (r: seq<Tally>)
    requires |gt| <= |gt2|
    ensures |r| == |gt|
    ensures forall i :: 0 <= i < |gt| ==> r[i].Total() == gt[i].Total() + gt2[i].Total()
  {
    seq(|gt|, i requires 0 <= i < |gt| => gt[i].Add(gt2[i]))
  }

  /** `GameTally.Add`: a new slice, filled seat by seat; the operands are values and stay as they are. */
  method AddGameTally(gt: seq<Tally>, gt2: seq<Tally>) returns (result: seq<Tally>)
    requires |gt| <= |gt2|
    ensures result == AddAll(gt, gt2)
  {
    result := gt;
    for i := 0 to |gt|
      invariant |result| == |gt|
      invariant forall j :: 0 <= j < i ==> result[j] == gt[j].Add(gt2[j])
      invariant forall j :: i <= j < |gt| ==> result[j] == gt[j]
    {
      result := result[i := gt[i].Add(gt2[i])];
    }
  }

  /** Adding tallies seat by seat is associative, so deals may be summed in any grouping. */
  lemma {:induction false} AddAllAssociative(a: seq<Tally>, b: seq<Tally>, c: seq<Tally>)
    requires |a| == |b| == |c|
    ensures AddAll(AddAll(a, b), c) == AddAll(a, AddAll(b, c))
  {
    forall i | 0 <= i < |a|
      ensures AddAll(AddAll(a, b), c)[i] == AddAll(a, AddAll(b, c))[i]
    {
      assert AddAll(AddAll(a, b), c)[i] == a[i].Add(b[i]).Add(c[i]);
      assert AddAll(a, AddAll(b, c))[i] == a[i].Add(b[i].Add(c[i]));
    }
  }

  // ---------------------------------------------------------------------------
  // The winner rule of one deal

  /** The seats among the first `n` whose strength is `m`, in seat order. */
  function Holding(s: seq<HandStrength>, m: HandStrength, n: nat): (r: seq<nat>)
    requires n <= |s|
    ensures forall k :: 0 <= k < |r| ==> r[k] < n && s[r[k]] == m
  {
    if n == 0 then [] else Holding(s, m, n - 1) + (if s[n - 1] == m then [n - 1] else [])
  }

  /**
   * What one deal credits each seat: a loss below the best strength; a tie
   * to each holder of the best strength when two or more hold it; otherwise
   * a win to its only holder.
   */
  function Outcomes(s: seq<HandStrength>): (r: seq<Tally>)
    requires |s| > 0
    ensures |r| == |s|
  {
    var max := MaxOf(s);
    var tied := |Holding(s, max, |s|)| > 1;
    seq(|s|, i requires 0 <= i < |s| => if s[i] != max then Loss else if tied then Tie else Win)
  }

  /** The holders of `m` are exactly the seats with strength `m`, each listed once. */
  lemma {:induction false} HoldingMembers(s: seq<HandStrength>, m: HandStrength, n: nat)
    requires n <= |s|
    ensures forall k :: k in Holding(s, m, n) <==> 0 <= k < n && s[k] == m
    ensures forall a, b :: 0 <= a < b < |Holding(s, m, n)| ==> Holding(s, m, n)[a] < Holding(s, m, n)[b]
  {
    if n > 0 {
      HoldingMembers(s, m, n - 1);
    }
  }

  /** Some seat holds `m` exactly when the list is not empty; two do exactly when it has two entries. */
  lemma {:induction false} HoldingSize(s: seq<HandStrength>, m: HandStrength, n: nat)
    requires n <= |s|
    ensures |Holding(s, m, n)| > 0 <==> exists j :: 0 <= j < n && s[j] == m
    ensures |Holding(s, m, n)| > 1 <==> exists j, k :: 0 <= j < k < n && s[j] == m && s[k] == m
  {
    if n > 0 {
      HoldingSize(s, m, n - 1);
      if s[n - 1] == m && |Holding(s, m, n - 1)| > 0 {
        var j :| 0 <= j < n - 1 && s[j] == m;
        assert 0 <= j < n - 1 < n && s[j] == m && s[n - 1] == m;
      }
      if exists j, k :: 0 <= j < k < n && s[j] == m && s[k] == m {
        var j, k :| 0 <= j < k < n && s[j] == m && s[k] == m;
        if k < n - 1 {
          assert 0 <= j < k < n - 1;
        } else {
          assert 0 <= j < n - 1;
        }
      }
    }
  }

  /**
   * The rule seat by seat, without the maximum: a seat loses exactly when
   * another seat is stronger, wins exactly when every other seat is weaker,
   * and ties exactly when no seat is stronger and another seat is as strong.
   */
  lemma {:induction false} OutcomeMeaning(s: seq<HandStrength>, i: nat)
    requires i < |s|
    ensures Outcomes(s)[i] == Loss <==> exists j :: 0 <= j < |s| && s[j] > s[i]
    ensures Outcomes(s)[i] == Win <==> forall j :: 0 <= j < |s| && j != i ==> s[j] < s[i]
    ensures Outcomes(s)[i] == Tie <==>
      (forall j :: 0 <= j < |s| ==> s[j] <= s[i]) && exists j :: 0 <= j < |s| && j != i && s[j] == s[i]
  {
    var max := MaxOf(s);
    MaxOfIsMax(s, max);
    HoldingSize(s, max, |s|);
    var k :| 0 <= k < |s| && s[k] == max;
    if s[i] == max {
      if exists j, l :: 0 <= j < l < |s| && s[j] == max && s[l] == max {
        var j, l :| 0 <= j < l < |s| && s[j] == max && s[l] == max;
        if j != i {
          assert 0 <= j < |s| && j != i && s[j] == s[i];
        } else {
          assert 0 <= l < |s| && l != i && s[l] == s[i];
        }
      }
      if exists j :: 0 <= j < |s| && j != i && s[j] == s[i] {
        var j :| 0 <= j < |s| && j != i && s[j] == s[i];
        if j < i {
          assert 0 <= j < i < |s| && s[j] == max && s[i] == max;
        } else {
          assert 0 <= i < j < |s| && s[i] == max && s[j] == max;
        }
      }
    } else {
      assert s[k] > s[i];
    }
  }

  /** Every seat is credited exactly one outcome per deal. */
  lemma {:induction false} OneOutcomePerSeat(s: seq<HandStrength>)
    requires |s| > 0
    ensures forall i :: 0 <= i < |s| ==> Outcomes(s)[i].Total() == 1
    ensures forall i :: 0 <= i < |s| ==> Outcomes(s)[i] in {Win, Tie, Loss}
  {
  }

  /** At most one seat wins a deal, some seat does not lose it, and ties come at least in pairs. */
  lemma {:induction false} DealCredits(s: seq<HandStrength>)
    requires |s| > 0
    ensures forall i, j :: 0 <= i < |s| && 0 <= j < |s| && Outcomes(s)[i] == Win && Outcomes(s)[j] == Win ==> i == j
    ensures exists i :: 0 <= i < |s| && Outcomes(s)[i] != Loss
    ensures forall i :: 0 <= i < |s| && Outcomes(s)[i] == Tie ==> exists j :: 0 <= j < |s| && j != i && Outcomes(s)[j] == Tie
  {
    var max := MaxOf(s);
    MaxOfIsMax(s, max);
    HoldingSize(s, max, |s|);
    var k :| 0 <= k < |s| && s[k] == max;
    assert Outcomes(s)[k] != Loss;
    forall i | 0 <= i < |s| && Outcomes(s)[i] == Tie
      ensures exists j :: 0 <= j < |s| && j != i && Outcomes(s)[j] == Tie
    {
      OutcomeMeaning(s, i);
      var j :| 0 <= j < |s| && j != i && s[j] == s[i];
      assert Outcomes(s)[j] == Tie;
    }
  }

  /**
   * The first loop of the tally: a loss for every seat below `max`, and the
   * seats holding `max`, in order.
   */
  method CreditLosses(tally: seq<Tally>, strengths: seq<HandStrength>, max: HandStrength)
    returns (result: seq<Tally>, best: seq<nat>)
    requires |tally| == |strengths|
    ensures |result| == |tally| && best == Holding(strengths, max, |strengths|)
    ensures forall j :: 0 <= j < |tally| ==> result[j] == (if strengths[j] == max then tally[j] else tally[j].Add(Loss))
    ensures forall j :: 0 <= j < |tally| ==> result[j] == (if j in best then tally[j] else tally[j].Add(Loss))
  {
    best := [];
    result := tally;
    for i := 0 to |strengths|
      invariant |result| == |tally|
      invariant best == Holding(strengths, max, i)
      invariant forall j :: 0 <= j < i ==> result[j] == (if strengths[j] == max then tally[j] else tally[j].Add(Loss))
      invariant forall j :: i <= j < |tally| ==> result[j] == tally[j]
    {
      if strengths[i] == max {
        best := best + [i];
      } else {
        result := result[i := result[i].(losses := result[i].losses + 1)];
      }
    }
    HoldingMembers(strengths, max, |strengths|);
  }

  /** The loop over the tied seats: one tie for each seat of `best`, listed in increasing order. */
  method CreditTies(tally: seq<Tally>, best: seq<nat>) returns (result: seq<Tally>)
    requires forall k :: 0 <= k < |best| ==> best[k] < |tally|
    requires forall a, b :: 0 <= a < b < |best| ==> best[a] < best[b]
    ensures |result| == |tally|
    ensures forall j :: 0 <= j < |tally| ==> result[j] == (if j in best then tally[j].Add(Tie) else tally[j])
  {
    result := tally;
    for k := 0 to |best|
      invariant |result| == |tally|
      invariant forall j :: 0 <= j < |tally| ==> result[j] == (if j in best[..k] then tally[j].Add(Tie) else tally[j])
    {
      assert best[k] !in best[..k];
      assert best[..k + 1] == best[..k] + [best[k]];
      result := result[best[k] := result[best[k]].(ties := result[best[k]].ties + 1)];
    }
    assert best[..|best|] == best;
  }

  /**
   * The tally loop of `TallyDeal` for one deal: the best strength, a loss for
   * every seat below it while its holders are collected, then a tie for each
   * holder when there are several, else a win for the one holder.
   */
  method ScoreDeal(tally: seq<Tally>, strengths: seq<HandStrength>) returns (result: seq<Tally>)
    requires |tally| == |strengths| > 0
    ensures result == AddAll(tally, Outcomes(strengths))
  {
    var max := MaxHandStrength(strengths);
    MaxOfIsMax(strengths, max);
    var afterLosses, best := CreditLosses(tally, strengths, max);
    if |best| > 1 {
      result := CreditShared(tally, strengths, afterLosses, best);
    } else {
      result := CreditWinner(tally, strengths, afterLosses, best);
    }
  }

  /** Several holders of the best strength: a tie for each of them. */
  method CreditShared(tally: seq<Tally>, strengths: seq<HandStrength>, afterLosses: seq<Tally>, best: seq<nat>)
    returns (result: seq<Tally>)
    requires |tally| == |strengths| > 0 && best == Holding(strengths, MaxOf(strengths), |strengths|) && |best| > 1
    requires |afterLosses| == |tally|
    requires forall j :: 0 <= j < |tally| ==> afterLosses[j] == (if j in best then tally[j] else tally[j].Add(Loss))
    ensures result == AddAll(tally, Outcomes(strengths))
  {
    HoldingMembers(strengths, MaxOf(strengths), |strengths|);
    result := CreditTies(afterLosses, best);
    TiedOutcomes(strengths, best);
    Pointwise(tally, Outcomes(strengths), result);
  }

  /** A single holder of the best strength: a win for it. */
  method CreditWinner(tally: seq<Tally>, strengths: seq<HandStrength>, afterLosses: seq<Tally>, best: seq<nat>)
    returns (result: seq<Tally>)
    requires |tally| == |strengths| > 0 && best == Holding(strengths, MaxOf(strengths), |strengths|) && |best| <= 1
    requires |afterLosses| == |tally|
    requires forall j :: 0 <= j < |tally| ==> afterLosses[j] == (if j in best then tally[j] else tally[j].Add(Loss))
    ensures result == AddAll(tally, Outcomes(strengths))
  {
    WonOutcomes(strengths, best);
    result := afterLosses[best[0] := afterLosses[best[0]].(wins := afterLosses[best[0]].wins + 1)];
    Pointwise(tally, Outcomes(strengths), result);
  }

  /** With several holders of the best strength, the holders tie and everyone else loses. */
  lemma {:induction false} TiedOutcomes(s: seq<HandStrength>, best: seq<nat>)
    requires |s| > 0 && best == Holding(s, MaxOf(s), |s|) && |best| > 1
    ensures forall j :: 0 <= j < |s| ==> Outcomes(s)[j] == if j in best then Tie else Loss
  {
    HoldingMembers(s, MaxOf(s), |s|);
  }

  /** With one holder of the best strength, it wins and everyone else loses. */
  lemma {:induction false} WonOutcomes(s: seq<HandStrength>, best: seq<nat>)
    requires |s| > 0 && best == Holding(s, MaxOf(s), |s|) && |best| <= 1
    ensures |best| == 1 && best[0] < |s|
    ensures forall j :: 0 <= j < |s| ==> (j in best <==> j == best[0])
    ensures forall j :: 0 <= j < |s| ==> Outcomes(s)[j] == if j == best[0] then Win else Loss
  {
    MaxOfIsMax(s, MaxOf(s));
    HoldingMembers(s, MaxOf(s), |s|);
    HoldingSize(s, MaxOf(s), |s|);
  }

  /** Tallies that are seat by seat the sums are the `AddAll` of the two. */
  lemma {:induction false} Pointwise(gt: seq<Tally>, gt2: seq<Tally>, r: seq<Tally>)
    requires |r| == |gt| == |gt2|
    requires forall j :: 0 <= j < |gt| ==> r[j] == gt[j].Add(gt2[j])
    ensures r == AddAll(gt, gt2)
  {
  }

  // ---------------------------------------------------------------------------
  // The command line: game, board and known hands

  /** Why `potodds` refuses a command line. */
  datatype SetupError =
    | UnknownGame(tag: string)
    | InvalidBoard(boardError: ParseError)
    | BoardTooLong
    | InvalidHand(handError: ParseError)
    | HandTooLong
    | TooFewHands

  /** A checked command line: the game, the known board cards and each player's known cards. */
  datatype Setup = Setup(game: Game, board: seq<Card>, hands: seq<seq<Card>>)

  /** The board and every hand fit the game's sizes. */
  predicate Fits(game: Game, board: seq<Card>, hands: seq<seq<Card>>)
  {
    |board| <= game.boardSize && forall i :: 0 <= i < |hands| ==> |hands[i]| <= game.handSize
  }

  /** The hands, read one argument after the other; the first that fails to read or is too long stops it. */
  function ParseHands(game: Game, texts: seq<seq<char>>): (r: Result<seq<seq<Card>>, SetupError>)
    ensures r.Ok? ==> |r.value| == |texts| && forall i :: 0 <= i < |texts| ==> |r.value[i]| <= game.handSize
  {
    if texts == [] then Ok([])
    else
      var hand := ParseCards(texts[0]);
      if hand.error.Some? then Err(InvalidHand(hand.error.value))
      else if |hand.cards| > game.handSize then Err(HandTooLong)
      else match ParseHands(game, texts[1..])
        case Err(e) => Err(e)
        case Ok(rest) => Ok([hand.cards] + rest)
  }

  /**
   * The checks of `main`, in its order: the game tag, the board (readable,
   * not longer than the game's board), each hand (readable, not longer than
   * the game's hand), and at least two hands.
   */
  function Validate(tag: string, boardText: seq<char>, handTexts: seq<seq<char>>): (r: Result<Setup, SetupError>)
    ensures r.Ok? ==> r.value.game == GetGame(tag) && r.value.game.name != ""
    ensures r.Ok? ==> Fits(r.value.game, r.value.board, r.value.hands) && |r.value.hands| == |handTexts| >= 2
  {
    var game := GetGame(tag);
    if game.name == "" then Err(UnknownGame(tag))
    else
      var board := ParseCards(boardText);
      if board.error.Some? then Err(InvalidBoard(board.error.value))
      else if |board.cards| > game.boardSize then Err(BoardTooLong)
      else match ParseHands(game, handTexts)
        case Err(e) => Err(e)
        case Ok(hands) => if |hands| < 2 then Err(TooFewHands) else Ok(Setup(game, board.cards, hands))
  }

  /** An accepted command line holds the cards its board and hand arguments read as. */
  lemma {:induction false} ValidateReads(tag: string, boardText: seq<char>, handTexts: seq<seq<char>>)
    ensures Validate(tag, boardText, handTexts).Ok? ==>
      ParseCards(boardText) == Parsed(Validate(tag, boardText, handTexts).value.board, None)
      && forall i :: 0 <= i < |handTexts| ==>
           ParseCards(handTexts[i]) == Parsed(Validate(tag, boardText, handTexts).value.hands[i], None)
  {
    ParseHandsRead(GetGame(tag), handTexts);
  }

  /** A known game whose board and hands read and fit, with two hands or more, is accepted with those cards. */
  lemma {:induction false} ValidateAccepts(tag: string, boardText: seq<char>, handTexts: seq<seq<char>>,
                                           board: seq<Card>, hands: seq<seq<Card>>)
    requires tag in GameTable && ParseCards(boardText) == Parsed(board, None)
    requires |hands| == |handTexts| >= 2
    requires forall i :: 0 <= i < |handTexts| ==> ParseCards(handTexts[i]) == Parsed(hands[i], None)
    requires Fits(GetGame(tag), board, hands)
    ensures Validate(tag, boardText, handTexts) == Ok(Setup(GetGame(tag), board, hands))
  {
    KnownGames(tag);
    ParseHandsAccepts(GetGame(tag), handTexts, hands);
  }

  /** Accepted hands are what each argument reads as, without an error. */
  lemma {:induction false} ParseHandsRead(game: Game, texts: seq<seq<char>>)
    ensures ParseHands(game, texts).Ok? ==>
      forall i :: 0 <= i < |texts| ==> ParseCards(texts[i]) == Parsed(ParseHands(game, texts).value[i], None)
  {
    if texts != [] && ParseHands(game, texts).Ok? {
      ParseHandsRead(game, texts[1..]);
      var r := ParseHands(game, texts).value;
      forall i | 0 <= i < |texts|
        ensures ParseCards(texts[i]) == Parsed(r[i], None)
      {
        if i > 0 {
          assert texts[i] == texts[1..][i - 1];
          assert r[i] == ParseHands(game, texts[1..]).value[i - 1];
        }
      }
    }
  }

  /** A refused hand is an argument that does not read, or reads longer than the game's hand. */
  lemma {:induction false} ParseHandsRefused(game: Game, texts: seq<seq<char>>)
    ensures ParseHands(game, texts).Err? <==>
      exists i :: 0 <= i < |texts| && (ParseCards(texts[i]).error.Some? || |ParseCards(texts[i]).cards| > game.handSize)
  {
    if texts != [] {
      ParseHandsRefused(game, texts[1..]);
      if exists i :: 0 <= i < |texts[1..]| && (ParseCards(texts[1..][i]).error.Some? || |ParseCards(texts[1..][i]).cards| > game.handSize) {
        var i :| 0 <= i < |texts[1..]| && (ParseCards(texts[1..][i]).error.Some? || |ParseCards(texts[1..][i]).cards| > game.handSize);
        assert texts[1..][i] == texts[i + 1];
      }
      if exists i :: 0 <= i < |texts| && (ParseCards(texts[i]).error.Some? || |ParseCards(texts[i]).cards| > game.handSize) {
        var i :| 0 <= i < |texts| && (ParseCards(texts[i]).error.Some? || |ParseCards(texts[i]).cards| > game.handSize);
        if i > 0 {
          assert texts[i] == texts[1..][i - 1];
        }
      }
    }
  }

  lemma {:induction false} ParseHandsAccepts(game: Game, texts: seq<seq<char>>, hands: seq<seq<Card>>)
    requires |hands| == |texts|
    requires forall i :: 0 <= i < |texts| ==> ParseCards(texts[i]) == Parsed(hands[i], None)
    requires forall i :: 0 <= i < |hands| ==> |hands[i]| <= game.handSize
    ensures ParseHands(game, texts) == Ok(hands)
  {
    if texts != [] {
      ParseHandsAccepts(game, texts[1..], hands[1..]);
      assert [hands[0]] + hands[1..] == hands;
    }
  }

  /** A game with fewer than two hands on the command line is refused, whatever the cards. */
  lemma {:induction false} TooFewRefused(tag: string, boardText: seq<char>, handTexts: seq<seq<char>>)
    requires |handTexts| < 2
    ensures Validate(tag, boardText, handTexts).Err?
  {
  }

  // ---------------------------------------------------------------------------
  // The deal groups

  /** How many cards each group takes: the board's unknown cards, then each hand's. */
  function ChooseVector(game: Game, board: seq<Card>, hands: seq<seq<Card>>): (choose: seq<nat>)
    requires Fits(game, board, hands)
    ensures |choose| == |hands| + 1
    ensures |board| + choose[0] == game.boardSize
    ensures forall i :: 0 <= i < |hands| ==> |hands[i]| + choose[i + 1] == game.handSize
  {
    [game.boardSize - |board|] + seq(|hands|, i requires 0 <= i < |hands| => game.handSize - |hands[i]|)
  }

  /** The setup loop of `main`: `choose` and `deckChoose`, the number of cards all groups take. */
  method ChooseSetup(game: Game, board: seq<Card>, hands: seq<seq<Card>>) returns (choose: seq<nat>, deckChoose: nat)
    requires Fits(game, board, hands)
    ensures choose == ChooseVector(game, board, hands)
    ensures deckChoose == Needed(choose, 0)
  {
    ghost var target := ChooseVector(game, board, hands);
    deckChoose := game.boardSize - |board|;
    choose := seq(|hands| + 1, _ => 0);
    choose := choose[0 := game.boardSize - |board|];
    NeededStep(target, 0);
    for i := 0 to |hands|
      invariant |choose| == |hands| + 1
      invariant forall j :: 0 <= j <= i ==> choose[j] == target[j]
      invariant deckChoose + Needed(target, i + 1) == Needed(target, 0)
    {
      NeededStep(target, i + 1);
      deckChoose := deckChoose + (game.handSize - |hands[i]|);
      choose := choose[i + 1 := game.handSize - |hands[i]|];
    }
  }

  lemma {:induction false} NeededStep(ks: seq<nat>, i: nat)
    requires i < |ks|
    ensures Needed(ks, i) == ks[i] + Needed(ks, i + 1)
  {
  }

  // ---------------------------------------------------------------------------
  // Rating the players of one deal

  /** A game whose high function rates every hand of the game's size: not `nil`, and not Razz's low. */
  predicate HiPlayable(game: Game)
  {
    game.hiStrength.Some? && game.hiStrength.value != RazzLow
    && ((game.hiStrength.value == OmahaHigh || game.hiStrength.value == OmahaLow) ==> game.handSize >= 2)
  }

  /** Every game of the table with a high function can be tallied; Razz, the one without, cannot. */
  lemma {:induction false} TableHiPlayable(tag: string)
    requires tag in GameTable
    ensures HiPlayable(GetGame(tag)) <==> tag != "razz"
  {
  }

  lemma {:induction false} HiRated(game: Game, board: seq<Card>, hand: seq<Card>)
    requires HiPlayable(game) && |hand| == game.handSize
    ensures Evaluate(game.hiStrength.value, board, hand).Some?
  {
  }

  /**
   * A seat's high strength: the game's high function on the board and the
   * seat's cards, and the zero strength where the hand cannot be rated, as
   * `TallyDeal` does on an error. A hand of the game's size is always rated.
   */
  function SeatStrength(game: Game, board: seq<Card>, hand: seq<Card>): (r: HandStrength)
    requires game.hiStrength.Some?
    ensures HiPlayable(game) && |hand| == game.handSize ==> Evaluate(game.hiStrength.value, board, hand) == Some(r)
  {
    HiRatedIf(game, board, hand);
    match Evaluate(game.hiStrength.value, board, hand)
    case Some(strength) => strength
    case None => NoHandStrength
  }

  lemma {:induction false} HiRatedIf(game: Game, board: seq<Card>, hand: seq<Card>)
    requires game.hiStrength.Some?
    ensures HiPlayable(game) && |hand| == game.handSize ==> Evaluate(game.hiStrength.value, board, hand).Some?
  {
    if HiPlayable(game) && |hand| == game.handSize {
      HiRated(game, board, hand);
    }
  }

  /** `combo` deals one group to the board and one to each hand, filling each to the game's size. */
  predicate Dealt(game: Game, board: seq<Card>, hands: seq<seq<Card>>, combo: seq<seq<Card>>)
  {
    |combo| == |hands| + 1 && |board| + |combo[0]| == game.boardSize
    && forall i :: 0 <= i < |hands| ==> |hands[i]| + |combo[i + 1]| == game.handSize
  }

  /** Every tuple of the groups `choose` describes fills the board and the hands exactly. */
  lemma {:induction false} ShapedDealt(game: Game, board: seq<Card>, hands: seq<seq<Card>>, combo: seq<seq<Card>>)
    requires Fits(game, board, hands) && Shaped(ChooseVector(game, board, hands), combo)
    ensures Dealt(game, board, hands, combo)
  {
    var choose := ChooseVector(game, board, hands);
    assert |combo[0]| == choose[0];
    forall i | 0 <= i < |hands|
      ensures |hands[i]| + |combo[i + 1]| == game.handSize
    {
      assert |combo[i + 1]| == choose[i + 1];
    }
  }

  /** Every split of a deal into the groups fills the board and the hands exactly. */
  lemma {:induction false} SplitDealt(game: Game, board: seq<Card>, hands: seq<seq<Card>>, deal: seq<Card>, j: nat)
    requires Fits(game, board, hands) && j < |MultiCombos(deal, ChooseVector(game, board, hands))|
    ensures Dealt(game, board, hands, MultiCombos(deal, ChooseVector(game, board, hands))[j])
  {
    MultiCombosShape(deal, ChooseVector(game, board, hands));
    ShapedDealt(game, board, hands, MultiCombos(deal, ChooseVector(game, board, hands))[j]);
  }

  /** The cards a tuple deals to group `g`; none when the tuple has no such group. */
  function Group(combo: seq<seq<Card>>, g: nat): seq<Card>
  {
    if g < |combo| then combo[g] else []
  }

  /** A way to rate a seat: from the full board and the seat's full hand. */
  type Rater = (seq<Card>, seq<Card>) -> HandStrength

  /** The game's high function as a rater. */
  function HighRater(game: Game): Rater
    requires game.hiStrength.Some?
  {
    (fullBoard: seq<Card>, fullHand: seq<Card>) => SeatStrength(game, fullBoard, fullHand)
  }

  /** Each seat's strength for one deal: its known cards then its group, with the known board then group 0. */
  function Strengths(rate: Rater, board: seq<Card>, hands: seq<seq<Card>>, combo: seq<seq<Card>>): (r: seq<HandStrength>)
    ensures |r| == |hands|
  {
    seq(|hands|, i requires 0 <= i < |hands| => rate(board + Group(combo, 0), hands[i] + Group(combo, i + 1)))
  }

  /** Dealt a full tuple, every seat is rated by the game's high function with the full board; none falls back to zero. */
  lemma {:induction false} StrengthsRated(game: Game, board: seq<Card>, hands: seq<seq<Card>>, combo: seq<seq<Card>>, i: nat)
    requires HiPlayable(game) && Dealt(game, board, hands, combo) && i < |hands|
    ensures Evaluate(game.hiStrength.value, board + combo[0], hands[i] + combo[i + 1])
         == Some(Strengths(HighRater(game), board, hands, combo)[i])
  {
    StrengthsAt(HighRater(game), board, hands, combo, i);
  }

  /** With a tuple of all the groups, seat `i` is rated on the full board and its own full hand. */
  lemma {:induction false} StrengthsAt(rate: Rater, board: seq<Card>, hands: seq<seq<Card>>, combo: seq<seq<Card>>, i: nat)
    requires |combo| == |hands| + 1 && i < |hands|
    ensures Strengths(rate, board, hands, combo)[i] == rate(board + combo[0], hands[i] + combo[i + 1])
  {
    assert Group(combo, 0) == combo[0] && Group(combo, i + 1) == combo[i + 1];
  }

  /** Go's `copy(dst[len(known):], src)` into a buffer that holds `known` and has room for exactly `src`. */
  lemma {:induction false} CopyAfterKnown(dst: seq<Card>, known: seq<Card>, src: seq<Card>)
    requires |dst| == |known| + |src| && dst[..|known|] == known
    ensures CopyInto(dst, src, |known|) == known + src
  {
    var r := CopyInto(dst, src, |known|);
    forall i | 0 <= i < |dst|
      ensures r[i] == (known + src)[i]
    {
      if i < |known| {
        assert dst[i] == dst[..|known|][i];
      }
    }
  }

  // ---------------------------------------------------------------------------
  // The tally of every deal

  /** Each seat's tally over the deals `combos`, in order, starting from nothing. */
  function TallyOver(rate: Rater, board: seq<Card>, hands: seq<seq<Card>>, combos: seq<seq<seq<Card>>>): (r: seq<Tally>)
    requires |hands| > 0
    ensures |r| == |hands|
    decreases |combos|
  {
    if combos == [] then seq(|hands|, _ => NoTally)
    else
      var last := |combos| - 1;
      AddAll(TallyOver(rate, board, hands, combos[..last]), Outcomes(Strengths(rate, board, hands, combos[last])))
  }

  /** Each seat's counts add up to the number of deals. */
  lemma {:induction false} TallyTotals(rate: Rater, board: seq<Card>, hands: seq<seq<Card>>, combos: seq<seq<seq<Card>>>)
    requires |hands| > 0
    ensures forall i :: 0 <= i < |hands| ==> TallyOver(rate, board, hands, combos)[i].Total() == |combos|
    decreases |combos|
  {
    if combos != [] {
      var last := |combos| - 1;
      TallyTotals(rate, board, hands, combos[..last]);
      OneOutcomePerSeat(Strengths(rate, board, hands, combos[last]));
    }
  }

  /**
   * Over one deal of the unknown cards, every seat is counted once for each
   * way of splitting it into the groups: C(n, k0) C(n - k0, k1) ... times.
   */
  lemma {:induction false} DealTotals(rate: Rater, board: seq<Card>, hands: seq<seq<Card>>, deal: seq<Card>, choose: seq<nat>)
    requires |hands| > 0
    ensures forall i :: 0 <= i < |hands| ==>
      TallyOver(rate, board, hands, MultiCombos(deal, choose))[i].Total() == GroupCount(|deal|, choose)
  {
    TallyTotals(rate, board, hands, MultiCombos(deal, choose));
    MultiCombosCount(deal, choose);
  }

  /** Tallying one more deal adds that deal's outcomes. */
  lemma {:induction false} TallyOverSnoc(rate: Rater, board: seq<Card>, hands: seq<seq<Card>>,
                                         combos: seq<seq<seq<Card>>>, combo: seq<seq<Card>>)
    requires |hands| > 0
    ensures TallyOver(rate, board, hands, combos + [combo])
         == AddAll(TallyOver(rate, board, hands, combos), Outcomes(Strengths(rate, board, hands, combo)))
  {
    assert (combos + [combo])[..|combos|] == combos;
  }

  /** The buffers hold the known cards followed by the groups of `combo`. */
  ghost predicate Holds(board: seq<Card>, hands: seq<seq<Card>>, fullBoard: seq<Card>, fullHands: seq<seq<Card>>,
                        combo: seq<seq<Card>>)
  {
    |combo| == |hands| + 1 && fullBoard == board + combo[0]
    && |fullHands| == |hands| && forall i :: 0 <= i < |hands| ==> fullHands[i] == hands[i] + combo[i + 1]
  }

  /** Full-size buffers for the board and the hands, each starting with the known cards. */
  ghost predicate Buffered(game: Game, board: seq<Card>, hands: seq<seq<Card>>, fullBoard: seq<Card>, fullHands: seq<seq<Card>>)
  {
    |fullBoard| == game.boardSize && |board| <= |fullBoard| && fullBoard[..|board|] == board
    && |fullHands| == |hands|
    && forall i :: 0 <= i < |hands| ==>
         |fullHands[i]| == game.handSize && |hands[i]| <= game.handSize && fullHands[i][..|hands[i]|] == hands[i]
  }

  /** Everything a command line fixes for the tally: the game, the cards and the deal groups. */
  predicate Playable(game: Game, board: seq<Card>, hands: seq<seq<Card>>)
  {
    Fits(game, board, hands) && |hands| >= 2 && HiPlayable(game) && game.handSize >= 0
  }

  /**
   * The package-level state of `potodds`: the checked command line, the deal
   * groups, and the full board and hands that every deal overwrites after the
   * known cards.
   */
  class Odds {
    const game: Game
    const board: seq<Card>
    const hands: seq<seq<Card>>
    const choose: seq<nat>
    const deckChoose: nat
    const rate: Rater
    var fullBoard: seq<Card>
    var fullHands: seq<seq<Card>>

    /** The command line is playable and the groups are its groups. */
    ghost predicate Settled()
    {
      Playable(game, board, hands) && choose == ChooseVector(game, board, hands) && deckChoose == Needed(choose, 0)
    }

    /** The buffers have the game's sizes and start with the known cards. */
    ghost predicate Valid()
      reads this
    {
      Settled() && Buffered(game, board, hands, fullBoard, fullHands)
    }

    /** The setup of `main` after the checks: the buffers with the known cards, and the groups. */
    constructor (game: Game, board: seq<Card>, hands: seq<seq<Card>>)
      requires Playable(game, board, hands)
      ensures Valid() && this.game == game && this.board == board && this.hands == hands && rate == HighRater(game)
      ensures fullBoard == CopyInto(seq(game.boardSize, _ => ZeroCard), board, 0)
      ensures forall i :: 0 <= i < |hands| ==> fullHands[i] == CopyInto(seq(game.handSize, _ => ZeroCard), hands[i], 0)
    {
      var c, d := ChooseSetup(game, board, hands);
      var blanks := FullHands(game, hands);
      this.game, this.board, this.hands := game, board, hands;
      choose, deckChoose, rate := c, d, HighRater(game);
      fullBoard := CopyInto(seq(game.boardSize, _ => ZeroCard), board, 0);
      fullHands := blanks;
    }

    /**
     * `TallyDeal`: every split of `deal` into the groups, in the order of the
     * set iterator, played on the buffers and scored by the winner rule.
     */
    method TallyDeal(deal: seq<Card>) returns (tally: seq<Tally>)
      requires Valid() && |deal| == deckChoose
      modifies this
      ensures Valid()
      ensures tally == TallyOver(rate, board, hands, MultiCombos(deal, choose))
    {
      assert Settled() && Buffered(game, board, hands, fullBoard, fullHands);
      tally, fullBoard, fullHands := TallyDeals(game, rate, board, hands, choose, fullBoard, fullHands, deal);
    }
  }

  /**
   * The loop of `TallyDeal` over the set iterator: each tuple is played on
   * the buffers and scored.
   */
  method TallyDeals(game: Game, rate: Rater, board: seq<Card>, hands: seq<seq<Card>>, choose: seq<nat>,
                    fullBoard: seq<Card>, fullHands: seq<seq<Card>>, deal: seq<Card>)
    returns (tally: seq<Tally>, newBoard: seq<Card>, newHands: seq<seq<Card>>)
    requires Playable(game, board, hands) && choose == ChooseVector(game, board, hands) && |deal| == Needed(choose, 0)
    requires Buffered(game, board, hands, fullBoard, fullHands)
    ensures Buffered(game, board, hands, newBoard, newHands)
    ensures tally == TallyOver(rate, board, hands, MultiCombos(deal, choose))
  {
    var itr := new ComboSetIterator.MultipleCombinations(deal, choose);
    tally, newBoard, newHands := TallyLoop(itr, game, rate, board, hands, choose, deal, fullBoard, fullHands);
  }

  /** The deal loop of `TallyDeals`, from a fresh iterator over the splits of `deal`. */
  method TallyLoop(itr: ComboSetIterator, game: Game, rate: Rater, board: seq<Card>, hands: seq<seq<Card>>,
                   choose: seq<nat>, deal: seq<Card>, fullBoard: seq<Card>, fullHands: seq<seq<Card>>)
    returns (tally: seq<Tally>, newBoard: seq<Card>, newHands: seq<seq<Card>>)
    requires Playable(game, board, hands) && choose == ChooseVector(game, board, hands) && |deal| == Needed(choose, 0)
    requires Buffered(game, board, hands, fullBoard, fullHands)
    requires itr.Valid() && itr.remaining == MultiCombos(deal, choose)
    modifies itr
    ensures Buffered(game, board, hands, newBoard, newHands)
    ensures tally == TallyOver(rate, board, hands, MultiCombos(deal, choose))
  {
    ghost var all := itr.remaining;
    tally := seq(|hands|, _ => NoTally);
    newBoard, newHands := fullBoard, fullHands;
    ghost var seen: seq<seq<seq<Card>>> := [];
    var more := itr.HasNext();
    while more
      invariant itr.Valid()
      invariant Buffered(game, board, hands, newBoard, newHands)
      invariant more <==> itr.remaining != []
      invariant seen + itr.remaining == all
      invariant tally == TallyOver(rate, board, hands, seen)
      decreases |itr.remaining|
    {
      tally, newBoard, newHands, more, seen :=
        TallyStep(itr, game, rate, board, hands, choose, deal, all, seen, tally, newBoard, newHands);
    }
    assert seen == all;
  }

  /** One turn of the deal loop of `TallyDeals`: the next tuple taken from the iterator, played and scored. */
  method TallyStep(itr: ComboSetIterator, game: Game, rate: Rater, board: seq<Card>, hands: seq<seq<Card>>,
                   choose: seq<nat>, deal: seq<Card>, ghost all: seq<seq<seq<Card>>>, ghost seen: seq<seq<seq<Card>>>,
                   tally: seq<Tally>, fullBoard: seq<Card>, fullHands: seq<seq<Card>>)
    returns (next: seq<Tally>, newBoard: seq<Card>, newHands: seq<seq<Card>>, more: bool, ghost seen': seq<seq<seq<Card>>>)
    requires Playable(game, board, hands) && choose == ChooseVector(game, board, hands) && |deal| == Needed(choose, 0)
    requires all == MultiCombos(deal, choose)
    requires itr.Valid() && itr.remaining != [] && seen + itr.remaining == all
    requires Buffered(game, board, hands, fullBoard, fullHands) && tally == TallyOver(rate, board, hands, seen)
    modifies itr
    ensures itr.Valid() && (more <==> itr.remaining != []) && seen' + itr.remaining == all
    ensures |itr.remaining| < |old(itr.remaining)|
    ensures Buffered(game, board, hands, newBoard, newHands) && next == TallyOver(rate, board, hands, seen')
  {
    ghost var rest := itr.remaining;
    var combo := itr.Next();
    NextInOrder(all, seen, rest, combo, itr.remaining);
    SplitDealt(game, board, hands, deal, |seen|);
    newBoard, newHands, next := TallyOne(game, rate, board, hands, fullBoard, fullHands, tally, seen, combo);
    seen' := seen + [combo];
    more := itr.HasNext();
  }

  /**
   * One deal of `TallyDeal`: group 0 after the known board cards, group
   * `i + 1` after player `i`'s known cards, and each player's high strength.
   */
  method PlayDeal(game: Game, rate: Rater, board: seq<Card>, hands: seq<seq<Card>>, fullBoard: seq<Card>, fullHands: seq<seq<Card>>,
                  combo: seq<seq<Card>>)
    returns (newBoard: seq<Card>, newHands: seq<seq<Card>>, strengths: seq<HandStrength>)
    requires Buffered(game, board, hands, fullBoard, fullHands) && Dealt(game, board, hands, combo)
    ensures Buffered(game, board, hands, newBoard, newHands)
    ensures newBoard == board + combo[0]
    ensures |newHands| == |hands| && forall i :: 0 <= i < |hands| ==> newHands[i] == hands[i] + combo[i + 1]
    ensures strengths == Strengths(rate, board, hands, combo)
  {
    CopyAfterKnown(fullBoard, board, combo[0]);
    newBoard := CopyInto(fullBoard, combo[0], |board|);
    newHands, strengths := RateSeats(rate, newBoard, hands, fullHands, combo[1..]);
    DealtStrengths(rate, board, hands, combo, newHands, strengths);
  }

  /** The body of the deal loop of `TallyDeal`: one tuple played and scored. */
  method TallyOne(game: Game, rate: Rater, board: seq<Card>, hands: seq<seq<Card>>, fullBoard: seq<Card>, fullHands: seq<seq<Card>>,
                  tally: seq<Tally>, ghost seen: seq<seq<seq<Card>>>, combo: seq<seq<Card>>)
    returns (newBoard: seq<Card>, newHands: seq<seq<Card>>, next: seq<Tally>)
    requires |hands| > 0
    requires Buffered(game, board, hands, fullBoard, fullHands) && Dealt(game, board, hands, combo)
    requires tally == TallyOver(rate, board, hands, seen)
    ensures Buffered(game, board, hands, newBoard, newHands) && Holds(board, hands, newBoard, newHands, combo)
    ensures next == TallyOver(rate, board, hands, seen + [combo])
  {
    var strengths;
    newBoard, newHands, strengths := PlayDeal(game, rate, board, hands, fullBoard, fullHands, combo);
    next := ScoreDeal(tally, strengths);
    TallyOverSnoc(rate, board, hands, seen, combo);
  }

  /**
   * The loop over the players of `TallyDeal`: each buffer gets its group after
   * the known cards, and each filled hand is rated with the full board.
   */
  method RateSeats(rate: Rater, fullBoard: seq<Card>, hands: seq<seq<Card>>, buffers: seq<seq<Card>>, groups: seq<seq<Card>>)
    returns (full: seq<seq<Card>>, strengths: seq<HandStrength>)
    requires |buffers| == |hands| == |groups|
    requires forall i :: 0 <= i < |hands| ==> |buffers[i]| == |hands[i]| + |groups[i]| && buffers[i][..|hands[i]|] == hands[i]
    ensures |full| == |hands| && |strengths| == |hands|
    ensures forall i :: 0 <= i < |hands| ==> full[i] == hands[i] + groups[i]
    ensures forall i :: 0 <= i < |hands| ==> strengths[i] == rate(fullBoard, hands[i] + groups[i])
  {
    full := buffers;
    strengths := seq(|hands|, _ => NoHandStrength);
    for i := 0 to |hands|
      invariant |full| == |hands| && |strengths| == |hands|
      invariant forall j :: 0 <= j < i ==> full[j] == hands[j] + groups[j]
      invariant forall j :: 0 <= j < i ==> strengths[j] == rate(fullBoard, hands[j] + groups[j])
    {
      CopyAfterKnown(buffers[i], hands[i], groups[i]);
      full := full[i := CopyInto(buffers[i], groups[i], |hands[i]|)];
      strengths := strengths[i := rate(fullBoard, full[i])];
    }
  }

  /** The hands `RateSeats` fills from a tuple are the seats of `Strengths`, with the same ratings. */
  lemma {:induction false} DealtStrengths(rate: Rater, board: seq<Card>, hands: seq<seq<Card>>, combo: seq<seq<Card>>,
                                          full: seq<seq<Card>>, strengths: seq<HandStrength>)
    requires |combo| == |hands| + 1 && |full| == |hands| == |strengths|
    requires forall i :: 0 <= i < |hands| ==> full[i] == hands[i] + combo[1..][i]
    requires forall i :: 0 <= i < |hands| ==> strengths[i] == rate(board + combo[0], hands[i] + combo[1..][i])
    ensures forall i :: 0 <= i < |hands| ==> full[i] == hands[i] + combo[i + 1] && full[i][..|hands[i]|] == hands[i]
    ensures strengths == Strengths(rate, board, hands, combo)
  {
    forall i | 0 <= i < |hands|
      ensures full[i] == hands[i] + combo[i + 1] && full[i][..|hands[i]|] == hands[i]
      ensures strengths[i] == Strengths(rate, board, hands, combo)[i]
    {
      assert combo[1..][i] == combo[i + 1];
      StrengthsAt(rate, board, hands, combo, i);
    }
  }

  /** The tuple an iterator returns after `seen` is the next one of the whole list. */
  lemma {:induction false} NextInOrder<T>(all: seq<T>, seen: seq<T>, rest: seq<T>, next: T, after: seq<T>)
    requires seen + rest == all && |rest| > 0 && next == rest[0] && after == rest[1..]
    ensures |seen| < |all| && next == all[|seen|] && (seen + [next]) + after == all
  {
    assert all[|seen|] == (seen + rest)[|seen|];
    assert rest == [next] + after;
  }

  /** `make` and `copy` for each player: a hand-sized buffer starting with the known cards. */
  method FullHands(game: Game, hands: seq<seq<Card>>) returns (full: seq<seq<Card>>)
    requires game.handSize >= 0 && forall i :: 0 <= i < |hands| ==> |hands[i]| <= game.handSize
    ensures |full| == |hands|
    ensures forall i :: 0 <= i < |hands| ==> full[i] == CopyInto(seq(game.handSize, _ => ZeroCard), hands[i], 0)
    ensures forall i :: 0 <= i < |hands| ==> |full[i]| == game.handSize && full[i][..|hands[i]|] == hands[i]
  {
    full := seq(|hands|, _ => []);
    for i := 0 to |hands|
      invariant |full| == |hands|
      invariant forall j :: 0 <= j < i ==> full[j] == CopyInto(seq(game.handSize, _ => ZeroCard), hands[j], 0)
    {
      full := full[i := CopyInto(seq(game.handSize, _ => ZeroCard), hands[i], 0)];
    }
    forall i | 0 <= i < |hands|
      ensures full[i][..|hands[i]|] == hands[i]
    {
      assert forall k :: 0 <= k < |hands[i]| ==> full[i][k] == hands[i][k];
    }
  }

  // ---------------------------------------------------------------------------
  // The number of deals

  /**
   * `combination(n, k)`: the count for the progress bar, computed as
   * n (n-1)/2 (n-2)/3 ... with every division exact. The loop does not run
   * for k below 2, so k = 0 gives n rather than 1.
   */
  method Combination(n: nat, k: nat) returns (c: int)
    ensures c == if k == 0 then n else Binomial(n, k)
  {
    c := n;
    BinomialAbsorption(n, 0);
    assert Binomial(n, 1) == n;
    var i := 1;
    while i < k
      invariant 1 <= i && (i <= k || i == 1)
      invariant c == Binomial(n, i)
      decreases k - i
    {
      BinomialAbsorption(n, i);
      c := c * (n - i);
      assert c == Binomial(n, i + 1) * (i + 1);
      ExactDivision(Binomial(n, i + 1), i + 1);
      c := c / (i + 1);
      i := i + 1;
    }
  }

  /** A product divided by one of its factors gives the other back. */
  lemma {:induction false} ExactDivision(x: int, d: int)
    requires d > 0
    ensures x * d / d == x
  {
    var q, r := x * d / d, x * d % d;
    assert d * (x - q) == r by {
      assert x * d == d * q + r;
    }
    if x - q > 0 {
      MultiplyAtLeast(d, x - q);
    } else if x - q < 0 {
      MultiplyAtLeast(d, q - x);
    }
  }

  lemma {:induction false} MultiplyAtLeast(d: int, a: int)
    requires d > 0 && a > 0
    ensures d * a >= d
  {
    assert d * a == d * (a - 1) + d;
  }
}
