# fifty2 in Dafny

A verified model of the core of `fifty2`, a Go library for playing cards and
poker odds:

- **Cards** (`cards.dfy`, from `fifty2.go`): suits and ranks, their runes and
  bit masks, the card reader, the standard deck, and `Index`/`Remove` on card
  slices.
- **Combinations** (`combinations.dfy`, `multicombinations.dfy`, from
  `combinations.go` and the channel version in `fifty2.go`):
  - the index-vector iterator over the `k`-card combinations of a slice;
  - the set iterator that splits a deal into several groups (the board, then
    each hand).

  Both are classes proved against reference enumerations (`CardCombos`,
  `MultiCombos`), whose counts, order, completeness and shape are proved
  separately.
- **Poker hand strength** (`poker_strength.dfy`, `poker_eval.dfy`,
  `poker_categories.dfy`, from `poker/poker.go`):
  - the packed 32-bit `HandStrength`;
  - the straight and kicker searches;
  - `calculateHandStrength` and `GetLowHandStrength` as loop-by-loop methods
    proved equal to functional definitions;
  - the strength cache;
  - lemmas that each category search succeeds exactly when its category is
    present in the hand, and that the high strength's category is the best
    one present.
- **Games** (`game.dfy`, from `poker/game.go`): the game table, the hold'em
  hand layout, and the Omaha high and low evaluators as maxima/minima over
  the six two-card picks.
- **Pot odds** (`potodds.dfy`, from `poker/potodds/potodds.go`):
  - `Tally`/`GameTally` arithmetic;
  - checking the command-line arguments into a game, a board and hands;
  - the deal groups;
  - `TallyDeal` as a class over the package state (the full board and hand
    buffers), proved equal to a fold of the winner rule over every split of
    the deal;
  - `combination`.
- **Blackjack** (`blackjack.dfy`, from `blackjack/blackjack.go`): card values
  and the soft-ace hand value, with the source's test table as lemmas.

Integer widths are written out where they matter:

- `rankCount`/`suitCount` are `uint8` counters kept modulo 256;
- masks are 16-bit;
- the hand strength is an unsigned 32-bit value packed from bytes.

A Go panic (an empty slice given to a max/min, a group larger than its pool,
a nil strength function) becomes a precondition. An error return becomes a
`Result` or `Option`.

Behaviour that is modelled as the code has it:

- **Omaha hands use the whole board.** `GetOmahaHandStrength` rates each
  two-card pick together with all five board cards. A player may therefore
  use more than three board cards (`Games.OmahaHighIsBest`).
- **The eight-or-better cut admits a nine.** The low qualifier compares the
  kickers against the mask of strength 9, which is the Ten's bit. A low
  therefore qualifies when its highest card is at most a Nine
  (`PokerCategories.QualifiesMeans`).
- **`combination(n, 0)` returns `n`**, not 1 (`PotOdds.Combination`).
- **`Remove` takes one card**, but `comboSetIterator.prime` and `main` call
  it with a list of cards. The list form is modelled as removing the cards
  one at a time (`Cards.WithoutAll`, `Cards.RemoveCards`).
- **`HiStrength` is a one-result function**, but `TallyDeal` calls it with
  two results. This is modelled as a rater where an unrated hand scores
  `NoHandStrength`, the value `TallyDeal` stores on an error
  (`PotOdds.SeatStrength`).
- **`fifty2.go` and `combinations.go` both declare `Combinations`.** The
  channel version is `Combinations.FindCombinations`, proved to produce the
  same sequence as the iterator whenever at least one card is chosen.
- **`blackjack.go` uses the rank names `Rank2` … `RankAce`.** These are read
  as the `Two` … `Ace` constants of `fifty2.go`.

## Model

| member | source | states |
|---|---|---|
| Cards.ParseSuit | fifty2.go:20-32 | Each suit is accepted from exactly its lower-case letter, its upper-case letter and its symbol. Every other rune is an `UnknownSuit` error that names the rune. |
| Cards.SuitRoundTrip | fifty2.go:34-46 | Parsing the rune a suit prints as gives the suit back. |
| Cards.SuitMask | fifty2.go:48-50 | A suit's mask is a single bit within the low four bits. |
| Cards.SuitMasksDisjoint | fifty2.go:48-50 | Different suits have disjoint masks. |
| Cards.ParseRank | fifty2.go:74-104 | Exactly the eighteen rank runes are accepted. Each one parses to the rank that prints as it, or as its upper-case form. Any other rune is an `UnknownRank` error that names it. |
| Cards.RankRoundTrip | fifty2.go:106-136 | Parsing the printed rune of a rank, or its lower-case form, gives the rank back. |
| Cards.RankMaskBit | fifty2.go:138-140 | A rank's mask is a single bit below bit 13. |
| Cards.RankMasksDisjoint | fifty2.go:138-140 | Different ranks have disjoint masks. |
| Cards.StandardDeckLayout | fifty2.go:201-211 | The deck has 52 distinct cards in suit-major order: the card at `13*suit + rank` is `Card(rank, suit)`. |
| Cards.StandardDeckComplete | fifty2.go:201-211 | Every card is in the deck. |
| Cards.NewDeck | fifty2.go:201-211 | The nested loops fill exactly the standard deck. |
| Cards.NewDeckSet | fifty2.go:213-221 | The result holds `decks` copies of the standard deck, back to back. |
| Cards.Index | fifty2.go:231-238 | The result is the first position holding the card, and -1 exactly when the card is absent. |
| Cards.Without | fifty2.go:240-246 | An absent card leaves the slice unchanged. Otherwise one copy is removed and the length drops by one. |
| Cards.WithoutAfter | fifty2.go:240-246 | The FIRST occurrence is the one removed: when the card is not in `pre`, `pre + [card] + post` becomes `pre + post`. |
| Cards.Remove | fifty2.go:240-246 | Removing in place on an array prefix gives a new length one shorter exactly when the card was present. The prefix then equals `Without`. An absent card leaves the whole array as it was. After a removal, the slot of the old last card and everything past it are unchanged. |
| Cards.ShiftLeft | fifty2.go:245 | The `append` moves the elements after `index` one slot to the left. The old last slot of the prefix and everything past it keep their values. |
| Cards.WithoutAllPresent | combinations.go:99-101 | Removing cards that are all in the slice leaves the multiset difference. The length drops by the number of cards. |
| Cards.WithoutAllAppend | combinations.go:99-101 | Removing one list of cards and then another is the same as removing the two lists joined. |
| Cards.WithoutAllShrinks | combinations.go:99-101 | Removal never adds a card: what is left is a sub-multiset of the slice. |
| Cards.RemoveCards | poker/potodds/potodds.go:134-138 | Removing a list of cards in place leaves `WithoutAll` of the old prefix. Everything past the old prefix is unchanged. |
| Cards.ReadAll | fifty2.go:187-199 | The read loop returns exactly the cards and error of the reference parse `ParseCards`. |
| Cards.ReadAllRoundTrip | fifty2.go:151-199 | Reading back the printed form of any cards gives those cards and no error. |
| Cards.ParsePrinted | fifty2.go:163-185 | A printed card at the front is read as that card, and reading goes on with the rest. |
| Cards.ReadAllPrefix | fifty2.go:187-199 | After printed cards, the rest of the input is read as if on its own. |
| Cards.ReadAllStopsAt | fifty2.go:163-199 | A bad rank rune stops reading with `UnknownRank`, and a bad suit rune with `UnknownSuit`, keeping the cards read so far. A lone trailing rank rune is end of input, not an error. |
| Cards.ReadAllExample | fifty2_test.go:31-34 | `"3C4D"` reads as the three of clubs and the four of diamonds. |
| Combinatorics.BinomialAbsorption | poker/potodds/potodds.go:238-245 | `C(n, k+1)·(k+1) = C(n, k)·(n−k)`, the step each iteration of `combination` takes. |
| Combinations.IndexCombosValid | combinations.go:13-73 | Every enumerated index vector has `k` strictly increasing entries within range. |
| Combinations.IndexCombosCount | combinations.go:13-73 | There are `C(n−lo, k)` vectors. |
| Combinations.IndexCombosComplete | combinations.go:13-73 | Every strictly increasing in-range vector of length `k` is enumerated. |
| Combinations.IndexCombosSorted | combinations.go:13-73 | The vectors come in strictly increasing lexicographic order. |
| Combinations.SuccessorChain | combinations.go:42-60 | One `moveNext` step (increment with wrap-around, then re-prime) maps each vector to the next one in the enumeration. The last vector has no successor. |
| Combinations.CardCombosCount | combinations.go:20-32 | A slice of `n` cards has `C(n, k)` combinations of `k` cards. |
| Combinations.CardCombosDistinct | combinations.go:66-73 | Over distinct cards, no combination is returned twice. |
| Combinations.CardCombosSubMultiset | combinations.go:66-73 | Every combination draws its cards from the slice. |
| Combinations.FindFromMatches | fifty2.go:262-273 | The recursive channel enumeration from position `i` equals picking the index vectors that start at `i` or later. |
| Combinations.FindCombinationsMatchesIterator | fifty2.go:248-273 | The channel version sends exactly the iterator's combinations, in the same order. |
| Combinations.ComboIterator.constructor | combinations.go:20-40 | After priming, the combinations still to come are all of `CardCombos(slice, choose)`. |
| Combinations.ComboIterator.MoveNext | combinations.go:42-60 | The iterator is done exactly when the index vector has no successor. Otherwise the index array becomes that successor. |
| Combinations.ComboIterator.HasNext | combinations.go:62-64 | True exactly when combinations remain. |
| Combinations.ComboIterator.Next | combinations.go:66-73 | Returns the first remaining combination and removes it from what remains. |
| Combinations.ComboIterator.CopyCurrent | combinations.go:67-70 | Copies the cards at the current indices. |
| Combinations.AllCombinations | combinations.go:20-73 | Draining the iterator yields exactly `CardCombos(slice, choose)`. |
| Combinations.TwoOfFourExample | fifty2_test.go:37-63 | Two from four cards gives the six pairs in the expected order. |
| MultiCombinations.MultiCombosShape | combinations.go:75-141 | Every tuple has one group per entry of `choose`, each of that many cards. |
| MultiCombinations.MultiCombosCount | combinations.go:75-141 | The number of tuples is the product of the binomials of the shrinking pools. |
| MultiCombinations.MultiFromAt | combinations.go:113-130 | Tuples come block by block, one block per first group in combination order. Within a block the later groups vary, so the last group varies fastest. |
| MultiCombinations.MultiCombosDrawnInTurn | combinations.go:96-111 | In every tuple, group `i` is drawn from the pool minus the cards of groups `0..i-1`. |
| MultiCombinations.DrawnWithinPool | combinations.go:96-111 | Groups drawn in turn use, all together, no card more often than the pool holds it. |
| MultiCombinations.DrawnApart | combinations.go:96-111 | Groups drawn in turn from a pool without repeated cards share no card. |
| MultiCombinations.MultiCombosDisjoint | combinations.go:83-141 | Every tuple yielded uses its cards from the pool and, for a pool without repeated cards, its groups are pairwise disjoint. |
| MultiCombinations.PrimeGroups | combinations.go:96-111 | Starts every group after the kept ones, each from the pool left by the previous group, keeping the kept groups. |
| MultiCombinations.DropExhausted | combinations.go:113-124 | Drops the trailing groups whose iterators are exhausted. It stops at the last group that still has a pick. |
| MultiCombinations.ComboSetIterator.constructor | combinations.go:83-111 | After priming, the tuples still to come are all of `MultiCombos(slice, choose)`. |
| MultiCombinations.ComboSetIterator.Prime | combinations.go:96-111 | Keeps the started groups and starts the rest. |
| MultiCombinations.ComboSetIterator.MoveNext | combinations.go:113-130 | The tuple just returned is dropped and the iterator stays on the reference enumeration. |
| MultiCombinations.ComboSetIterator.HasNext | combinations.go:132-134 | True exactly when tuples remain. |
| MultiCombinations.ComboSetIterator.Next | combinations.go:136-141 | Returns the first remaining tuple and removes it. |
| MultiCombinations.AllMultiCombinations | combinations.go:83-141 | Draining the set iterator yields exactly `MultiCombos(slice, choose)`. |
| MultiCombinations.CopyWithout | combinations.go:99-101 | The next group's pool is the previous pool without the previous group's cards. |
| PokerStrength.StrengthRankInverse | poker/poker.go:59-66 | A card strength maps back to its rank, and `AceHigh` maps to the ace. |
| PokerStrength.RankBitsAgree | poker/poker.go:66-68 | The set form of a rank mask agrees with the 16-bit mask. |
| PokerStrength.PackedFields | poker/poker.go:85-91 | The category, the two strengths and the kickers of a packed strength can all be read back; `Rank()` returns the category. |
| PokerStrength.PackedOrder | poker/poker.go:83-91 | Comparing packed strengths as numbers is the lexicographic comparison of (category, strength 1, strength 2, kickers). |
| PokerStrength.NoHandPacked | poker/poker.go:240 | The packed `NoHand` is zero, and its category is `NoHand`. |
| PokerStrength.MaxCardStrength | poker/poker.go:70-81 | The result is an element of the slice and at least every element. |
| PokerStrength.MaxHandStrength | poker/poker.go:93-104 | The result is an element of the slice and at least every element. |
| PokerStrength.MinHandStrength | poker/poker.go:106-117 | The result is an element of the slice and at most every element. |
| PokerStrength.FindStraight | poker/poker.go:287-302 | The loop finds a straight exactly when `StraightHigh` does, and returns its strength. |
| PokerStrength.StraightHighSpec | poker/poker.go:287-302 | The ace-high straight wins when its five ranks are present. Otherwise the result is the highest top card of a present five-rank run, with the wheel counted as Five-high. When there is no run, no straight is found. |
| PokerStrength.GetKickers | poker/poker.go:304-317 | The loop builds exactly `HighKickers`. |
| PokerStrength.HighKickersChosen | poker/poker.go:304-317 | A strength is a kicker exactly when it is present and fewer than `max` present strengths are above it. |
| PokerStrength.HighKickersCount | poker/poker.go:304-317 | The number of kickers is `max`, or all the present strengths when fewer are present. |
| PokerStrength.GetLowKickers | poker/poker.go:319-332 | The loop builds exactly `LowKickers` and counts `LowFound`. |
| PokerStrength.LowKickersChosen | poker/poker.go:319-332 | A strength below `AceHigh` is a low kicker exactly when it is present and fewer than `max` present strengths are below it. |
| PokerStrength.LowKickersFound | poker/poker.go:319-332 | The count returned is `max`, or all the present low strengths when fewer, and it equals the number of kickers. |
| PokerEval.TallyContents | poker/poker.go:139-144 | Each rank and suit count is the number of matching cards modulo 256 (`uint8`). The bit sets hold exactly the ranks present, overall and per suit. |
| PokerEval.TallyPermutation | poker/poker.go:139-144 | The tallies depend only on the multiset of cards, not their order. |
| PokerEval.TallyHand | poker/poker.go:139-144 | The counting loop produces the rank and suit tallies of the hand. |
| PokerEval.TallyRanks | poker/poker.go:226-229 | The low evaluator's counting loop produces the rank tally. |
| PokerEval.StraightFlushSearch | poker/poker.go:146-156 | The per-suit straight search returns `StraightFlushPart`. |
| PokerEval.SetSearch | poker/poker.go:158-164 | The descending search for a rank with `need` cards returns `SetFrom` (used for quads, and for trips at poker.go:193-199). |
| PokerEval.FullHouseSearch | poker/poker.go:166-175 | The nested search returns `FullHouseFrom`. |
| PokerEval.FlushSearch | poker/poker.go:177-186 | The suit scan returns `FlushPart`. |
| PokerEval.SecondPairSearch | poker/poker.go:204-209 | The inner pair search returns `SecondPair`. |
| PokerEval.PairsSearch | poker/poker.go:201-213 | The two-pair/pair search returns `PairsFrom`. |
| PokerEval.CalculateHandStrength | poker/poker.go:130-217 | `calculateHandStrength` returns `HighStrength(hand)`. |
| PokerEval.LowTwoPairAt | poker/poker.go:251-256 | One step of the inner two-pair loop. |
| PokerEval.LowTwoPairSearch | poker/poker.go:250-257 | The inner loop returns `LowTwoPairFrom`. |
| PokerEval.LowPairSearch | poker/poker.go:245-257 | The pair-or-two-pair test at one low pair returns `LowPairAt`. |
| PokerEval.LowPairsSearch | poker/poker.go:244-259 | The ascending pair search returns `LowPairsFrom`. |
| PokerEval.LowFullHousePairSearch | poker/poker.go:268-272 | The ascending pair search inside the trips loop returns `LowFullHousePair`. |
| PokerEval.LowTripsSearch | poker/poker.go:262-274 | The trips/full-house search returns `LowTripsFrom`. |
| PokerEval.LowQuadsSearch | poker/poker.go:277-282 | The quads search returns `LowQuadsFrom`. |
| PokerEval.GetLowHandStrength | poker/poker.go:219-285 | Returns `LowStrength(hand, eightOrBetter)`, where `None` stands for the panic at the end of the cascade. |
| PokerEval.StrengthCache.constructor | poker/poker.go:8-12 | The cache starts empty. |
| PokerEval.StrengthCache.GetHandStrength | poker/poker.go:119-128 | Returns `HighStrength(hand)` whether or not the cache hits. Afterwards the entry for the hand's cards holds that strength, and every entry is still the strength of its cards. |
| PokerEval.CacheHit | poker/poker.go:119-122 | A hit returns the strength of a hand with exactly the looked-up cards. |
| PokerEval.CacheAdd | poker/poker.go:124-125 | Adding a computed strength keeps every entry faithful. |
| PokerEval.HighStrengthPermutation | poker/poker.go:119-128 | The high strength depends only on the cards, which is what makes a cache keyed by the cards sound. |
| PokerEval.NineCutMask | poker/poker.go:234 | The cut value is the mask of strength 9. |
| PokerCategories.HighCategory | poker/poker.go:130-217 | The category of the computed strength is the best category present in the hand, defined directly on the tallies. |
| PokerCategories.StraightFlushPartSpec | poker/poker.go:146-156 | A straight flush is found exactly when some suit holds a straight, and it is ranked `StraightFlush`. |
| PokerCategories.SuitStraightsSpec | poker/poker.go:147-152 | The straights list is non-empty exactly when some suit has a straight. |
| PokerCategories.SetFromSpec | poker/poker.go:158-164 | The search succeeds exactly when some strength at or below the start has `need` cards, and the result carries the given category. |
| PokerCategories.SetLink | poker/poker.go:158-164 | Over all strengths, the set search succeeds exactly when some rank has `need` cards. |
| PokerCategories.FullHousePairSpec | poker/poker.go:169-173 | A pair is found exactly when a different strength at or below the start has two cards. |
| PokerCategories.FullHouseFromSpec | poker/poker.go:166-175 | A full house is found exactly when a strength at or below `hi` has three cards and a different strength has two. |
| PokerCategories.FullHouseLink | poker/poker.go:166-175 | The full-house search succeeds exactly when two different ranks have three and two cards. |
| PokerCategories.FlushPickBest | poker/poker.go:178-183 | The chosen flush mask is at least the mask of every suit with five or more cards. |
| PokerCategories.FlushPickFound | poker/poker.go:178-184 | A flush mask is chosen exactly when some suit has five cards. |
| PokerCategories.FlushPartSpec | poker/poker.go:177-186 | A flush is found exactly when a suit has five cards, and it is ranked `Flush`. |
| PokerCategories.StraightPartSpec | poker/poker.go:188-191 | A straight is found exactly when the ranks hold a five-rank run, and it is ranked `Straight`. |
| PokerCategories.SecondPairSpec | poker/poker.go:204-209 | A second pair is found exactly when some strength at or below the start has two cards, and the one found is such a strength. |
| PokerCategories.PairsFromSpec | poker/poker.go:201-213 | The search succeeds exactly when a pair is present. The result is `TwoPair` exactly when two pairs are present, and `Pair` otherwise. |
| PokerCategories.PairsLink | poker/poker.go:201-213 | Over all strengths, the result is a pair or two pair, and it is `TwoPair` exactly when two ranks are paired. |
| PokerCategories.TwoPairByStrength | poker/poker.go:201-209 | Two paired ranks exist exactly when two paired strengths exist. |
| PokerCategories.HighNeverNoHand | poker/poker.go:130-217 | Every high strength has a category from `HighCard` to `StraightFlush`. |
| PokerCategories.QualifiesMeans | poker/poker.go:234 | A low qualifies exactly when every kicker is at most a Nine. |
| PokerCategories.LowEightOrBetter | poker/poker.go:231-241 | With eight-or-better, the low is a high-card low of the lowest distinct ranks (five of them, or all the cards when none is paired) when it qualifies, and `NoHand` otherwise; nothing else is returned. |
| PokerCategories.LowTwoPairRank | poker/poker.go:250-257 | A low two pair found is ranked `TwoPair`. |
| PokerCategories.LowPairsRank | poker/poker.go:244-259 | A low found by the pair search is a pair or two pair. |
| PokerCategories.LowTripsRank | poker/poker.go:262-274 | A low found by the trips search is trips or a full house. |
| PokerCategories.LowQuadsRank | poker/poker.go:277-282 | A low found by the quads search is quads. |
| PokerCategories.LowNeverNoHand | poker/poker.go:219-285 | An unqualified low, when it exists, is never `NoHand`, `Straight`, `Flush` or `StraightFlush`. |
| Games.GetGame | poker/game.go:97-99 | An unknown tag gives the zero game, and a known one gives a named game. |
| Games.KnownGames | poker/game.go:35-99 | The game has a name exactly for the seven table tags. |
| Games.HiLoGames | poker/game.go:29-94 | `IsHiLo` holds exactly for Omaha hi/lo, stud hi/lo and razz. Razz is the only game without a high evaluator. |
| Games.SevenCardsLayout | poker/game.go:101-106 | The hand has seven slots: the board from slot 2, the pocket before it, and zero cards elsewhere. A two-card pocket with a full board gives pocket then board. |
| Games.EightLowNeverPanics | poker/game.go:76 | The eight-or-better low never reaches the panic. |
| Games.Ratings | poker/game.go:109-115 | One rating per pick, each being the picked cards laid out with the board. |
| Games.Rate | poker/game.go:37-94 | Calling a table strength function returns `Evaluate` of it. |
| Games.StudIgnoresBoard | poker/game.go:63-93 | The stud and razz evaluators ignore the board. |
| Games.HighFunctionsTotal | poker/game.go:37-94 | Every high evaluator in the table rates every hand of the game's size. |
| Games.BestRating | poker/game.go:108-117 | The maximum rating is some pick's rating and at least every pick's rating. |
| Games.OmahaHighIsBest | poker/game.go:108-117 | The Omaha high is the best strength over the two-card picks from the pocket, each played with the whole board. |
| Games.OmahaSixPicks | poker/game.go:109 | A four-card pocket has six two-card picks. |
| Games.QualifyingMembers | poker/game.go:120-129 | The qualifying lows are exactly the picks' lows that are not `NoHand`. |
| Games.NoneQualifying | poker/game.go:120-135 | The list is empty exactly when every pick's low is `NoHand`. |
| Games.LowestQualifying | poker/game.go:131-133 | The minimum qualifying low is some pick's qualifying low and at most every qualifying low. |
| Games.OmahaLowNoHand | poker/game.go:119-136 | The Omaha low is `NoHand` exactly when no pick has an eight-or-better low. |
| Games.OmahaLowIsBest | poker/game.go:119-136 | Otherwise it is the lowest qualifying low over the picks. |
| Games.GetOmahaHandStrength | poker/game.go:108-117 | The loop returns `OmahaHighStrength`. |
| Games.GetEightLow | poker/game.go:125 | Returns the eight-or-better low. |
| Games.QualifyingLows | poker/game.go:120-129 | The loop collects exactly the qualifying lows, in pick order. |
| Games.KeepLow | poker/game.go:122-128 | One turn of the loop: the kept list followed by the qualifying lows of the remaining picks equals the list before the turn followed by the qualifying lows of this pick and the remaining ones. |
| Games.GetOmahaLowHandStrength | poker/game.go:119-136 | The loop returns `OmahaLowStrength`. |
| PotOdds.Tally.Add | poker/potodds/potodds.go:68-73 | Wins, ties and losses add component by component, so totals add. |
| PotOdds.AddAll | poker/potodds/potodds.go:33-40 | One sum per seat of the first tally, with totals adding. |
| PotOdds.AddGameTally | poker/potodds/potodds.go:33-40 | The loop returns `AddAll`. |
| PotOdds.AddAllAssociative | poker/potodds/potodds.go:33-40 | Adding tallies is associative, so accumulating deal by deal is order-safe. |
| PotOdds.Holding | poker/potodds/potodds.go:218-225 | Every index listed holds the maximum. |
| PotOdds.HoldingMembers | poker/potodds/potodds.go:218-225 | `best` lists exactly the seats holding the maximum, in increasing order. |
| PotOdds.HoldingSize | poker/potodds/potodds.go:226 | `best` has more than one entry exactly when two seats share the value. |
| PotOdds.OutcomeMeaning | poker/potodds/potodds.go:216-233 | A seat loses exactly when another seat is stronger. It wins exactly when it is strictly stronger than every other seat. It ties exactly when it is a maximum shared with another seat. |
| PotOdds.OneOutcomePerSeat | poker/potodds/potodds.go:216-233 | Each seat gets exactly one of a win, a tie or a loss per deal. |
| PotOdds.DealCredits | poker/potodds/potodds.go:216-233 | At most one seat wins, some seat does not lose, and ties come at least in pairs. |
| PotOdds.CreditLosses | poker/potodds/potodds.go:217-225 | Every seat below the maximum gets a loss, and `best` lists the others. |
| PotOdds.CreditTies | poker/potodds/potodds.go:226-229 | Exactly the seats in `best` get a tie. |
| PotOdds.CreditShared | poker/potodds/potodds.go:226-229 | With a shared maximum, the tally becomes the old one plus the deal's outcomes. |
| PotOdds.CreditWinner | poker/potodds/potodds.go:230-232 | With a single maximum, the tally becomes the old one plus the deal's outcomes. |
| PotOdds.TiedOutcomes | poker/potodds/potodds.go:226-229 | With a shared maximum, the best seats tie and the rest lose. |
| PotOdds.WonOutcomes | poker/potodds/potodds.go:230-232 | With a single maximum, that seat wins and the rest lose. |
| PotOdds.ScoreDeal | poker/potodds/potodds.go:216-233 | Scoring one deal adds its outcomes to the tally. |
| PotOdds.ParseHands | poker/potodds/potodds.go:116-127 | Accepted hands have one entry per argument, none longer than the hand size. |
| PotOdds.ParseHandsRead | poker/potodds/potodds.go:116-127 | Each accepted hand is what the card reader reads from its argument, with no error. |
| PotOdds.ParseHandsRefused | poker/potodds/potodds.go:116-127 | The arguments are refused exactly when one of them fails to read or is too long. |
| PotOdds.ParseHandsAccepts | poker/potodds/potodds.go:116-127 | Arguments that read cleanly and fit are accepted as read. |
| PotOdds.Validate | poker/potodds/potodds.go:100-132 | An accepted command line names a known game, fits its sizes and has at least two hands. |
| PotOdds.ValidateReads | poker/potodds/potodds.go:106-127 | The accepted board and hands are exactly what the card reader reads. |
| PotOdds.ValidateAccepts | poker/potodds/potodds.go:100-132 | A known game with a clean board, fitting hands and at least two of them is accepted as read. |
| PotOdds.TooFewRefused | poker/potodds/potodds.go:129-132 | Fewer than two hands is refused. |
| PotOdds.ChooseVector | poker/potodds/potodds.go:149-156 | Group 0 fills the board and group `i+1` fills hand `i` up to the game's sizes. |
| PotOdds.ChooseSetup | poker/potodds/potodds.go:149-156 | The loop builds `ChooseVector`, and `deckChoose` is the number of cards all the groups need. |
| PotOdds.TableHiPlayable | poker/game.go:87-93 | Every table game but razz has a high evaluator that rates every hand of its size. |
| PotOdds.HiRated | poker/potodds/potodds.go:209-213 | For such a game every full hand gets a rating, so the error branch is never taken. |
| PotOdds.SeatStrength | poker/potodds/potodds.go:209-213 | A full hand of a playable game scores the evaluator's strength. |
| PotOdds.StrengthsRated | poker/potodds/potodds.go:205-213 | Each seat's strength is the evaluator's rating of the full board and that seat's full hand. |
| PotOdds.StrengthsAt | poker/potodds/potodds.go:205-213 | Seat `i` is rated on the known board plus group 0, and its known cards plus group `i+1`. |
| PotOdds.CopyAfterKnown | poker/potodds/potodds.go:206-208 | Copying a group after the known cards gives the known cards followed by the group. |
| PotOdds.TallyTotals | poker/potodds/potodds.go:199-236 | Every seat's tally counts each tuple exactly once. |
| PotOdds.DealTotals | poker/potodds/potodds.go:199-236 | Every seat's total is the number of ways to split the deal into the groups. |
| PotOdds.TallyOverSnoc | poker/potodds/potodds.go:203-233 | Tallying one more tuple adds that tuple's outcomes. |
| PotOdds.Odds.constructor | poker/potodds/potodds.go:140-156 | The buffers have the game's sizes, start with the known cards and are blank after them. The groups are the game's groups. |
| PotOdds.Odds.TallyDeal | poker/potodds/potodds.go:199-236 | The result is the winner rule folded over every split of the deal, in set-iterator order. The buffers keep their sizes and known cards. |
| PotOdds.TallyDeals | poker/potodds/potodds.go:199-236 | The same result, over explicit state. |
| PotOdds.TallyLoop | poker/potodds/potodds.go:203-233 | Draining the set iterator tallies every tuple it returns. |
| PotOdds.TallyStep | poker/potodds/potodds.go:203-233 | One iteration adds the outcomes of the next tuple. |
| PotOdds.PlayDeal | poker/potodds/potodds.go:204-214 | The buffers become the known cards plus the groups, and the strengths are those of the full hands. |
| PotOdds.TallyOne | poker/potodds/potodds.go:204-233 | Playing and scoring one tuple extends the tally by that tuple. |
| PotOdds.RateSeats | poker/potodds/potodds.go:207-214 | Each seat's buffer is its known cards plus its group, and its strength is the rating of that hand on the full board. |
| PotOdds.FullHands | poker/potodds/potodds.go:143-147 | Each hand buffer has the game's hand size and starts with the known cards. |
| PotOdds.Combination | poker/potodds/potodds.go:238-245 | Returns `C(n, k)` for `k ≥ 1`; the division in each step is exact. For `k = 0` it returns `n`, as written. |
| Blackjack.CardValue | blackjack/blackjack.go:7-31 | An ace is worth 11 and only an ace. Two to nine are worth their pip, tens and faces 10, so every value is between 2 and 11. |
| Blackjack.AceUnit | blackjack/blackjack.go:38-40 | An ace counts one, any other card zero. |
| Blackjack.RawCoversAces | blackjack/blackjack.go:36-41 | The raw sum is at least 11 per ace, and at least 2 per card plus 9 per ace. |
| Blackjack.Softenings | blackjack/blackjack.go:43-45 | The number of aces turned from 11 to 1 is the least that brings the hand to 21 or below, or all of them. |
| Blackjack.ValueMeaning | blackjack/blackjack.go:33-48 | A hand is counted raw when that is at most 21. Otherwise it is at most 21 exactly when counting every ace as 1 would be, and a softened value is above 11. A value over 21 counts every ace as 1. |
| Blackjack.ValuePermutation | blackjack/blackjack.go:33-48 | The value does not depend on card order. |
| Blackjack.ValueAtLeast | blackjack/blackjack.go:33-48 | A hand is worth at least one per card. |
| Blackjack.HandValue | blackjack/blackjack.go:33-48 | The summing loop and the softening loop return `Value(hand)`. |
| Blackjack.Soften | blackjack/blackjack.go:43-45 | The softening loop subtracts 10 exactly `Softenings` times. |
| Blackjack.TestHandValues | blackjack/blackjack_test.go:8-63 | The nine hands of the test table have values 4, 12, 13, 14, 20, 21, 21, 21 and 29. |

## Left out

- `Shuffle` (fifty2.go:223-229): it draws from a time-seeded random source.
- `Suits`, `Ranks`, `HandRanks` and `HandRank.String`: fixed lists and display strings. Quantifying over the `Suit`, `Rank` and `HandRank` types stands in for the lists.
- `Card.String`: modelled as `CardRunes`, the two runes without `fmt`.
- `NewCardReader` and `bufio`: the reader's input is a `seq<char>`.
- The goroutine and channel of `Combinations` in `fifty2.go`: the model keeps the sequence sent on the channel, not the concurrency.
- The LRU cache: its size bound and eviction are not modelled. The cache here is a map keyed by the multiset of the hand's cards. The source keys it by `Mask(hand)`, which is not defined in the files of this model. A mask built from one bit per card would identify the SET of cards, so two hands that differ only in how often a card repeats would share an entry there but not here. For hands without repeated cards, the two keys agree.
- `main` of `potodds`:
  - flag parsing, profiling and printing;
  - the approximate mode (shuffled deals until the float `Delta` settles);
  - the progress bar;
  - the outer loop over `Combinations(deck, deckChoose)`.

  The checks, the deck removal, the buffers and the groups are modelled.
- `WinOdds`, `TieOdds`, `LossOdds` and `Delta`: floating point.
- `pokerodds.go`: not part of this model.
- The evaluators' hand-strength fixtures in `poker/poker_test.go` (for example `5♣5♦8♠5♠8♣` rated `FullHouse` of Fives over Eights): not stated as lemmas. The category lemmas state which category a hand reaches. The exact kicker lists of the fixtures are not checked on concrete hands.
- The twelve-tuple fixture of `TestMultipleCombinations` (`fifty2_test.go:65-137`): not stated as a lemma on the concrete cards. Its count follows from `MultiCombinations.MultiCombosCount` (C(4,2)·C(2,1) = 12). Its order follows from `MultiCombinations.MultiFromAt` with `Combinations.TwoOfFourExample`, which lists the six pairs.
- Combinations.FindCombinationsMatchesIterator: holds for `choose >= 1` only. With `choose == 0`, `findCombinations` writes `combo[0]` of an empty slice. It panics on a non-empty slice and sends nothing on an empty one. The iterator yields one empty combination. The model requires `choose >= 1` for the channel version.
- Combinations.ComboIterator.Next and MultiCombinations.ComboSetIterator.Next: require `HasNext()`. In the source, `Next` after exhaustion still returns the cards at the wrapped-around positions and steps on. That use is not modelled.
- PotOdds.Tally.Add: counts are unbounded; the `int64` overflow of `Wins`, `Ties` and `Losses` is not modelled.
- PotOdds.Combination: the `int64` intermediate products are unbounded here.
- Blackjack.HandValue: the sum is a natural number; the `uint` wrap-around of a hand worth more than 2^64 is not modelled.
- Blackjack.CardValue: the `return 0` after the switch is unreachable, since every rank is one of the cases.
- MultiCombinations.ComboSetIterator.constructor: the per-group iterators are modelled as the sequences of combinations they still hold, not as nested `comboIterator` objects.
- PotOdds.Odds.TallyDeal: states that the buffers keep their sizes and known cards, but not which tuple they hold after the loop.
- PotOdds.SeatStrength: a hand the evaluator cannot rate scores `NoHandStrength`, as the error branch does. For a playable game no such hand exists.
