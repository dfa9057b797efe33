# Blackjack round engine — a Dafny model

This project models the game logic of the MainSkown Blackjack app for Android: the
deck of 52 cards, hand scoring, the round engine that deals, plays the player's and
the dealer's turns and settles the bet, the older round engine embedded in the
game screen, the game page's chip and session bookkeeping, the persisted game
table and its result converter, and the betting slider's presets.

Files and modules:

- `wrappers.dfy` (`Wrappers`): `Option` for Kotlin's nullable values, `Result` and
  `Outcome` for operations that throw.
- `styles.dfy` (`Styles`): the `CardStyle` and `BackgroundStyle` enums and their names.
- `card.dfy` (`Cards`): suits and their letters, the `Card` value and its asset paths.
- `deck.dfy` (`Decks`): the `Deck` class: construction, seeded shuffle, draw, count.
- `scoring.dfy` (`Scoring`): hand values. `calcValue` is modelled twice: as written
  and corrected (see Findings). `AceRule` names the two: `AsWrittenAces` is the app,
  `UsualAces` the intended rule, and `Score(rule, …)` is the value under either.
- `outcomes.dfy` (`Outcomes`): the WIN/LOSE/DRAW decision and the chip delta.
- `round.dfy` (`Round`): the `GameComponentViewModel` class, the round engine. It is
  built with an `AceRule` and scores every hand under it, so the engine with
  `AsWrittenAces` is the app as it ships.
- `legacy_round.dfy` (`LegacyRound`): the round logic of the `GameComponent` screen.
  It has no draw outcome, no naturals and no two-card-21 exception. It takes an
  `AceRule` too.
- `storage.dfy` (`Storage`): the `GameData` row, `GameResultConverter`, and `GameDao`
  as an in-memory table.
- `session.dfy` (`Session`): `GamePageViewModel` and its `GamePageUiState`. The copy
  of that class in `ui/pages/GamePage.kt` (lines 188-315) is the same code, and
  this one class models both copies.
- `bidding.dfy` (`Bidding`): the slider presets of `BiddingComponent`. The `Bidder`
  is built with an `Arithmetic`: `Int32Arithmetic` is the slider as written,
  `ExactArithmetic` the intended presets.

Outside effects become parameters. The current date is a string `now`. The fresh
seed is `freshSeed`, used when no seed is stored. The seeded shuffle is a function
`arrange(seed, cards)` that must be a permutation for every seed.

Dealing on screen is animated. The view model bumps a deal key and polls
`inAnimation`. The screen then draws the card, adds it to the hand and calls
`setAnimationComplete`. Here the bump and the deal it triggers form one synchronous
step (`DealerHit`, `PlayerHit`).

Where the specification and the code disagree, the model follows the code:

- The specification calls the sequential ace rule equivalent to the usual
  soft/hard rule. It is not (see Findings).
- The specification says an invalid bet is rejected before dealing. No such check
  exists in the code. The slider only ever offers presets, which
  `Bidding.PresetsAreAffordable` shows to be affordable; with the slider's 32-bit
  arithmetic that holds up to 715827882 chips (`Bidding.Bidder.PlaceBet`).
- `Deck.shuffle()` in `models/Deck.kt` takes no seed and returns nothing. Its caller
  `startGame` calls `shuffle(seed)` and stores the seed it returns. `Decks.Deck.Shuffle`
  follows the caller.

## Model

| member | source | states |
|---|---|---|
| Scoring.CalcValueAsWritten | app/src/main/java/com/mainskown/blackjack/models/GameComponentViewModel.kt:219-248 | the loop computes the as-written value of the hand: face-down cards skipped unless `ignoreFaceDown`, ranks 10-13 count ten, aces added last, each as 11 when the running total stays at 21 or less |
| Scoring.CalcValue | app/src/main/java/com/mainskown/blackjack/models/GameComponentViewModel.kt:219-248 | the corrected half of the ace-rule finding: the same loop computes `HandValue`, in which one ace is raised to eleven when that keeps the total at 21 or less |
| Scoring.CalcValueUnder | app/src/main/java/com/mainskown/blackjack/components/GameComponent.kt:554-582 | the older screen's flagless `calcValue` always skips face-down cards and otherwise is the same loop, so it is `CalcValueAsWritten(hand, false)` (and equal to the view model's with either flag on a face-up hand, `AllFaceUpIgnoresFlag`); under a rule, the value computed is `Score` of that rule |
| Scoring.RulesAgreeOrAsWrittenBusts | app/src/main/java/com/mainskown/blackjack/models/GameComponentViewModel.kt:238-247 | for any hand, the as-written value equals the corrected one or is ten more and over 21: the app never scores a hand lower, and never turns a hand of 21 or less into another such total |
| Scoring.TallyCountsRanks | app/src/main/java/com/mainskown/blackjack/models/GameComponentViewModel.kt:226-236 | one pass over the hand gathers exactly the sum of the counted non-aces and the number of counted aces |
| Scoring.HandValueIsRankValue | app/src/main/java/com/mainskown/blackjack/models/GameComponentViewModel.kt:226-247 | the value of a hand, by either rule, is the value of the list of ranks it counts |
| Scoring.CountedSelectsFaceUp | app/src/main/java/com/mainskown/blackjack/models/GameComponentViewModel.kt:226-227 | with `ignoreFaceDown` every card is counted, otherwise exactly the face-up cards, in order |
| Scoring.FaceDownCardCountsOnlyWhenIgnored | app/src/main/java/com/mainskown/blackjack/models/GameComponentViewModel.kt:227 | a single face-down card scores 0 when face-down cards are skipped |
| Scoring.FaceDownCardCountedAsFaceUp | app/src/main/java/com/mainskown/blackjack/models/GameComponentViewModel.kt:221-227 | counted with `ignoreFaceDown`, a face-down card scores what it scores face up |
| Scoring.AllFaceUpIgnoresFlag | app/src/main/java/com/mainskown/blackjack/components/GameComponent.kt:560-561 | when every card is face up, the flag makes no difference, so the older screen's flagless `calcValue` agrees with the view model's |
| Scoring.SequentialAcesClosedForm | app/src/main/java/com/mainskown/blackjack/models/GameComponentViewModel.kt:239-245 | the sequential ace loop makes the first ace eleven exactly when the total so far is at most ten, and every later ace one |
| Scoring.RankValueIsBestAceAssignment | app/src/main/java/com/mainskown/blackjack/models/GameComponentViewModel.kt:238-247 | the corrected value is the hard total or the hard total plus ten, is at least every ace assignment that stays at 21 or less, and exceeds 21 only when the hard total does |
| Scoring.AsWrittenDiffersExactlyWhen | app/src/main/java/com/mainskown/blackjack/models/GameComponentViewModel.kt:238-247 | the as-written value differs from the corrected one iff there are two or more aces, the non-aces total at most ten and the hard total is over eleven; it is then ten more, and over 21 |
| Scoring.AsWrittenBustsKingAceAce | app/src/main/java/com/mainskown/blackjack/models/GameComponentViewModel.kt:239-245 | king, ace, ace scores 22 as written and 12 corrected |
| Scoring.ScoringExamples | app/src/main/java/com/mainskown/blackjack/models/GameComponentViewModel.kt:219-248 | [A,K]=21, [A,A]=12, [A,A,9]=21 and [K,Q,2]=22 under both rules |
| Scoring.CountsAreOrderIndependent | app/src/main/java/com/mainskown/blackjack/models/GameComponentViewModel.kt:226-236 | the non-ace sum and the ace count depend only on the multiset of ranks |
| Scoring.ValueIsOrderIndependent | app/src/main/java/com/mainskown/blackjack/components/GameComponent.kt:557-581 | neither rule depends on the order of the cards |
| Outcomes.Resolve | app/src/main/java/com/mainskown/blackjack/models/GameComponentViewModel.kt:171-187 | LOSE iff the player is over 21 or the dealer is at most 21 and above the player; WIN iff the player is at most 21 and above the dealer or the dealer busts; DRAW iff both are equal and at most 21 |
| Outcomes.ChipDelta | app/src/main/java/com/mainskown/blackjack/models/GameComponentViewModel.kt:174-186 | a positive bet is gained exactly on WIN and lost exactly on LOSE, and DRAW changes nothing |
| Outcomes.ResolutionTable | app/src/main/java/com/mainskown/blackjack/models/GameComponentViewModel.kt:172-187 | (dealer 18, player 20) WIN, (22,18) WIN, (20,20) DRAW, (20,22) LOSE, (19,18) LOSE, (25,25) LOSE |
| Outcomes.ResolveIsMonotone | app/src/main/java/com/mainskown/blackjack/models/GameComponentViewModel.kt:172-187 | a higher non-busting player total, or a lower non-busting dealer total, never makes the result worse for the player |
| Styles.DefaultCardStyle | app/src/main/java/com/mainskown/blackjack/models/Styles.kt:3-8 | the default card style is the first entry, CLASSIC, named "Classic" |
| Styles.CardStyleNamesDistinct | app/src/main/java/com/mainskown/blackjack/models/Styles.kt:3-14 | two card styles have the same asset folder name only when they are the same style |
| Styles.BackgroundNameIsLowerCaseConstant | app/src/main/java/com/mainskown/blackjack/models/Styles.kt:16-42 | every background prints as its constant name in lower case (ACE_CAT as "ace_cat"), and the first entry is RED |
| Cards.LetterSuit | app/src/main/java/com/mainskown/blackjack/models/Card.kt:10-31 | the suit letters h, d, c, s read back to their suits, and no other letter names a suit |
| Cards.NatDigitsRoundTrip | app/src/main/java/com/mainskown/blackjack/models/Card.kt:43 | the decimal digits a value prints as denote that value |
| Cards.FrontFileNameDecodes | app/src/main/java/com/mainskown/blackjack/models/Card.kt:42-43 | the face file name is the suit letter, the value padded with a leading "0" below ten, then ".png"; suit and value can be read back from it |
| Cards.FrontFileNameInjective | app/src/main/java/com/mainskown/blackjack/models/Card.kt:43 | two cards share a face file name only when suit and value agree |
| Cards.Card.FrontImagePath | app/src/main/java/com/mainskown/blackjack/models/Card.kt:41-44 | the face is loaded from "cards/" + style + "/" + file name, never from the back image |
| Cards.Card.BackImagePath | app/src/main/java/com/mainskown/blackjack/models/Card.kt:53-54 | the back is loaded from "cards/" + style + "/back.png", a path that depends on the style alone |
| Cards.FrontPathIsNotBackPath | app/src/main/java/com/mainskown/blackjack/models/Card.kt:44-54 | no face path of a style equals its back path |
| Cards.AssetNameExamples | app/src/main/java/com/mainskown/blackjack/models/Card.kt:43-54 | "h01.png" for the ace of hearts, "cards/Modern/back.png" for a modern back |
| Cards.TwoDigitAssetNameExamples | app/src/main/java/com/mainskown/blackjack/models/Card.kt:43-44 | "s13.png" for the king of spades, "cards/Classic/d10.png" for the classic ten of diamonds |
| Decks.CanonicalFacesAreTheFullDeck | app/src/main/java/com/mainskown/blackjack/models/Deck.kt:9-13 | the suit-major construction order holds every (suit, rank 1..13) exactly once, at position suit*13 + rank - 1, and nothing else |
| Decks.Deck.constructor | app/src/main/java/com/mainskown/blackjack/models/Deck.kt:8-14 | a new deck is the 52 distinct cards in suit-major order, all face up, all in the chosen style; 52 cards are left |
| Decks.Deck.Shuffle | app/src/main/java/com/mainskown/blackjack/models/Deck.kt:16-18 | the cards are rearranged by the permutation of the stored seed, or of a fresh one when none is stored; the multiset and the count are kept; the seed used is returned |
| Decks.Deck.DrawCard | app/src/main/java/com/mainskown/blackjack/models/Deck.kt:20-30 | the last card is removed and returned and the rest is unchanged, so one card fewer is left; a draw fails with NoMoreCards exactly when no card is left, and the deck is then unchanged |
| Decks.DrawsFromFullDeck | app/src/main/java/com/mainskown/blackjack/models/Deck.kt:20-30 | after k draws from a full deck of distinct cards, 52 - k cards are left, drawn and left together are 52 cards, and no drawn card is still in the deck |
| Decks.DrawPartition | app/src/main/java/com/mainskown/blackjack/models/Deck.kt:20-22 | the cards drawn and the cards left partition the deck; with distinct cards, no card is drawn twice or both drawn and left |
| Decks.DrawnExample | app/src/main/java/com/mainskown/blackjack/models/Deck.kt:22 | two draws from [1,2,3,4,5] return 5, then 4 |
| Round.Revealed | app/src/main/java/com/mainskown/blackjack/models/GameComponentViewModel.kt:131-140 | turning the dealer's hidden first card face up keeps every card's rank, suit and style and changes no other card |
| Round.DrewBelowMeans | app/src/main/java/com/mainskown/blackjack/models/GameComponentViewModel.kt:149-158 | each card the dealer drew was drawn while the dealer's face-up cards before it scored below the player |
| Round.NoDrawAtOrAboveTarget | app/src/main/java/com/mainskown/blackjack/models/GameComponentViewModel.kt:150 | a dealer whose revealed hand already reaches the player's total draws nothing |
| Round.BeatenOnlyByBust | app/src/main/java/com/mainskown/blackjack/models/GameComponentViewModel.kt:148-187 | once the dealer stands at or above the player, the player wins only if the dealer busts and draws only on an equal total of at most 21 |
| Round.AceAceKingEndsTheRoundOnlyAsWritten | app/src/main/java/com/mainskown/blackjack/models/GameComponentViewModel.kt:114-127 | ace, ace, king, the order a player gets by drawing a king onto two aces: the engine's `AsWrittenAces` score is 22, over the 21 at which the player's turn and the round end, while `UsualAces` scores 12 and play goes on |
| Round.HoldAtTwentyAgainstTwentyDraws | app/src/main/java/com/mainskown/blackjack/models/GameComponentViewModel.kt:77-190 | a round run through the engine under either rule with the deck left in construction order: dealer K♠ (hidden) and J♠, player Q♠ and 10♠; the player holds at 20, the dealer reveals 20 and draws nothing, the result is DRAW and the 100 chips are kept |
| Round.HoldAtFifteenLoses | app/src/main/java/com/mainskown/blackjack/models/GameComponentViewModel.kt:83-187 | dealer 10♠ (hidden) and 9♦, player 7♥ and 8♣: no natural, the dealer reveals 19 and draws nothing, and the player holding at 15 loses 25 of 100 chips |
| Round.GameComponentViewModel.constructor | app/src/main/java/com/mainskown/blackjack/models/GameComponentViewModel.kt:45-60 | empty hands, the given chips and bet, the preferred card style, result LOSE, every flag and key cleared, and a full canonical deck in that style; hands are scored under the given ace rule |
| Round.GameComponentViewModel.AddCardToDealerHand | app/src/main/java/com/mainskown/blackjack/models/GameComponentViewModel.kt:69-72 | appends the card to the dealer's hand and changes nothing else |
| Round.GameComponentViewModel.AddCardToPlayerHand | app/src/main/java/com/mainskown/blackjack/models/GameComponentViewModel.kt:73-75 | appends the card to the player's hand and changes nothing else |
| Round.GameComponentViewModel.SetAnimationComplete | app/src/main/java/com/mainskown/blackjack/models/GameComponentViewModel.kt:208-211 | clears `inAnimation` and `animationFaceDown` and changes nothing else |
| Round.GameComponentViewModel.DrawCard | app/src/main/java/com/mainskown/blackjack/models/GameComponentViewModel.kt:213-217 | returns the deck's top card turned to the requested side and removes it; fails on an empty deck |
| Round.GameComponentViewModel.DealerHit | app/src/main/java/com/mainskown/blackjack/models/GameComponentViewModel.kt:89-98 | the dealer's key goes up by one and the top card joins the dealer's hand, face down exactly while `animationFaceDown` is set; both animation flags are then clear |
| Round.GameComponentViewModel.PlayerHit | app/src/main/java/com/mainskown/blackjack/models/GameComponentViewModel.kt:197-202 | the player's key goes up by one and the top card joins the player's hand face up |
| Round.GameComponentViewModel.ShuffleDeck | app/src/main/java/com/mainskown/blackjack/models/GameComponentViewModel.kt:79-81 | shuffles with the round's stored seed (a fresh one if none) and writes the seed used into that row's seed column only |
| Round.GameComponentViewModel.DealOpeningHands | app/src/main/java/com/mainskown/blackjack/models/GameComponentViewModel.kt:83-99 | deals four cards from the top: dealer (face down), player, dealer, player; the others face up; fewer than four cards fail |
| Round.GameComponentViewModel.StartGame | app/src/main/java/com/mainskown/blackjack/models/GameComponentViewModel.kt:77-112 | shuffle and seed write, the opening deal, then `playerFinished` iff it was already set or the dealer's two cards counted face down or not make 21 or the player's make 21; `gameStarted` set |
| Round.GameComponentViewModel.CheckNaturals | app/src/main/java/com/mainskown/blackjack/models/GameComponentViewModel.kt:101-111 | `playerFinished` becomes set iff it was already set, the dealer's cards counted with the face-down card make 21, or the player's cards make 21; `gameStarted` set; hands, keys and the rest of the round's state unchanged |
| Round.GameComponentViewModel.CalculatePlayerValue | app/src/main/java/com/mainskown/blackjack/models/GameComponentViewModel.kt:114-127 | a player total of 21 or more ends the player's turn, and a total over 21 also ends the round |
| Round.GameComponentViewModel.RevealHoleCard | app/src/main/java/com/mainskown/blackjack/models/GameComponentViewModel.kt:131-144 | the dealer's hand becomes `Revealed` of itself; nothing else changes |
| Round.GameComponentViewModel.DealerDraws | app/src/main/java/com/mainskown/blackjack/models/GameComponentViewModel.kt:149-158 | the dealer draws face-up cards from the top of the deck, each while below the target; on exit the dealer is at or above the target, unless the deck ran out |
| Round.GameComponentViewModel.DealerTurn | app/src/main/java/com/mainskown/blackjack/models/GameComponentViewModel.kt:131-158 | reveals the hole card, then draws nothing on a two-card 21 (or a round already over) and otherwise draws to at least the player's total |
| Round.GameComponentViewModel.OnPlayerFinished | app/src/main/java/com/mainskown/blackjack/models/GameComponentViewModel.kt:129-163 | does nothing unless the player has finished; otherwise the dealer plays as above and the round ends |
| Round.GameComponentViewModel.EndGame | app/src/main/java/com/mainskown/blackjack/models/GameComponentViewModel.kt:165-190 | does nothing unless the round ended; otherwise the result is `Resolve` of the face-up totals, the chips move by `ChipDelta` and the result dialog opens |
| Round.GameComponentViewModel.GameEnded | app/src/main/java/com/mainskown/blackjack/models/GameComponentViewModel.kt:192-194 | closes the result dialog and changes nothing else |
| Round.GameComponentViewModel.PlayerHold | app/src/main/java/com/mainskown/blackjack/models/GameComponentViewModel.kt:204-206 | ends the player's turn and changes nothing else |
| LegacyRound.PlayerWins | app/src/main/java/com/mainskown/blackjack/components/GameComponent.kt:346-354 | the screen's two-way verdict is a win exactly when the three-way resolution is not LOSE |
| LegacyRound.ResultAmount | app/src/main/java/com/mainskown/blackjack/components/GameComponent.kt:347-353 | a win pays the bet and a loss costs it, as in the three-way resolution |
| LegacyRound.TiesGoToThePlayer | app/src/main/java/com/mainskown/blackjack/components/GameComponent.kt:346-354 | the two engines pay the same on every result except a tie, which the older one pays as a win, one bet more than a draw |
| LegacyRound.GameComponent.constructor | app/src/main/java/com/mainskown/blackjack/components/GameComponent.kt:62-86 | a full classic deck, empty hands, every flag and key cleared, and the displayed chips equal to the chips given; hands are scored under the given ace rule |
| LegacyRound.GameComponent.DealerHit | app/src/main/java/com/mainskown/blackjack/components/GameComponent.kt:426-439 | the dealer's key goes up by one and the top card joins the dealer's hand, face down exactly while `animationFaceDown` is set |
| LegacyRound.GameComponent.PlayerHit | app/src/main/java/com/mainskown/blackjack/components/GameComponent.kt:442-455 | the player's key goes up by one and the top card joins the player's hand face up |
| LegacyRound.GameComponent.DealOpeningHands | app/src/main/java/com/mainskown/blackjack/components/GameComponent.kt:276-292 | deals four cards from the top: dealer (face down), player, dealer, player |
| LegacyRound.GameComponent.StartGame | app/src/main/java/com/mainskown/blackjack/components/GameComponent.kt:271-296 | only while the round has not ended and the dealer holds no card: shuffle, the opening deal and `gameStarted`, with no check for naturals |
| LegacyRound.GameComponent.CalculatePlayerValue | app/src/main/java/com/mainskown/blackjack/components/GameComponent.kt:299-305 | a player total of 21 or more ends the player's turn; nothing ends the round here |
| LegacyRound.GameComponent.RevealHoleCard | app/src/main/java/com/mainskown/blackjack/components/GameComponent.kt:310-321 | the dealer's hidden first card is turned face up, rank, suit and style kept |
| LegacyRound.GameComponent.DealerDraws | app/src/main/java/com/mainskown/blackjack/components/GameComponent.kt:325-332 | the dealer draws face-up cards from the top, each while below the player; on exit the dealer is at or above the player, unless the deck ran out |
| LegacyRound.GameComponent.OnPlayerFinished | app/src/main/java/com/mainskown/blackjack/components/GameComponent.kt:307-338 | once the player has finished and the round has not ended: reveal, draw to the player's total with no two-card-21 exception, and end the round |
| LegacyRound.GameComponent.EndGame | app/src/main/java/com/mainskown/blackjack/components/GameComponent.kt:341-357 | does nothing unless the round ended; otherwise the verdict is `PlayerWins`, the amount is plus or minus the bet, the displayed chips move by it and the dialog opens |
| LegacyRound.GameComponent.Settle | app/src/main/java/com/mainskown/blackjack/components/GameComponent.kt:346-355 | on the two totals: the player loses on a bust or on a dealer total of at most 21 above theirs, and wins otherwise; the amount is plus or minus the bet, the displayed chips move by it and the dialog opens; hands, keys and round flags are kept |
| LegacyRound.GameComponent.Continue | app/src/main/java/com/mainskown/blackjack/components/GameComponent.kt:400-404 | closes the dialog and hands the verdict to the page |
| LegacyRound.GameComponent.PlayerHold | app/src/main/java/com/mainskown/blackjack/components/GameComponent.kt:246-248 | ends the player's turn and changes nothing else |
| Storage.FromGameResult | app/src/main/java/com/mainskown/blackjack/models/RoomDataInterfaces.kt:66-69 | null is stored as null and a result as a string |
| Storage.ToGameResult | app/src/main/java/com/mainskown/blackjack/models/RoomDataInterfaces.kt:71-74 | null reads as null; "WIN", "LOSE" and "DRAW" read as their results; any other string fails, as `valueOf` throws |
| Storage.ConverterRoundTrip | app/src/main/java/com/mainskown/blackjack/models/RoomDataInterfaces.kt:65-75 | storing a result (or null) and reading it back gives it back, and every string that reads back is the stored form of its result |
| Storage.FindById | app/src/main/java/com/mainskown/blackjack/models/RoomDataInterfaces.kt:41-42 | a row with the key is found when one exists, and null when none does |
| Storage.FindByIdIsUnique | app/src/main/java/com/mainskown/blackjack/models/RoomDataInterfaces.kt:21 | with keys unique, as a primary key makes them, the row found is the one row with that key |
| Storage.LastUnresolved | app/src/main/java/com/mainskown/blackjack/models/RoomDataInterfaces.kt:45-46 | the row with a null result and the largest key, and null exactly when every row has a result |
| Storage.NewestRowIsResumed | app/src/main/java/com/mainskown/blackjack/models/RoomDataInterfaces.kt:44-46 | a new unfinished row with a key above all others is the last game |
| Storage.UpdateWhere | app/src/main/java/com/mainskown/blackjack/models/RoomDataInterfaces.kt:49-58 | an update by key changes exactly the rows with that key and leaves every other row as it was |
| Storage.UpdateKeepsUidsUnique | app/src/main/java/com/mainskown/blackjack/models/RoomDataInterfaces.kt:19-21 | an update that keeps the key keeps the keys unique |
| Storage.FindAfterUpdate | app/src/main/java/com/mainskown/blackjack/models/RoomDataInterfaces.kt:40-58 | after an update, the updated key reads back as the changed row and every other key as before |
| Storage.LastUnresolvedAfterSeedUpdate | app/src/main/java/com/mainskown/blackjack/models/RoomDataInterfaces.kt:52-54 | a seed update leaves the last unfinished game the same round, with the new seed |
| Storage.ResultUpdateFinishesRound | app/src/main/java/com/mainskown/blackjack/models/RoomDataInterfaces.kt:56-58 | after a result is written, that round is no longer the last unfinished game |
| Storage.GameTable.constructor | app/src/main/java/com/mainskown/blackjack/models/RoomDataInterfaces.kt:30-31 | the table starts empty |
| Storage.GameTable.InsertGame | app/src/main/java/com/mainskown/blackjack/models/RoomDataInterfaces.kt:33-34 | a row with key 0 gets the next key, which is returned; a row with a free key of its own keeps it, and the next key counts on from the larger of it and the last key; a taken key fails and changes nothing, the key counter included |
| Storage.GameTable.GetGameById | app/src/main/java/com/mainskown/blackjack/models/RoomDataInterfaces.kt:40-42 | the row with the key, or null when none has it |
| Storage.GameTable.GetLastGame | app/src/main/java/com/mainskown/blackjack/models/RoomDataInterfaces.kt:44-46 | the unfinished row with the largest key, and null exactly when every row has a result |
| Storage.GameTable.UpdateGame | app/src/main/java/com/mainskown/blackjack/models/RoomDataInterfaces.kt:48-50 | the row with the record's key is replaced by the record; all other rows are unchanged |
| Storage.GameTable.UpdateGameSeed | app/src/main/java/com/mainskown/blackjack/models/RoomDataInterfaces.kt:52-54 | only the seed column of the row with that key changes |
| Storage.GameTable.UpdateGameResult | app/src/main/java/com/mainskown/blackjack/models/RoomDataInterfaces.kt:56-58 | only the result column of the row with that key changes |
| Storage.GameTable.DeleteGame | app/src/main/java/com/mainskown/blackjack/models/RoomDataInterfaces.kt:60-62 | exactly the rows with the record's key are removed |
| Session.ResumesNewestUnfinishedRound | app/src/main/java/com/mainskown/blackjack/models/GamePageViewModel.kt:45-63 | a round is resumed iff an unfinished row exists; it is then the newest one, with its chips, bet and key; otherwise the session is fresh |
| Session.Settled | app/src/main/java/com/mainskown/blackjack/ui/pages/GamePage.kt:268-282 | the chips move by +bet, -bet or 0 as the result is WIN, LOSE or DRAW; the game is off; the round counter goes up by exactly one; nothing else changes |
| Session.OutOfChipsOnlyAfterLosingAll | app/src/main/java/com/mainskown/blackjack/ui/pages/GamePage.kt:66-72 | the out-of-chips dialog is forced on when the chips are gone; from a positive stack and an affordable bet, that happens exactly after losing the whole stack |
| Session.AllInLossEndsSession | app/src/main/java/com/mainskown/blackjack/ui/pages/GamePage.kt:67-69 | going all in with the last slider position and losing brings up the out-of-chips dialog |
| Session.FinishedRow | app/src/main/java/com/mainskown/blackjack/models/GamePageViewModel.kt:121-130 | the row written back carries the round's key and its result, and no seed |
| Session.FinishedRoundIsNotResumed | app/src/main/java/com/mainskown/blackjack/models/GamePageViewModel.kt:119-130 | once a round's row is replaced by a finished one, no restart resumes that round |
| Session.GamePageViewModel.constructor | app/src/main/java/com/mainskown/blackjack/ui/pages/GamePage.kt:212-230 | the page opens with the state resumed from the table's last game |
| Session.GamePageViewModel.CreateGame | app/src/main/java/com/mainskown/blackjack/models/GamePageViewModel.kt:65-87 | inserts an unfinished row holding the chips and the previous bet; takes the new key and the new bet; the game is on; loading is cleared; a restart resumes this round with the previous bet |
| Session.GamePageViewModel.ResetGame | app/src/main/java/com/mainskown/blackjack/models/GamePageViewModel.kt:89-99 | chips 100, bet 25, game off, key 0, not loading, dialog hidden; the round counter is kept |
| Session.GamePageViewModel.OnGameEnd | app/src/main/java/com/mainskown/blackjack/models/GamePageViewModel.kt:101-134 | settles the chips and the counter first; then, with a positive key, replaces the round's row with the finished one, and otherwise fails with InvalidGameId and leaves the table unchanged |
| Bidding.BetPreset | app/src/main/java/com/mainskown/blackjack/ui/components/BiddingComponent.kt:103-109 | positions 0, 1, 2 give the least whole bet at or above a quarter, a half and three quarters of the chips; position 3 gives all the chips; any other position keeps the bet |
| Bidding.PresetsAreMonotone | app/src/main/java/com/mainskown/blackjack/ui/components/BiddingComponent.kt:104-107 | for chips of at least 0, a later position never offers less |
| Bidding.PresetsAreAffordable | app/src/main/java/com/mainskown/blackjack/ui/components/BiddingComponent.kt:104-107 | for chips of at least 0, every preset is at most the chips, and at least 1 when there are chips |
| Bidding.AsWrittenIsExactBelowOverflow | app/src/main/java/com/mainskown/blackjack/ui/components/BiddingComponent.kt:106 | up to 715827882 chips the 32-bit arithmetic gives the exact presets |
| Bidding.ThreeQuarterPresetOverflows | app/src/main/java/com/mainskown/blackjack/ui/components/BiddingComponent.kt:106 | at 715827883 chips the three-quarter preset wraps around to -536870911 instead of 536870913 |
| Bidding.Bidder.constructor | app/src/main/java/com/mainskown/blackjack/ui/components/BiddingComponent.kt:55 | the remembered bet starts at 0, with the presets computed in the given arithmetic |
| Bidding.Bidder.SelectPreset | app/src/main/java/com/mainskown/blackjack/ui/components/BiddingComponent.kt:102-110 | moving the slider sets the bet to the preset of that position in the Bidder's arithmetic, and any other position keeps it; the bet stays 0 or some preset |
| Bidding.Bidder.PlaceBet | app/src/main/java/com/mainskown/blackjack/ui/components/BiddingComponent.kt:122 | "place bet" hands over the remembered bet unchanged; with exact arithmetic, or 32-bit arithmetic up to 715827882 chips, it lies between 0 and the chips |

## Left out

- Rendering, layout, animation and sound are not modelled: `AnimatedDealingCard`, `dealCard`, the hand displays, the card buttons and every page. The `delay` and `inAnimation` polling loops in the engines are left out too. Dealing is a synchronous step, and a deal that would wait forever for an animation does not occur.
- Bitmap decoding in `Card` (models/Card.kt:41-60) is file I/O. Only the asset paths are modelled.
- The shuffle's pseudorandom generator is not modelled. `arrange` stands for "some permutation chosen by the seed", and nothing is claimed about which one.
- `Round.GameComponentViewModel.DealerTurn`: a player who went over 21 has already ended the round, so the dealer only reveals the hole card and draws nothing. On screen, dealing is gated on the round not having ended (ui/components/GameComponent.kt). That file is not part of this model.
- Round.GameComponentViewModel.OnPlayerFinished, DealerTurn and DealerDraws require `animationFaceDown` to be clear. Only the opening deal's first card sets it, and that deal clears it.
- A card's `isFaceUp` is set in place on the drawn object. Here a card is a value, and turning it replaces it with a copy. Nothing else holds the drawn card, so no aliasing is lost.
- Chips, bets and keys are unbounded integers. Kotlin's 32-bit `Int` overflow of `chips ± bet` and its 64-bit `Long` keys are not modelled; the one overflow that matters for the presets is modelled in `Bidding`.
- Both round engines take the ace rule as a parameter: `AsWrittenAces` is the app, `UsualAces` the intended rule (see Findings). The rules differ only for a hand with two or more aces whose non-aces total at most ten and whose hard total is over eleven; the app then scores ten more, over 21. The properties of the dealer's play hold under either rule; only `Round.AceAceKingEndsTheRoundOnlyAsWritten` tells the two apart.
- `getAllGames` (ordered by date) is used only by the high-score screens. High-score aggregation, `DatabaseProvider.updateHighScores` and `HighScoresDao` are not part of this model.
- The `DatabaseProvider` singleton, its locking, the Room database wiring and the page's `try`/`catch` around loading are library glue and are not modelled.
- `playerValue()` and `dealerValue()` are modelled as the read-only functions `PlayerValue` and `DealerValue`, which have no contract of their own.
- pages/GamePage.kt and ui/components/GameComponent.kt are not part of this model. The first is an older activity with the same chip rules. The second is the screen that drives the view model.
- Settings, styles preferences, the intro overlay and the high-score view models are preference plumbing, and are not modelled.

## Findings

| source | as written | input that shows it | evidently intended | confidence | as-written member | corrected member |
|---|---|---|---|---|---|---|
| app/src/main/java/com/mainskown/blackjack/models/GameComponentViewModel.kt:239-245 | each ace is added as 11 whenever the running total plus 11 is at most 21, so two aces can both be tried high after the other cards (the same loop is at components/GameComponent.kt:573-579) | king, ace, ace: 10 + 11 = 21, then + 1 = 22, a bust | aces count one each and one of them eleven when the total stays at 21 or less: king, ace, ace is 12 | high; not executed | Scoring.AsWrittenBustsKingAceAce | Scoring.CalcValue |
| app/src/main/java/com/mainskown/blackjack/ui/components/BiddingComponent.kt:106 | `chips * 3` is computed in 32-bit `Int` before the division by 4.0 | 715827883 chips: the product wraps to -2147483647 and the three-quarter preset is -536870911 | the preset is ceil(3·chips/4), here 536870913 | medium (needs a very large stack); not executed | Bidding.ThreeQuarterPresetOverflows | Bidding.BetPreset |
