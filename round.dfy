/** One round at the table: the state behind the game screen, the opening deal,
    the player's and the dealer's turns and the resolution of the round.

    On screen a card is dealt when a deal key is bumped: the screen draws from the
    deck (face down while `animationFaceDown` is set), adds the card to the hand and
    marks the animation complete, while the view model polls `inAnimation` until
    that has happened. Here the bump and the deal it triggers are one synchronous
    step, DealerHit or PlayerHit. */
module Round {
  import opened Wrappers
  import opened Styles
  import opened Cards
  import opened Decks
  import opened Scoring
  import opened Outcomes
  import opened Storage

  /** The part of the screen state that dealing a card leaves alone. */
  datatype Status = Status(
    chips: int,
    bet: int,
    gameStarted: bool,
    playerFinished: bool,
    gameEnded: bool,
    gameResult: GameResult,
    showResultDialog: bool,
    cardStyle: CardStyle)

  /** A card as it lies after being turned to the given side. */
  function Turned(c: Card, faceUp: bool): Card
  {
    c.(isFaceUp := faceUp)
  }

  /** The dealer's hand once its first card is turned face up; the hidden card is
      replaced by a face-up card of the same rank, suit and style. */
  function Revealed(hand: seq<Card>): (r: seq<Card>)
    ensures |r| == |hand|
    ensures |hand| > 0 ==> r[0].isFaceUp && r[1..] == hand[1..]
    ensures forall i | 0 <= i < |hand| ::
      r[i].value == hand[i].value && r[i].suit == hand[i].suit && r[i].style == hand[i].style
    ensures |hand| == 0 || hand[0].isFaceUp ==> r == hand
  {
    if |hand| > 0 && !hand[0].isFaceUp then
      var old0 := hand[0];
      hand[0 := Card(old0.value, old0.suit, isFaceUp := true, style := old0.style)]
    else hand
  }

  /** Every card from position `lo` on was drawn while the face-up cards before it
      scored below `target`: the last one was, and so were the ones before it. */
  ghost predicate DrewBelow(rule: AceRule, hand: seq<Card>, lo: nat, target: int)
    decreases |hand|
  {
    |hand| <= lo
    || (DrewBelow(rule, hand[..|hand| - 1], lo, target) && Score(rule, hand[..|hand| - 1], false) < target)
  }

  /** DrewBelow says of each card from `lo` on that the cards before it scored
      below `target`. */
  lemma {:induction false} DrewBelowMeans(rule: AceRule, hand: seq<Card>, lo: nat, target: int)
    requires lo <= |hand|
    ensures DrewBelow(rule, hand, lo, target) <==>
      forall j | lo <= j < |hand| :: Score(rule, hand[..j], false) < target
    decreases |hand|
  {
    if |hand| > lo {
      var init := hand[..|hand| - 1];
      DrewBelowMeans(rule, init, lo, target);
      forall j | lo <= j < |init|
        ensures init[..j] == hand[..j]
      {
      }
    }
  }

  /** Drawing one more card while the hand scores below `target` keeps DrewBelow. */
  lemma DrewBelowStep(rule: AceRule, hand: seq<Card>, c: Card, lo: nat, target: int)
    requires lo <= |hand| && DrewBelow(rule, hand, lo, target)
    requires Score(rule, hand, false) < target
    ensures DrewBelow(rule, hand + [c], lo, target)
  {
    assert (hand + [c])[..|hand|] == hand;
  }

  /** What a run of dealer draws leaves behind, from the hand `h0`, the deck `d0`
      and the deal key `k0` before it: `m` cards drawn from the top of the deck
      and appended, each while the dealer's face-up total was below `target`, one
      key bump per card, and one more for a draw that found the deck empty. */
  ghost predicate Drew(rule: AceRule, h0: seq<Card>, d0: seq<Card>, k0: int, target: int,
                       r: Outcome<DeckError>, hand: seq<Card>, cards: seq<Card>, key: int)
  {
    var m := |hand| - |h0|;
    && 0 <= m <= |d0|
    && hand == h0 + Drawn(d0, m)
    && cards == d0[..|d0| - m]
    && key == k0 + m + (if r.Fail? then 1 else 0)
    && DrewBelow(rule, hand, |h0|, target)
    && (r.Fail? ==> r.error == NoMoreCards && cards == [])
  }

  /** Before any draw, nothing has been drawn. */
  lemma DrewNone(rule: AceRule, h0: seq<Card>, d0: seq<Card>, k0: int, target: int)
    ensures Drew(rule, h0, d0, k0, target, Pass, h0, d0, k0)
  {
    assert h0 + Drawn(d0, 0) == h0;
    assert d0[..|d0|] == d0;
  }

  /** A draw below `target` from a non-empty deck extends the run by its top card. */
  lemma DrewOneMore(rule: AceRule, h0: seq<Card>, d0: seq<Card>, k0: int, target: int,
                    hand: seq<Card>, cards: seq<Card>, key: int)
    requires Drew(rule, h0, d0, k0, target, Pass, hand, cards, key)
    requires |cards| > 0 && Score(rule, hand, false) < target
    ensures Drew(rule, h0, d0, k0, target, Pass, hand + [cards[|cards| - 1]], cards[..|cards| - 1], key + 1)
  {
    var m := |hand| - |h0|;
    DrawnStep(d0, m);
    DrewBelowStep(rule, hand, cards[|cards| - 1], |h0|, target);
  }

  /** A draw from the empty deck ends the run with NoMoreCards. */
  lemma DrewOutOfCards(rule: AceRule, h0: seq<Card>, d0: seq<Card>, k0: int, target: int,
                       hand: seq<Card>, key: int)
    requires Drew(rule, h0, d0, k0, target, Pass, hand, [], key)
    ensures Drew(rule, h0, d0, k0, target, Fail(NoMoreCards), hand, [], key + 1)
  {
  }

  /** What the dealer's play leaves behind: the hidden card turned face up, then
      draws as in Drew; none when `skip` holds; otherwise, unless the deck ran out,
      a total of at least `target`. */
  ghost predicate DealerPlayed(rule: AceRule, h0: seq<Card>, d0: seq<Card>, k0: int, target: int, skip: bool,
                               r: Outcome<DeckError>, hand: seq<Card>, cards: seq<Card>, key: int)
  {
    && Drew(rule, Revealed(h0), d0, k0, target, r, hand, cards, key)
    && (skip ==> |hand| == |h0| && r == Pass)
    && (r == Pass && !skip ==> Score(rule, hand, false) >= target)
  }

  /** Draws after the reveal that stop at `target` unless the deck runs out are
      the dealer's play. */
  lemma DealerPlayedByDrawing(rule: AceRule, h0: seq<Card>, d0: seq<Card>, k0: int, target: int,
                              r: Outcome<DeckError>, hand: seq<Card>, cards: seq<Card>, key: int)
    requires Drew(rule, Revealed(h0), d0, k0, target, r, hand, cards, key)
    requires r == Pass ==> Score(rule, hand, false) >= target
    ensures DealerPlayed(rule, h0, d0, k0, target, false, r, hand, cards, key)
  {
  }

  /** Under DrewBelow, the hand as it stood at `lo` scored below `target` when
      anything was drawn after it. */
  lemma {:induction false} DrewBelowFirst(rule: AceRule, hand: seq<Card>, lo: nat, target: int)
    requires lo < |hand| && DrewBelow(rule, hand, lo, target)
    ensures Score(rule, hand[..lo], false) < target
    decreases |hand|
  {
    var init := hand[..|hand| - 1];
    if lo < |init| {
      DrewBelowFirst(rule, init, lo, target);
      assert init[..lo] == hand[..lo];
    } else {
      assert init == hand[..lo];
    }
  }

  /** Nothing was drawn after `lo` when the hand at `lo` already reached `target`. */
  lemma DrewNothing(rule: AceRule, hand: seq<Card>, lo: nat, target: int)
    requires lo <= |hand| && DrewBelow(rule, hand, lo, target)
    requires Score(rule, hand[..lo], false) >= target
    ensures |hand| == lo
  {
    if lo < |hand| {
      DrewBelowFirst(rule, hand, lo, target);
    }
  }

  /** A run of draws that starts at or above `target` draws nothing. */
  lemma DrewNothingAtTarget(rule: AceRule, h0: seq<Card>, d0: seq<Card>, k0: int, target: int,
                            r: Outcome<DeckError>, hand: seq<Card>, cards: seq<Card>, key: int)
    requires Drew(rule, h0, d0, k0, target, r, hand, cards, key)
    requires Score(rule, h0, false) >= target
    ensures hand == h0 && cards == d0 && key == k0 + (if r.Fail? then 1 else 0)
  {
    assert hand[..|h0|] == h0;
    DrewNothing(rule, hand, |h0|, target);
    assert hand == h0 + [];
    assert d0[..|d0|] == d0;
  }

  /** A dealer whose revealed hand already reaches `target` draws nothing: the
      first card drawn would have needed the revealed hand below `target`. */
  lemma NoDrawAtOrAboveTarget(rule: AceRule, h0: seq<Card>, d0: seq<Card>, k0: int, target: int, skip: bool,
                              r: Outcome<DeckError>, hand: seq<Card>, cards: seq<Card>, key: int)
    requires DealerPlayed(rule, h0, d0, k0, target, skip, r, hand, cards, key)
    requires Score(rule, Revealed(h0), false) >= target
    ensures hand == Revealed(h0) && cards == d0 && key == k0 + (if r.Fail? then 1 else 0)
  {
    DrewNothingAtTarget(rule, Revealed(h0), d0, k0, target, r, hand, cards, key);
  }

  /** A round from a deck whose top four cards are, from the top, the ten of
      spades, the seven of hearts, the nine of diamonds and the eight of clubs:
      the dealer gets the ten face down and the nine, the player the seven and the
      eight. Neither hand is a natural; the player holds at 15, the dealer reveals
      19 and draws nothing, and a bet of 25 is lost from 100 chips, leaving 75. */
  lemma HoldAtFifteenLoses(rule: AceRule, s: seq<Card>, d0: seq<Card>, k0: int, r: Outcome<DeckError>,
                           hand: seq<Card>, cards: seq<Card>, key: int)
    requires |s| >= 4
    requires s[|s| - 1] == Card(10, Spades) && s[|s| - 2] == Card(7, Hearts)
    requires s[|s| - 3] == Card(9, Diamonds) && s[|s| - 4] == Card(8, Clubs)
    requires var n := |s|;
      DealerPlayed(rule, [Turned(s[n - 1], false), s[n - 3]], d0, k0, 15, false, r, hand, cards, key)
    ensures var n := |s|;
      var dealer, player := [Turned(s[n - 1], false), s[n - 3]], [s[n - 2], s[n - 4]];
      && Score(rule, dealer, true) == 19 && Score(rule, player, false) == 15
      && hand == [Card(10, Spades), Card(9, Diamonds)] && cards == d0
      && Score(rule, hand, false) == 19
      && Resolve(Score(rule, hand, false), Score(rule, player, false)) == Lose
      && 100 + ChipDelta(Lose, 25) == 75
  {
    var n := |s|;
    var dealer, player := [Turned(s[n - 1], false), s[n - 3]], [s[n - 2], s[n - 4]];
    assert dealer[..1] == [Turned(s[n - 1], false)] && player[..1] == [s[n - 2]];
    assert [Turned(s[n - 1], false)][..0] == [] && [s[n - 2]][..0] == [];
    assert TallyOf([s[n - 2]], false) == Tally(7, 0);
    assert TallyOf(player, false) == Tally(15, 0);
    assert TallyOf([Turned(s[n - 1], false)], true) == Tally(10, 0);
    assert TallyOf(dealer, true) == Tally(19, 0);
    var up := [Card(10, Spades), Card(9, Diamonds)];
    assert Revealed(dealer) == up;
    assert up[..1] == [Card(10, Spades)] && [Card(10, Spades)][..0] == [];
    assert TallyOf([Card(10, Spades)], false) == Tally(10, 0);
    assert TallyOf(up, false) == Tally(19, 0);
    NoDrawAtOrAboveTarget(rule, dealer, d0, k0, 15, false, r, hand, cards, key);
  }

  /** A player dealt two aces who hits a king: as written the hand scores 22, so
      CalculatePlayerValue ends the round (a loss at EndGame); by the usual rule it
      scores 12 and the round goes on. A dealer holding the same cards would, as
      written, stop on a bust instead of drawing again. */
  lemma AceAceKingEndsTheRoundOnlyAsWritten()
    ensures var hand := [Card(1, Spades), Card(1, Hearts), Card(13, Clubs)];
      Score(AsWrittenAces, hand, false) == 22 && Score(UsualAces, hand, false) == 12
  {
    var hand := [Card(1, Spades), Card(1, Hearts), Card(13, Clubs)];
    assert hand[..2] == [Card(1, Spades), Card(1, Hearts)] && hand[..2][..1] == [Card(1, Spades)];
    assert [Card(1, Spades)][..0] == [];
    assert TallyOf([Card(1, Spades)], false) == Tally(0, 1);
    assert TallyOf(hand[..2], false) == Tally(0, 2);
    assert TallyOf(hand, false) == Tally(10, 2);
    assert SequentialAces(10, 2) == SequentialAces(21, 1) == SequentialAces(22, 0) == 22;
  }

  /** Under the dealer's draw-to-beat rule the dealer stops at or above the player,
      so the player can then win only when the dealer busts. */
  lemma {:induction false} BeatenOnlyByBust(dealer: int, player: int)
    requires player <= dealer
    ensures Resolve(dealer, player) == Win <==> dealer > 21 && player <= 21
    ensures Resolve(dealer, player) == Draw <==> dealer == player <= 21
  {
  }

  /** The state behind the game screen, scored by `rule`: `AsWrittenAces` is the
      program as written, `UsualAces` as intended. */
  class GameComponentViewModel {
    const rule: AceRule
    const gameID: int
    const gameDao: GameTable
    const deck: Deck

    var dealerHand: seq<Card>
    var playerHand: seq<Card>
    var chips: int
    var bet: int
    var gameStarted: bool
    var playerFinished: bool
    var gameEnded: bool
    var gameResult: GameResult
    var showResultDialog: bool
    var cardStyle: CardStyle
    var dealersKey: int
    var playersKey: int
    var inAnimation: bool
    var animationFaceDown: bool

    /** The deck holds distinct cards, all of them face up: a card is only turned
        when it is drawn. */
    ghost predicate Valid()
      reads this, deck
    {
      deck.Valid() && forall c | c in deck.cards :: c.isFaceUp
    }

    function StatusOf(): Status
      reads this
    {
      Status(chips, bet, gameStarted, playerFinished, gameEnded, gameResult, showResultDialog, cardStyle)
    }

    /** The seed stored with this round's row, if the row exists and has one. */
    function StoredSeed(): Option<int>
      reads this, gameDao
      requires gameDao.Valid()
    {
      var gameData := gameDao.GetGameById(gameID);
      if gameData.Some? then gameData.value.deckSeed else None
    }

    function PlayerValue(): int
      reads this
    {
      Score(rule, playerHand, false)
    }

    function DealerValue(ignoreFaceDown: bool): int
      reads this
    {
      Score(rule, dealerHand, ignoreFaceDown)
    }

    /** A new round: empty hands, the stake and bet handed over by the game page and
        a full deck in the card style the player chose. */
    constructor (rule: AceRule, chips: int, bet: int, gameID: int, gameDao: GameTable, cardStyle: CardStyle)
      ensures Valid() && fresh(deck) && this.rule == rule
      ensures Faces(deck.cards) == CanonicalFaces()
      ensures forall c | c in deck.cards :: c.style == cardStyle
      ensures this.gameID == gameID && this.gameDao == gameDao
      ensures dealerHand == [] && playerHand == []
      ensures StatusOf() == Status(chips, bet, false, false, false, Lose, false, cardStyle)
      ensures dealersKey == 0 && playersKey == 0 && !inAnimation && !animationFaceDown
    {
      this.rule := rule;
      this.gameID := gameID;
      this.gameDao := gameDao;
      deck := new Deck(cardStyle);
      dealerHand := [];
      playerHand := [];
      this.chips := chips;
      this.bet := bet;
      gameStarted := false;
      playerFinished := false;
      gameEnded := false;
      gameResult := Lose;
      showResultDialog := false;
      this.cardStyle := cardStyle;
      dealersKey := 0;
      playersKey := 0;
      inAnimation := false;
      animationFaceDown := false;
    }

    method AddCardToDealerHand(card: Card)
      modifies this
      ensures dealerHand == old(dealerHand) + [card]
      ensures playerHand == old(playerHand) && StatusOf() == old(StatusOf())
      ensures dealersKey == old(dealersKey) && playersKey == old(playersKey)
      ensures inAnimation == old(inAnimation) && animationFaceDown == old(animationFaceDown)
    {
      dealerHand := dealerHand + [card];
    }

    method AddCardToPlayerHand(card: Card)
      modifies this
      ensures playerHand == old(playerHand) + [card]
      ensures dealerHand == old(dealerHand) && StatusOf() == old(StatusOf())
      ensures dealersKey == old(dealersKey) && playersKey == old(playersKey)
      ensures inAnimation == old(inAnimation) && animationFaceDown == old(animationFaceDown)
    {
      playerHand := playerHand + [card];
    }

    method SetAnimationComplete()
      modifies this
      ensures !inAnimation && !animationFaceDown
      ensures dealerHand == old(dealerHand) && playerHand == old(playerHand)
      ensures StatusOf() == old(StatusOf())
      ensures dealersKey == old(dealersKey) && playersKey == old(playersKey)
    {
      inAnimation := false;
      animationFaceDown := false;
    }

    /** Takes the top card of the deck, turned to the requested side. */
    method DrawCard(faceUp: bool) returns (r: Result<Card, DeckError>)
      requires Valid()
      modifies deck
      ensures Valid()
      ensures |old(deck.cards)| == 0 ==> r == Failure(NoMoreCards) && deck.cards == old(deck.cards)
      ensures |old(deck.cards)| > 0 ==>
        && r == Success(Turned(old(deck.cards)[|old(deck.cards)| - 1], faceUp))
        && deck.cards == old(deck.cards)[..|old(deck.cards)| - 1]
    {
      r := deck.DrawCard();
      if r.Success? {
        var card := r.value;
        card := card.(isFaceUp := faceUp);
        r := Success(card);
      }
    }

    /** The dealer's deal key is bumped and the screen deals the dealer the top
        card: face down while `animationFaceDown` is set, face up otherwise. */
    method DealerHit() returns (r: Outcome<DeckError>)
      requires Valid()
      modifies this, deck
      ensures Valid()
      ensures playerHand == old(playerHand) && StatusOf() == old(StatusOf())
      ensures dealersKey == old(dealersKey) + 1 && playersKey == old(playersKey)
      ensures r.Fail? <==> |old(deck.cards)| == 0
      ensures r.Fail? ==> r.error == NoMoreCards && dealerHand == old(dealerHand) && deck.cards == []
      ensures r.Fail? ==> inAnimation && animationFaceDown == old(animationFaceDown)
      ensures r == Pass ==>
        var top := old(deck.cards)[|old(deck.cards)| - 1];
        && deck.cards == old(deck.cards)[..|old(deck.cards)| - 1]
        && dealerHand == old(dealerHand) + [Turned(top, !old(animationFaceDown))]
        && (!old(animationFaceDown) ==> dealerHand == old(dealerHand) + [top])
        && !inAnimation && !animationFaceDown
    {
      dealersKey := dealersKey + 1;
      inAnimation := true;
      var card := DrawCard(!animationFaceDown);
      match card
      case Failure(e) =>
        r := Fail(e);
      case Success(c) =>
        AddCardToDealerHand(c);
        SetAnimationComplete();
        r := Pass;
    }

    /** The player's deal key is bumped (the Hit button) and the screen deals the
        player the top card, face up. */
    method PlayerHit() returns (r: Outcome<DeckError>)
      requires Valid()
      modifies this, deck
      ensures Valid()
      ensures dealerHand == old(dealerHand) && StatusOf() == old(StatusOf())
      ensures playersKey == old(playersKey) + 1 && dealersKey == old(dealersKey)
      ensures r.Fail? <==> |old(deck.cards)| == 0
      ensures r.Fail? ==> r.error == NoMoreCards && playerHand == old(playerHand) && deck.cards == []
      ensures r.Fail? ==> inAnimation && animationFaceDown == old(animationFaceDown)
      ensures r == Pass ==>
        var top := old(deck.cards)[|old(deck.cards)| - 1];
        && deck.cards == old(deck.cards)[..|old(deck.cards)| - 1]
        && playerHand == old(playerHand) + [top]
        && !inAnimation && !animationFaceDown
    {
      playersKey := playersKey + 1;
      inAnimation := true;
      var card := DrawCard(true);
      match card
      case Failure(e) =>
        r := Fail(e);
      case Success(c) =>
        AddCardToPlayerHand(c);
        SetAnimationComplete();
        r := Pass;
    }

    /** Shuffles the deck with the seed stored for this round (a fresh one when
        there is none) and stores the seed used back with the round. */
    method ShuffleDeck(freshSeed: int, arrange: (int, seq<Card>) -> seq<Card>)
      requires Valid() && gameDao.Valid() && IsShuffle(arrange, deck.cards)
      modifies deck, gameDao
      ensures Valid() && gameDao.Valid()
      ensures var used := SeedToUse(old(StoredSeed()), freshSeed);
        && deck.cards == arrange(used, old(deck.cards))
        && gameDao.rows == UpdateWhere(old(gameDao.rows), gameID, SetSeed(used))
        && gameDao.lastUid == old(gameDao.lastUid)
      ensures multiset(deck.cards) == multiset(old(deck.cards))
    {
      var gameData := gameDao.GetGameById(gameID);
      var seed := if gameData.Some? then gameData.value.deckSeed else None;
      var used := deck.Shuffle(seed, freshSeed, arrange);
      gameDao.UpdateGameSeed(gameID, used);
      forall c | c in deck.cards
        ensures c.isFaceUp
      {
        assert c in multiset(deck.cards);
      }
    }

    /** The opening deal: dealer, player, dealer, player from the top of the deck,
        the dealer's first card face down and the others face up. */
    method DealOpeningHands() returns (r: Outcome<DeckError>)
      requires Valid()
      modifies this, deck
      ensures Valid() && StatusOf() == old(StatusOf())
      ensures r.Fail? <==> |old(deck.cards)| < 4
      ensures r.Fail? ==> r.error == NoMoreCards
      ensures r == Pass ==>
        var s, n := old(deck.cards), |old(deck.cards)|;
        && n >= 4
        && deck.cards == s[..n - 4]
        && dealerHand == old(dealerHand) + [Turned(s[n - 1], false), s[n - 3]]
        && playerHand == old(playerHand) + [s[n - 2], s[n - 4]]
        && dealersKey == old(dealersKey) + 2 && playersKey == old(playersKey) + 2
        && !inAnimation && !animationFaceDown
    {
      ghost var s, n := deck.cards, |deck.cards|;
      ghost var d0, p0 := dealerHand, playerHand;
      r := Pass;
      for i := 0 to 4
        invariant Valid() && StatusOf() == old(StatusOf())
        invariant i <= n && deck.cards == s[..n - i]
        invariant dealersKey == old(dealersKey) + (i + 1) / 2 && playersKey == old(playersKey) + i / 2
        invariant i > 0 ==> !inAnimation && !animationFaceDown
        invariant i == 0 ==> dealerHand == d0 && playerHand == p0
        invariant i == 1 ==> dealerHand == d0 + [Turned(s[n - 1], false)] && playerHand == p0
        invariant i == 2 ==> dealerHand == d0 + [Turned(s[n - 1], false)] && playerHand == p0 + [s[n - 2]]
        invariant i == 3 ==>
          dealerHand == d0 + [Turned(s[n - 1], false), s[n - 3]] && playerHand == p0 + [s[n - 2]]
        invariant i == 4 ==>
          dealerHand == d0 + [Turned(s[n - 1], false), s[n - 3]] && playerHand == p0 + [s[n - 2], s[n - 4]]
        invariant r == Pass
      {
        if i < n {
          assert s[..n - i][n - i - 1] == s[n - i - 1] && s[n - i - 1] in deck.cards;
          assert s[..n - i][..n - i - 1] == s[..n - i - 1];
        }
        if i % 2 == 0 {
          if i == 0 {
            // The first card goes to the dealer face down.
            animationFaceDown := true;
          }
          r := DealerHit();
        } else {
          r := PlayerHit();
        }
        if r.Fail? {
          return;
        }
      }
    }

    /** Starts the round: shuffles and records the seed, deals the opening hands,
        and ends the player's turn at once when the dealer's face-up card or the
        player's hand makes 21. */
    method StartGame(freshSeed: int, arrange: (int, seq<Card>) -> seq<Card>) returns (r: Outcome<DeckError>)
      requires Valid() && gameDao.Valid() && IsShuffle(arrange, deck.cards)
      modifies this, deck, gameDao
      ensures Valid() && gameDao.Valid()
      ensures var used := SeedToUse(old(StoredSeed()), freshSeed);
        gameDao.rows == UpdateWhere(old(gameDao.rows), gameID, SetSeed(used)) &&
        gameDao.lastUid == old(gameDao.lastUid)
      ensures r.Fail? <==> |old(deck.cards)| < 4
      ensures r.Fail? ==> r.error == NoMoreCards
      ensures r == Pass ==>
        var s := arrange(SeedToUse(old(StoredSeed()), freshSeed), old(deck.cards));
        var n := |s|;
        && n >= 4
        && deck.cards == s[..n - 4]
        && dealerHand == old(dealerHand) + [Turned(s[n - 1], false), s[n - 3]]
        && playerHand == old(playerHand) + [s[n - 2], s[n - 4]]
        && dealersKey == old(dealersKey) + 2 && playersKey == old(playersKey) + 2
        && !inAnimation && !animationFaceDown
        && (playerFinished <==> old(playerFinished) || DealerValue(true) == 21 || PlayerValue() == 21)
        && gameStarted && gameEnded == old(gameEnded) && gameResult == old(gameResult)
        && chips == old(chips) && bet == old(bet)
        && showResultDialog == old(showResultDialog) && cardStyle == old(cardStyle)
    {
      ShuffleDeck(freshSeed, arrange);
      assert |multiset(deck.cards)| == |multiset(old(deck.cards))|;
      r := DealOpeningHands();
      if r.Fail? {
        return;
      }
      CheckNaturals();
    }

    /** After the opening deal: a dealer showing 21 or a player holding 21 ends the
        player's turn at once; either way the round has started. */
    method CheckNaturals()
      modifies this
      ensures playerFinished <==> old(playerFinished) || DealerValue(true) == 21 || PlayerValue() == 21
      ensures gameStarted
      ensures dealerHand == old(dealerHand) && playerHand == old(playerHand)
      ensures dealersKey == old(dealersKey) && playersKey == old(playersKey)
      ensures inAnimation == old(inAnimation) && animationFaceDown == old(animationFaceDown)
      ensures gameEnded == old(gameEnded) && gameResult == old(gameResult)
      ensures chips == old(chips) && bet == old(bet)
      ensures showResultDialog == old(showResultDialog) && cardStyle == old(cardStyle)
    {
      var dealerValue := CalcValueUnder(rule, dealerHand, true);
      var playerValue := CalcValueUnder(rule, playerHand, false);
      if dealerValue == 21 {
        playerFinished := true;
      }
      if playerValue == 21 && !playerFinished {
        playerFinished := true;
      }
      gameStarted := true;
    }

    /** After each change to the player's hand: a hand over 21 ends the round, and
        a hand of 21 or more ends the player's turn. */
    method CalculatePlayerValue()
      modifies this
      ensures playerFinished <==> old(playerFinished || PlayerValue() >= 21)
      ensures gameEnded <==> old(gameEnded || PlayerValue() > 21)
      ensures StatusOf() == old(StatusOf()).(playerFinished := playerFinished, gameEnded := gameEnded)
      ensures dealerHand == old(dealerHand) && playerHand == old(playerHand)
      ensures dealersKey == old(dealersKey) && playersKey == old(playersKey)
      ensures inAnimation == old(inAnimation) && animationFaceDown == old(animationFaceDown)
    {
      if |playerHand| > 0 {
        var playerValue := CalcValueUnder(rule, playerHand, false);
        if playerValue >= 21 {
          if playerValue > 21 {
            gameEnded := true;
          }
          playerFinished := true;
        }
      } else {
        assert TallyOf(playerHand, false) == Tally(0, 0);
      }
    }

    /** Turns the dealer's hidden first card face up, replacing it with a face-up
        card of the same rank, suit and style. */
    method RevealHoleCard()
      modifies this
      ensures dealerHand == Revealed(old(dealerHand))
      ensures playerHand == old(playerHand) && StatusOf() == old(StatusOf())
      ensures dealersKey == old(dealersKey) && playersKey == old(playersKey)
      ensures inAnimation == old(inAnimation) && animationFaceDown == old(animationFaceDown)
    {
      if |dealerHand| > 0 && !dealerHand[0].isFaceUp {
        var hidden := dealerHand[0];
        dealerHand := dealerHand[0 := Card(hidden.value, hidden.suit, isFaceUp := true, style := hidden.style)];
      }
    }

    /** The dealer draws face up, one card at a time from the top of the deck,
        while the dealer's face-up total is below `target`. */
    method DealerDraws(target: int) returns (r: Outcome<DeckError>)
      requires Valid() && !animationFaceDown
      modifies this, deck
      ensures Valid() && !animationFaceDown
      ensures playerHand == old(playerHand) && StatusOf() == old(StatusOf())
      ensures playersKey == old(playersKey)
      ensures Drew(rule, old(dealerHand), old(deck.cards), old(dealersKey), target, r,
        dealerHand, deck.cards, dealersKey)
      ensures r == Pass ==> DealerValue(false) >= target
      ensures r.Fail? ==> DealerValue(false) < target
    {
      r := Pass;
      ghost var h0, d0, k0 := dealerHand, deck.cards, dealersKey;
      DrewNone(rule, h0, d0, k0, target);
      var dealerValue := CalcValueUnder(rule, dealerHand, false);
      while dealerValue < target
        invariant r == Pass
        invariant Valid() && !animationFaceDown
        invariant StatusOf() == old(StatusOf()) && playerHand == old(playerHand)
        invariant playersKey == old(playersKey)
        invariant Drew(rule, h0, d0, k0, target, Pass, dealerHand, deck.cards, dealersKey)
        invariant dealerValue == Score(rule, dealerHand, false)
        decreases |deck.cards|
      {
        if |deck.cards| > 0 {
          DrewOneMore(rule, h0, d0, k0, target, dealerHand, deck.cards, dealersKey);
        } else {
          DrewOutOfCards(rule, h0, d0, k0, target, dealerHand, dealersKey);
        }
        r := DealerHit();
        if r.Fail? {
          return;
        }
        dealerValue := CalcValueUnder(rule, dealerHand, false);
      }
    }

    /** The dealer's play: the hidden card is turned face up; then, unless the
        round is already over or the player holds a two-card 21, the dealer draws
        face up while the dealer's total is below `playerValue`. */
    method DealerTurn(playerValue: int, natural: bool) returns (r: Outcome<DeckError>)
      requires Valid() && !animationFaceDown
      modifies this, deck
      ensures Valid() && !animationFaceDown
      ensures playerHand == old(playerHand) && playersKey == old(playersKey)
      ensures StatusOf() == old(StatusOf())
      ensures DealerPlayed(rule, old(dealerHand), old(deck.cards), old(dealersKey), playerValue,
        old(gameEnded) || natural, r, dealerHand, deck.cards, dealersKey)
    {
      RevealHoleCard();
      r := Pass;
      if !natural && !gameEnded {
        r := DealerDraws(playerValue);
      } else {
        assert dealerHand + Drawn(deck.cards, 0) == dealerHand;
      }
    }

    /** The dealer's turn, once the player's turn is over: the dealer plays, except
        after a two-card 21, and the round ends. A player who went bust has already
        ended the round, and the dealer draws nothing. No deal is pending: the
        face-down flag is set only for the opening deal's first card. */
    method OnPlayerFinished() returns (r: Outcome<DeckError>)
      requires Valid() && !animationFaceDown
      modifies this, deck
      ensures Valid() && !animationFaceDown
      ensures playerHand == old(playerHand) && playersKey == old(playersKey)
      ensures !old(playerFinished) ==>
        && r == Pass && dealerHand == old(dealerHand) && deck.cards == old(deck.cards)
        && StatusOf() == old(StatusOf()) && dealersKey == old(dealersKey)
      ensures old(playerFinished) ==>
        && DealerPlayed(rule, old(dealerHand), old(deck.cards), old(dealersKey), old(PlayerValue()),
             old(gameEnded) || (old(PlayerValue()) == 21 && |old(playerHand)| == 2),
             r, dealerHand, deck.cards, dealersKey)
        && StatusOf() == old(StatusOf()).(gameEnded := old(gameEnded) || r == Pass)
    {
      r := Pass;
      if !playerFinished {
        return;
      }
      var playerValue := CalcValueUnder(rule, playerHand, false);
      r := DealerTurn(playerValue, playerValue == 21 && |playerHand| == 2);
      if r.Fail? {
        return;
      }
      gameEnded := true;
    }

    /** Resolves an ended round from the face-up totals: a loss costs the bet, a win
        pays it, a draw returns it; then the result dialog opens. */
    method EndGame()
      modifies this
      ensures !old(gameEnded) ==> StatusOf() == old(StatusOf())
      ensures old(gameEnded) ==>
        && gameResult == Resolve(old(DealerValue(false)), old(PlayerValue()))
        && chips == old(chips) + ChipDelta(gameResult, bet)
        && StatusOf() == old(StatusOf()).(chips := chips, gameResult := gameResult, showResultDialog := true)
      ensures dealerHand == old(dealerHand) && playerHand == old(playerHand)
      ensures dealersKey == old(dealersKey) && playersKey == old(playersKey)
      ensures inAnimation == old(inAnimation) && animationFaceDown == old(animationFaceDown)
    {
      if !gameEnded {
        return;
      }
      var dealersValue := CalcValueUnder(rule, dealerHand, false);
      var playersValue := CalcValueUnder(rule, playerHand, false);
      if playersValue > 21 || (dealersValue <= 21 && playersValue < dealersValue) {
        chips := chips - bet;
        gameResult := Lose;
      } else if playersValue > dealersValue || dealersValue > 21 {
        chips := chips + bet;
        gameResult := Win;
      } else {
        gameResult := Draw;
      }
      showResultDialog := true;
    }

    /** The result dialog was dismissed. */
    method GameEnded()
      modifies this
      ensures !showResultDialog
      ensures StatusOf() == old(StatusOf()).(showResultDialog := false)
      ensures dealerHand == old(dealerHand) && playerHand == old(playerHand)
      ensures dealersKey == old(dealersKey) && playersKey == old(playersKey)
      ensures inAnimation == old(inAnimation) && animationFaceDown == old(animationFaceDown)
    {
      showResultDialog := false;
    }

    /** The Hold button: the player's turn is over. */
    method PlayerHold()
      modifies this
      ensures playerFinished
      ensures StatusOf() == old(StatusOf()).(playerFinished := true)
      ensures dealerHand == old(dealerHand) && playerHand == old(playerHand)
      ensures dealersKey == old(dealersKey) && playersKey == old(playersKey)
      ensures inAnimation == old(inAnimation) && animationFaceDown == old(animationFaceDown)
    {
      playerFinished := true;
    }
  }

  /** A whole round through the view model: a fresh table, 100 chips and a bet of
      25, and a shuffle that leaves the deck in its built order. The dealer gets the
      king of spades face down and the jack of spades, the player the queen and the
      ten of spades; neither has 21, the player holds at 20, the dealer reveals 20
      and draws nothing, and the round is a draw that leaves the chips at 100. */
  method HoldAtTwentyAgainstTwentyDraws(rule: AceRule) returns (result: GameResult, chips: int)
    ensures result == Draw && chips == 100
  {
    var vm := DealKingJackAgainstQueenTen(rule);
    var down := Turned(Card(13, Spades), false);
    TwoTenCardsMakeTwenty(rule, Card(12, Spades), Card(10, Spades), false);
    vm.PlayerHold();
    ghost var d0, k0 := vm.deck.cards, vm.dealersKey;
    assert Revealed(vm.dealerHand) == [Card(13, Spades), Card(11, Spades)];
    TwoTenCardsMakeTwenty(rule, Card(13, Spades), Card(11, Spades), false);
    var r := vm.OnPlayerFinished();
    NoDrawAtOrAboveTarget(rule, [down, Card(11, Spades)], d0, k0, 20, false, r, vm.dealerHand, vm.deck.cards, vm.dealersKey);
    assert r == Pass && vm.gameEnded;
    vm.EndGame();
    result, chips := vm.gameResult, vm.chips;
  }

  /** The opening of that round: a new view model over a fresh table, started with
      the built order left in place, deals the king (face down) and the jack of
      spades to the dealer and the queen and the ten of spades to the player, and
      neither hand ends the player's turn. */
  method DealKingJackAgainstQueenTen(rule: AceRule) returns (vm: GameComponentViewModel)
    ensures fresh(vm) && fresh(vm.deck) && vm.Valid() && !vm.animationFaceDown && vm.rule == rule
    ensures vm.dealerHand == [Turned(Card(13, Spades), false), Card(11, Spades)]
    ensures vm.playerHand == [Card(12, Spades), Card(10, Spades)]
    ensures !vm.playerFinished && !vm.gameEnded && vm.chips == 100 && vm.bet == 25 && |vm.deck.cards| == 48
  {
    vm := NewClassicRound(rule);
    var keep := (seed: int, cards: seq<Card>) => cards;
    var r := vm.StartGame(7, keep);
    assert r == Pass;
    var down := Turned(Card(13, Spades), false);
    assert vm.dealerHand == [down, Card(11, Spades)];
    assert vm.playerHand == [Card(12, Spades), Card(10, Spades)];
    TwoTenCardsMakeTwenty(rule, down, Card(11, Spades), true);
    TwoTenCardsMakeTwenty(rule, Card(12, Spades), Card(10, Spades), false);
  }

  /** A round of 25 from 100 chips over a fresh table, before it starts: the
      classic deck in its built order ends with the ten, jack, queen and king of
      spades. */
  method NewClassicRound(rule: AceRule) returns (vm: GameComponentViewModel)
    ensures fresh(vm) && fresh(vm.deck) && fresh(vm.gameDao)
    ensures vm.Valid() && vm.gameDao.Valid() && vm.StoredSeed().None? && vm.rule == rule
    ensures |vm.deck.cards| == 52
    ensures vm.deck.cards[51] == Card(13, Spades) && vm.deck.cards[50] == Card(12, Spades)
    ensures vm.deck.cards[49] == Card(11, Spades) && vm.deck.cards[48] == Card(10, Spades)
    ensures vm.dealerHand == [] && vm.playerHand == [] && vm.dealersKey == 0 && vm.playersKey == 0
    ensures !vm.inAnimation && !vm.animationFaceDown && !vm.playerFinished && !vm.gameEnded
    ensures vm.chips == 100 && vm.bet == 25
  {
    var dao := new GameTable();
    vm := new GameComponentViewModel(rule, 100, 25, 1, dao, Classic);
    BuiltDeckEndsWithHighSpades(vm.deck.cards);
  }

  /** A freshly built classic deck ends with the ten, jack, queen and king of spades. */
  lemma BuiltDeckEndsWithHighSpades(s: seq<Card>)
    requires Faces(s) == CanonicalFaces()
    requires forall c | c in s :: c.isFaceUp && c.style == Classic
    ensures |s| == 52
    ensures s[51] == Card(13, Spades) && s[50] == Card(12, Spades)
    ensures s[49] == Card(11, Spades) && s[48] == Card(10, Spades)
  {
    assert Faces(s)[51] == (Spades, 13) && Faces(s)[50] == (Spades, 12);
    assert Faces(s)[49] == (Spades, 11) && Faces(s)[48] == (Spades, 10);
    assert s[51] in s && s[50] in s && s[49] in s && s[48] in s;
  }

  /** Two cards of rank ten or more, counted, make 20 under either rule. */
  lemma TwoTenCardsMakeTwenty(rule: AceRule, a: Card, b: Card, ignoreFaceDown: bool)
    requires a.value >= 10 && b.value >= 10 && (ignoreFaceDown || (a.isFaceUp && b.isFaceUp))
    ensures Score(rule, [a, b], ignoreFaceDown) == 20
  {
    assert [a, b][..1] == [a] && [a][..0] == [];
    assert TallyOf([a], ignoreFaceDown) == Tally(10, 0);
    assert TallyOf([a, b], ignoreFaceDown) == Tally(20, 0);
  }
}
