/** The older round engine, kept inside the game screen itself: the same deal and
    the same scoring, but no naturals, no draw outcome and no exception for a
    two-card 21. The player's turn ends at 21 or more, the dealer then draws while
    below the player (even when the player has gone over 21), and the round is
    won or lost, never tied: a tie goes to the player.

    As in the newer engine, a bumped deal key and the deal it triggers on screen
    are one synchronous step. */
module LegacyRound {
  import opened Wrappers
  import opened Styles
  import opened Cards
  import opened Decks
  import opened Scoring
  import opened Outcomes
  import Round

  /** The screen's verdict from the two face-up totals: the player loses when over
      21, or when the dealer is at most 21 and above the player; otherwise the
      player wins. It is exactly "not a loss" under the three-way resolution. */
  function PlayerWins(dealer: int, player: int): (won: bool)
    ensures won <==> Resolve(dealer, player) != Lose
  {
    !(player > 21 || (dealer <= 21 && dealer > player))
  }

  /** What the result adds to the player's chips: the bet, won or lost, as the
      three-way resolution pays a win or a loss. */
  function ResultAmount(won: bool, bet: int): (amount: int)
    ensures amount == ChipDelta(if won then Win else Lose, bet)
  {
    if won then bet else -bet
  }

  /** Against the three-way resolution, the two-way one differs only on a tie,
      which it pays to the player instead of returning the bet. */
  lemma {:induction false} TiesGoToThePlayer(dealer: int, player: int, bet: int)
    ensures Resolve(dealer, player) == Draw ==> PlayerWins(dealer, player) && dealer == player
    ensures Resolve(dealer, player) != Draw ==>
      ResultAmount(PlayerWins(dealer, player), bet) == ChipDelta(Resolve(dealer, player), bet)
    ensures Resolve(dealer, player) == Draw ==>
      ResultAmount(PlayerWins(dealer, player), bet) == ChipDelta(Resolve(dealer, player), bet) + bet
  {
  }

  /** The screen state of a round that dealing a card leaves alone. */
  datatype Status = Status(
    gameStarted: bool,
    playerFinished: bool,
    gameEnded: bool,
    showResultDialog: bool,
    playerWon: bool,
    chipsTarget: int,
    resultAmount: int)

  /** The older screen's round, scored by `rule`: `AsWrittenAces` is the program
      as written, `UsualAces` as intended. */
  class GameComponent {
    const rule: AceRule
    const chips: int
    const bet: int
    const deck: Deck

    var dealerHand: seq<Card>
    var playerHand: seq<Card>
    var dealersKey: int
    var playersKey: int
    var inAnimation: bool
    var animationFaceDown: bool
    var gameStarted: bool
    var playerFinished: bool
    var gameEnded: bool
    var showResultDialog: bool
    var playerWon: bool
    var chipsTarget: int
    var resultAmount: int

    /** The deck holds distinct cards, all of them face up. */
    ghost predicate Valid()
      reads this, deck
    {
      deck.Valid() && forall c | c in deck.cards :: c.isFaceUp
    }

    function StatusOf(): Status
      reads this
    {
      Status(gameStarted, playerFinished, gameEnded, showResultDialog, playerWon, chipsTarget, resultAmount)
    }

    function PlayerValue(): int
      reads this
    {
      Score(rule, playerHand, false)
    }

    function DealerValue(): int
      reads this
    {
      Score(rule, dealerHand, false)
    }

    /** The screen's remembered state on first composition: a full classic deck,
        empty hands and the chips it was given as the displayed target. */
    constructor (rule: AceRule, chips: int, bet: int)
      ensures Valid() && fresh(deck) && this.rule == rule
      ensures Faces(deck.cards) == CanonicalFaces()
      ensures forall c | c in deck.cards :: c.style == Classic
      ensures this.chips == chips && this.bet == bet
      ensures dealerHand == [] && playerHand == []
      ensures StatusOf() == Status(false, false, false, false, false, chips, 0)
      ensures dealersKey == 0 && playersKey == 0 && !inAnimation && !animationFaceDown
    {
      this.rule := rule;
      this.chips := chips;
      this.bet := bet;
      deck := new Deck(Classic);
      dealerHand := [];
      playerHand := [];
      dealersKey := 0;
      playersKey := 0;
      inAnimation := false;
      animationFaceDown := false;
      gameStarted := false;
      playerFinished := false;
      gameEnded := false;
      showResultDialog := false;
      playerWon := false;
      chipsTarget := chips;
      resultAmount := 0;
    }

    /** The dealer's deal key is bumped and the screen draws the top card, turns it
        face down while `animationFaceDown` is set, and adds it to the dealer's hand
        when the animation ends, clearing both animation flags. */
    method DealerHit() returns (r: Outcome<DeckError>)
      requires Valid()
      modifies this, deck
      ensures Valid()
      ensures playerHand == old(playerHand) && StatusOf() == old(StatusOf())
      ensures dealersKey == old(dealersKey) + 1 && playersKey == old(playersKey)
      ensures r.Fail? <==> |old(deck.cards)| == 0
      ensures r.Fail? ==> r.error == NoMoreCards && dealerHand == old(dealerHand) && deck.cards == []
      ensures r.Fail? ==> inAnimation && animationFaceDown == old(animationFaceDown)
      ensures r == Pass ==>
        var top := old(deck.cards)[|old(deck.cards)| - 1];
        && deck.cards == old(deck.cards)[..|old(deck.cards)| - 1]
        && dealerHand == old(dealerHand) + [Round.Turned(top, !old(animationFaceDown))]
        && (!old(animationFaceDown) ==> dealerHand == old(dealerHand) + [top])
        && !inAnimation && !animationFaceDown
    {
      dealersKey := dealersKey + 1;
      inAnimation := true;
      var drawn := deck.DrawCard();
      match drawn
      case Failure(e) =>
        r := Fail(e);
      case Success(c) =>
        var card := c.(isFaceUp := !animationFaceDown);
        dealerHand := dealerHand + [card];
        animationFaceDown := false;
        inAnimation := false;
        r := Pass;
    }

    /** The player's deal key is bumped (the Hit button) and the screen adds the top
        card, face up, to the player's hand. */
    method PlayerHit() returns (r: Outcome<DeckError>)
      requires Valid()
      modifies this, deck
      ensures Valid()
      ensures dealerHand == old(dealerHand) && StatusOf() == old(StatusOf())
      ensures playersKey == old(playersKey) + 1 && dealersKey == old(dealersKey)
      ensures r.Fail? <==> |old(deck.cards)| == 0
      ensures r.Fail? ==> r.error == NoMoreCards && playerHand == old(playerHand) && deck.cards == []
      ensures r.Fail? ==> inAnimation && animationFaceDown == old(animationFaceDown)
      ensures r == Pass ==>
        var top := old(deck.cards)[|old(deck.cards)| - 1];
        && deck.cards == old(deck.cards)[..|old(deck.cards)| - 1]
        && playerHand == old(playerHand) + [top]
        && !inAnimation && !animationFaceDown
    {
      playersKey := playersKey + 1;
      inAnimation := true;
      var drawn := deck.DrawCard();
      match drawn
      case Failure(e) =>
        r := Fail(e);
      case Success(card) =>
        playerHand := playerHand + [card];
        animationFaceDown := false;
        inAnimation := false;
        r := Pass;
    }

    /** The opening deal: dealer, player, dealer, player from the top of the deck,
        the dealer's first card face down and the others face up. */
    method DealOpeningHands() returns (r: Outcome<DeckError>)
      requires Valid()
      modifies this, deck
      ensures Valid() && StatusOf() == old(StatusOf())
      ensures r.Fail? <==> |old(deck.cards)| < 4
      ensures r.Fail? ==> r.error == NoMoreCards
      ensures r == Pass ==>
        var s, n := old(deck.cards), |old(deck.cards)|;
        && n >= 4
        && deck.cards == s[..n - 4]
        && dealerHand == old(dealerHand) + [Round.Turned(s[n - 1], false), s[n - 3]]
        && playerHand == old(playerHand) + [s[n - 2], s[n - 4]]
        && dealersKey == old(dealersKey) + 2 && playersKey == old(playersKey) + 2
        && !inAnimation && !animationFaceDown
    {
      ghost var s, n := deck.cards, |deck.cards|;
      ghost var d0, p0 := dealerHand, playerHand;
      r := Pass;
      for i := 0 to 4
        invariant Valid() && StatusOf() == old(StatusOf())
        invariant i <= n && deck.cards == s[..n - i]
        invariant dealersKey == old(dealersKey) + (i + 1) / 2 && playersKey == old(playersKey) + i / 2
        invariant i > 0 ==> !inAnimation && !animationFaceDown
        invariant i == 0 ==> dealerHand == d0 && playerHand == p0
        invariant i == 1 ==> dealerHand == d0 + [Round.Turned(s[n - 1], false)] && playerHand == p0
        invariant i == 2 ==> dealerHand == d0 + [Round.Turned(s[n - 1], false)] && playerHand == p0 + [s[n - 2]]
        invariant i == 3 ==>
          dealerHand == d0 + [Round.Turned(s[n - 1], false), s[n - 3]] && playerHand == p0 + [s[n - 2]]
        invariant i == 4 ==>
          dealerHand == d0 + [Round.Turned(s[n - 1], false), s[n - 3]] && playerHand == p0 + [s[n - 2], s[n - 4]]
        invariant r == Pass
      {
        if i < n {
          assert s[..n - i][n - i - 1] == s[n - i - 1] && s[n - i - 1] in deck.cards;
          assert s[..n - i][..n - i - 1] == s[..n - i - 1];
        }
        if i % 2 == 0 {
          if i == 0 {
            // The first card goes to the dealer face down.
            animationFaceDown := true;
          }
          r := DealerHit();
        } else {
          r := PlayerHit();
        }
        if r.Fail? {
          return;
        }
      }
    }

    /** Starts the round once, while it has not ended and the dealer holds no card:
        shuffles the deck without a stored seed and deals the opening hands. There
        are no naturals: the player's turn goes on whatever the hands hold. */
    method StartGame(freshSeed: int, arrange: (int, seq<Card>) -> seq<Card>) returns (r: Outcome<DeckError>)
      requires Valid() && IsShuffle(arrange, deck.cards)
      modifies this, deck
      ensures Valid()
      ensures old(gameEnded) || old(dealerHand) != [] ==>
        && r == Pass && deck.cards == old(deck.cards) && StatusOf() == old(StatusOf())
        && dealerHand == old(dealerHand) && playerHand == old(playerHand)
      ensures !old(gameEnded) && old(dealerHand) == [] ==>
        && (r.Fail? <==> |old(deck.cards)| < 4)
        && (r.Fail? ==> r.error == NoMoreCards)
        && (r == Pass ==>
              var s := arrange(freshSeed, old(deck.cards));
              var n := |s|;
              && n >= 4
              && deck.cards == s[..n - 4]
              && dealerHand == [Round.Turned(s[n - 1], false), s[n - 3]]
              && playerHand == old(playerHand) + [s[n - 2], s[n - 4]]
              && !inAnimation && !animationFaceDown
              && StatusOf() == old(StatusOf()).(gameStarted := true))
    {
      r := Pass;
      if gameEnded || dealerHand != [] {
        return;
      }
      var _ := deck.Shuffle(None, freshSeed, arrange);
      forall c | c in deck.cards
        ensures c.isFaceUp
      {
        assert c in multiset(deck.cards);
      }
      r := DealOpeningHands();
      if r.Fail? {
        return;
      }
      gameStarted := true;
    }

    /** After each change to the player's hand: 21 or more ends the player's turn. */
    method CalculatePlayerValue()
      modifies this
      ensures playerFinished <==> old(playerFinished) || Score(rule, playerHand, false) >= 21
      ensures gameStarted == old(gameStarted) && gameEnded == old(gameEnded)
      ensures showResultDialog == old(showResultDialog) && playerWon == old(playerWon)
      ensures chipsTarget == old(chipsTarget) && resultAmount == old(resultAmount)
      ensures dealerHand == old(dealerHand) && playerHand == old(playerHand)
      ensures dealersKey == old(dealersKey) && playersKey == old(playersKey)
      ensures inAnimation == old(inAnimation) && animationFaceDown == old(animationFaceDown)
    {
      if |playerHand| > 0 {
        var playerValue := CalcValueUnder(rule, playerHand, false);
        if playerValue >= 21 {
          playerFinished := true;
        }
      } else {
        assert TallyOf(playerHand, false) == Tally(0, 0);
      }
    }

    /** Turns the dealer's hidden first card face up, replacing it with a face-up
        card of the same rank, suit and style. */
    method RevealHoleCard()
      modifies this
      ensures dealerHand == Round.Revealed(old(dealerHand))
      ensures playerHand == old(playerHand) && StatusOf() == old(StatusOf())
      ensures dealersKey == old(dealersKey) && playersKey == old(playersKey)
      ensures inAnimation == old(inAnimation) && animationFaceDown == old(animationFaceDown)
    {
      if |dealerHand| > 0 && !dealerHand[0].isFaceUp {
        var hidden := dealerHand[0];
        dealerHand := dealerHand[0 := Card(hidden.value, hidden.suit, isFaceUp := true, style := hidden.style)];
      }
    }

    /** The dealer draws face up, one card at a time from the top of the deck,
        while the dealer's face-up total is below `target`. */
    method DealerDraws(target: int) returns (r: Outcome<DeckError>)
      requires Valid() && !animationFaceDown
      modifies this, deck
      ensures Valid() && !animationFaceDown
      ensures playerHand == old(playerHand) && StatusOf() == old(StatusOf())
      ensures playersKey == old(playersKey)
      ensures Round.Drew(rule, old(dealerHand), old(deck.cards), old(dealersKey), target, r,
        dealerHand, deck.cards, dealersKey)
      ensures r == Pass ==> DealerValue() >= target
      ensures r.Fail? ==> DealerValue() < target
    {
      r := Pass;
      ghost var h0, d0, k0 := dealerHand, deck.cards, dealersKey;
      Round.DrewNone(rule, h0, d0, k0, target);
      var dealerValue := CalcValueUnder(rule, dealerHand, false);
      while dealerValue < target
        invariant r == Pass
        invariant Valid() && !animationFaceDown
        invariant StatusOf() == old(StatusOf()) && playerHand == old(playerHand)
        invariant playersKey == old(playersKey)
        invariant Round.Drew(rule, h0, d0, k0, target, Pass, dealerHand, deck.cards, dealersKey)
        invariant dealerValue == Score(rule, dealerHand, false)
        decreases |deck.cards|
      {
        if |deck.cards| > 0 {
          Round.DrewOneMore(rule, h0, d0, k0, target, dealerHand, deck.cards, dealersKey);
        } else {
          Round.DrewOutOfCards(rule, h0, d0, k0, target, dealerHand, dealersKey);
        }
        r := DealerHit();
        if r.Fail? {
          return;
        }
        dealerValue := CalcValueUnder(rule, dealerHand, false);
      }
    }

    /** The dealer's turn, once the player's turn is over and the round has not
        ended: the hidden card is turned face up, the dealer draws while below the
        player (with no exception for a two-card 21, and even when the player is
        over 21), and the round ends. */
    method OnPlayerFinished() returns (r: Outcome<DeckError>)
      requires Valid() && !animationFaceDown
      modifies this, deck
      ensures Valid() && !animationFaceDown
      ensures playerHand == old(playerHand) && playersKey == old(playersKey)
      ensures gameStarted == old(gameStarted) && playerFinished == old(playerFinished)
      ensures showResultDialog == old(showResultDialog) && playerWon == old(playerWon)
      ensures chipsTarget == old(chipsTarget) && resultAmount == old(resultAmount)
      ensures !old(playerFinished) || old(gameEnded) ==>
        && r == Pass && dealerHand == old(dealerHand) && deck.cards == old(deck.cards)
        && gameEnded == old(gameEnded) && dealersKey == old(dealersKey)
      ensures old(playerFinished) && !old(gameEnded) ==>
        && Round.DealerPlayed(rule, old(dealerHand), old(deck.cards), old(dealersKey), old(PlayerValue()),
             false, r, dealerHand, deck.cards, dealersKey)
        && gameEnded == (r == Pass)
    {
      r := Pass;
      if !playerFinished || gameEnded {
        return;
      }
      ghost var h0, d0, k0 := dealerHand, deck.cards, dealersKey;
      RevealHoleCard();
      var playerValue := CalcValueUnder(rule, playerHand, false);
      r := DealerDraws(playerValue);
      Round.DealerPlayedByDrawing(rule, h0, d0, k0, playerValue, r, dealerHand, deck.cards, dealersKey);
      if r.Fail? {
        return;
      }
      gameEnded := true;
    }

    /** Resolves an ended round: the player wins or loses the bet, the displayed
        chips move to the new total and the result dialog opens. */
    method EndGame()
      modifies this
      ensures !old(gameEnded) ==> StatusOf() == old(StatusOf())
      ensures old(gameEnded) ==>
        && playerWon == PlayerWins(old(DealerValue()), old(PlayerValue()))
        && resultAmount == ResultAmount(playerWon, bet)
        && chipsTarget == chips + resultAmount
        && showResultDialog
        && gameStarted == old(gameStarted) && playerFinished == old(playerFinished) && gameEnded
      ensures dealerHand == old(dealerHand) && playerHand == old(playerHand)
      ensures dealersKey == old(dealersKey) && playersKey == old(playersKey)
      ensures inAnimation == old(inAnimation) && animationFaceDown == old(animationFaceDown)
    {
      if !gameEnded {
        return;
      }
      var dealersValue := CalcValueUnder(rule, dealerHand, false);
      var playersValue := CalcValueUnder(rule, playerHand, false);
      Settle(dealersValue, playersValue);
    }

    /** The verdict of `endGame` on the two totals: the player loses the bet on a
        bust or a higher dealer total of at most 21 and wins it otherwise; the
        displayed chips move by the amount and the result dialog opens. */
    method Settle(dealersValue: int, playersValue: int)
      modifies this
      ensures playerWon == PlayerWins(dealersValue, playersValue)
      ensures resultAmount == ResultAmount(playerWon, bet) && chipsTarget == chips + resultAmount
      ensures showResultDialog
      ensures gameStarted == old(gameStarted) && playerFinished == old(playerFinished) && gameEnded == old(gameEnded)
      ensures dealerHand == old(dealerHand) && playerHand == old(playerHand)
      ensures dealersKey == old(dealersKey) && playersKey == old(playersKey)
      ensures inAnimation == old(inAnimation) && animationFaceDown == old(animationFaceDown)
    {
      if playersValue > 21 || (dealersValue <= 21 && dealersValue > playersValue) {
        playerWon := false;
        resultAmount := -bet;
        chipsTarget := chips + resultAmount;
      } else {
        playerWon := true;
        resultAmount := bet;
        chipsTarget := chips + resultAmount;
      }
      showResultDialog := true;
    }

    /** The Continue button of the result dialog: closes it and hands the verdict
        to the page. */
    method Continue() returns (won: bool)
      modifies this
      ensures won == playerWon && !showResultDialog
      ensures StatusOf() == old(StatusOf()).(showResultDialog := false)
      ensures dealerHand == old(dealerHand) && playerHand == old(playerHand)
      ensures dealersKey == old(dealersKey) && playersKey == old(playersKey)
      ensures inAnimation == old(inAnimation) && animationFaceDown == old(animationFaceDown)
    {
      showResultDialog := false;
      won := playerWon;
    }

    /** The Hold button: the player's turn is over. */
    method PlayerHold()
      modifies this
      ensures playerFinished
      ensures StatusOf() == old(StatusOf()).(playerFinished := true)
      ensures dealerHand == old(dealerHand) && playerHand == old(playerHand)
      ensures dealersKey == old(dealersKey) && playersKey == old(playersKey)
      ensures inAnimation == old(inAnimation) && animationFaceDown == old(animationFaceDown)
    {
      playerFinished := true;
    }
  }
}
