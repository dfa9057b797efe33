/** How a finished round is decided and what it does to the chip count. */
module Outcomes {

  datatype GameResult = Win | Lose | Draw

  /** The declaration order of the enum. */
  const GameResultEntries: seq<GameResult> := [Win, Lose, Draw]

  /** The round's result from the final totals: the player loses on a bust or when
      beaten by a dealer who did not bust, wins when above the dealer or when the
      dealer busts, and draws otherwise. */
  function Resolve(dealer: int, player: int): (r: GameResult)
    ensures r == Lose <==> player > 21 || (dealer <= 21 && dealer > player)
    ensures r == Win <==> player <= 21 && (dealer > 21 || player > dealer)
    ensures r == Draw <==> player <= 21 && dealer <= 21 && player == dealer
  {
    if player > 21 || (dealer <= 21 && player < dealer) then Lose
    else if player > dealer || dealer > 21 then Win
    else Draw
  }

  /** What a result does to the chips: the bet is won, lost, or returned. */
  function ChipDelta(r: GameResult, bet: int): (delta: int)
    ensures bet > 0 ==> (delta > 0 <==> r == Win) && (delta < 0 <==> r == Lose)
    ensures bet > 0 ==> (delta == 0 <==> r == Draw)
    ensures delta == bet || delta == -bet || delta == 0
  {
    match r
    case Win => bet
    case Lose => -bet
    case Draw => 0
  }

  lemma ResolutionTable()
    ensures Resolve(18, 20) == Win
    ensures Resolve(22, 18) == Win
    ensures Resolve(20, 20) == Draw
    ensures Resolve(20, 22) == Lose
    ensures Resolve(19, 18) == Lose
    ensures Resolve(25, 25) == Lose
  {
  }

  function Standing(r: GameResult): nat
  {
    match r
    case Lose => 0
    case Draw => 1
    case Win => 2
  }

  /** A higher player total that does not bust never turns the result for the worse,
      and a lower dealer total never does either. */
  lemma ResolveIsMonotone(dealer: int, p1: int, p2: int, d2: int)
    requires p1 <= p2 <= 21
    ensures Standing(Resolve(dealer, p1)) <= Standing(Resolve(dealer, p2))
    ensures d2 <= dealer <= 21 ==> Standing(Resolve(dealer, p1)) <= Standing(Resolve(d2, p1))
  {
  }
}
