/** The betting slider: its four positions offer a quarter, a half, three quarters
    and all of the player's chips, each rounded up, and "place bet" hands the chosen
    amount to the page. */
module Bidding {

  /** Kotlin's `Int` range. */
  predicate IsInt32(x: int)
  {
    -0x8000_0000 <= x < 0x8000_0000
  }

  /** What a 32-bit `Int` multiplication keeps of the exact product: the value
      congruent to it modulo 2^32 in the `Int` range. */
  function Wrap32(x: int): (w: int)
    ensures IsInt32(w)
    ensures (w - x) % 0x1_0000_0000 == 0
    ensures IsInt32(x) ==> w == x
  {
    (x + 0x8000_0000) % 0x1_0000_0000 - 0x8000_0000
  }

  /** `ceil(a / b)` on exact rationals, for a positive divisor: the least q with
      a <= q * b. */
  function CeilDiv(a: int, b: int): (q: int)
    requires b > 0
    ensures (q - 1) * b < a <= q * b
  {
    (a + b - 1) / b
  }

  /** The bet for a slider position as the slider computes it: the third position
      multiplies the chips by 3 in `Int` before dividing, so the product wraps
      around once it passes the `Int` range. Any other position keeps the bet. */
  function BetPresetAsWritten(index: int, chips: int, current: int): (bet: int)
    requires IsInt32(chips)
  {
    match index
    case 0 => CeilDiv(chips, 4)
    case 1 => CeilDiv(chips, 2)
    case 2 => CeilDiv(Wrap32(chips * 3), 4)
    case 3 => chips
    case _ => current
  }

  /** The bet for a slider position: the exact `ceil(k * chips / 4)` for positions
      0 to 2, all the chips for position 3; any other position keeps the bet. */
  function BetPreset(index: int, chips: int, current: int): (bet: int)
    ensures index == 0 ==> (bet - 1) * 4 < chips <= bet * 4
    ensures index == 1 ==> (bet - 1) * 2 < chips <= bet * 2
    ensures index == 2 ==> (bet - 1) * 4 < 3 * chips <= bet * 4
    ensures index == 3 ==> bet == chips
    ensures !(0 <= index <= 3) ==> bet == current
  {
    match index
    case 0 => CeilDiv(chips, 4)
    case 1 => CeilDiv(chips, 2)
    case 2 => CeilDiv(3 * chips, 4)
    case 3 => chips
    case _ => current
  }

  /** For chips that are not negative, a later slider position never offers less. */
  lemma PresetsAreMonotone(chips: int, i: int, j: int, current: int)
    requires chips >= 0 && 0 <= i <= j <= 3
    ensures BetPreset(i, chips, current) <= BetPreset(j, chips, current)
  {
    var a, b := BetPreset(i, chips, current), BetPreset(j, chips, current);
    if i < j {
      // Each preset is the least integer bounding its fraction of the chips from
      // above, and the fractions grow with the position.
      if i == 0 && j == 1 {
        assert (a - 1) * 4 < chips <= b * 2;
      } else if i == 0 && j == 2 {
        assert (a - 1) * 4 < chips <= 3 * chips <= b * 4;
      } else if i == 1 && j == 2 {
        assert (a - 1) * 4 < 2 * chips <= 3 * chips <= b * 4;
      }
    }
  }

  /** Every preset is a real bet the player can cover: never more than the chips,
      and at least one chip when there are any. */
  lemma PresetsAreAffordable(chips: int, index: int, current: int)
    requires chips >= 0 && 0 <= index <= 3
    ensures BetPreset(index, chips, current) <= chips
    ensures chips > 0 ==> BetPreset(index, chips, current) >= 1
    ensures chips == 0 ==> BetPreset(index, chips, current) == 0
  {
  }

  /** Below the wrap-around point the slider's own arithmetic is exact. */
  lemma AsWrittenIsExactBelowOverflow(index: int, chips: int, current: int)
    requires 0 <= chips <= 715827882
    ensures BetPresetAsWritten(index, chips, current) == BetPreset(index, chips, current)
  {
  }

  /** One chip more and the third position offers a negative bet. */
  lemma ThreeQuarterPresetOverflows()
    ensures IsInt32(715827883)
    ensures BetPresetAsWritten(2, 715827883, 0) == -536870911
    ensures BetPreset(2, 715827883, 0) == 536870913
  {
    assert Wrap32(715827883 * 3) == -2147483647;
  }

  /** Which arithmetic the slider's presets use: the slider's own, where the
      third position's product wraps around in `Int`, or exact arithmetic. */
  datatype Arithmetic = Int32Arithmetic | ExactArithmetic

  /** The bet for a slider position under the given arithmetic. */
  function Preset(arithmetic: Arithmetic, index: int, chips: int, current: int): int
    requires IsInt32(chips)
  {
    if arithmetic == Int32Arithmetic then BetPresetAsWritten(index, chips, current)
    else BetPreset(index, chips, current)
  }

  /** The slider's remembered bet, with its presets computed in `arithmetic`:
      `Int32Arithmetic` is the slider as written, `ExactArithmetic` as intended. */
  class Bidder {
    const arithmetic: Arithmetic
    const chips: int
    var betAmount: int

    /** The remembered bet is 0, before any position is chosen, or the preset of
        some slider position for these chips. */
    ghost predicate Valid()
      reads this
    {
      && IsInt32(chips)
      && (betAmount == 0 || exists i | 0 <= i <= 3 :: betAmount == Preset(arithmetic, i, chips, 0))
    }

    /** Nothing is chosen yet: the bet starts at 0. */
    constructor (arithmetic: Arithmetic, chips: int)
      requires IsInt32(chips)
      ensures Valid() && this.arithmetic == arithmetic && this.chips == chips && betAmount == 0
    {
      this.arithmetic := arithmetic;
      this.chips := chips;
      betAmount := 0;
    }

    /** Moving the slider to a position. */
    method SelectPreset(index: int)
      requires Valid()
      modifies this
      ensures Valid()
      ensures betAmount == Preset(arithmetic, index, chips, old(betAmount))
    {
      betAmount := Preset(arithmetic, index, chips, betAmount);
      if 0 <= index <= 3 {
        assert betAmount == Preset(arithmetic, index, chips, 0);
      }
    }

    /** "Place bet": the remembered amount goes to the page unchanged. With exact
        arithmetic, or below the wrap-around point, it is a bet the player can
        cover: between 0 and the chips. */
    method PlaceBet() returns (bet: int)
      requires Valid()
      ensures bet == betAmount
      ensures 0 <= chips && (arithmetic == ExactArithmetic || chips <= 715827882) ==> 0 <= bet <= chips
    {
      bet := betAmount;
      if bet != 0 && 0 <= chips && (arithmetic == ExactArithmetic || chips <= 715827882) {
        ghost var i :| 0 <= i <= 3 && bet == Preset(arithmetic, i, chips, 0);
        PresetsAreAffordable(chips, i, 0);
        if arithmetic == Int32Arithmetic {
          AsWrittenIsExactBelowOverflow(i, chips, 0);
        }
      }
    }
  }
}
