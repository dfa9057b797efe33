/** Playing cards: suits, the card with its face-up flag, and the names of
    the image assets a card is drawn with. */
module Cards {
  import opened Wrappers
  import opened Styles

  datatype Suit = Hearts | Diamonds | Clubs | Spades

  /** The declaration order of the enum, `CardSuit.entries`. */
  const SuitEntries: seq<Suit> := [Hearts, Diamonds, Clubs, Spades]

  /** `CardSuit.toString()` is this single letter. */
  function SuitLetter(s: Suit): char
  {
    match s
    case Hearts => 'h'
    case Diamonds => 'd'
    case Clubs => 'c'
    case Spades => 's'
  }

  /** Reads a suit letter back; the partner of SuitLetter. */
  function LetterSuit(c: char): (r: Option<Suit>)
    ensures r.Some? ==> SuitLetter(r.value) == c
    ensures forall s: Suit :: SuitLetter(s) == c ==> r == Some(s)
  {
    if c == 'h' then Some(Hearts)
    else if c == 'd' then Some(Diamonds)
    else if c == 'c' then Some(Clubs)
    else if c == 's' then Some(Spades)
    else None
  }

  /** A card: rank, suit, art style and which side is up. The game turns a card by
      replacing it with a copy whose `isFaceUp` differs. */
  datatype Card = Card(value: int, suit: Suit, isFaceUp: bool := true, style: CardStyle := Classic)
  {
    /** The asset the face of this card is loaded from. */
    function FrontImagePath(): (path: string)
      ensures path == FrontPath(style, suit, value)
      ensures path != BackImagePath()
    {
      FrontPathIsNotBackPath(style, suit, value);
      FrontPath(style, suit, value)
    }

    /** The asset the back of this card is loaded from. */
    function BackImagePath(): (path: string)
      ensures path == BackPath(style)
    {
      BackPath(style)
    }
  }

  // ---------------------------------------------------------------------------
  // Decimal notation of an Int, as string templates print it

  function DigitChar(d: nat): char
    requires d < 10
  {
    "0123456789"[d]
  }

  predicate IsDigit(c: char)
  {
    '0' <= c <= '9'
  }

  function DigitValue(c: char): nat
    requires IsDigit(c)
  {
    c as int - '0' as int
  }

  /** The digits of a natural number, most significant first, without leading zeros. */
  function NatDigits(n: nat): (s: string)
    ensures |s| >= 1
    ensures forall i :: 0 <= i < |s| ==> IsDigit(s[i])
    ensures n >= 10 ==> |s| >= 2
  {
    if n < 10 then [DigitChar(n)] else NatDigits(n / 10) + [DigitChar(n % 10)]
  }

  /** `"$n"` for an Int. */
  function Decimal(n: int): string
  {
    if n < 0 then "-" + NatDigits(-n) else NatDigits(n)
  }

  /** The number a string of digits denotes; the partner of NatDigits. */
  function DigitsValue(s: string): nat
    requires forall i :: 0 <= i < |s| ==> IsDigit(s[i])
  {
    if s == [] then 0 else DigitsValue(s[..|s| - 1]) * 10 + DigitValue(s[|s| - 1])
  }

  lemma {:induction false} NatDigitsRoundTrip(n: nat)
    ensures DigitsValue(NatDigits(n)) == n
  {
    if n >= 10 {
      var s := NatDigits(n);
      var p := NatDigits(n / 10);
      assert s[..|s| - 1] == p;
      NatDigitsRoundTrip(n / 10);
    }
  }

  lemma {:induction false} LeadingZero(s: string)
    requires forall i :: 0 <= i < |s| ==> IsDigit(s[i])
    ensures forall i :: 0 <= i < |"0" + s| ==> IsDigit(("0" + s)[i])
    ensures DigitsValue("0" + s) == DigitsValue(s)
  {
    if s != [] {
      var t := "0" + s;
      assert t[..|t| - 1] == "0" + s[..|s| - 1];
      LeadingZero(s[..|s| - 1]);
    }
  }

  // ---------------------------------------------------------------------------
  // Asset names

  /** The face image's file name: suit letter, the value (with a leading "0" below
      ten) and ".png". */
  function FrontFileName(suit: Suit, value: int): string
  {
    [SuitLetter(suit)] + (if value < 10 then "0" else "") + Decimal(value) + ".png"
  }

  function AssetFolder(style: CardStyle): string
  {
    "cards/" + CardStyleName(style) + "/"
  }

  function FrontPath(style: CardStyle, suit: Suit, value: int): string
  {
    AssetFolder(style) + FrontFileName(suit, value)
  }

  /** The back image is shared by every card of a style. */
  function BackPath(style: CardStyle): string
  {
    AssetFolder(style) + "back.png"
  }

  /** The suit and the value of a card can be read back from its face file name. */
  lemma FrontFileNameDecodes(suit: Suit, value: nat)
    ensures var f := FrontFileName(suit, value);
      && |f| >= 7
      && LetterSuit(f[0]) == Some(suit)
      && f[|f| - 4..] == ".png"
      && (forall i :: 1 <= i < |f| - 4 ==> IsDigit(f[i]))
      && DigitsValue(f[1..|f| - 4]) == value
  {
    var f := FrontFileName(suit, value);
    var d := NatDigits(value);
    NatDigitsRoundTrip(value);
    if value < 10 {
      assert f == [SuitLetter(suit)] + ("0" + d) + ".png";
      assert f[1..|f| - 4] == "0" + d;
      LeadingZero(d);
    } else {
      assert f == [SuitLetter(suit)] + d + ".png";
      assert f[1..|f| - 4] == d;
    }
  }

  /** No two cards of the deck share a face image. */
  lemma FrontFileNameInjective(s1: Suit, v1: nat, s2: Suit, v2: nat)
    requires FrontFileName(s1, v1) == FrontFileName(s2, v2)
    ensures s1 == s2 && v1 == v2
  {
    FrontFileNameDecodes(s1, v1);
    FrontFileNameDecodes(s2, v2);
  }

  /** A face image is never the back image of the same style. */
  lemma FrontPathIsNotBackPath(style: CardStyle, suit: Suit, value: int)
    ensures FrontPath(style, suit, value) != BackPath(style)
  {
    var k := |AssetFolder(style)|;
    assert FrontPath(style, suit, value)[k] == SuitLetter(suit);
    assert BackPath(style)[k] == 'b';
  }

  lemma AssetNameExamples()
    ensures FrontFileName(Hearts, 1) == "h01.png"
    ensures BackPath(Modern) == "cards/Modern/back.png"
  {
  }

  lemma TwoDigitAssetNameExamples()
    ensures FrontFileName(Spades, 13) == "s13.png"
    ensures FrontPath(Classic, Diamonds, 10) == "cards/Classic/d10.png"
  {
    assert NatDigits(13) == "13" by { assert NatDigits(1) == "1"; }
    assert NatDigits(10) == "10" by { assert NatDigits(1) == "1"; }
  }
}
