/** The card-art and table-background styles and the names they print as. */
module Styles {

  datatype CardStyle = Classic | Modern

  /** The declaration order of the enum, `CardStyle.entries`. */
  const CardStyleEntries: seq<CardStyle> := [Classic, Modern]

  /** `CardStyle.toString()`: the name of the asset folder for that style. */
  function CardStyleName(style: CardStyle): (name: string)
    ensures |name| > 0 && name[0] in "CM"
  {
    match style
    case Classic => "Classic"
    case Modern => "Modern"
  }

  /** The style used when none is chosen: the first entry of the enum. */
  function DefaultCardStyle(): (style: CardStyle)
    ensures style == CardStyleEntries[0] && CardStyleName(style) == "Classic"
  {
    Classic
  }

  lemma CardStyleNamesDistinct(a: CardStyle, b: CardStyle)
    ensures CardStyleName(a) == CardStyleName(b) <==> a == b
  {
    if a != b {
      assert CardStyleName(a)[0] != CardStyleName(b)[0];
    }
  }

  datatype BackgroundStyle = Red | Blue | Green | Cat | AceCat

  /** The declaration order of the enum, `BackgroundStyle.entries`. */
  const BackgroundStyleEntries: seq<BackgroundStyle> := [Red, Blue, Green, Cat, AceCat]

  /** The Kotlin constant name of each background, as `name` returns it. */
  function BackgroundConstantName(b: BackgroundStyle): string
  {
    match b
    case Red => "RED"
    case Blue => "BLUE"
    case Green => "GREEN"
    case Cat => "CAT"
    case AceCat => "ACE_CAT"
  }

  /** `BackgroundStyle.toString()`. */
  function BackgroundStyleName(b: BackgroundStyle): string
  {
    match b
    case Red => "red"
    case Blue => "blue"
    case Green => "green"
    case Cat => "cat"
    case AceCat => "ace_cat"
  }

  function LowerChar(c: char): char
  {
    if 'A' <= c <= 'Z' then (c as int - 'A' as int + 'a' as int) as char else c
  }

  function ToLower(s: string): (t: string)
    ensures |t| == |s|
    ensures forall i :: 0 <= i < |s| ==> t[i] == LowerChar(s[i])
  {
    seq(|s|, i requires 0 <= i < |s| => LowerChar(s[i]))
  }

  /** Every background prints as its constant name in lower case, and the first
      entry of the enum is the red table. */
  lemma BackgroundNameIsLowerCaseConstant(b: BackgroundStyle)
    ensures BackgroundStyleName(b) == ToLower(BackgroundConstantName(b))
    ensures BackgroundStyleEntries[0] == Red
  {
  }
}
