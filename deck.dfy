/** The deck: 52 cards built suit by suit, shuffled by a seeded permutation
    and dealt from the end of the list. */
module Decks {
  import opened Wrappers
  import opened Styles
  import opened Cards

  /** `drawCard` on an empty deck throws IllegalStateException("No more cards in the deck"). */
  datatype DeckError = NoMoreCards

  /** Every element occurs exactly once. */
  ghost predicate NoDuplicates<T>(s: seq<T>)
  {
    forall x | x in s :: multiset(s)[x] == 1
  }

  /** Suit and rank of each card, in order. */
  function Faces(cs: seq<Card>): (f: seq<(Suit, int)>)
    ensures |f| == |cs|
  {
    seq(|cs|, i requires 0 <= i < |cs| => (cs[i].suit, cs[i].value))
  }

  function SuitIndex(s: Suit): (k: nat)
    ensures k < 4 && SuitEntries[k] == s
  {
    match s
    case Hearts => 0
    case Diamonds => 1
    case Clubs => 2
    case Spades => 3
  }

  /** The order construction produces: suit-major, ranks 1..13 within a suit. */
  function CanonicalFaces(): (f: seq<(Suit, int)>)
    ensures |f| == 52
  {
    seq(52, i requires 0 <= i < 52 => (SuitEntries[i / 13], i % 13 + 1))
  }

  /** The canonical order holds every (suit, rank 1..13) pair exactly once, and
      nothing else. */
  lemma CanonicalFacesAreTheFullDeck(s: Suit, v: int)
    ensures 1 <= v <= 13 ==> CanonicalFaces()[SuitIndex(s) * 13 + v - 1] == (s, v)
    ensures forall i :: 0 <= i < 52 && CanonicalFaces()[i] == (s, v) ==>
      1 <= v <= 13 && i == SuitIndex(s) * 13 + v - 1
  {
    var f := CanonicalFaces();
    forall i | 0 <= i < 52 && f[i] == (s, v)
      ensures 1 <= v <= 13 && i == SuitIndex(s) * 13 + v - 1
    {
      assert SuitEntries[i / 13] == s;
      assert i / 13 == SuitIndex(s);
    }
  }

  /** The seed a shuffle runs with: the stored one when there is one, else a fresh one. */
  function SeedToUse(seed: Option<int>, freshSeed: int): int
  {
    if seed.Some? then seed.value else freshSeed
  }

  /** A seeded shuffle: for every seed it rearranges the given cards, losing and
      adding none. Which order a seed picks is not modelled. */
  ghost predicate IsShuffle(arrange: (int, seq<Card>) -> seq<Card>, cards: seq<Card>)
  {
    forall seed :: multiset(arrange(seed, cards)) == multiset(cards)
  }

  class Deck {
    var cards: seq<Card>

    ghost predicate Valid()
      reads this
    {
      NoDuplicates(cards)
    }

    /** Builds the 52 cards, face up, in canonical order. */
    constructor (style: CardStyle)
      ensures Valid() && AmountOfCards() == 52
      ensures Faces(cards) == CanonicalFaces()
      ensures forall c | c in cards :: c.isFaceUp && c.style == style
    {
      cards := [];
      new;
      for si := 0 to 4
        invariant |cards| == 13 * si
        invariant Faces(cards) == CanonicalFaces()[..13 * si]
        invariant forall c | c in cards :: c.isFaceUp && c.style == style
        invariant NoDuplicates(cards)
      {
        var suit := SuitEntries[si];
        for value := 1 to 14
          invariant |cards| == 13 * si + value - 1
          invariant Faces(cards) == CanonicalFaces()[..13 * si + value - 1]
          invariant forall c | c in cards :: c.isFaceUp && c.style == style
          invariant NoDuplicates(cards)
        {
          var c := Card(value, suit, style := style);
          ghost var k := 13 * si + value - 1;
          assert CanonicalFaces()[k] == (suit, value);
          assert CanonicalFaces()[..k + 1] == CanonicalFaces()[..k] + [(suit, value)];
          forall j | 0 <= j < |cards|
            ensures cards[j] != c
          {
            assert Faces(cards)[j] == CanonicalFaces()[j];
            CanonicalFacesAreTheFullDeck(suit, value);
          }
          cards := cards + [c];
        }
      }
    }

    /** Rearranges the cards by the permutation the seed selects, and returns the
        seed used so that the caller can store it. */
    method Shuffle(seed: Option<int>, freshSeed: int, arrange: (int, seq<Card>) -> seq<Card>)
      returns (used: int)
      requires Valid() && IsShuffle(arrange, cards)
      modifies this
      ensures Valid()
      ensures used == SeedToUse(seed, freshSeed)
      ensures cards == arrange(used, old(cards))
      ensures multiset(cards) == multiset(old(cards)) && AmountOfCards() == old(AmountOfCards())
    {
      used := SeedToUse(seed, freshSeed);
      assert multiset(arrange(used, cards)) == multiset(cards);
      cards := arrange(used, cards);
      assert |multiset(cards)| == |cards|;
    }

    /** Removes and returns the last card; throws when the deck is empty. */
    method DrawCard() returns (r: Result<Card, DeckError>)
      requires Valid()
      modifies this
      ensures Valid()
      ensures |old(cards)| == 0 ==> r == Failure(NoMoreCards) && cards == old(cards)
      ensures |old(cards)| > 0 ==>
        && r == Success(old(cards)[|old(cards)| - 1])
        && cards == old(cards)[..|old(cards)| - 1]
        && r.value !in cards
      ensures r.Success? <==> old(AmountOfCards()) > 0
      ensures r.Success? ==> AmountOfCards() == old(AmountOfCards()) - 1
      ensures r.Failure? ==> AmountOfCards() == 0
    {
      if |cards| > 0 {
        var n := |cards|;
        var c := cards[n - 1];
        var rest := cards[..n - 1];
        assert cards == rest + [c];
        assert multiset(cards) == multiset(rest) + multiset{c};
        forall x | x in rest ensures multiset(rest)[x] == 1 {
          assert x in cards;
        }
        assert multiset(rest)[c] == 0 by { assert c in cards; }
        cards := rest;
        r := Success(c);
      } else {
        r := Failure(NoMoreCards);
      }
    }

    /** The number of cards left. */
    function AmountOfCards(): nat
      reads this
    {
      |cards|
    }
  }

  // ---------------------------------------------------------------------------
  // What a run of draws takes out of a deck

  /** The cards k successive draws return from a deck holding s, in draw order. */
  function Drawn<T>(s: seq<T>, k: nat): (d: seq<T>)
    requires k <= |s|
    ensures |d| == k
  {
    if k == 0 then [] else Drawn(s, k - 1) + [s[|s| - k]]
  }

  /** The drawn cards and the cards left make up the deck. */
  lemma {:induction false} DrawnAndLeft<T>(s: seq<T>, k: nat)
    requires k <= |s|
    ensures multiset(Drawn(s, k)) + multiset(s[..|s| - k]) == multiset(s)
  {
    if k > 0 {
      DrawnAndLeft(s, k - 1);
      var x := s[|s| - k];
      assert s[..|s| - k + 1] == s[..|s| - k] + [x];
    } else {
      assert s[..|s|] == s;
    }
  }

  /** The drawn cards and the cards left partition the deck, so with distinct cards
      no card is drawn twice and no drawn card is still in the deck. */
  lemma DrawPartition<T>(s: seq<T>, k: nat)
    requires k <= |s|
    ensures multiset(Drawn(s, k)) + multiset(s[..|s| - k]) == multiset(s)
    ensures NoDuplicates(s) ==>
      NoDuplicates(Drawn(s, k)) && forall x | x in Drawn(s, k) :: x !in s[..|s| - k]
  {
    DrawnAndLeft(s, k);
    if NoDuplicates(s) {
      var d, rest := Drawn(s, k), s[..|s| - k];
      forall x | x in d
        ensures multiset(d)[x] == 1 && x !in rest
      {
        assert multiset(d)[x] + multiset(rest)[x] == multiset(s)[x];
        assert x in multiset(s);
      }
    }
  }

  /** From a full deck, `k` draws leave `52 - k` cards, and the cards drawn and
      the cards left are 52 distinct cards between them. */
  lemma DrawsFromFullDeck(s: seq<Card>, k: nat)
    requires |s| == 52 && NoDuplicates(s) && k <= 52
    ensures |s[..52 - k]| == 52 - k
    ensures |multiset(Drawn(s, k)) + multiset(s[..52 - k])| == 52
    ensures forall c | c in Drawn(s, k) :: c !in s[..52 - k]
  {
    DrawPartition(s, k);
  }

  /** One more draw takes the top of what is left. */
  lemma DrawnStep<T>(s: seq<T>, k: nat)
    requires k < |s|
    ensures Drawn(s, k + 1) == Drawn(s, k) + [s[..|s| - k][|s| - k - 1]]
    ensures s[..|s| - k][..|s| - k - 1] == s[..|s| - (k + 1)]
  {
  }

  lemma DrawnExample()
    ensures Drawn([1, 2, 3, 4, 5], 2) == [5, 4]
  {
    assert Drawn([1, 2, 3, 4, 5], 1) == [5];
  }
}
