/** Hand values. The game counts only face-up cards (unless asked to count every
    card), ranks 10 to 13 count ten, and aces are added after every other card.

    `calcValue` adds the aces one at a time, each as eleven whenever eleven still
    fits under 22; `AsWrittenValue` and `CalcValueAsWritten` model exactly that.
    For two or more aces this can bust a hand the usual rule scores below 22
    (king, ace, ace scores 22 instead of 12). `RankValue` and `CalcValue` are the
    usual rule (at most one ace counts eleven, and only if the total stays at 21 or
    less), which the round engines use. */
module Scoring {
  import opened Cards

  /** What scoring sees of a card: its rank and which side is up. */
  datatype Side = Side(rank: int, faceUp: bool)

  /** The rank and the side up of each card of a hand, in hand order. */
  function Sides(hand: seq<Card>): (v: seq<Side>)
    ensures |v| == |hand|
  {
    if hand == [] then []
    else
      var c := hand[|hand| - 1];
      Sides(hand[..|hand| - 1]) + [Side(c.value, c.isFaceUp)]
  }

  lemma SidesAppend(hand: seq<Card>, c: Card)
    ensures Sides(hand + [c]) == Sides(hand) + [Side(c.value, c.isFaceUp)]
  {
    assert (hand + [c])[..|hand|] == hand;
  }

  /** The ranks a hand's value counts, in hand order: every card when
      `ignoreFaceDown` is set, otherwise only the face-up ones. */
  function Counted(sides: seq<Side>, ignoreFaceDown: bool): (r: seq<int>)
    ensures |r| <= |sides|
  {
    if sides == [] then []
    else
      var rest := Counted(sides[..|sides| - 1], ignoreFaceDown);
      var c := sides[|sides| - 1];
      if ignoreFaceDown || c.faceUp then rest + [c.rank] else rest
  }

  function CountedRanks(hand: seq<Card>, ignoreFaceDown: bool): seq<int>
  {
    Counted(Sides(hand), ignoreFaceDown)
  }

  /** What a counted card other than an ace adds. */
  function Contribution(rank: int): int
  {
    if rank == 1 then 0 else if rank >= 10 then 10 else rank
  }

  /** The sum of the non-ace cards. */
  function NonAceSum(ranks: seq<int>): int
  {
    if ranks == [] then 0
    else NonAceSum(ranks[..|ranks| - 1]) + Contribution(ranks[|ranks| - 1])
  }

  function AceCount(ranks: seq<int>): nat
  {
    if ranks == [] then 0
    else AceCount(ranks[..|ranks| - 1]) + (if ranks[|ranks| - 1] == 1 then 1 else 0)
  }

  /** Counting one more rank adds its contribution, or one more ace. */
  lemma CountOneMore(ranks: seq<int>, rank: int)
    ensures NonAceSum(ranks + [rank]) == NonAceSum(ranks) + Contribution(rank)
    ensures AceCount(ranks + [rank]) == AceCount(ranks) + if rank == 1 then 1 else 0
  {
    assert (ranks + [rank])[..|ranks|] == ranks;
  }

  /** The total with every ace counted as one. */
  function HardTotal(ranks: seq<int>): int
  {
    NonAceSum(ranks) + AceCount(ranks)
  }

  /** The aces added one at a time to `total`, each as 11 if that keeps the running
      total at 21 or less and as 1 otherwise: `calcValue`'s rule. */
  function SequentialAces(total: int, aces: nat): int
    decreases aces
  {
    if aces == 0 then total
    else SequentialAces(total + (if total + 11 > 21 then 1 else 11), aces - 1)
  }

  /** What one pass over a hand gathers: the sum of the counted non-aces and the
      number of counted aces. */
  datatype Tally = Tally(nonAces: int, aces: nat)
  {
    /** The usual value: every ace counts one, and one of them is raised to eleven
        when the total stays at 21 or less. */
    function Value(): int
    {
      var hard := nonAces + aces;
      if aces > 0 && hard + 10 <= 21 then hard + 10 else hard
    }

    /** `calcValue`'s value: the aces added one at a time after the other cards. */
    function AsWrittenValue(): int
    {
      SequentialAces(nonAces, aces)
    }
  }

  function RankTally(ranks: seq<int>): Tally
  {
    Tally(NonAceSum(ranks), AceCount(ranks))
  }

  function AsWrittenValue(ranks: seq<int>): int
  {
    RankTally(ranks).AsWrittenValue()
  }

  /** The value of a list of ranks by the usual rule. */
  function RankValue(ranks: seq<int>): int
  {
    RankTally(ranks).Value()
  }

  /** One pass over a hand, first card to last, skipping face-down cards unless
      `ignoreFaceDown` is set. */
  function TallyOf(hand: seq<Card>, ignoreFaceDown: bool): Tally
  {
    if hand == [] then Tally(0, 0)
    else
      var t := TallyOf(hand[..|hand| - 1], ignoreFaceDown);
      var c := hand[|hand| - 1];
      if !ignoreFaceDown && !c.isFaceUp then t
      else if c.value == 1 then Tally(t.nonAces, t.aces + 1)
      else Tally(t.nonAces + Contribution(c.value), t.aces)
  }

  /** The value of a hand, by the usual rule. */
  function HandValue(hand: seq<Card>, ignoreFaceDown: bool): int
  {
    TallyOf(hand, ignoreFaceDown).Value()
  }

  /** The value of a hand, as `calcValue` computes it. */
  function AsWrittenHandValue(hand: seq<Card>, ignoreFaceDown: bool): int
  {
    TallyOf(hand, ignoreFaceDown).AsWrittenValue()
  }

  /** The pass over the hand tallies exactly the ranks the hand counts. */
  lemma {:induction false} TallyCountsRanks(hand: seq<Card>, ignoreFaceDown: bool)
    ensures TallyOf(hand, ignoreFaceDown) == RankTally(CountedRanks(hand, ignoreFaceDown))
  {
    if hand != [] {
      var p, c := hand[..|hand| - 1], hand[|hand| - 1];
      TallyCountsRanks(p, ignoreFaceDown);
      assert hand == p + [c];
      SidesAppend(p, c);
      var s := Sides(p);
      assert (s + [Side(c.value, c.isFaceUp)])[..|s|] == s;
      CountOneMore(CountedRanks(p, ignoreFaceDown), c.value);
    }
  }

  /** So a hand's value is the value of the ranks it counts, by either rule. */
  lemma HandValueIsRankValue(hand: seq<Card>, ignoreFaceDown: bool)
    ensures HandValue(hand, ignoreFaceDown) == RankValue(CountedRanks(hand, ignoreFaceDown))
    ensures AsWrittenHandValue(hand, ignoreFaceDown) == AsWrittenValue(CountedRanks(hand, ignoreFaceDown))
  {
    TallyCountsRanks(hand, ignoreFaceDown);
  }

  predicate ValidRanks(ranks: seq<int>)
  {
    forall i :: 0 <= i < |ranks| ==> 1 <= ranks[i] <= 13
  }

  // ---------------------------------------------------------------------------
  // The two loops

  /** `calcValue` as written: one pass summing the counted non-aces and counting
      the aces, then one pass adding the aces. */
  method CalcValueAsWritten(hand: seq<Card>, ignoreFaceDown: bool) returns (value: int)
    ensures value == AsWrittenHandValue(hand, ignoreFaceDown)
  {
    value := 0;
    var aces := 0;
    for i := 0 to |hand|
      invariant TallyOf(hand[..i], ignoreFaceDown) == Tally(value, aces)
    {
      var card := hand[i];
      assert hand[..i + 1][..i] == hand[..i];
      if !ignoreFaceDown && !card.isFaceUp {
        continue;
      }
      if card.value == 1 {
        aces := aces + 1;
      } else if card.value >= 10 {
        value := value + 10;
      } else {
        value := value + card.value;
      }
    }
    assert hand[..|hand|] == hand;
    ghost var total := value;
    for i := 0 to aces
      invariant SequentialAces(value, aces - i) == SequentialAces(total, aces)
    {
      value := value + if value + 11 > 21 then 1 else 11;
    }
  }

  /** `calcValue` with the ace rule corrected: aces count one each, and one of them
      is raised to eleven when the total stays at 21 or less. */
  method CalcValue(hand: seq<Card>, ignoreFaceDown: bool) returns (value: int)
    ensures value == HandValue(hand, ignoreFaceDown)
  {
    value := 0;
    var aces := 0;
    for i := 0 to |hand|
      invariant TallyOf(hand[..i], ignoreFaceDown) == Tally(value - aces, aces)
    {
      var card := hand[i];
      assert hand[..i + 1][..i] == hand[..i];
      if !ignoreFaceDown && !card.isFaceUp {
        continue;
      }
      if card.value == 1 {
        aces := aces + 1;
        value := value + 1;
      } else if card.value >= 10 {
        value := value + 10;
      } else {
        value := value + card.value;
      }
    }
    assert hand[..|hand|] == hand;
    if aces > 0 && value + 10 <= 21 {
      value := value + 10;
    }
  }

  // ---------------------------------------------------------------------------
  // The rule a round is scored by

  /** Which ace rule a round is scored by: `calcValue`'s as written, or the usual
      rule it evidently intends. */
  datatype AceRule = AsWrittenAces | UsualAces

  /** A hand's value under the given rule. */
  function Score(rule: AceRule, hand: seq<Card>, ignoreFaceDown: bool): int
  {
    if rule == AsWrittenAces then AsWrittenHandValue(hand, ignoreFaceDown)
    else HandValue(hand, ignoreFaceDown)
  }

  /** `calcValue` under the given rule. */
  method CalcValueUnder(rule: AceRule, hand: seq<Card>, ignoreFaceDown: bool) returns (value: int)
    ensures value == Score(rule, hand, ignoreFaceDown)
  {
    if rule == AsWrittenAces {
      value := CalcValueAsWritten(hand, ignoreFaceDown);
    } else {
      value := CalcValue(hand, ignoreFaceDown);
    }
  }

  // ---------------------------------------------------------------------------
  // Properties

  /** The ranks of all the cards. */
  function Ranks(sides: seq<Side>): (r: seq<int>)
    ensures |r| == |sides| && forall i :: 0 <= i < |sides| ==> r[i] == sides[i].rank
  {
    seq(|sides|, i requires 0 <= i < |sides| => sides[i].rank)
  }

  /** The face-up cards, in order. */
  function FaceUp(sides: seq<Side>): (r: seq<Side>)
    ensures forall x | x in r :: x in sides && x.faceUp
    ensures forall x | x in sides && x.faceUp :: x in r
  {
    if sides == [] then []
    else
      var c := sides[|sides| - 1];
      FaceUp(sides[..|sides| - 1]) + if c.faceUp then [c] else []
  }

  /** A face-down card is counted only when face-down cards are to be counted. */
  lemma {:induction false} CountedSelectsFaceUp(sides: seq<Side>)
    ensures Counted(sides, true) == Ranks(sides)
    ensures Counted(sides, false) == Ranks(FaceUp(sides))
  {
    if sides != [] {
      var p := sides[..|sides| - 1];
      CountedSelectsFaceUp(p);
      assert Ranks(sides) == Ranks(p) + [sides[|sides| - 1].rank];
      var c := sides[|sides| - 1];
      if c.faceUp {
        assert Ranks(FaceUp(sides)) == Ranks(FaceUp(p)) + [c.rank];
      }
    }
  }

  /** A single face-down card is worth nothing unless face-down cards are counted. */
  lemma FaceDownCardCountsOnlyWhenIgnored(c: Card)
    requires !c.isFaceUp
    ensures HandValue([c], false) == 0 && AsWrittenHandValue([c], false) == 0
  {
    assert [c][..0] == [];
    assert TallyOf([c], false) == Tally(0, 0);
  }

  /** Counted anyway, a face-down card is worth what it is worth face up. */
  lemma FaceDownCardCountedAsFaceUp(c: Card)
    ensures HandValue([c], true) == HandValue([c.(isFaceUp := true)], false)
  {
    var up := c.(isFaceUp := true);
    assert [c][..0] == [] && [up][..0] == [];
    assert TallyOf([c], true) == TallyOf([up], false);
  }

  /** With every card face up, the flag makes no difference. */
  lemma {:induction false} AllFaceUpIgnoresFlag(sides: seq<Side>)
    requires forall c | c in sides :: c.faceUp
    ensures Counted(sides, false) == Counted(sides, true)
  {
    if sides != [] {
      AllFaceUpIgnoresFlag(sides[..|sides| - 1]);
    }
  }

  lemma {:induction false} NonAceSumOfValidRanks(ranks: seq<int>)
    requires ValidRanks(ranks)
    ensures 2 * (|ranks| - AceCount(ranks)) <= NonAceSum(ranks) <= 10 * (|ranks| - AceCount(ranks))
  {
    if ranks != [] {
      NonAceSumOfValidRanks(ranks[..|ranks| - 1]);
    }
  }

  /** `calcValue`'s sequential rule in closed form: from a non-negative total, the
      first ace counts eleven exactly when the total is at most ten, and every
      later ace counts one. */
  lemma {:induction false} SequentialAcesClosedForm(total: int, aces: nat)
    requires total >= 0
    ensures SequentialAces(total, aces) ==
      if aces > 0 && total <= 10 then total + aces + 10 else total + aces
    decreases aces
  {
    if aces > 0 {
      if total + 11 > 21 {
        SequentialAcesClosedForm(total + 1, aces - 1);
      } else {
        SequentialAcesClosedForm(total + 11, aces - 1);
      }
    }
  }

  /** The usual rule picks the best way of counting the aces: the value is the hard
      total or the hard total plus ten, it is never below any ace assignment that
      stays at 21 or less, and it is over 21 only when the hard total is. */
  lemma RankValueIsBestAceAssignment(ranks: seq<int>, elevens: nat)
    requires ValidRanks(ranks)
    ensures RankValue(ranks) == HardTotal(ranks) ||
      (AceCount(ranks) > 0 && RankValue(ranks) == HardTotal(ranks) + 10 <= 21)
    ensures elevens <= AceCount(ranks) && HardTotal(ranks) + 10 * elevens <= 21 ==>
      HardTotal(ranks) + 10 * elevens <= RankValue(ranks)
    ensures RankValue(ranks) > 21 ==> RankValue(ranks) == HardTotal(ranks)
  {
    NonAceSumOfValidRanks(ranks);
  }

  /** `calcValue`'s rule agrees with the usual one except when the non-aces total at
      most ten, there are two or more aces and the hard total is over eleven; there
      it scores ten more than the usual value, and over 21. */
  lemma AsWrittenDiffersExactlyWhen(ranks: seq<int>)
    requires ValidRanks(ranks)
    ensures AsWrittenValue(ranks) != RankValue(ranks) <==>
      AceCount(ranks) >= 2 && NonAceSum(ranks) <= 10 && HardTotal(ranks) + 10 > 21
    ensures AsWrittenValue(ranks) != RankValue(ranks) ==>
      AsWrittenValue(ranks) == RankValue(ranks) + 10 > 21
  {
    NonAceSumOfValidRanks(ranks);
    SequentialAcesClosedForm(NonAceSum(ranks), AceCount(ranks));
  }

  /** Real cards (rank 1 or more) never tally a negative non-ace sum. */
  lemma {:induction false} TallyOfCardsIsNatural(hand: seq<Card>, ignoreFaceDown: bool)
    requires forall c | c in hand :: c.value >= 1
    ensures TallyOf(hand, ignoreFaceDown).nonAces >= 0
  {
    if hand != [] {
      var p := hand[..|hand| - 1];
      assert forall c | c in p :: c in hand;
      TallyOfCardsIsNatural(p, ignoreFaceDown);
    }
  }

  /** On any hand of real cards the two rules agree, or `calcValue` as written
      scores ten more than the usual rule and busts. */
  lemma RulesAgreeOrAsWrittenBusts(hand: seq<Card>, ignoreFaceDown: bool)
    requires forall c | c in hand :: c.value >= 1
    ensures var w, u := Score(AsWrittenAces, hand, ignoreFaceDown), Score(UsualAces, hand, ignoreFaceDown);
      w == u || w == u + 10 > 21
  {
    TallyOfCardsIsNatural(hand, ignoreFaceDown);
    var t := TallyOf(hand, ignoreFaceDown);
    SequentialAcesClosedForm(t.nonAces, t.aces);
  }

  /** King, ace, ace: worth 12, scored 22 by `calcValue`. */
  lemma AsWrittenBustsKingAceAce()
    ensures AsWrittenValue([13, 1, 1]) == 22
    ensures RankValue([13, 1, 1]) == 12
  {
    var r := [13, 1, 1];
    assert r[..2] == [13, 1] && [13, 1][..1] == [13] && [13][..0] == [];
    assert NonAceSum([13]) == 10 && AceCount([13]) == 0;
    assert NonAceSum([13, 1]) == 10 && AceCount([13, 1]) == 1;
    assert NonAceSum(r) == 10 && AceCount(r) == 2;
    assert SequentialAces(21, 1) == SequentialAces(22, 0) == 22;
  }

  lemma ScoringExamples()
    ensures RankValue([1, 13]) == 21 && AsWrittenValue([1, 13]) == 21
    ensures RankValue([1, 1]) == 12 && AsWrittenValue([1, 1]) == 12
    ensures RankValue([1, 1, 9]) == 21 && AsWrittenValue([1, 1, 9]) == 21
    ensures RankValue([13, 12, 2]) == 22 && AsWrittenValue([13, 12, 2]) == 22
  {
    assert [1, 13][..1] == [1] && [1][..0] == [];
    assert NonAceSum([1]) == 0 && AceCount([1]) == 1;
    assert NonAceSum([1, 13]) == 10 && AceCount([1, 13]) == 1;
    assert SequentialAces(21, 0) == 21;
    assert [1, 1][..1] == [1];
    assert NonAceSum([1, 1]) == 0 && AceCount([1, 1]) == 2;
    assert SequentialAces(11, 1) == SequentialAces(12, 0) == 12;
    assert [1, 1, 9][..2] == [1, 1];
    assert NonAceSum([1, 1, 9]) == 9 && AceCount([1, 1, 9]) == 2;
    assert SequentialAces(20, 1) == SequentialAces(21, 0) == 21;
    assert [13, 12, 2][..2] == [13, 12] && [13, 12][..1] == [13] && [13][..0] == [];
    assert NonAceSum([13]) == 10 && AceCount([13]) == 0;
    assert NonAceSum([13, 12]) == 20 && AceCount([13, 12]) == 0;
    assert NonAceSum([13, 12, 2]) == 22 && AceCount([13, 12, 2]) == 0;
  }

  // Order independence

  lemma {:induction false} RemoveAt(ranks: seq<int>, i: nat)
    requires i < |ranks|
    ensures NonAceSum(ranks) == NonAceSum(ranks[..i] + ranks[i + 1..]) + Contribution(ranks[i])
    ensures AceCount(ranks) == AceCount(ranks[..i] + ranks[i + 1..]) + (if ranks[i] == 1 then 1 else 0)
  {
    var n := |ranks|;
    if i < n - 1 {
      var p := ranks[..n - 1];
      RemoveAt(p, i);
      var q := ranks[..i] + ranks[i + 1..];
      assert q[..|q| - 1] == p[..i] + p[i + 1..];
      assert q[|q| - 1] == ranks[n - 1];
    } else {
      assert ranks[..i] + ranks[i + 1..] == ranks[..n - 1];
    }
  }

  lemma MultisetWithout(s: seq<int>, i: nat)
    requires i < |s|
    ensures multiset(s[..i] + s[i + 1..]) == multiset(s) - multiset{s[i]}
  {
    assert s == s[..i] + [s[i]] + s[i + 1..];
  }

  /** Removing the last element of one sequence and an equal element of a
      permutation of it leaves permutations of each other. */
  lemma SameRestsAfterRemoval(r1: seq<int>, r2: seq<int>, i: nat)
    requires multiset(r1) == multiset(r2) && |r1| > 0
    requires i < |r2| && r2[i] == r1[|r1| - 1]
    ensures multiset(r1[..|r1| - 1]) == multiset(r2[..i] + r2[i + 1..])
  {
    var n := |r1|;
    MultisetWithout(r2, i);
    MultisetWithout(r1, n - 1);
    assert r1[..n - 1] + r1[n..] == r1[..n - 1];
  }

  /** The counts behind a hand's value depend only on which ranks it holds, not on
      their order. */
  lemma {:induction false} CountsAreOrderIndependent(r1: seq<int>, r2: seq<int>)
    requires multiset(r1) == multiset(r2)
    ensures NonAceSum(r1) == NonAceSum(r2) && AceCount(r1) == AceCount(r2)
  {
    if r1 != [] {
      var n := |r1|;
      var x := r1[n - 1];
      assert x in multiset(r2);
      var i :| 0 <= i < |r2| && r2[i] == x;
      var rest1, rest2 := r1[..n - 1], r2[..i] + r2[i + 1..];
      SameRestsAfterRemoval(r1, r2, i);
      CountsAreOrderIndependent(rest1, rest2);
      RemoveAt(r2, i);
    } else {
      assert |multiset(r2)| == 0;
    }
  }

  /** Neither rule depends on the order of the cards. */
  lemma ValueIsOrderIndependent(r1: seq<int>, r2: seq<int>)
    requires multiset(r1) == multiset(r2)
    ensures RankValue(r1) == RankValue(r2) && AsWrittenValue(r1) == AsWrittenValue(r2)
  {
    CountsAreOrderIndependent(r1, r2);
  }
}
