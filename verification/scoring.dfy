/**
 Hand scoring as `calculate_score` does it: a two-card 21 (a natural) is
 reported with the sentinel score 0; otherwise a busting hand that holds a
 high Ace has its FIRST Ace removed and a 1 appended at the end, and the
 score is the sum of the resulting hand. The program mutates the caller's
 list; here the new hand is returned beside the score.
 */
module Scoring {
  import opened Cards

  /** The score `calculate_score` returns and the hand it leaves behind. The
      hand's type is a parameter only so that the verifier treats it as an
      opaque value; it is always a hand of card values. */
  datatype Scored<Hand> = Scored(score: int, hand: Hand)

  /** A natural Blackjack: exactly two cards totalling 21. */
  predicate IsNatural(h: seq<int>) {
    Sum(h) == 21 && |h| == 2
  }

  /** Position of the first occurrence of `v`, the one `list.remove` drops. */
  function FirstIndex(h: seq<int>, v: int): (i: nat)
    requires v in h
    ensures i < |h| && h[i] == v
    ensures v !in h[..i]
  {
    var init := h[..|h| - 1];
    if v in init then
      var i := FirstIndex(init, v);
      assert h[..i] == init[..i];
      i
    else
      assert h[..|h| - 1] == init;
      |h| - 1
  }

  /** Python's `list.remove(v)`: the first `v` goes. */
  function RemoveFirst(h: seq<int>, v: int): (r: seq<int>)
    requires v in h
    ensures |r| == |h| - 1
  {
    var init := h[..|h| - 1];
    if v in init then RemoveFirst(init, v) + [h[|h| - 1]] else init
  }

  /** `list.remove` cuts out exactly the first `v` and keeps everything else
      in order. */
  lemma {:induction false} RemoveFirstSplices(h: seq<int>, v: int)
    requires v in h
    ensures RemoveFirst(h, v) == h[..FirstIndex(h, v)] + h[FirstIndex(h, v) + 1..]
  {
    var init := h[..|h| - 1];
    if v in init {
      RemoveFirstSplices(init, v);
      var i := FirstIndex(h, v);
      assert init[..i] == h[..i];
      assert init[i + 1..] + [h[|h| - 1]] == h[i + 1..];
    }
  }

  /** `list.remove` takes exactly one `v` out. */
  lemma {:induction false} RemoveFirstContents(h: seq<int>, v: int)
    requires v in h
    ensures multiset(h) == multiset(RemoveFirst(h, v)) + multiset{v}
  {
    var init, last := h[..|h| - 1], h[|h| - 1];
    assert h == init + [last];
    if v in init {
      RemoveFirstContents(init, v);
      MultisetRegroups(multiset(RemoveFirst(init, v)), multiset{v}, multiset{last});
    }
  }

  lemma MultisetRegroups(x: multiset<int>, y: multiset<int>, z: multiset<int>)
    ensures x + y + z == x + z + y
  {
  }

  /** Removing the card at position `i` takes its value off the sum. */
  lemma SumRemoveAt(h: seq<int>, i: nat)
    requires i < |h|
    ensures Sum(h[..i] + h[i + 1..]) == Sum(h) - h[i]
  {
    assert h == h[..i] + [h[i]] + h[i + 1..];
    SumConcat(h[..i] + [h[i]], h[i + 1..]);
    SumAppend(h[..i], h[i]);
    SumConcat(h[..i], h[i + 1..]);
  }

  /** Removing the card at position `i` takes its low value off the hard total. */
  lemma HardRemoveAt(h: seq<int>, i: nat)
    requires i < |h|
    ensures Hard(h[..i] + h[i + 1..]) == Hard(h) - HardValue(h[i])
  {
    assert h == h[..i] + [h[i]] + h[i + 1..];
    HardConcat(h[..i] + [h[i]], h[i + 1..]);
    HardAppend(h[..i], h[i]);
    HardConcat(h[..i], h[i + 1..]);
  }

  /** Removing the card at position `i` takes it, as dealt, off the dealt cards. */
  lemma DealtRemoveAt(h: seq<int>, i: nat)
    requires i < |h|
    ensures Dealt(h) == Dealt(h[..i] + h[i + 1..]) + multiset{Face(h[i])}
  {
    assert h == h[..i] + [h[i]] + h[i + 1..];
    DealtConcat(h[..i] + [h[i]], h[i + 1..]);
    DealtAppend(h[..i], h[i]);
    DealtConcat(h[..i], h[i + 1..]);
  }

  /** Demotes one Ace: the first 11 is removed and a 1 is appended. */
  function Demote(h: seq<int>): (r: seq<int>)
    requires Ace in h
    ensures |r| == |h|
  {
    RemoveFirst(h, Ace) + [LowAce]
  }

  /** A demotion leaves the 1 at the end of the hand, takes ten off the total
      and keeps the hard total. */
  lemma DemoteTotals(h: seq<int>)
    requires Ace in h
    ensures Demote(h)[|h| - 1] == LowAce
    ensures Sum(Demote(h)) == Sum(h) - 10
    ensures Hard(Demote(h)) == Hard(h)
  {
    var i := FirstIndex(h, Ace);
    var rest := RemoveFirst(h, Ace);
    RemoveFirstSplices(h, Ace);
    SumRemoveAt(h, i);
    SumAppend(rest, LowAce);
    HardRemoveAt(h, i);
    HardAppend(rest, LowAce);
  }

  /** Demotion trades one 11 for one 1 and touches no other card. */
  lemma DemoteSwapsOneAce(h: seq<int>)
    requires Ace in h
    ensures multiset(Demote(h)) + multiset{Ace} == multiset(h) + multiset{LowAce}
  {
    RemoveFirstContents(h, Ace);
  }

  /** Demotion keeps the cards as dealt: the demoted Ace still shows as an Ace. */
  lemma DemoteKeepsDealt(h: seq<int>)
    requires Ace in h
    ensures Dealt(Demote(h)) == Dealt(h)
  {
    var i := FirstIndex(h, Ace);
    var rest := RemoveFirst(h, Ace);
    RemoveFirstSplices(h, Ace);
    DealtRemoveAt(h, i);
    DealtAppend(rest, LowAce);
    assert Face(h[i]) == Ace;
  }

  lemma DemoteKeepsRange(h: seq<int>)
    requires Ace in h && ValidHand(h)
    ensures ValidHand(Demote(h))
  {
    var i := FirstIndex(h, Ace);
    var rest := RemoveFirst(h, Ace);
    RemoveFirstSplices(h, Ace);
    forall j | 0 <= j < |rest|
      ensures LowAce <= rest[j] <= Ace
    {
      if j < i { assert rest[j] == h[j]; } else { assert rest[j] == h[j + 1]; }
    }
  }

  /** `calculate_score`: the score is the sentinel 0 for a natural, otherwise the
      total of the returned hand, which differs from the given one exactly when
      the hand busts while holding a high Ace, and then by one demotion. */
  function CalculateScore(cards: seq<int>): (r: Scored<seq<int>>)
    ensures |r.hand| == |cards|
  {
    if Sum(cards) == 21 && |cards| == 2 then
      Scored(0, cards)
    else if Ace in cards && Sum(cards) > 21 then
      var h := Demote(cards);
      Scored(Sum(h), h)
    else
      Scored(Sum(cards), cards)
  }

  /** What `calculate_score` promises: the score is the sentinel 0 for a
      natural, otherwise the total of the returned hand; that hand differs from
      the given one exactly when the hand busts while holding a high Ace, and
      then by one demotion, which takes ten off the total and keeps the hard
      total. */
  lemma CalculateScoreSpec(cards: seq<int>)
    ensures var r := CalculateScore(cards);
      && (IsNatural(cards) ==> r.score == 0 && r.hand == cards)
      && (!IsNatural(cards) ==> r.score == Sum(r.hand))
      && (r.hand != cards <==> !IsNatural(cards) && Ace in cards && Sum(cards) > 21)
      && (r.hand != cards ==> r.score == Sum(cards) - 10 && r.hand[|cards| - 1] == LowAce)
      && Hard(r.hand) == Hard(cards)
  {
    if !IsNatural(cards) && Ace in cards && Sum(cards) > 21 {
      DemoteTotals(cards);
    }
  }

  /** What a demotion does to the hand's contents: exactly one 11 becomes a 1. */
  lemma CalculateScoreDemotesOneAce(cards: seq<int>)
    ensures var r := CalculateScore(cards);
            r.hand != cards ==> multiset(r.hand) + multiset{Ace} == multiset(cards) + multiset{LowAce}
  {
    CalculateScoreSpec(cards);
    if !IsNatural(cards) && Ace in cards && Sum(cards) > 21 {
      DemoteSwapsOneAce(cards);
    }
  }

  /** Scoring never changes which cards were dealt into the hand. */
  lemma CalculateScoreKeepsDealt(cards: seq<int>)
    ensures Dealt(CalculateScore(cards).hand) == Dealt(cards)
  {
    CalculateScoreSpec(cards);
    if !IsNatural(cards) && Ace in cards && Sum(cards) > 21 {
      DemoteKeepsDealt(cards);
    }
  }

  /** Scoring keeps every entry between 1 and 11. */
  lemma CalculateScoreKeepsRange(cards: seq<int>)
    requires ValidHand(cards)
    ensures ValidHand(CalculateScore(cards).hand)
  {
    CalculateScoreSpec(cards);
    if !IsNatural(cards) && Ace in cards && Sum(cards) > 21 {
      DemoteKeepsRange(cards);
    }
  }

  lemma PairSum(h: seq<int>)
    requires |h| == 2
    ensures Sum(h) == h[0] + h[1]
  {
    assert SumTo(h, 1) == h[0];
  }

  /** The sentinel 0 means a natural and nothing else, except for the empty hand
      (whose sum is 0 as well). */
  lemma ScoreZeroIffNatural(cards: seq<int>)
    requires ValidHand(cards)
    ensures CalculateScore(cards).score == 0 <==> IsNatural(cards) || cards == []
  {
    CalculateScoreSpec(cards);
    var r := CalculateScore(cards);
    CalculateScoreKeepsRange(cards);
    if !IsNatural(cards) {
      LengthAtMostHard(r.hand);
      HardAtMostSum(r.hand);
    }
  }

  /** Scoring neither makes nor unmakes a natural: a pair that is demoted was
      two Aces, which become 12. */
  lemma NaturalIsKept(cards: seq<int>)
    requires ValidHand(cards)
    ensures IsNatural(CalculateScore(cards).hand) <==> IsNatural(cards)
  {
    CalculateScoreSpec(cards);
    var r := CalculateScore(cards);
    if r.hand != cards && |cards| == 2 {
      PairSum(cards);
      assert Sum(r.hand) <= 12;
    }
  }

  /** A score of a non-empty valid hand is either the sentinel or at least the
      number of cards. */
  lemma ScoreAtLeastCardCount(cards: seq<int>)
    requires ValidHand(cards)
    ensures CalculateScore(cards).score == 0 || CalculateScore(cards).score >= |cards|
  {
    CalculateScoreSpec(cards);
    var r := CalculateScore(cards);
    CalculateScoreKeepsRange(cards);
    LengthAtMostHard(r.hand);
    HardAtMostSum(r.hand);
  }

  /** Two cards never bust: the worst pair, two Aces, is rescued by one demotion. */
  lemma TwoCardsNeverBust(cards: seq<int>)
    requires ValidHand(cards) && |cards| == 2
    ensures CalculateScore(cards).score <= 21
  {
    CalculateScoreSpec(cards);
    PairSum(cards);
  }

  /** Scoring again a hand that did not bust changes nothing: the score and the
      hand are a fixed point. */
  lemma RescoreIsStable(cards: seq<int>)
    requires ValidHand(cards)
    requires CalculateScore(cards).score <= 21
    ensures CalculateScore(CalculateScore(cards).hand) == CalculateScore(cards)
  {
    CalculateScoreSpec(cards);
    var r := CalculateScore(cards);
    if !IsNatural(cards) && r.hand != cards {
      // The demoted hand is not a natural: a pair could only bust as two Aces.
      if |cards| == 2 {
        PairSum(cards);
      }
    }
  }

  /** The score of a hand is never below its hard total, so the demotion never
      goes below counting every Ace as 1. */
  lemma ScoreAtLeastHard(cards: seq<int>)
    requires !IsNatural(cards)
    ensures CalculateScore(cards).score >= Hard(cards)
  {
    CalculateScoreSpec(cards);
    HardAtMostSum(CalculateScore(cards).hand);
  }

  // ---------------------------------------------------------------------------
  // Demoting only one Ace per call can leave an avoidable bust: a soft 21 that
  // takes another Ace needs two demotions.

  /** Demotes Aces one at a time until the hand no longer busts or holds no high Ace. */
  function DemoteAll(h: seq<int>): (r: seq<int>)
    ensures |r| == |h|
    ensures Hard(r) == Hard(h)
    ensures Ace !in r || Sum(r) <= 21
    ensures Ace in h && Sum(h) > 21 ==> Sum(r) > 11
    ensures !(Ace in h && Sum(h) > 21) ==> r == h
    decreases multiset(h)[Ace]
  {
    if Ace in h && Sum(h) > 21 then
      var d := Demote(h);
      DemoteTotals(h);
      DemoteSwapsOneAce(h);
      assert (multiset(d) + multiset{Ace})[Ace] == (multiset(h) + multiset{LowAce})[Ace];
      DemoteAll(d)
    else
      h
  }

  /** `calculate_score` as evidently intended: demote as many Aces as the hand needs. */
  function CalculateScoreCorrected(cards: seq<int>): (r: Scored<seq<int>>)
    ensures |r.hand| == |cards|
    ensures IsNatural(cards) ==> r.score == 0 && r.hand == cards
    ensures !IsNatural(cards) ==> r.score == Sum(r.hand)
    ensures !IsNatural(cards) ==> r.score <= 21 || r.score == Hard(cards)
    ensures r.hand != cards ==> 11 < r.score <= 21 || (r.score == Hard(cards) && r.score > 11)
    ensures Hard(r.hand) == Hard(cards)
  {
    if Sum(cards) == 21 && |cards| == 2 then
      Scored(0, cards)
    else
      var h := DemoteAll(cards);
      SumIsHardPlusSoftAces(h);
      Scored(Sum(h), h)
  }

  /** The corrected scorer busts only when even counting every Ace as 1 busts. */
  lemma CorrectedBustsOnlyWhenUnavoidable(cards: seq<int>)
    requires !IsNatural(cards)
    ensures CalculateScoreCorrected(cards).score > 21 <==> Hard(cards) > 21
  {
    var r := CalculateScoreCorrected(cards);
    HardAtMostSum(r.hand);
  }

  lemma SumOfFour(a: int, b: int, c: int, d: int)
    ensures Sum([a, b, c, d]) == a + b + c + d
  {
    var h := [a, b, c, d];
    assert SumTo(h, 1) == a;
    assert SumTo(h, 2) == a + b;
    assert SumTo(h, 3) == a + b + c;
  }

  lemma HardOfFour(a: int, b: int, c: int, d: int)
    ensures Hard([a, b, c, d]) == HardValue(a) + HardValue(b) + HardValue(c) + HardValue(d)
  {
    var h := [a, b, c, d];
    assert HardTo(h, 1) == HardValue(a);
    assert HardTo(h, 2) == HardValue(a) + HardValue(b);
    assert HardTo(h, 3) == HardValue(a) + HardValue(b) + HardValue(c);
  }

  /** A soft 21: Ace, 5, 5 scores 21 and is not a natural. */
  lemma SoftTwentyOne()
    ensures CalculateScore([Ace, 5, 5]) == Scored(21, [Ace, 5, 5])
  {
    var h := [Ace, 5, 5];
    assert SumTo(h, 1) == Ace;
    assert SumTo(h, 2) == Ace + 5;
  }

  lemma FirstAceOfSoftHandDemoted()
    ensures Demote([Ace, 5, 5, Ace]) == [5, 5, Ace, LowAce]
  {
    assert [Ace, 5][..1] == [Ace] && [Ace, 5, 5][..2] == [Ace, 5] && [Ace, 5, 5, Ace][..3] == [Ace, 5, 5];
    assert RemoveFirst([Ace], Ace) == [];
    assert RemoveFirst([Ace, 5], Ace) == [5];
    assert RemoveFirst([Ace, 5, 5], Ace) == [5, 5];
  }

  lemma SecondAceOfSoftHandDemoted()
    ensures Demote([5, 5, Ace, LowAce]) == [5, 5, LowAce, LowAce]
  {
    var d := [5, 5, Ace, LowAce];
    assert FirstIndex(d, Ace) == 2;
    RemoveFirstSplices(d, Ace);
    assert d[..2] + d[3..] == [5, 5, LowAce];
  }

  /** The discrepancy: the soft 21 above draws another Ace and scores 22 as
      written, although its hard total (both Aces as 1) is 12. */
  lemma SoftTwentyOneDrawingAnAceBusts()
    ensures CalculateScore([Ace, 5, 5, Ace]) == Scored(22, [5, 5, Ace, LowAce])
    ensures Hard([Ace, 5, 5, Ace]) == 12
  {
    FirstAceOfSoftHandDemoted();
    SumOfFour(Ace, 5, 5, Ace);
    SumOfFour(5, 5, Ace, LowAce);
    HardOfFour(Ace, 5, 5, Ace);
  }

  lemma HalfDemotedHandFinished()
    ensures DemoteAll([5, 5, Ace, LowAce]) == [5, 5, LowAce, LowAce]
  {
    SecondAceOfSoftHandDemoted();
    SumOfFour(5, 5, Ace, LowAce);
    assert Ace !in [5, 5, LowAce, LowAce];
  }

  lemma SoftHandFullyDemoted()
    ensures DemoteAll([Ace, 5, 5, Ace]) == [5, 5, LowAce, LowAce]
  {
    FirstAceOfSoftHandDemoted();
    HalfDemotedHandFinished();
    SumOfFour(Ace, 5, 5, Ace);
  }

  /** The corrected scorer gives the same hand 12 by demoting both Aces. */
  lemma SoftTwentyOneDrawingAnAceCorrected()
    ensures CalculateScoreCorrected([Ace, 5, 5, Ace]) == Scored(12, [5, 5, LowAce, LowAce])
  {
    SoftHandFullyDemoted();
    SumOfFour(Ace, 5, 5, Ace);
    SumOfFour(5, 5, LowAce, LowAce);
  }

  /** Where one demotion is enough (the hand totals at most 31), the program's
      scorer and the corrected one agree. This covers every hand the dealer can
      hold, since the dealer only draws below 17. */
  lemma AgreeWhenOneDemotionSuffices(cards: seq<int>)
    requires Sum(cards) <= 31
    ensures CalculateScoreCorrected(cards) == CalculateScore(cards)
  {
    if !IsNatural(cards) && Ace in cards && Sum(cards) > 21 {
      var d := Demote(cards);
      DemoteTotals(cards);
      assert DemoteAll(d) == d;
    }
  }
}
