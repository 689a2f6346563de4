/**
 Card values and hands. A card is just its Blackjack point value: 11 is an
 Ace, 10 a ten or a face card, 2..9 the pip cards. A hand is the list of the
 values dealt to one side, in deal order; an Ace that has been demoted is
 stored as 1.
 */
module Cards {

  /** The values `deal_card` chooses from, in the program's order. */
  const Table: seq<int> := [11, 2, 3, 4, 5, 6, 7, 8, 9, 10, 10, 10, 10]

  /** An Ace counted high, and the value a demoted Ace is replaced by. */
  const Ace: int := 11
  const LowAce: int := 1

  /** A value that `deal_card` can return. */
  predicate IsCardValue(v: int) {
    v in Table
  }

  /** An index of the card table: what the random draw in `deal_card` picks. */
  type Choice = c: nat | c < 13

  /** `deal_card` with the random choice made explicit: `choice` is the
      table index that the random draw picked. */
  function DealCard(choice: Choice): (v: int)
    ensures 2 <= v <= Ace
  {
    Table[choice]
  }

  /** Every value from 2 to 11 is in the table, and nothing else is. */
  lemma CardValues(v: int)
    ensures IsCardValue(v) <==> 2 <= v <= Ace
  {
    if 2 <= v <= Ace {
      var i := if v == Ace then 0 else v - 1;
      assert Table[i] == v;
    }
  }

  /** Every entry of a hand lies between a demoted Ace and a high Ace. */
  predicate ValidHand(h: seq<int>) {
    forall i :: 0 <= i < |h| ==> LowAce <= h[i] <= Ace
  }

  /** Python's `sum` over the first `n` cards of a hand. */
  function SumTo(h: seq<int>, n: nat): int
    requires n <= |h|
  {
    if n == 0 then 0 else SumTo(h, n - 1) + h[n - 1]
  }

  /** Python's `sum` over a hand. */
  function Sum(h: seq<int>): int {
    SumTo(h, |h|)
  }

  /** What one card counts when Aces are taken low. */
  function HardValue(v: int): int {
    if v == Ace then LowAce else v
  }

  /** The total of the first `n` cards with every Ace counted as 1. */
  function HardTo(h: seq<int>, n: nat): int
    requires n <= |h|
  {
    if n == 0 then 0 else HardTo(h, n - 1) + HardValue(h[n - 1])
  }

  /** The hand's total with every Ace counted as 1 (the "hard" total). */
  function Hard(h: seq<int>): int {
    HardTo(h, |h|)
  }

  /** The card as it was dealt: a demoted Ace shows as an Ace again. */
  function Face(v: int): int {
    if v == LowAce then Ace else v
  }

  /** The first `n` cards of a hand as they were dealt, in no order: a demoted
      Ace counts as the Ace it was dealt as. */
  function DealtTo(h: seq<int>, n: nat): multiset<int>
    requires n <= |h|
  {
    if n == 0 then multiset{} else DealtTo(h, n - 1) + multiset{Face(h[n - 1])}
  }

  /** The cards of a hand as they were dealt, in no order. */
  function Dealt(h: seq<int>): multiset<int> {
    DealtTo(h, |h|)
  }

  /** A prefix of `a + b` inside `a` sums as it does in `a`. */
  lemma {:induction false} SumToPrefix(a: seq<int>, b: seq<int>, k: nat)
    requires k <= |a|
    ensures SumTo(a + b, k) == SumTo(a, k)
  {
    if k > 0 {
      SumToPrefix(a, b, k - 1);
    }
  }

  lemma {:induction false} SumToConcat(a: seq<int>, b: seq<int>, n: nat)
    requires n <= |b|
    ensures SumTo(a + b, |a| + n) == Sum(a) + SumTo(b, n)
  {
    if n == 0 {
      SumToPrefix(a, b, |a|);
    } else {
      SumToConcat(a, b, n - 1);
      assert (a + b)[|a| + n - 1] == b[n - 1];
    }
  }

  lemma SumConcat(a: seq<int>, b: seq<int>)
    ensures Sum(a + b) == Sum(a) + Sum(b)
  {
    SumToConcat(a, b, |b|);
  }

  /** Taking one more card raises the sum by that card's value. */
  lemma SumAppend(h: seq<int>, v: int)
    ensures Sum(h + [v]) == Sum(h) + v
  {
    SumToPrefix(h, [v], |h|);
  }

  lemma {:induction false} HardToPrefix(a: seq<int>, b: seq<int>, k: nat)
    requires k <= |a|
    ensures HardTo(a + b, k) == HardTo(a, k)
  {
    if k > 0 {
      HardToPrefix(a, b, k - 1);
    }
  }

  lemma {:induction false} HardToConcat(a: seq<int>, b: seq<int>, n: nat)
    requires n <= |b|
    ensures HardTo(a + b, |a| + n) == Hard(a) + HardTo(b, n)
  {
    if n == 0 {
      HardToPrefix(a, b, |a|);
    } else {
      HardToConcat(a, b, n - 1);
      assert (a + b)[|a| + n - 1] == b[n - 1];
    }
  }

  lemma HardConcat(a: seq<int>, b: seq<int>)
    ensures Hard(a + b) == Hard(a) + Hard(b)
  {
    HardToConcat(a, b, |b|);
  }

  /** Over any prefix, the sum is the hard total plus ten for every high Ace. */
  lemma {:induction false} SumToIsHardPlusSoftAces(h: seq<int>, n: nat)
    requires n <= |h|
    ensures SumTo(h, n) == HardTo(h, n) + 10 * multiset(h[..n])[Ace]
  {
    if n > 0 {
      SumToIsHardPlusSoftAces(h, n - 1);
      assert h[..n] == h[..n - 1] + [h[n - 1]];
    }
  }

  /** The hard total is the sum less ten for every high Ace in the hand. */
  lemma SumIsHardPlusSoftAces(h: seq<int>)
    ensures Sum(h) == Hard(h) + 10 * multiset(h)[Ace]
  {
    SumToIsHardPlusSoftAces(h, |h|);
    assert h[..|h|] == h;
  }

  /** Counting Aces low never raises a total. */
  lemma HardAtMostSum(h: seq<int>)
    ensures Hard(h) <= Sum(h)
  {
    SumIsHardPlusSoftAces(h);
  }

  lemma {:induction false} PrefixAtMostHard(h: seq<int>, n: nat)
    requires ValidHand(h) && n <= |h|
    ensures n <= HardTo(h, n)
  {
    if n > 0 {
      PrefixAtMostHard(h, n - 1);
    }
  }

  /** Every card of a valid hand is worth at least 1 even when Aces are low. */
  lemma LengthAtMostHard(h: seq<int>)
    requires ValidHand(h)
    ensures |h| <= Hard(h)
  {
    PrefixAtMostHard(h, |h|);
  }

  lemma ValidHandAppend(h: seq<int>, v: int)
    requires ValidHand(h) && LowAce <= v <= Ace
    ensures ValidHand(h + [v])
  {
  }

  /** Taking one more card raises the hard total by that card's low value. */
  lemma HardAppend(h: seq<int>, v: int)
    ensures Hard(h + [v]) == Hard(h) + HardValue(v)
  {
    HardToPrefix(h, [v], |h|);
  }

  lemma {:induction false} DealtToPrefix(a: seq<int>, b: seq<int>, k: nat)
    requires k <= |a|
    ensures DealtTo(a + b, k) == DealtTo(a, k)
  {
    if k > 0 {
      DealtToPrefix(a, b, k - 1);
    }
  }

  lemma {:induction false} DealtToConcat(a: seq<int>, b: seq<int>, n: nat)
    requires n <= |b|
    ensures DealtTo(a + b, |a| + n) == Dealt(a) + DealtTo(b, n)
  {
    if n == 0 {
      DealtToPrefix(a, b, |a|);
    } else {
      DealtToConcat(a, b, n - 1);
      assert (a + b)[|a| + n - 1] == b[n - 1];
      UnionRegroups(Dealt(a), DealtTo(b, n - 1), multiset{Face(b[n - 1])});
    }
  }

  lemma UnionRegroups(x: multiset<int>, y: multiset<int>, z: multiset<int>)
    ensures x + y + z == x + (y + z)
  {
  }

  lemma DealtConcat(a: seq<int>, b: seq<int>)
    ensures Dealt(a + b) == Dealt(a) + Dealt(b)
  {
    DealtToConcat(a, b, |b|);
  }

  /** Taking one more card adds it, as dealt, to the hand's cards. */
  lemma DealtAppend(h: seq<int>, v: int)
    ensures Dealt(h + [v]) == Dealt(h) + multiset{Face(v)}
  {
    DealtToPrefix(h, [v], |h|);
  }

  /** A hand nobody has demoted holds exactly its own entries. */
  lemma DealtUndemoted(h: seq<int>)
    requires LowAce !in h
    ensures Dealt(h) == multiset(h)
  {
    DealtToUndemoted(h, |h|);
    assert h[..|h|] == h;
  }

  lemma {:induction false} DealtToUndemoted(h: seq<int>, n: nat)
    requires LowAce !in h && n <= |h|
    ensures DealtTo(h, n) == multiset(h[..n])
  {
    if n > 0 {
      DealtToUndemoted(h, n - 1);
      assert h[..n] == h[..n - 1] + [h[n - 1]];
    }
  }
}
