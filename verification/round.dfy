/**
 One round of `play_game`. The random card draws become `picks`, the table
 index chosen for the k-th card dealt in the round; the player's typed answers
 become `answers`, the text typed at the i-th prompt. Cards are dealt from
 index 0 on: the two opening rounds alternate player, dealer; then come the
 player's hits; then the dealer's draws.
 */
module Round {
  import opened Cards
  import opened Scoring
  import opened Outcomes

  /** Why the player's turn ended. */
  datatype StopReason =
    | Natural     // either side holds a natural
    | PlayerBust  // the player's score went over 21
    | Stood       // the player answered anything but "yes"

  datatype RoundResult = RoundResult(
    userCards: seq<int>,
    computerCards: seq<int>,
    userScore: int,
    computerScore: int,
    stop: StopReason,
    hits: nat,        // cards the player took after the opening two
    draws: nat,       // cards the dealer took after the opening two
    outcome: Outcome)

  /** The one answer that makes the player take another card. */
  predicate Hits(answer: string) {
    answer == "yes"
  }

  /** The first `n` answers were all "yes". */
  predicate AllHits(answers: nat -> string, n: nat) {
    n == 0 || (AllHits(answers, n - 1) && Hits(answers(n - 1)))
  }

  lemma {:induction false} AllHitsEach(answers: nat -> string, n: nat)
    requires AllHits(answers, n)
    ensures forall i :: 0 <= i < n ==> Hits(answers(i))
  {
    if n > 0 {
      AllHitsEach(answers, n - 1);
    }
  }

  /** The value of the k-th card dealt in the round. */
  function Card(picks: nat -> Choice, k: nat): (v: int)
    ensures 2 <= v <= Ace
  {
    DealCard(picks(k))
  }

  /** The values of `count` consecutive cards dealt from position `from`. */
  function Drawn(picks: nat -> Choice, from: nat, count: nat): (s: seq<int>)
    ensures |s| == count
  {
    if count == 0 then [] else Drawn(picks, from, count - 1) + [Card(picks, from + count - 1)]
  }

  /** The i-th of the drawn cards is card number `from + i` of the round. */
  lemma {:induction false} DrawnAt(picks: nat -> Choice, from: nat, count: nat, i: nat)
    requires i < count
    ensures Drawn(picks, from, count)[i] == Card(picks, from + i)
  {
    if i < count - 1 {
      DrawnAt(picks, from, count - 1, i);
    }
  }

  lemma DrawnAppend(picks: nat -> Choice, from: nat, count: nat)
    ensures Drawn(picks, from, count + 1) == Drawn(picks, from, count) + [Card(picks, from + count)]
  {
  }

  /** One pass of the dealer's loop: the dealer's hand takes `card` and is
      scored again. A hand of three or more cards is never a natural, so the
      score is its ordinary total. */
  function DrawAndScore(hand: seq<int>, card: int): (r: Scored<seq<int>>)
    requires ValidHand(hand) && |hand| >= 2
    requires 2 <= card <= Ace
    ensures ValidHand(r.hand) && |r.hand| == |hand| + 1
    ensures Hard(r.hand) == Hard(hand) + HardValue(card)
    ensures !IsNatural(r.hand) && r.score != 0 && r.score == Sum(r.hand)
  {
    HardAppend(hand, card);
    ValidHandAppend(hand, card);
    CalculateScoreSpec(hand + [card]);
    ScoreZeroIffNatural(hand + [card]);
    CalculateScoreKeepsRange(hand + [card]);
    CalculateScore(hand + [card])
  }

  /** `hand` holds exactly the cards `dealt` (a demoted Ace counting as the Ace
      it was dealt as, in any order), and `score` is what the scorer says about
      it: 0 for a natural, otherwise the hand's total. */
  predicate ScoredDeal(hand: seq<int>, score: int, dealt: seq<int>) {
    ScoredHand(hand, score) && |hand| == |dealt| && Dealt(hand) == multiset(dealt)
  }

  /** A hand of two or more valid entries together with what the scorer says
      about it: the sentinel 0 exactly for a natural, otherwise its total. */
  predicate ScoredHand(hand: seq<int>, score: int) {
    && ValidHand(hand) && |hand| >= 2
    && (score == 0 <==> IsNatural(hand))
    && (score != 0 ==> score == Sum(hand))
  }

  /** One call of `calculate_score` on a hand of two or more dealt cards, with
      what the player's loop needs to know about it: the hand stays valid,
      only a natural scores below the hard total, and a two-card hand is never
      over 21. */
  function Rescore(hand: seq<int>): (r: Scored<seq<int>>)
    requires ValidHand(hand) && |hand| >= 2
    ensures r == CalculateScore(hand)
    ensures ValidHand(r.hand) && |r.hand| == |hand| && Hard(r.hand) == Hard(hand)
    ensures r.score == 0 || Hard(hand) <= r.score
    ensures |hand| == 2 ==> r.score <= 21
  {
    ScoreBounds(hand);
    CalculateScore(hand)
  }

  lemma ScoreBounds(hand: seq<int>)
    requires ValidHand(hand) && |hand| >= 2
    ensures ValidHand(CalculateScore(hand).hand) && Hard(CalculateScore(hand).hand) == Hard(hand)
    ensures CalculateScore(hand).score == 0 || Hard(hand) <= CalculateScore(hand).score
    ensures |hand| == 2 ==> CalculateScore(hand).score <= 21
  {
    CalculateScoreSpec(hand);
    if |hand| == 2 {
      TwoCardsNeverBust(hand);
    }
    CalculateScoreKeepsRange(hand);
    if !IsNatural(hand) {
      ScoreAtLeastHard(hand);
    }
  }

  /** What a score from `calculate_score` means for a hand of dealt cards: 0
      exactly for a natural (and scoring keeps a natural as it is), otherwise
      the total of the hand it leaves behind. */
  lemma ScoreMeaning(hand: seq<int>)
    requires ValidHand(hand) && |hand| >= 2
    ensures var r := CalculateScore(hand);
      && (r.score == 0 <==> IsNatural(r.hand))
      && (r.score == 0 <==> IsNatural(hand))
      && (r.score != 0 ==> r.score == Sum(r.hand))
  {
    CalculateScoreSpec(hand);
    ScoreZeroIffNatural(hand);
    NaturalIsKept(hand);
  }

  /** The player takes `card`: it goes at the end of the hand as dealt. */
  function Hit(hand: seq<int>, card: int): (r: seq<int>)
    requires ValidHand(hand) && 2 <= card <= Ace
    ensures ValidHand(r) && |r| == |hand| + 1 && r[|hand|] == card
    ensures Hard(r) == Hard(hand) + HardValue(card)
  {
    HardAppend(hand, card);
    ValidHandAppend(hand, card);
    hand + [card]
  }

  /** The player's hand at the top of the player's loop after `n` hits: each
      pass scores the hand (possibly demoting an Ace) and then adds the next
      card dealt, the first hit being card number 4 of the round. */
  function HandAt(picks: nat -> Choice, user0: seq<int>, n: nat): seq<int>
  {
    if n == 0 then user0
    else CalculateScore(HandAt(picks, user0, n - 1)).hand + [Card(picks, 4 + n - 1)]
  }

  /** However many passes the player's loop makes, the hand stays a valid hand
      of the two opening cards and one card per pass. */
  lemma {:induction false} HandAtIsValid(picks: nat -> Choice, user0: seq<int>, n: nat)
    requires ValidHand(user0) && |user0| == 2
    ensures ValidHand(HandAt(picks, user0, n)) && |HandAt(picks, user0, n)| == 2 + n
  {
    if n > 0 {
      HandAtIsValid(picks, user0, n - 1);
      var scored := Rescore(HandAt(picks, user0, n - 1));
      var after := Hit(scored.hand, Card(picks, 4 + n - 1));
      assert HandAt(picks, user0, n) == after;
    }
  }

  /** However many passes the player's loop makes, the hand holds exactly the
      opening cards and the hits, as dealt. */
  lemma {:induction false} HandAtHoldsDealtCards(picks: nat -> Choice, user0: seq<int>, n: nat)
    ensures Dealt(HandAt(picks, user0, n)) == Dealt(user0) + Dealt(Drawn(picks, 4, n))
  {
    if n > 0 {
      var before := HandAt(picks, user0, n - 1);
      var card := Card(picks, 4 + n - 1);
      HandAtHoldsDealtCards(picks, user0, n - 1);
      CalculateScoreKeepsDealt(before);
      DealtAppend(CalculateScore(before).hand, card);
      DrawnAppend(picks, 4, n - 1);
      DealtAppend(Drawn(picks, 4, n - 1), card);
      AddOneCard(Dealt(HandAt(picks, user0, n)), Dealt(user0), Dealt(Drawn(picks, 4, n - 1)),
                 Dealt(Drawn(picks, 4, n)), card);
    }
  }

  /** What the player's loop leaves behind when it stops after `n` hits: the
      scored hand holds exactly the opening cards and the hits, and its score
      is 0 for a natural and otherwise its total. */
  lemma PlayerHandHoldsDealtCards(picks: nat -> Choice, user0: seq<int>, n: nat)
    requires ValidHand(user0) && |user0| == 2 && LowAce !in user0
    ensures ScoredDeal(CalculateScore(HandAt(picks, user0, n)).hand, CalculateScore(HandAt(picks, user0, n)).score,
                       user0 + Drawn(picks, 4, n))
  {
    HandAtIsValid(picks, user0, n);
    HandAtHoldsDealtCards(picks, user0, n);
    ScoreBounds(HandAt(picks, user0, n));
    ScoreMeaning(HandAt(picks, user0, n));
    CalculateScoreKeepsDealt(HandAt(picks, user0, n));
    DealtOfDeal(picks, user0, 4, n);
  }

  /** Drawn cards are never 1: a demoted Ace only appears by scoring. */
  lemma {:induction false} DrawnUndemoted(picks: nat -> Choice, from: nat, count: nat)
    ensures LowAce !in Drawn(picks, from, count)
  {
    if count > 0 {
      DrawnUndemoted(picks, from, count - 1);
    }
  }

  /** Bookkeeping for a whole turn: the opening cards and the cards drawn after
      them, counted as they were dealt, are the one list of both. */
  lemma DealtOfDeal(picks: nat -> Choice, opening: seq<int>, from: nat, count: nat)
    requires LowAce !in opening
    ensures Dealt(opening) + Dealt(Drawn(picks, from, count)) == multiset(opening + Drawn(picks, from, count))
  {
    DealtConcat(opening, Drawn(picks, from, count));
    DrawnUndemoted(picks, from, count);
    DealtUndemoted(opening + Drawn(picks, from, count));
  }

  /** Bookkeeping for one more card: the hand's cards and the drawn cards both
      gain `card`. */
  lemma AddOneCard(hand: multiset<int>, opening: multiset<int>, drawn: multiset<int>,
                   drawn': multiset<int>, card: int)
    requires hand == opening + drawn + multiset{card}
    requires drawn' == drawn + multiset{card}
    ensures hand == opening + drawn'
  {
  }

  /** The dealer's opening two cards. */
  function DealerOpening(picks: nat -> Choice): (h: seq<int>)
    ensures ValidHand(h) && |h| == 2
  {
    [Card(picks, 1), Card(picks, 3)]
  }

  /** The player's opening two cards. */
  function PlayerOpening(picks: nat -> Choice): (h: seq<int>)
    ensures ValidHand(h) && |h| == 2
  {
    [Card(picks, 0), Card(picks, 2)]
  }

  /** Dealt cards are never 1, so the openings hold no demoted Ace. */
  lemma OpeningsUndemoted(picks: nat -> Choice)
    ensures LowAce !in PlayerOpening(picks) && LowAce !in DealerOpening(picks)
  {
  }

  /** The opening deal of `play_game`: two rounds, player first. */
  method DealOpening(picks: nat -> Choice) returns (user: seq<int>, computer: seq<int>)
    ensures user == PlayerOpening(picks) && computer == DealerOpening(picks)
  {
    user, computer := [], [];
    var next: nat := 0;
    for round := 0 to 2
      invariant next == 2 * round
      invariant user == PlayerOpening(picks)[..round]
      invariant computer == DealerOpening(picks)[..round]
    {
      user := user + [Card(picks, next)];
      computer := computer + [Card(picks, next + 1)];
      next := next + 2;
    }
  }

  /** One pass of the player's loop adds one card's low value to the hard
      total: scoring keeps the hard total and the hit adds the card. */
  lemma HandAtGrows(picks: nat -> Choice, user0: seq<int>, n: nat)
    ensures Hard(HandAt(picks, user0, n + 1)) == Hard(HandAt(picks, user0, n)) + HardValue(Card(picks, 4 + n))
  {
    CalculateScoreSpec(HandAt(picks, user0, n));
    HardAppend(CalculateScore(HandAt(picks, user0, n)).hand, Card(picks, 4 + n));
  }

  /** What bounds the player's loop: while the hand is neither a natural nor
      over 21 its hard total is at most 21, and every pass raises it. */
  lemma HandAtProgress(picks: nat -> Choice, user0: seq<int>, n: nat)
    requires ValidHand(user0) && |user0| == 2
    ensures var score := CalculateScore(HandAt(picks, user0, n)).score;
      score != 0 && !Bust(score) ==> Hard(HandAt(picks, user0, n)) <= 21
    ensures Hard(HandAt(picks, user0, n)) < Hard(HandAt(picks, user0, n + 1))
  {
    HandAtIsValid(picks, user0, n);
    ScoreBounds(HandAt(picks, user0, n));
    HandAtGrows(picks, user0, n);
  }

  /** The player's loop as a recurrence over its passes, `n` hits having been
      taken so far: each pass scores the hand; a natural on either side or a
      bust ends the loop, and so does any answer but "yes"; otherwise the
      player takes the next card. `computerScore` is the dealer's score, which
      the loop cannot change. The result is why the loop ended and after how
      many hits. */
  function PlayerLoop(picks: nat -> Choice, answers: nat -> string, user0: seq<int>,
                      computerScore: int, n: nat): (StopReason, nat)
    requires ValidHand(user0) && |user0| == 2
    decreases 22 - Hard(HandAt(picks, user0, n))
  {
    var score := CalculateScore(HandAt(picks, user0, n)).score;
    if score == 0 || computerScore == 0 then (Natural, n)
    else if Bust(score) then (PlayerBust, n)
    else if !Hits(answers(n)) then (Stood, n)
    else
      HandAtProgress(picks, user0, n);
      PlayerLoop(picks, answers, user0, computerScore, n + 1)
  }

  /** A pass that neither stops nor ends the loop hands over to the next pass,
      which starts from the scored hand plus the next card. */
  lemma PlayerLoopContinues(picks: nat -> Choice, answers: nat -> string, user0: seq<int>,
                            computerScore: int, n: nat)
    requires ValidHand(user0) && |user0| == 2
    requires var score := CalculateScore(HandAt(picks, user0, n)).score;
      score != 0 && computerScore != 0 && !Bust(score) && Hits(answers(n))
    ensures PlayerLoop(picks, answers, user0, computerScore, n)
         == PlayerLoop(picks, answers, user0, computerScore, n + 1)
    ensures HandAt(picks, user0, n + 1) == CalculateScore(HandAt(picks, user0, n)).hand + [Card(picks, 4 + n)]
  {
  }

  /** Why the player's loop ends: every hit it took was asked for with "yes",
      and it stops exactly on a natural on either side, exactly on a bust, or
      exactly on the first answer that is not "yes". */
  lemma {:induction false} PlayerLoopStops(picks: nat -> Choice, answers: nat -> string, user0: seq<int>,
                                           computerScore: int, n: nat)
    requires ValidHand(user0) && |user0| == 2
    requires AllHits(answers, n)
    requires computerScore == 0 ==> n == 0
    ensures var (stop, hits) := PlayerLoop(picks, answers, user0, computerScore, n);
      var score := CalculateScore(HandAt(picks, user0, hits)).score;
      && n <= hits && AllHits(answers, hits)
      && (stop == Natural <==> score == 0 || computerScore == 0)
      && (stop == PlayerBust <==> Bust(score))
      && (stop == Stood <==> score != 0 && computerScore != 0 && !Bust(score) && !Hits(answers(hits)))
    decreases 22 - Hard(HandAt(picks, user0, n))
  {
    var score := CalculateScore(HandAt(picks, user0, n)).score;
    if n == 0 {
      TwoCardsNeverBust(user0);
    }
    if score != 0 && computerScore != 0 && !Bust(score) && Hits(answers(n)) {
      HandAtProgress(picks, user0, n);
      PlayerLoopStops(picks, answers, user0, computerScore, n + 1);
    }
  }

  /** The player's loop of `play_game`. Each pass scores both hands (which may
      demote an Ace in either); the loop ends on a natural on either side, on a
      player bust, or on any answer other than "yes"; on "yes" the player takes
      the next card, the first of them being card number 4 of the round. */
  method PlayerTurn(picks: nat -> Choice, answers: nat -> string, user0: seq<int>, computer0: seq<int>)
    returns (user: seq<int>, userScore: int, computer: seq<int>, computerScore: int,
             stop: StopReason, hits: nat)
    requires ValidHand(user0) && |user0| == 2
    requires ValidHand(computer0) && |computer0| == 2
    ensures (stop, hits) == PlayerLoop(picks, answers, user0, CalculateScore(computer0).score, 0)
    ensures (user, userScore) == (CalculateScore(HandAt(picks, user0, hits)).hand,
                                  CalculateScore(HandAt(picks, user0, hits)).score)
    ensures (computer, computerScore) == (CalculateScore(computer0).hand, CalculateScore(computer0).score)
  {
    ghost var opening := CalculateScore(computer0);
    TwoCardsNeverBust(computer0);
    RescoreIsStable(computer0);
    user, computer := user0, computer0;
    hits := 0;
    var next: nat := 4;
    // The program's `is_game_over` flag: every pass that sets it leaves the
    // loop at once, which is what returning here does.
    while true
      invariant user == HandAt(picks, user0, hits)
      invariant next == 4 + hits
      invariant CalculateScore(computer) == opening
      invariant PlayerLoop(picks, answers, user0, opening.score, hits)
             == PlayerLoop(picks, answers, user0, opening.score, 0)
      decreases 22 - Hard(user)
    {
      HandAtProgress(picks, user0, hits);
      var scoredUser := CalculateScore(user);
      user, userScore := scoredUser.hand, scoredUser.score;
      var scoredComputer := CalculateScore(computer);
      computer, computerScore := scoredComputer.hand, scoredComputer.score;
      if userScore == 0 || computerScore == 0 || userScore > 21 {
        stop := if userScore == 0 || computerScore == 0 then Natural else PlayerBust;
        return;
      }
      if !Hits(answers(hits)) {
        stop := Stood;
        return;
      }
      PlayerLoopContinues(picks, answers, user0, opening.score, hits);
      user := user + [Card(picks, next)];
      next := next + 1;
      hits := hits + 1;
    }
  }

  /** The dealer's loop as a recurrence: `drawn` cards have been taken so far,
      the next one being card number `from + drawn` of the round. The result is
      the final hand, its score and how many cards the dealer took in all. */
  function DealerPlay(picks: nat -> Choice, from: nat, drawn: nat, hand: seq<int>, score: int)
    : (seq<int>, int, nat)
    requires ScoredHand(hand, score)
    decreases 17 - Hard(hand)
  {
    if score == 0 || score >= 17 then (hand, score, drawn)
    else
      HardAtMostSum(hand);
      var next := DrawAndScore(hand, Card(picks, from + drawn));
      DealerPlay(picks, from, drawn + 1, next.hand, next.score)
  }

  /** However many cards the dealer draws, the final hand is valid and holds
      one more card per draw, it is scored 0 exactly when it is a natural and
      otherwise at its total, the loop stops only on a natural or at 17 or
      more, it ends on a natural exactly when it starts on one, and it draws
      nothing exactly when it starts there. */
  lemma {:induction false} DealerPlayStands(picks: nat -> Choice, from: nat, drawn: nat,
                                            hand: seq<int>, score: int)
    requires ScoredHand(hand, score)
    ensures var (final, finalScore, total) := DealerPlay(picks, from, drawn, hand, score);
      && ScoredHand(final, finalScore) && |final| == |hand| + total - drawn && drawn <= total
      && (finalScore == 0 || finalScore >= 17)
      && (finalScore == 0 <==> score == 0)
      && (total == drawn <==> score == 0 || score >= 17)
    decreases 17 - Hard(hand)
  {
    if score != 0 && score < 17 {
      HardAtMostSum(hand);
      var next := DrawAndScore(hand, Card(picks, from + drawn));
      DealerPlayStands(picks, from, drawn + 1, next.hand, next.score);
    }
  }

  /** One draw and rescoring adds exactly the drawn card to the cards dealt. */
  lemma DrawHoldsDealtCards(picks: nat -> Choice, from: nat, drawn: nat, hand: seq<int>, opening: multiset<int>)
    requires Dealt(hand) == opening + Dealt(Drawn(picks, from, drawn))
    ensures Dealt(CalculateScore(hand + [Card(picks, from + drawn)]).hand)
         == opening + Dealt(Drawn(picks, from, drawn + 1))
  {
    var card := Card(picks, from + drawn);
    CalculateScoreKeepsDealt(hand + [card]);
    DealtAppend(hand, card);
    DrawnAppend(picks, from, drawn);
    DealtAppend(Drawn(picks, from, drawn), card);
    AddOneCard(Dealt(CalculateScore(hand + [card]).hand), opening,
               Dealt(Drawn(picks, from, drawn)), Dealt(Drawn(picks, from, drawn + 1)), card);
  }

  /** However many cards the dealer draws, the final hand holds what it held
      plus exactly the drawn cards, as dealt. */
  lemma {:induction false} DealerPlayHoldsDealtCards(picks: nat -> Choice, from: nat, drawn: nat,
                                                     hand: seq<int>, score: int, opening: multiset<int>)
    requires ScoredHand(hand, score)
    requires Dealt(hand) == opening + Dealt(Drawn(picks, from, drawn))
    ensures var (final, _, total) := DealerPlay(picks, from, drawn, hand, score);
      Dealt(final) == opening + Dealt(Drawn(picks, from, total))
    decreases 17 - Hard(hand)
  {
    if score != 0 && score < 17 {
      HardAtMostSum(hand);
      var next := DrawAndScore(hand, Card(picks, from + drawn));
      DrawHoldsDealtCards(picks, from, drawn, hand, opening);
      DealerPlayHoldsDealtCards(picks, from, drawn + 1, next.hand, next.score, opening);
    }
  }

  /** The dealer's loop of `play_game`: while its score is neither the natural
      sentinel nor 17 or more, the dealer takes the next card (the first of them
      being card number `from`) and is scored again. */
  method DealerTurn(picks: nat -> Choice, from: nat, computer0: seq<int>, score0: int)
    returns (computer: seq<int>, computerScore: int, draws: nat)
    requires ScoredHand(computer0, score0)
    ensures (computer, computerScore, draws) == DealerPlay(picks, from, 0, computer0, score0)
  {
    computer, computerScore, draws := computer0, score0, 0;
    while computerScore != 0 && computerScore < 17
      invariant ScoredHand(computer, computerScore)
      invariant DealerPlay(picks, from, draws, computer, computerScore) == DealerPlay(picks, from, 0, computer0, score0)
      decreases 17 - Hard(computer)
    {
      HardAtMostSum(computer);
      var scored := DrawAndScore(computer, Card(picks, from + draws));
      computer, computerScore := scored.hand, scored.score;
      draws := draws + 1;
    }
  }

  /** The dealer's opening hand as the first pass of the player's loop scores
      it (which may demote one of two Aces): still the two opening cards as
      dealt, scored 0 exactly for a natural and otherwise at its total. */
  lemma DealerOpeningMeaning(picks: nat -> Choice, from: nat)
    ensures var r := CalculateScore(DealerOpening(picks));
      && ScoredHand(r.hand, r.score) && |r.hand| == 2
      && Dealt(r.hand) == Dealt(DealerOpening(picks)) + Dealt(Drawn(picks, from, 0))
  {
    ScoreMeaning(DealerOpening(picks));
    ScoreBounds(DealerOpening(picks));
    CalculateScoreKeepsDealt(DealerOpening(picks));
  }

  /** What the dealer ends the round with when the player took `hits` cards. */
  function DealerFinal(picks: nat -> Choice, hits: nat): (seq<int>, int, nat)
  {
    DealerOpeningMeaning(picks, 4 + hits);
    var opening := CalculateScore(DealerOpening(picks));
    DealerPlay(picks, 4 + hits, 0, opening.hand, opening.score)
  }

  /** What the player ends the round with after `hits` cards. */
  function PlayerFinal(picks: nat -> Choice, hits: nat): Scored<seq<int>>
  {
    CalculateScore(HandAt(picks, PlayerOpening(picks), hits))
  }

  /** The whole round as a function of the draws and the answers: the player's
      loop, then the dealer's loop from the next card on, then `compare`. */
  function Play(picks: nat -> Choice, answers: nat -> string): RoundResult
  {
    var (stop, hits) := PlayerLoop(picks, answers, PlayerOpening(picks), CalculateScore(DealerOpening(picks)).score, 0);
    var user := PlayerFinal(picks, hits);
    var (dealerHand, dealerScore, draws) := DealerFinal(picks, hits);
    RoundResult(user.hand, dealerHand, user.score, dealerScore, stop, hits, draws, Compare(user.score, dealerScore))
  }

  /** Whatever the player's answers, both final hands hold exactly the cards
      dealt to that side, and each final score is the scorer's verdict on its
      hand: 0 for a natural, otherwise the hand's total. */
  lemma PlayHoldsDealtCards(picks: nat -> Choice, answers: nat -> string)
    ensures var r := Play(picks, answers);
      && ScoredDeal(r.userCards, r.userScore, PlayerOpening(picks) + Drawn(picks, 4, r.hits))
      && ScoredDeal(r.computerCards, r.computerScore, DealerOpening(picks) + Drawn(picks, 4 + r.hits, r.draws))
  {
    var r := Play(picks, answers);
    OpeningsUndemoted(picks);
    PlayerHandHoldsDealtCards(picks, PlayerOpening(picks), r.hits);
    var opening := CalculateScore(DealerOpening(picks));
    DealerOpeningMeaning(picks, 4 + r.hits);
    assert (r.computerCards, r.computerScore, r.draws) == DealerPlay(picks, 4 + r.hits, 0, opening.hand, opening.score);
    DealerPlayStands(picks, 4 + r.hits, 0, opening.hand, opening.score);
    DealerPlayHoldsDealtCards(picks, 4 + r.hits, 0, opening.hand, opening.score, Dealt(DealerOpening(picks)));
    DealtOfDeal(picks, DealerOpening(picks), 4 + r.hits, r.draws);
  }

  /** The player's loop in a whole round: every hit was asked for, and it
      ends exactly on a natural on either side, exactly on a player bust, or
      on the first answer that is not "yes". */
  lemma PlayStops(picks: nat -> Choice, answers: nat -> string)
    ensures var r := Play(picks, answers);
      && (forall i :: 0 <= i < r.hits ==> Hits(answers(i)))
      && (r.stop == Natural <==> r.userScore == 0 || r.computerScore == 0)
      && (r.stop == PlayerBust <==> Bust(r.userScore))
      && (r.stop == Stood <==> r.userScore != 0 && r.computerScore != 0 && !Bust(r.userScore)
                               && !Hits(answers(r.hits)))
  {
    var r := Play(picks, answers);
    var opening := CalculateScore(DealerOpening(picks));
    PlayerLoopStops(picks, answers, PlayerOpening(picks), opening.score, 0);
    AllHitsEach(answers, r.hits);
    DealerOpeningMeaning(picks, 4 + r.hits);
    DealerPlayStands(picks, 4 + r.hits, 0, opening.hand, opening.score);
  }

  /** The dealer's loop in a whole round ends on a natural or at 17 or more,
      and it draws exactly when the dealer's opening score is an ordinary
      total under 17, whatever the player did. */
  lemma PlayDealerStands(picks: nat -> Choice, answers: nat -> string)
    ensures var r := Play(picks, answers);
      var opening := CalculateScore(DealerOpening(picks));
      && (r.computerScore == 0 || r.computerScore >= 17)
      && (r.draws == 0 <==> opening.score == 0 || opening.score >= 17)
  {
    DealerFinalStands(picks, Play(picks, answers).hits);
  }

  /** After the player took `hits` cards, the dealer's loop ends on a natural
      or at 17 or more, and draws exactly when the dealer's opening score is an
      ordinary total under 17. */
  lemma DealerFinalStands(picks: nat -> Choice, hits: nat)
    ensures var (_, finalScore, draws) := DealerFinal(picks, hits);
      var opening := CalculateScore(DealerOpening(picks));
      && (finalScore == 0 || finalScore >= 17)
      && (draws == 0 <==> opening.score == 0 || opening.score >= 17)
  {
    DealerOpeningMeaning(picks, 4 + hits);
    var opening := CalculateScore(DealerOpening(picks));
    DealerPlayStands(picks, 4 + hits, 0, opening.hand, opening.score);
  }

  /** Scoring that demotes only one Ace never matters to the dealer: a dealer
      who draws is below 17, so the new hand totals at most 27 and the
      corrected scorer would leave the same hand and score. */
  lemma DealerDrawUnaffected(hand: seq<int>, score: int, card: int)
    requires ScoredHand(hand, score) && score != 0 && score < 17
    requires 2 <= card <= Ace
    ensures CalculateScoreCorrected(hand + [card]) == CalculateScore(hand + [card])
  {
    SumAppend(hand, card);
    AgreeWhenOneDemotionSuffices(hand + [card]);
  }

  /** For the player it matters on one kind of pass only: the hand scored
      exactly 21 and the card taken is an Ace. */
  lemma PlayerHitAffectedOnlyAtTwentyOne(picks: nat -> Choice, user0: seq<int>, n: nat)
    ensures var score := CalculateScore(HandAt(picks, user0, n)).score;
      var next := HandAt(picks, user0, n + 1);
      (score != 0 && !Bust(score) && CalculateScoreCorrected(next) != CalculateScore(next)
       ==> score == 21 && Card(picks, 4 + n) == Ace)
  {
    var scored := CalculateScore(HandAt(picks, user0, n));
    var next := HandAt(picks, user0, n + 1);
    CalculateScoreSpec(HandAt(picks, user0, n));
    SumAppend(scored.hand, Card(picks, 4 + n));
    if Sum(next) <= 31 {
      AgreeWhenOneDemotionSuffices(next);
    }
  }

  /** The dealer's part of `play_game`, from the dealer's hand as the player's
      loop last scored it to the dealer's final hand. */
  method DealerPhase(picks: nat -> Choice, hits: nat, computer0: seq<int>, score0: int)
    returns (computer: seq<int>, computerScore: int, draws: nat)
    requires computer0 == CalculateScore(DealerOpening(picks)).hand
    requires score0 == CalculateScore(DealerOpening(picks)).score
    ensures (computer, computerScore, draws) == DealerFinal(picks, hits)
  {
    DealerOpeningMeaning(picks, 4 + hits);
    computer, computerScore, draws := DealerTurn(picks, 4 + hits, computer0, score0);
  }

  /** `play_game` without the console: deals, runs the player's loop and the
      dealer's loop, and decides the round with `compare`. */
  method PlayGame(picks: nat -> Choice, answers: nat -> string) returns (r: RoundResult)
    ensures r == Play(picks, answers)
  {
    var user, computer := DealOpening(picks);
    var userScore, computerScore, stop, hits;
    user, userScore, computer, computerScore, stop, hits := PlayerTurn(picks, answers, user, computer);
    var dealerHand, dealerScore, draws := DealerPhase(picks, hits, computer, computerScore);
    r := RoundResult(user, dealerHand, userScore, dealerScore, stop, hits, draws,
                     Compare(userScore, dealerScore));
  }
}
