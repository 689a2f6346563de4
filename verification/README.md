# Blackjack round model

A Dafny model of the rule logic in `TheBlackjack.py`. It covers these parts:

- **Card supply.** `deal_card` picks a value from a fixed table. 11 is an Ace; 10 is a ten or a face card.
- **Scoring.** `calculate_score` scores a hand of card values:
  - a two-card 21 (a natural) gets the sentinel score 0;
  - a busting hand that holds an Ace has its first 11 replaced by a 1 at the end, once.
- **Deciding.** `compare` decides the round from the two scores.
- **The round.** `play_game` deals two cards each, player first. The player's loop follows, then the dealer's loop.

The model has four modules, one per file:

| module | file | what it holds |
|---|---|---|
| `Cards` | `cards.dfy` | the card table and hands of card values, with their totals |
| `Scoring` | `scoring.dfy` | `calculate_score`, plus a corrected scorer for the finding below |
| `Outcomes` | `outcomes.dfy` | `compare` |
| `Round` | `round.dfy` | the opening deal, the two loops of `play_game`, and the whole round |

Several things outside the program become inputs:

- **Random draws.** `picks: nat -> Choice` gives the table index of the k-th card dealt in a round.
- **Card numbering.** Cards 0–3 are the opening deal: player, dealer, player, dealer. The player's hits start at card 4, and the dealer's draws follow them.
- **The player's answers.** `answers: nat -> string` gives the text typed at the i-th prompt. Only `"yes"` takes a card.
- **Mutation.** `calculate_score` changes the caller's list in place. The model returns the new hand beside the score instead (`Scored`).

Each operation is defined twice:

- a method that mirrors the program's loop (`PlayerTurn`, `DealerTurn`, `PlayGame`);
- a recursive reference function (`PlayerLoop`, `DealerPlay`, `Play`).

A contract ties each method to its reference function. Lemmas then state what the reference functions guarantee.

**Why the loops end.** Both loops terminate on the hand's *hard total*: the sum with every 11 counted as 1.

- Scoring never changes the hard total (`CalculateScoreSpec`).
- Every card taken raises it by at least 1.
- A score other than the sentinel is never below it.

So the dealer's loop decreases `17 - Hard` and the player's loop decreases `22 - Hard`. The score itself is no measure, because a demotion lowers it. A count of Aces is no measure either, because taking an Ace raises it.

**Where the code departs from the game's usual description.** The model follows the code in each case:

- There are no wagers, balances, payouts, suits or deck. Every card is an independent draw from the 13-entry table.
- A natural is signalled by the score 0, not by a separate flag. `compare` is written around that sentinel.
- `calculate_score` demotes at most one Ace per call. It does not demote Aces one by one as needed (see Findings).
- The player is not made to stand at 21: an answer of `"yes"` still takes a card.
- The dealer's loop runs whatever the player did: after a player bust, and after a player natural when the dealer's score is an ordinary total under 17.

## Model

| member | source | states |
|---|---|---|
| Cards.DealCard | TheBlackjack.py:6-9 | every card `deal_card` can return is worth between 2 and 11 |
| Cards.CardValues | TheBlackjack.py:7 | the card table holds every value from 2 to 11 and nothing else |
| Scoring.RemoveFirstSplices | TheBlackjack.py:16 | `list.remove(11)` cuts out exactly the first 11 and keeps every other card in order |
| Scoring.RemoveFirstContents | TheBlackjack.py:16 | `list.remove` takes out exactly one copy of the value and nothing else |
| Scoring.DemoteTotals | TheBlackjack.py:16-17 | a demotion puts the 1 last, takes exactly ten off the sum, and keeps the hard total |
| Scoring.DemoteSwapsOneAce | TheBlackjack.py:16-17 | a demotion trades one 11 for one 1 and leaves every other card's count alone |
| Scoring.CalculateScoreSpec | TheBlackjack.py:12-18 | a natural scores 0 with the hand untouched; otherwise the score is the sum of the returned hand; the hand changes exactly when it busts while holding an 11, and then the score is the old sum less ten; the hard total is kept |
| Scoring.CalculateScoreDemotesOneAce | TheBlackjack.py:15-17 | when scoring changes the hand, exactly one 11 became a 1 and the card counts are otherwise the same |
| Scoring.CalculateScoreKeepsDealt | TheBlackjack.py:15-17 | scoring never changes which cards were dealt into the hand, when a 1 is read as the Ace it was dealt as |
| Scoring.CalculateScoreKeepsRange | TheBlackjack.py:15-17 | after scoring, every entry of a valid hand still lies between 1 and 11 |
| Scoring.ScoreZeroIffNatural | TheBlackjack.py:13-18 | on a valid hand the score is 0 exactly for a two-card 21, or for the empty hand |
| Scoring.NaturalIsKept | TheBlackjack.py:13-17 | scoring neither makes nor unmakes a natural |
| Scoring.ScoreAtLeastCardCount | TheBlackjack.py:13-18 | a score other than the sentinel is at least the number of cards |
| Scoring.TwoCardsNeverBust | TheBlackjack.py:13-18 | a two-card hand never scores over 21: two Aces are demoted to 12 |
| Scoring.RescoreIsStable | TheBlackjack.py:12-18 | scoring a hand that did not bust a second time leaves the hand and the score unchanged |
| Scoring.ScoreAtLeastHard | TheBlackjack.py:15-18 | outside a natural, the score is never below the hand's total with every Ace counted as 1 |
| Scoring.SoftTwentyOneDrawingAnAceBusts | TheBlackjack.py:15-17 | as written: 11, 5, 5 plus an 11 is scored 22 with only the first Ace demoted, although counting both Aces as 1 gives 12 |
| Scoring.CalculateScoreCorrected | TheBlackjack.py:12-18 | corrected scorer: a natural scores 0; otherwise the score is the sum of the returned hand, never over 21 unless counting every Ace as 1 is over 21 |
| Scoring.CorrectedBustsOnlyWhenUnavoidable | TheBlackjack.py:15-17 | the corrected scorer busts exactly when the hard total busts |
| Scoring.SoftTwentyOneDrawingAnAceCorrected | TheBlackjack.py:15-17 | the corrected scorer gives 11, 5, 5, 11 the score 12 by demoting both Aces |
| Scoring.AgreeWhenOneDemotionSuffices | TheBlackjack.py:15-17 | on every hand totalling at most 31, the program's scorer and the corrected one give the same hand and score |
| Outcomes.Compare | TheBlackjack.py:21-37 | both bust is the "went over" loss; equal scores that are not busts draw; a player bust never wins or draws; a dealer natural beats every other score; a player natural beats every other score; a standing player beats a dealer bust; between two ordinary totals the higher wins |
| Outcomes.CompareIsRanking | TheBlackjack.py:21-37 | `compare` ranks the scores by strength: a natural above every total, a bust below every standing total; equal strength draws, and both bust is the "went over" loss |
| Outcomes.CompareIsAntisymmetric | TheBlackjack.py:21-37 | swapping the two scores swaps a win and a loss, and keeps a draw and a double bust |
| Round.DealOpening | TheBlackjack.py:46-48 | the opening deal gives the player cards 0 and 2 and the dealer cards 1 and 3 |
| Round.HandAtIsValid | TheBlackjack.py:50-61 | on every pass of the player's loop, the hand is valid and holds the two opening cards plus one card per hit |
| Round.HandAtHoldsDealtCards | TheBlackjack.py:50-61 | on every pass, the player's hand holds exactly the opening cards and the hits, as dealt |
| Round.HandAtProgress | TheBlackjack.py:50-61 | while the player neither has a natural nor busts, the hard total is at most 21, and every pass raises it (so the player's loop ends) |
| Round.PlayerLoopStops | TheBlackjack.py:50-63 | every hit was answered "yes"; the loop ends on a natural on either side, on a player bust, or on the first answer other than "yes", each exactly |
| Round.PlayerTurn | TheBlackjack.py:50-63 | the player's loop, which scores both hands on each pass, stops where the recurrence `PlayerLoop` stops, with the last-scored hands and scores |
| Round.PlayerHandHoldsDealtCards | TheBlackjack.py:50-63 | the player's final hand holds exactly the opening cards and the hits, scored 0 for a natural and otherwise at its total |
| Round.PlayerHitAffectedOnlyAtTwentyOne | TheBlackjack.py:56-61 | the one-Ace-per-call scoring differs from the corrected scorer, on a hand the player reaches, only after the player hit on exactly 21 and drew an Ace |
| Round.DrawAndScore | TheBlackjack.py:66-67 | a dealer's draw adds one card and rescores the hand; three or more cards are never a natural, so the score is the hand's total |
| Round.DealerPlayStands | TheBlackjack.py:65-67 | the dealer's loop ends on a natural or at 17 or more; it ends on a natural exactly when it starts on one; it draws nothing exactly when it starts there |
| Round.DealerPlayHoldsDealtCards | TheBlackjack.py:65-67 | the dealer's final hand holds what it held plus exactly the cards drawn, as dealt |
| Round.DealerTurn | TheBlackjack.py:65-67 | the dealer's `while` loop ends with the hand, score and draw count of the recurrence `DealerPlay` |
| Round.DealerDrawUnaffected | TheBlackjack.py:65-67 | on every dealer draw, the program's scorer and the corrected one agree |
| Round.DealerOpeningMeaning | TheBlackjack.py:52 | the dealer's opening hand, as the player's loop scores it, is still the two opening cards as dealt, scored 0 exactly for a natural and otherwise at its total |
| Round.DealerFinalStands | TheBlackjack.py:65-67 | whatever number of hits the player took, the dealer finishes on a natural or at 17 or more, and draws exactly when its opening score is an ordinary total under 17 |
| Round.DealerPhase | TheBlackjack.py:65-67 | the dealer's part of the round, from the hand the player's loop left, ends where `DealerFinal` says |
| Round.PlayGame | TheBlackjack.py:40-71 | `play_game` with the console removed yields the round `Play` describes: the player's loop, then the dealer's loop from the next card, then `compare` |
| Round.PlayStops | TheBlackjack.py:50-63 | in a whole round, every hit was asked for, and the player's loop stopped exactly on a natural, exactly on a player bust, or exactly on an answer other than "yes" |
| Round.PlayDealerStands | TheBlackjack.py:65-67 | in a whole round, the dealer finishes on a natural or at 17 or more, and draws exactly when its opening score is an ordinary total under 17 |
| Round.PlayHoldsDealtCards | TheBlackjack.py:40-71 | in a whole round, each side's final hand holds exactly the cards dealt to it, and each final score is 0 for a natural and otherwise that hand's total |

## Left out

- Randomness (`random.choice` at TheBlackjack.py:8) becomes the `picks` input. Fairness and the distribution of draws are not modelled.
- Console I/O is not modelled: `print`, the logo, `replit.clear`, and the two lines shown on each pass of the player's loop.
- The replay prompt loop (TheBlackjack.py:74-76) is left out. It only repeats `play_game` while the answer is `"yes"`, and each round is independent.
- The four messages of `compare` become the `Outcome` values. Their exact text is not modelled.
- Prompt text is left out. Each answer is reduced to whether it equals `"yes"`.
- The `is_game_over` flag of the player's loop is not kept as a variable. Each pass that would set it returns from `PlayerTurn` at once, which is how the program leaves the loop.

## Findings

| source | as written | input that shows it | evidently intended | confidence | as-written member | corrected member |
|---|---|---|---|---|---|---|
| TheBlackjack.py:15-17 | one 11 is demoted per call, even when the hand still busts with another 11 in it | the player holds 11, 5, 5 (scored 21), answers "yes", and draws an 11: the next pass scores 5, 5, 11, 1 as 22, a bust | demote Aces until the hand no longer busts or holds no 11, which scores the hand 12 | not executed; high | Scoring.SoftTwentyOneDrawingAnAceBusts | Scoring.CalculateScoreCorrected |

`Scoring.AgreeWhenOneDemotionSuffices` shows that the two scorers agree on every hand that totals at most 31. Three consequences follow:

- The dealer is never affected: a dealer draws only below 17 (`Round.DealerDrawUnaffected`).
- The opening deal is never affected.
- The player is affected only when hitting on exactly 21 and drawing an Ace (`Round.PlayerHitAffectedOnlyAtTwentyOne`).

The round model (`Round.PlayGame`, `Round.Play`) keeps the scorer as written, so that it describes what the program does.
