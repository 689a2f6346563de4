/**
 Deciding a round from the two final scores, as `compare` does. Scores use the
 scorer's convention: 0 is a natural, above 21 is a bust.
 */
module Outcomes {

  /** The four messages `compare` can print. `WentOver` is the loss announced
      when both sides bust; `Lose` is every other loss. */
  datatype Outcome = WentOver | Draw | Lose | Win

  predicate Bust(score: int) {
    score > 21
  }

  /** `compare(user_score, computer_score)`. */
  function Compare(userScore: int, computerScore: int): (o: Outcome)
    ensures o == WentOver <==> Bust(userScore) && Bust(computerScore)
    ensures o == Draw <==> userScore == computerScore && !Bust(userScore)
    ensures Bust(userScore) ==> o == WentOver || o == Lose
    ensures computerScore == 0 && userScore != 0 ==> o == Lose
    ensures userScore == 0 && computerScore != 0 ==> o == Win
    ensures userScore != 0 && !Bust(userScore) && Bust(computerScore) ==> o == Win
    ensures 0 < userScore <= 21 && 0 < computerScore <= 21 && userScore != computerScore ==>
              (o == Win <==> userScore > computerScore) && (o == Lose <==> userScore < computerScore)
  {
    if userScore > 21 && computerScore > 21 then WentOver
    else if userScore == computerScore then Draw
    else if computerScore == 0 then Lose
    else if userScore == 0 then Win
    else if userScore > 21 then Lose
    else if computerScore > 21 then Win
    else if userScore > computerScore then Win
    else Lose
  }

  /** How strong a final score is: a natural above every total, a bust below
      every standing total, otherwise the total itself. */
  function Strength(score: nat): int {
    if score == 0 then 22
    else if Bust(score) then 0
    else score
  }

  /** A reference decision written from strengths rather than from the chain of
      tests: both bust is the "went over" loss, otherwise the stronger score wins
      and equal strength is a draw. */
  function Resolve(userScore: nat, computerScore: nat): Outcome {
    if Bust(userScore) && Bust(computerScore) then WentOver
    else if Strength(userScore) == Strength(computerScore) then Draw
    else if Strength(userScore) > Strength(computerScore) then Win
    else Lose
  }

  /** On every pair of reachable scores, `compare`'s chain of tests is the
      strength ranking. */
  lemma CompareIsRanking(userScore: nat, computerScore: nat)
    ensures Compare(userScore, computerScore) == Resolve(userScore, computerScore)
  {
  }

  /** Swapping the sides swaps a win and a loss and keeps a draw and a double bust. */
  lemma CompareIsAntisymmetric(userScore: nat, computerScore: nat)
    ensures Compare(userScore, computerScore) == Win <==> Compare(computerScore, userScore) == Lose
    ensures Compare(userScore, computerScore) == Draw <==> Compare(computerScore, userScore) == Draw
    ensures Compare(userScore, computerScore) == WentOver <==> Compare(computerScore, userScore) == WentOver
  {
    CompareIsRanking(userScore, computerScore);
    CompareIsRanking(computerScore, userScore);
  }
}
