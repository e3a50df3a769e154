/** The rules of one-on-one combat that decide votes, scores and winners. */
module SportRules {
  import opened Prelude

  datatype Color = RED | BLUE

  function Other(c: Color): Color {
    if c == RED then BLUE else RED
  }

  const JUDGE_POINT_VALUE := 1

  function JudgeMajority(judgeCount: nat): nat {
    judgeCount / 2 + 1
  }

  /** The higher total wins; equal totals decide nothing. */
  function DetermineWinner(red: int, blue: int): Option<Color> {
    if red == blue then None else if red > blue then Some(RED) else Some(BLUE)
  }

  datatype Adjustment = Adjustment(bonusPoints: nat, penaltyPoints: nat)

  function FinalScore(base: int, adjustment: Adjustment): int {
    var score := base + adjustment.bonusPoints - adjustment.penaltyPoints;
    if score < 0 then 0 else score
  }

  // ---------------------------------------------------------------- the vote in one window

  function Votes(ballots: seq<Color>, c: Color): nat {
    if ballots == [] then 0
    else Votes(ballots[..|ballots| - 1], c) + (if ballots[|ballots| - 1] == c then 1 else 0)
  }

  /** RED is asked first; BLUE only if RED has no majority. */
  function Award(ballots: seq<Color>, judgeCount: nat): Option<Color> {
    if Votes(ballots, RED) >= JudgeMajority(judgeCount) then Some(RED)
    else if Votes(ballots, BLUE) >= JudgeMajority(judgeCount) then Some(BLUE)
    else None
  }

  function Swapped(ballots: seq<Color>): (swapped: seq<Color>)
    ensures |swapped| == |ballots|
  {
    seq(|ballots|, i requires 0 <= i < |ballots| => Other(ballots[i]))
  }

  lemma {:induction false} VotesSplit(ballots: seq<Color>)
    ensures Votes(ballots, RED) + Votes(ballots, BLUE) == |ballots|
  {
    if ballots != [] { VotesSplit(ballots[..|ballots| - 1]); }
  }

  lemma {:induction false} VotesAreMultiplicity(ballots: seq<Color>, c: Color)
    ensures Votes(ballots, c) == multiset(ballots)[c]
  {
    if ballots != [] {
      VotesAreMultiplicity(ballots[..|ballots| - 1], c);
      assert ballots == ballots[..|ballots| - 1] + [ballots[|ballots| - 1]];
    }
  }

  lemma {:induction false} SwappedVotes(ballots: seq<Color>, c: Color)
    ensures Votes(Swapped(ballots), c) == Votes(ballots, Other(c))
  {
    if ballots != [] {
      SwappedVotes(ballots[..|ballots| - 1], c);
      assert Swapped(ballots)[..|ballots| - 1] == Swapped(ballots[..|ballots| - 1]);
    }
  }

  /** No crowd: with at most one ballot per judge, at most one colour has a majority, and it is awarded. */
  lemma AwardIsTheMajority(ballots: seq<Color>, judgeCount: nat, c: Color)
    requires |ballots| <= judgeCount
    ensures Award(ballots, judgeCount) == Some(c) <==> Votes(ballots, c) >= JudgeMajority(judgeCount)
    ensures Votes(ballots, c) >= JudgeMajority(judgeCount) ==> Votes(ballots, Other(c)) < JudgeMajority(judgeCount)
  {
    VotesSplit(ballots);
  }

  lemma AwardIgnoresOrder(ballots: seq<Color>, reordered: seq<Color>, judgeCount: nat)
    requires multiset(ballots) == multiset(reordered)
    ensures Award(ballots, judgeCount) == Award(reordered, judgeCount)
  {
    VotesAreMultiplicity(ballots, RED);
    VotesAreMultiplicity(ballots, BLUE);
    VotesAreMultiplicity(reordered, RED);
    VotesAreMultiplicity(reordered, BLUE);
  }

  /**
   * Exchanging the colours exchanges the award, except when both colours reach a majority, which
   * takes more ballots than judges; then RED is awarded both times.
   */
  lemma AwardIsColourBlind(ballots: seq<Color>, judgeCount: nat)
    ensures (match Award(ballots, judgeCount)
             case Some(c) => Award(Swapped(ballots), judgeCount) == Some(Other(c))
             case None => Award(Swapped(ballots), judgeCount) == None)
            <==> !(Votes(ballots, RED) >= JudgeMajority(judgeCount)
                   && Votes(ballots, BLUE) >= JudgeMajority(judgeCount))
    ensures |ballots| <= judgeCount ==>
              !(Votes(ballots, RED) >= JudgeMajority(judgeCount) && Votes(ballots, BLUE) >= JudgeMajority(judgeCount))
  {
    SwappedVotes(ballots, RED);
    SwappedVotes(ballots, BLUE);
    VotesSplit(ballots);
  }
}
