/** The shape of a single-elimination draw: size, rounds, byes. */
module BracketSummary {
  import opened Prelude

  const MAX_BRACKET_ATHLETES := 64

  datatype SummaryError = TooFewAthletes | TooManyAthletes

  datatype Summary = Summary(
    athleteCount: nat,
    bracketSize: nat,
    roundCount: nat,
    totalFixtureCount: nat,
    firstRoundFixtureCount: nat,
    byeCount: nat)

  function Pow2(k: nat): nat {
    if k == 0 then 1 else 2 * Pow2(k - 1)
  }

  /** The least number of doublings of 1 that reaches n, found by halving. */
  function Exponent(n: nat): nat {
    if n <= 1 then 0 else 1 + Exponent((n + 1) / 2)
  }

  lemma {:induction false} Pow2Positive(k: nat)
    ensures Pow2(k) >= 1
  {
    if k > 0 { Pow2Positive(k - 1); }
  }

  lemma {:induction false} Pow2Strict(j: nat, k: nat)
    requires j < k
    ensures 2 * Pow2(j) <= Pow2(k)
  {
    if j + 1 < k { Pow2Strict(j, k - 1); Pow2Positive(k - 1); }
  }

  /** Exponent is exact: 2^e covers n and 2^(e-1) does not. */
  lemma {:induction false} ExponentIsLeast(n: nat)
    ensures n <= Pow2(Exponent(n))
    ensures n > 1 ==> Exponent(n) > 0 && Pow2(Exponent(n) - 1) < n
  {
    if n > 2 {
      ExponentIsLeast((n + 1) / 2);
      assert Exponent(n) - 1 == Exponent((n + 1) / 2);
    }
  }

  lemma {:induction false} ExponentUnique(n: nat, k: nat)
    requires n > 1 && k > 0
    requires Pow2(k - 1) < n <= Pow2(k)
    ensures Exponent(n) == k
  {
    ExponentIsLeast(n);
    var e := Exponent(n);
    if e < k { if e < k - 1 { Pow2Strict(e, k - 1); } }
    if k < e { if k < e - 1 { Pow2Strict(k, e - 1); } }
  }

  method NextPowerOfTwo(value: nat) returns (result: nat)
    ensures result == Pow2(Exponent(value))
  {
    ghost var k := 0;
    result := 1;
    while result < value
      invariant result == Pow2(k) && result >= 1
      invariant k == 0 || Pow2(k - 1) < value
      decreases value - result
    {
      result := result * 2;
      k := k + 1;
    }
    if value > 1 { ExponentUnique(value, k); }
  }

  /** The size, rounds, byes and bouts of a draw of n athletes. */
  function SummaryOf(n: nat): Summary
    requires 2 <= n
  {
    ExponentIsLeast(n);
    var size := Pow2(Exponent(n));
    Summary(n, size, Exponent(n), n - 1, n - size / 2, size - n)
  }

  method SummarizeBracket(athleteCount: nat) returns (r: Result<Summary, SummaryError>)
    ensures r == if athleteCount < 2 then Failure(TooFewAthletes)
                 else if athleteCount > MAX_BRACKET_ATHLETES then Failure(TooManyAthletes)
                 else Success(SummaryOf(athleteCount))
  {
    if athleteCount < 2 { return Failure(TooFewAthletes); }
    if athleteCount > MAX_BRACKET_ATHLETES { return Failure(TooManyAthletes); }
    var bracketSize := NextPowerOfTwo(athleteCount);
    ExponentIsLeast(athleteCount);
    r := Success(Summary(
      athleteCount, bracketSize, Exponent(athleteCount), athleteCount - 1,
      athleteCount - bracketSize / 2, bracketSize - athleteCount));
  }

  /** A draw always has fewer byes than pairs, so no pair needs two. */
  lemma SummaryFits(n: nat)
    requires 2 <= n
    ensures var s := SummaryOf(n);
            && s.roundCount >= 1
            && s.bracketSize == Pow2(s.roundCount) == 2 * Pow2(s.roundCount - 1)
            && s.athleteCount + s.byeCount == s.bracketSize
            && s.byeCount < s.bracketSize / 2
            && s.firstRoundFixtureCount + s.byeCount == s.bracketSize / 2
            && s.firstRoundFixtureCount >= 1
            && s.totalFixtureCount == s.firstRoundFixtureCount + (s.bracketSize / 2 - 1)
  {
    ExponentIsLeast(n);
  }
}
