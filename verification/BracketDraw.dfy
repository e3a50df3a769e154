/** Drawing lots: who gets a bye, who meets whom. */
module BracketDraw {
  import opened Prelude
  import opened BracketSummary
  import opened BracketGraph

  datatype DrawError =
    | NotEnoughAthletes | DuplicateAthletes | InvalidMaximum | AboveMaximum | AboveCapacity
    | DuplicateByes | UnknownBye | TooManyByes
    | InvalidRandomIndex
    | Graph(error: GraphError)

  /** Any source of numbers; nothing is assumed about what it answers. */
  class RandomSource {
    const answer: (nat, nat) -> int
    var cursor: nat

    constructor (answer: (nat, nat) -> int)
      ensures this.answer == answer && cursor == 0
    {
      this.answer := answer;
      cursor := 0;
    }

    method NextInt(maxExclusive: nat) returns (value: int)
      modifies this
      ensures value == answer(old(cursor), maxExclusive) && cursor == old(cursor) + 1
    {
      value := answer(cursor, maxExclusive);
      cursor := cursor + 1;
    }

    /** The source keeps its promise to answer below the bound it is given. */
    ghost predicate InRange() {
      forall at: nat, bound: nat :: bound > 0 ==> 0 <= answer(at, bound) < bound
    }
  }

  method NextRandomIndex(random: RandomSource, maxExclusive: nat) returns (r: Result<nat, DrawError>)
    requires maxExclusive > 0
    modifies random
    ensures r.Success? ==> r.value < maxExclusive
    ensures r.Failure? ==> r.error == InvalidRandomIndex && !random.InRange()
  {
    var value := random.NextInt(maxExclusive);
    if value < 0 || value >= maxExclusive { return Failure(InvalidRandomIndex); }
    r := Success(value);
  }

  method FisherYatesShuffle<T(0)>(items: seq<T>, random: RandomSource) returns (r: Result<seq<T>, DrawError>)
    modifies random
    ensures r.Success? ==> multiset(r.value) == multiset(items) && |r.value| == |items|
    ensures r.Failure? ==> r.error == InvalidRandomIndex && !random.InRange()
  {
    var shuffled := new T[|items|](i requires 0 <= i < |items| => items[i]);
    assert shuffled[..] == items;
    var index := shuffled.Length - 1;
    while index > 0
      invariant index < shuffled.Length
      invariant multiset(shuffled[..]) == multiset(items)
    {
      var swapIndex := NextRandomIndex(random, index + 1);
      if swapIndex.Failure? { return Failure(InvalidRandomIndex); }
      shuffled[index], shuffled[swapIndex.value] := shuffled[swapIndex.value], shuffled[index];
      index := index - 1;
    }
    r := Success(shuffled[..]);
  }

  function Without(ids: seq<AthleteId>, drop: set<AthleteId>): seq<AthleteId> {
    if ids == [] then []
    else (if ids[0] in drop then [] else [ids[0]]) + Without(ids[1..], drop)
  }

  lemma {:induction false} WithoutKeeps(ids: seq<AthleteId>, drop: set<AthleteId>, x: AthleteId)
    ensures multiset(Without(ids, drop))[x] == if x in drop then 0 else multiset(ids)[x]
  {
    if ids != [] {
      WithoutKeeps(ids[1..], drop, x);
      assert ids == [ids[0]] + ids[1..];
    }
  }

  lemma {:induction false} DistinctMeansOnce(s: seq<AthleteId>, x: AthleteId)
    requires Distinct(s)
    ensures multiset(s)[x] == if x in s then 1 else 0
  {
    if s != [] {
      var init := s[..|s| - 1];
      DistinctMeansOnce(init, x);
      assert s == init + [s[|s| - 1]];
    }
  }

  /** Filtering splits the list: what is dropped plus what is kept is the whole. */
  lemma WithoutSplits(ids: seq<AthleteId>, dropped: seq<AthleteId>)
    requires Distinct(ids) && Distinct(dropped)
    requires forall a :: a in dropped ==> a in ids
    ensures multiset(Without(ids, Elements(dropped))) + multiset(dropped) == multiset(ids)
    ensures |Without(ids, Elements(dropped))| + |dropped| == |ids|
  {
    var kept := Without(ids, Elements(dropped));
    forall x ensures (multiset(kept) + multiset(dropped))[x] == multiset(ids)[x] {
      WithoutKeeps(ids, Elements(dropped), x);
      DistinctMeansOnce(ids, x);
      DistinctMeansOnce(dropped, x);
    }
    assert multiset(kept) + multiset(dropped) == multiset(ids);
    assert |multiset(kept)| + |multiset(dropped)| == |multiset(ids)|;
  }

  lemma SameMultisetSameMembers(a: seq<AthleteId>, b: seq<AthleteId>)
    requires multiset(a) == multiset(b)
    ensures |a| == |b|
    ensures forall x :: x in a <==> x in b
    ensures Distinct(a) ==> Distinct(b)
  {
    assert |multiset(a)| == |a| && |multiset(b)| == |b|;
    forall x ensures x in a <==> x in b { assert x in a <==> x in multiset(a); }
    SetSizeTellsDistinct(a);
    SetSizeTellsDistinct(b);
    assert Elements(a) == Elements(b);
  }

  /** How many of the chosen pairs lie before pair n. */
  ghost function Rank(chosen: set<nat>, n: nat): nat {
    if n == 0 then 0 else Rank(chosen, n - 1) + (if n - 1 in chosen then 1 else 0)
  }

  lemma {:induction false} RankCounts(chosen: set<nat>, n: nat)
    requires forall p :: p in chosen ==> p < n
    ensures Rank(chosen, n) == |chosen|
  {
    if n == 0 {
      assert chosen == {};
    } else if n - 1 in chosen {
      var rest := chosen - {n - 1};
      RankCounts(rest, n - 1);
      RankCongruent(rest, chosen, n - 1);
    } else {
      RankCounts(chosen, n - 1);
    }
  }

  lemma {:induction false} RankCongruent(a: set<nat>, b: set<nat>, n: nat)
    requires forall p :: p < n ==> (p in a <==> p in b)
    ensures Rank(a, n) == Rank(b, n)
  {
    if n > 0 { RankCongruent(a, b, n - 1); }
  }

  lemma {:induction false} RankMonotone(chosen: set<nat>, m: nat, n: nat)
    requires m <= n
    ensures Rank(chosen, m) <= Rank(chosen, n) <= Rank(chosen, m) + (n - m)
  {
    if m < n { RankMonotone(chosen, m, n - 1); }
  }

  lemma {:induction false} RankFinds(chosen: set<nat>, n: nat, k: nat) returns (p: nat)
    requires k < Rank(chosen, n)
    ensures p < n && p in chosen && Rank(chosen, p) == k
  {
    if n - 1 in chosen && k == Rank(chosen, n - 1) { p := n - 1; } else { p := RankFinds(chosen, n - 1, k); }
  }

  method ChooseByePairPositions(pairCount: nat, byeCount: nat, random: RandomSource)
    returns (r: Result<set<nat>, DrawError>)
    requires byeCount <= pairCount
    modifies random
    ensures r.Success? ==> |r.value| == byeCount && forall p :: p in r.value ==> p < pairCount
    ensures r.Failure? ==> r.error == InvalidRandomIndex && !random.InRange()
  {
    var pairs: seq<nat> := seq(pairCount, i => i);
    var shuffled := FisherYatesShuffle(pairs, random);
    if shuffled.Failure? { return Failure(InvalidRandomIndex); }
    var chosen := shuffled.value[..byeCount];
    SetSizeTellsDistinct(pairs);
    SetSizeTellsDistinct(shuffled.value);
    SetSizeTellsDistinct(chosen);
    forall p ensures p in shuffled.value <==> p in pairs {
      assert p in shuffled.value <==> p in multiset(shuffled.value);
    }
    assert Elements(shuffled.value) == Elements(pairs);
    assert forall p :: p in chosen ==> p in shuffled.value;
    r := Success(Elements(chosen));
  }

  /** Pair p as drawn: two contestants, or the next recipient and an empty place. */
  ghost predicate PairAt(chosen: set<nat>, recipients: seq<AthleteId>, placements: seq<Placement>, p: nat) {
    && 2 * p + 1 < |placements|
    && placements[2 * p].athleteId.Some?
    && (placements[2 * p + 1].athleteId.None? <==> p in chosen)
    && (p in chosen ==>
          Rank(chosen, p) < |recipients| && placements[2 * p].athleteId == Some(recipients[Rank(chosen, p)]))
  }

  ghost predicate PairsPlaced(chosen: set<nat>, recipients: seq<AthleteId>, n: nat, placements: seq<Placement>) {
    && |placements| == 2 * n && PositionsInOrder(placements)
    && forall p: nat :: p < n ==> PairAt(chosen, recipients, placements, p)
  }

  /** The athletes placed so far are the first recipients and the first contestants. */
  ghost predicate Accounted(
    recipients: seq<AthleteId>, byes: nat, contest: seq<AthleteId>, used: nat, placements: seq<Placement>)
  {
    && byes <= |recipients| && used <= |contest|
    && multiset(Athletes(Entries(placements))) == multiset(recipients[..byes]) + multiset(contest[..used])
  }

  lemma PlacePair(
    chosen: set<nat>, recipients: seq<AthleteId>, placements: seq<Placement>, n: nat, first: Placement,
        second: Placement)
    requires PairsPlaced(chosen, recipients, n, placements)
    requires first.drawPosition == 2 * n + 1 && second.drawPosition == 2 * n + 2
    requires first.athleteId.Some? && (second.athleteId.None? <==> n in chosen)
    requires n in chosen ==> Rank(chosen, n) < |recipients| && first.athleteId == Some(recipients[Rank(chosen, n)])
    ensures PairsPlaced(chosen, recipients, n + 1, placements + [first, second])
  {
    var longer := placements + [first, second];
    forall p: nat | p < n + 1 ensures PairAt(chosen, recipients, longer, p) {
      assert p < n ==> PairAt(chosen, recipients, placements, p);
    }
  }

  lemma TakeOneMore(s: seq<AthleteId>, n: nat)
    requires n < |s|
    ensures multiset(s[..n + 1]) == multiset(s[..n]) + multiset{s[n]}
  {
    assert s[..n + 1] == s[..n] + [s[n]];
  }

  lemma AccountForBye(
    recipients: seq<AthleteId>, byes: nat, contest: seq<AthleteId>, used: nat, placements: seq<Placement>,
    first: Placement, second: Placement)
    requires Accounted(recipients, byes, contest, used, placements)
    requires byes < |recipients| && first.athleteId == Some(recipients[byes]) && second.athleteId == None
    ensures Accounted(recipients, byes + 1, contest, used, placements + [first, second])
  {
    AthletesOfPair(placements, first, second);
    TakeOneMore(recipients, byes);
  }

  lemma AccountForContest(
    recipients: seq<AthleteId>, byes: nat, contest: seq<AthleteId>, used: nat, placements: seq<Placement>,
    first: Placement, second: Placement)
    requires Accounted(recipients, byes, contest, used, placements)
    requires used + 1 < |contest|
    requires first.athleteId == Some(contest[used]) && second.athleteId == Some(contest[used + 1])
    ensures Accounted(recipients, byes, contest, used + 2, placements + [first, second])
  {
    AthletesOfPair(placements, first, second);
    TakeOneMore(contest, used);
    TakeOneMore(contest, used + 1);
  }

  /** Pairs in draw order: a bye pair is (recipient, empty), any other takes the next two contestants. */
  method CreateInitialEntrants(
    bracketSize: nat, byePairPositions: set<nat>, byeRecipients: seq<AthleteId>, contestEntrants: seq<AthleteId>)
    returns (placements: seq<Placement>)
    requires bracketSize % 2 == 0
    requires forall p :: p in byePairPositions ==> p < bracketSize / 2
    requires |byeRecipients| == |byePairPositions|
    requires |contestEntrants| == 2 * (bracketSize / 2 - |byePairPositions|)
    ensures PairsPlaced(byePairPositions, byeRecipients, bracketSize / 2, placements)
    ensures multiset(Athletes(Entries(placements))) == multiset(byeRecipients) + multiset(contestEntrants)
  {
    placements := [];
    var byeIndex, contestIndex := 0, 0;
    RankCounts(byePairPositions, bracketSize / 2);
    for pairIndex := 0 to bracketSize / 2
      invariant byeIndex == Rank(byePairPositions, pairIndex) && contestIndex == 2 * (pairIndex - byeIndex)
      invariant PairsPlaced(byePairPositions, byeRecipients, pairIndex, placements)
      invariant Accounted(byeRecipients, byeIndex, contestEntrants, contestIndex, placements)
    {
      RankMonotone(byePairPositions, pairIndex + 1, bracketSize / 2);
      var first, second;
      if pairIndex in byePairPositions {
        first := Placement(pairIndex * 2 + 1, Some(byeRecipients[byeIndex]));
        second := Placement(pairIndex * 2 + 2, None);
        AccountForBye(byeRecipients, byeIndex, contestEntrants, contestIndex, placements, first, second);
        byeIndex := byeIndex + 1;
      } else {
        first := Placement(pairIndex * 2 + 1, Some(contestEntrants[contestIndex]));
        second := Placement(pairIndex * 2 + 2, Some(contestEntrants[contestIndex + 1]));
        AccountForContest(byeRecipients, byeIndex, contestEntrants, contestIndex, placements, first, second);
        contestIndex := contestIndex + 2;
      }
      PlacePair(byePairPositions, byeRecipients, placements, pairIndex, first, second);
      placements := placements + [first, second];
    }
    assert byeRecipients[..byeIndex] == byeRecipients && contestEntrants[..contestIndex] == contestEntrants;
  }

  lemma AthletesOfPair(before: seq<Placement>, first: Placement, second: Placement)
    ensures multiset(Athletes(Entries(before + [first, second]))) ==
            multiset(Athletes(Entries(before))) +
            (if first.athleteId.Some? then multiset{first.athleteId.value} else multiset{}) +
            (if second.athleteId.Some? then multiset{second.athleteId.value} else multiset{})
  {
    var draw := Entries(before + [first, second]);
    var odd := draw[..|draw| - 1];
    assert odd[..|odd| - 1] == Entries(before);
  }

  // ---------------------------------------------------------------- the draw

  /** What the guards in front of the draw let through. */
  ghost predicate ValidInput(athleteIds: seq<AthleteId>, designated: seq<AthleteId>, maxAthletes: Option<int>) {
    && 2 <= |athleteIds| <= MAX_BRACKET_ATHLETES
    && Distinct(athleteIds)
    && (maxAthletes.Some? ==> 2 <= maxAthletes.value && |athleteIds| <= maxAthletes.value)
    && Distinct(designated)
    && (forall a :: a in designated ==> a in athleteIds)
    && |designated| <= SummaryOf(|athleteIds|).byeCount
  }

  /** Athlete a stands opposite an empty place. */
  ghost predicate HasBye(draw: Draw, a: AthleteId) {
    exists p: nat :: p < |draw| / 2 && draw[2 * p] == Some(a) && draw[2 * p + 1] == None
  }

  /** A fair description of any draw: everyone once, byes filling the board, never two in a pair. */
  ghost predicate IsDrawOf(draw: Draw, athleteIds: seq<AthleteId>, designated: seq<AthleteId>) {
    && ValidDraw(draw)
    && multiset(Athletes(draw)) == multiset(athleteIds)
    && (forall a :: a in designated ==> HasBye(draw, a))
  }

  method GenerateSingleEliminationBracket(
    athleteIds: seq<AthleteId>, designated: seq<AthleteId>, maxAthletes: Option<int>, random: RandomSource)
    returns (r: Result<Bracket, DrawError>)
    modifies random
    ensures random.InRange() ==> (r.Success? <==> ValidInput(athleteIds, designated, maxAthletes))
    ensures r.Success? ==>
              && ValidInput(athleteIds, designated, maxAthletes)
              && IsDrawOf(Entries(r.value.initialEntrants), athleteIds, designated)
              && r.value == BracketOf(r.value.initialEntrants)
    ensures r.Failure? ==> !r.error.Graph?
    ensures r == Failure(InvalidRandomIndex) ==> !random.InRange()
  {
    SetSizeTellsDistinct(athleteIds);
    SetSizeTellsDistinct(designated);
    if |athleteIds| < 2 { return Failure(NotEnoughAthletes); }
    if |Elements(athleteIds)| != |athleteIds| { return Failure(DuplicateAthletes); }
    if maxAthletes.Some? && maxAthletes.value < 2 { return Failure(InvalidMaximum); }
    if maxAthletes.Some? && |athleteIds| > maxAthletes.value { return Failure(AboveMaximum); }
    var summary := SummarizeBracket(|athleteIds|);
    if summary.Failure? { return Failure(AboveCapacity); }
    if |Elements(designated)| != |designated| { return Failure(DuplicateByes); }
    if exists a :: a in designated && a !in athleteIds { return Failure(UnknownBye); }
    if |designated| > summary.value.byeCount { return Failure(TooManyByes); }
    var placements := DrawLots(athleteIds, designated, summary.value, random);
    if placements.Failure? { return Failure(InvalidRandomIndex); }
    var built := BuildSingleEliminationBracket(placements.value);
    if built.Failure? { assert false; return Failure(Graph(InvalidPlacements)); }
    r := Success(built.value);
  }

  /** The designated athletes, topped up at random to the number of byes, in random order. */
  method ChooseRecipients(athleteIds: seq<AthleteId>, designated: seq<AthleteId>, byeCount: nat, random: RandomSource)
    returns (r: Result<seq<AthleteId>, DrawError>)
    requires Distinct(athleteIds) && Distinct(designated)
    requires forall a :: a in designated ==> a in athleteIds
    requires |designated| <= byeCount <= |athleteIds|
    modifies random
    ensures r.Failure? ==> r.error == InvalidRandomIndex && !random.InRange()
    ensures r.Success? ==>
              && |r.value| == byeCount && Distinct(r.value)
              && (forall a :: a in r.value ==> a in athleteIds)
              && (forall a :: a in designated ==> a in r.value)
  {
    var remaining := Without(athleteIds, Elements(designated));
    WithoutSplits(athleteIds, designated);
    var shuffledRemaining := FisherYatesShuffle(remaining, random);
    if shuffledRemaining.Failure? { return Failure(InvalidRandomIndex); }
    var additional := shuffledRemaining.value[..byeCount - |designated|];
    r := FisherYatesShuffle(designated + additional, random);
    if r.Success? {
      RecipientsAreAthletes(athleteIds, designated, remaining, shuffledRemaining.value, additional, r.value);
    }
  }

  /** The random part: choose recipients, shuffle them and the rest, choose their pairs. */
  method DrawLots(athleteIds: seq<AthleteId>, designated: seq<AthleteId>, summary: Summary, random: RandomSource)
    returns (r: Result<seq<Placement>, DrawError>)
    requires ValidInput(athleteIds, designated, None) && summary == SummaryOf(|athleteIds|)
    modifies random
    ensures r.Failure? ==> !random.InRange()
    ensures r.Success? ==> Accepted(r.value) && IsDrawOf(Entries(r.value), athleteIds, designated)
  {
    var byeCount, pairCount := summary.byeCount, summary.bracketSize / 2;
    SummaryFits(|athleteIds|);
    var byeRecipients := ChooseRecipients(athleteIds, designated, byeCount, random);
    if byeRecipients.Failure? { return Failure(InvalidRandomIndex); }
    var contest := Without(athleteIds, Elements(byeRecipients.value));
    WithoutSplits(athleteIds, byeRecipients.value);
    var contestEntrants := FisherYatesShuffle(contest, random);
    if contestEntrants.Failure? { return Failure(InvalidRandomIndex); }
    var pairs := ChooseByePairPositions(pairCount, byeCount, random);
    if pairs.Failure? { return Failure(InvalidRandomIndex); }
    var placements := CreateInitialEntrants(summary.bracketSize, pairs.value, byeRecipients.value,
                                            contestEntrants.value);
    LotsMakeADraw(athleteIds, designated, pairs.value, byeRecipients.value, placements);
    r := Success(placements);
  }

  lemma RecipientsAreAthletes(
    athleteIds: seq<AthleteId>, designated: seq<AthleteId>, remaining: seq<AthleteId>,
    shuffled: seq<AthleteId>, additional: seq<AthleteId>, recipients: seq<AthleteId>)
    requires Distinct(athleteIds)
    requires multiset(remaining) + multiset(designated) == multiset(athleteIds)
    requires multiset(shuffled) == multiset(remaining)
    requires additional <= shuffled
    requires multiset(recipients) == multiset(designated + additional)
    ensures Distinct(recipients)
    ensures forall a :: a in recipients ==> a in athleteIds
    ensures forall a :: a in designated ==> a in recipients
  {
    assert shuffled == additional + shuffled[|additional|..];
    var whole := designated + shuffled;
    assert multiset(whole) == multiset(athleteIds);
    SameMultisetSameMembers(athleteIds, whole);
    assert whole == (designated + additional) + shuffled[|additional|..];
    forall i, j | 0 <= i < j < |designated + additional|
      ensures (designated + additional)[i] != (designated + additional)[j]
    {
      assert whole[i] != whole[j];
    }
    SameMultisetSameMembers(designated + additional, recipients);
  }

  lemma LotsMakeADraw(
    athleteIds: seq<AthleteId>, designated: seq<AthleteId>, chosen: set<nat>, recipients: seq<AthleteId>,
    placements: seq<Placement>)
    requires ValidInput(athleteIds, designated, None)
    requires PairsPlaced(chosen, recipients, SummaryOf(|athleteIds|).bracketSize / 2, placements)
    requires |recipients| == |chosen| && forall p :: p in chosen ==> p < SummaryOf(|athleteIds|).bracketSize / 2
    requires multiset(Athletes(Entries(placements))) == multiset(athleteIds)
    requires forall a :: a in designated ==> a in recipients
    ensures Accepted(placements) && IsDrawOf(Entries(placements), athleteIds, designated)
  {
    var draw := Entries(placements);
    var pairs := SummaryOf(|athleteIds|).bracketSize / 2;
    SummaryFits(|athleteIds|);
    SameMultisetSameMembers(athleteIds, Athletes(draw));
    RankCounts(chosen, pairs);
    forall p | 0 <= p < |draw| / 2 ensures draw[2 * p].Some? {
      assert PairAt(chosen, recipients, placements, p);
    }
    forall a | a in designated ensures HasBye(draw, a) {
      var k :| 0 <= k < |recipients| && recipients[k] == a;
      var p := RankFinds(chosen, pairs, k);
      assert PairAt(chosen, recipients, placements, p);
      assert draw[2 * p] == Some(a) && draw[2 * p + 1] == None;
    }
  }
}
