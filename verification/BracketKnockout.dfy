/** The event-driven bracket refines a recursive knockout. */
module BracketKnockout {
  import opened Prelude
  import opened SportRules
  import opened BracketOutcome
  import opened BracketInvariant
  import opened BracketRuns

  /** picks[f] says that RED wins fixture f. */
  type Picks = seq<bool>

  function PickedSide(picks: Picks, f: nat): Color
    requires f < |picks|
  {
    if picks[f] then RED else BLUE
  }

  /** Who comes out of fixture f: follow the winning side down to the entrant it started from. */
  ghost function Champion(b: Bracket, picks: Picks, f: nat): nat
    requires SourcesFirst(b) && |picks| == |b.fixtures| && f < |b.fixtures|
    decreases f
  {
    assert ComesBefore(b, SourceAt(b, f, PickedSide(picks, f)), f);
    match SourceAt(b, f, PickedSide(picks, f))
    case Direct(e) => e
    case WinnerOf(g) => Champion(b, picks, g)
  }

  lemma {:induction false} ChampionReadsTheGraph(b: Bracket, b': Bracket, picks: Picks, f: nat)
    requires SourcesFirst(b) && SourcesFirst(b') && SameGraph(b, b') && |picks| == |b.fixtures| && f < |b.fixtures|
    ensures Champion(b', picks, f) == Champion(b, picks, f)
    decreases f
  {
    SourcesKept(b, b', f, PickedSide(picks, f));
    assert ComesBefore(b, SourceAt(b, f, PickedSide(picks, f)), f);
    match SourceAt(b, f, PickedSide(picks, f))
    case Direct(_) =>
    case WinnerOf(g) => ChampionReadsTheGraph(b, b', picks, g);
  }

  /** Every bout decided so far went to the picked side. */
  ghost predicate Agrees(b: Bracket, picks: Picks) {
    |picks| == |b.fixtures| &&
    forall f :: 0 <= f < |b.fixtures| ==> AgreesAt(b.fixtures[f], picks[f])
  }

  predicate AgreesAt(row: FixtureRow, red: bool) {
    row.winner.Some? ==> row.winner == row.Slot(if red then RED else BLUE).resolved
  }

  lemma {:induction false} DecidedIsChampion(b: Bracket, picks: Picks, f: nat)
    requires BracketOK(b) && Agrees(b, picks) && f < |b.fixtures| && b.fixtures[f].winner.Some?
    ensures b.fixtures[f].winner == Some(Champion(b, picks, f))
    decreases f
  {
    var side := PickedSide(picks, f);
    assert AgreesAt(b.fixtures[f], picks[f]);
    assert ComesBefore(b, SourceAt(b, f, side), f);
    assert InOrder(b, f);
    match SourceAt(b, f, side)
    case Direct(_) =>
    case WinnerOf(g) => DecidedIsChampion(b, picks, g);
  }

  lemma WinnersAreChampions(b: Bracket, after: Bracket, picks: Picks, f: nat)
    requires SourcesFirst(b) && BracketOK(after) && SameGraph(b, after) && Agrees(after, picks)
    requires f < |b.fixtures| && after.fixtures[f].winner.Some?
    ensures |picks| == |b.fixtures| && after.fixtures[f].winner == Some(Champion(b, picks, f))
  {
    DecidedIsChampion(after, picks, f);
    ChampionReadsTheGraph(b, after, picks, f);
  }

  lemma ActualPicksAgree(b: Bracket)
    requires BracketOK(b)
    ensures Agrees(b, ActualPicks(b))
  {
    forall f | 0 <= f < |b.fixtures| ensures AgreesAt(b.fixtures[f], ActualPicks(b)[f]) {
      assert InOrder(b, f);
    }
  }

  lemma FinishedHasWinner(b: Bracket)
    requires |b.fixtures| >= 1 && ChampionOK(b) && b.status == Finished
    ensures b.fixtures[|b.fixtures| - 1].winner.Some? && b.champion == b.fixtures[|b.fixtures| - 1].winner
  {}

  lemma FinishedIsKnockout(b: Bracket, after: Bracket, picks: Picks)
    requires SourcesFirst(b) && BracketOK(after) && SameGraph(b, after) && Agrees(after, picks)
    requires after.status == Finished
    ensures |picks| == |b.fixtures| >= 1 && after.champion == Some(Champion(b, picks, |b.fixtures| - 1))
  {
    FinishedHasWinner(after);
    WinnersAreChampions(b, after, picks, |b.fixtures| - 1);
  }

  /**
   * Whatever commands led here: the champion of a finished bracket is the knockout of the bouts as they were decided.
   */
  lemma FinishedBracketIsKnockout(b: Bracket, commands: seq<Command>)
    requires BracketOK(b) && PermittedRun(b, commands)
    ensures SourcesFirst(b) && |Run(b, commands).fixtures| == |b.fixtures|
    ensures Run(b, commands).status == Finished ==>
              Run(b, commands).champion == Some(Champion(b, ActualPicks(Run(b, commands)), |b.fixtures| - 1))
  {
    RunKeepsInvariant(b, commands);
    if Run(b, commands).status == Finished {
      ActualPicksAgree(Run(b, commands));
      FinishedIsKnockout(b, Run(b, commands), ActualPicks(Run(b, commands)));
    }
  }

  ghost function ActualPicks(b: Bracket): (picks: Picks)
    ensures |picks| == |b.fixtures|
  {
    seq(|b.fixtures|, f requires 0 <= f < |b.fixtures| => b.fixtures[f].winner == b.fixtures[f].red.resolved)
  }

  // ---------------------------------------------------------------- runs of decide, in any legal order

  datatype Ruling = Ruling(fixture: nat, decision: DecisionType)

  predicate Open(b: Bracket, f: nat) {
    f < |b.fixtures| && b.fixtures[f].Resolved() && b.fixtures[f].winner.None?
  }

  function Rule(b: Bracket, picks: Picks, ruling: Ruling): Bracket {
    if Open(b, ruling.fixture) && |picks| == |b.fixtures| then
      var slot := b.fixtures[ruling.fixture].Slot(PickedSide(picks, ruling.fixture));
      match Decide(b, ruling.fixture, slot.resolved.value, ruling.decision)
      case Success(after) => after
      case Failure(_) => b
    else b
  }

  function RuleAll(b: Bracket, picks: Picks, order: seq<Ruling>): Bracket
    decreases |order|
  {
    if order == [] then b else RuleAll(Rule(b, picks, order[0]), picks, order[1..])
  }

  ghost predicate LegalOrder(b: Bracket, picks: Picks, order: seq<Ruling>)
    decreases |order|
  {
    order != [] ==> Open(b, order[0].fixture) && LegalOrder(Rule(b, picks, order[0]), picks, order[1..])
  }

  ghost predicate NothingOpen(b: Bracket) {
    forall f: nat :: !Open(b, f)
  }

  function Undecided(winners: seq<Option<nat>>): nat {
    if winners == [] then 0 else Undecided(winners[1..]) + (if winners[0].None? then 1 else 0)
  }

  lemma {:induction false} DecidingOne(winners: seq<Option<nat>>, f: nat, e: nat)
    requires f < |winners| && winners[f].None?
    ensures Undecided(winners[f := Some(e)]) == Undecided(winners) - 1
  {
    if f > 0 {
      DecidingOne(winners[1..], f - 1, e);
      assert winners[f := Some(e)][1..] == winners[1..][f - 1 := Some(e)];
    } else {
      assert winners[f := Some(e)][1..] == winners[1..];
    }
  }

  lemma {:induction false} CountUndecided(winners: seq<Option<nat>>)
    ensures (forall f :: 0 <= f < |winners| ==> winners[f].None?) ==> Undecided(winners) == |winners|
    ensures (forall f :: 0 <= f < |winners| ==> winners[f].Some?) ==> Undecided(winners) == 0
  {
    if winners != [] {
      assert forall f :: 0 <= f < |winners[1..]| ==> winners[1..][f] == winners[f + 1];
      CountUndecided(winners[1..]);
    }
  }

  lemma RuleKeeps(b: Bracket, picks: Picks, ruling: Ruling)
    requires BracketOK(b) && Agrees(b, picks) && Open(b, ruling.fixture)
    ensures var after := Rule(b, picks, ruling);
            BracketOK(after) && Agrees(after, picks) && SameGraph(b, after) &&
            Undecided(Winners(after.fixtures)) == Undecided(Winners(b.fixtures)) - 1
  {
    var f := ruling.fixture;
    var e := b.fixtures[f].Slot(PickedSide(picks, f)).resolved.value;
    DecideKeepsInvariant(b, f, e, ruling.decision);
    DecideShape(b, f, e, ruling.decision);
    DecidingOne(Winners(b.fixtures), f, e);
    var after := Rule(b, picks, ruling);
    forall g | 0 <= g < |b.fixtures| ensures AgreesAt(after.fixtures[g], picks[g]) {
      assert InOrder(b, g);
      assert AgreesAt(b.fixtures[g], picks[g]);
      NotItsOwnSource(b, f);
    }
  }

  lemma {:induction false} RunOfRulings(b: Bracket, picks: Picks, order: seq<Ruling>)
    requires BracketOK(b) && Agrees(b, picks) && LegalOrder(b, picks, order)
    ensures var after := RuleAll(b, picks, order);
            BracketOK(after) && Agrees(after, picks) && SameGraph(b, after) &&
            Undecided(Winners(after.fixtures)) == Undecided(Winners(b.fixtures)) - |order|
    decreases |order|
  {
    if order != [] {
      RuleKeeps(b, picks, order[0]);
      var next := Rule(b, picks, order[0]);
      RunOfRulings(next, picks, order[1..]);
      SameGraphTrans(b, next, RuleAll(b, picks, order));
    }
  }

  /** While a fixture is undecided, some fixture can be decided. */
  lemma {:induction false} SomethingIsOpen(b: Bracket, f: nat) returns (g: nat)
    requires BracketOK(b) && f < |b.fixtures| && b.fixtures[f].winner.None?
    ensures Open(b, g)
    decreases f
  {
    g := f;
    if !Open(b, f) {
      assert InOrder(b, f);
      var c := if b.fixtures[f].red.resolved.None? then RED else BLUE;
      assert ComesBefore(b, SourceAt(b, f, c), f);
      g := SomethingIsOpen(b, SourceAt(b, f, c).fixture);
    }
  }

  lemma NothingOpenIsComplete(b: Bracket)
    requires BracketOK(b) && NothingOpen(b)
    ensures forall f :: 0 <= f < |b.fixtures| ==> b.fixtures[f].winner.Some? && b.fixtures[f].status == Completed
  {
    forall f | 0 <= f < |b.fixtures| ensures b.fixtures[f].winner.Some? && b.fixtures[f].status == Completed {
      if b.fixtures[f].winner.None? {
        var g := SomethingIsOpen(b, f);
        assert false;
      }
      assert InOrder(b, f);
    }
  }

  ghost predicate DecidedAsPicked(b: Bracket, after: Bracket, picks: Picks)
    requires SourcesFirst(b) && |after.fixtures| == |b.fixtures| == |picks|
  {
    forall f :: 0 <= f < |b.fixtures| ==>
      after.fixtures[f].status == Completed && after.fixtures[f].winner == Some(Champion(b, picks, f))
  }

  lemma CompleteStateIsPicked(b: Bracket, after: Bracket, picks: Picks)
    requires BracketOK(b) && BracketOK(after) && SameGraph(b, after) && Agrees(after, picks) && NothingOpen(after)
    ensures DecidedAsPicked(b, after, picks)
  {
    NothingOpenIsComplete(after);
    forall f | 0 <= f < |b.fixtures| ensures after.fixtures[f].winner == Some(Champion(b, picks, f)) {
      WinnersAreChampions(b, after, picks, f);
    }
  }

  lemma PickedBracketIsFinished(b: Bracket, after: Bracket, picks: Picks)
    requires SourcesFirst(b) && |after.fixtures| == |b.fixtures| == |picks| >= 1 && ChampionOK(after)
    requires DecidedAsPicked(b, after, picks)
    ensures after.status == Finished && after.champion == Some(Champion(b, picks, |b.fixtures| - 1))
  {}

  lemma OneRulingEach(before: seq<Option<nat>>, after: seq<Option<nat>>, rulings: nat)
    requires |before| == |after| && Undecided(after) == Undecided(before) - rulings
    requires forall f :: 0 <= f < |before| ==> before[f].None?
    requires forall f :: 0 <= f < |after| ==> after[f].Some?
    ensures rulings == |before|
  {
    CountUndecided(before);
    CountUndecided(after);
  }

  /**
   * Decide open fixtures in any order until none is open: every fixture is then COMPLETED, after exactly
   * one ruling each, and the champion is the knockout of the picks.
   */
  lemma CompleteRunCrownsTheKnockout(b: Bracket, picks: Picks, order: seq<Ruling>)
    requires BracketOK(b) && |picks| == |b.fixtures|
    requires forall f :: 0 <= f < |b.fixtures| ==> b.fixtures[f].winner.None?
    requires LegalOrder(b, picks, order) && NothingOpen(RuleAll(b, picks, order))
    ensures |order| == |b.fixtures|
    ensures SourcesFirst(b)
    ensures var after := RuleAll(b, picks, order);
            && |after.fixtures| == |b.fixtures| && DecidedAsPicked(b, after, picks)
            && after.status == Finished && after.champion == Some(Champion(b, picks, |b.fixtures| - 1))
  {
    RunOfRulings(b, picks, order);
    NothingOpenIsComplete(RuleAll(b, picks, order));
    CompleteStateIsPicked(b, RuleAll(b, picks, order), picks);
    PickedBracketIsFinished(b, RuleAll(b, picks, order), picks);
    OneRulingEach(Winners(b.fixtures), Winners(RuleAll(b, picks, order).fixtures), |order|);
  }
}
