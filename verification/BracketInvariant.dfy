/** What every bracket command keeps, and what retraction undoes. */
module BracketInvariant {
  import opened Prelude
  import opened SportRules
  import opened BracketOutcome

  // ---------------------------------------------------------------- the graph never changes

  lemma SourcesKept(b: Bracket, b': Bracket, g: nat, c: Color)
    requires SameGraph(b, b') && g < |b.fixtures|
    ensures SourceAt(b', g, c) == SourceAt(b, g, c)
  {
    assert SameSources(b.fixtures[g], b'.fixtures[g]);
  }

  lemma GraphKept(b: Bracket, b': Bracket)
    requires GraphOK(b) && SameGraph(b, b')
    ensures GraphOK(b')
  {
    forall g, c | 0 <= g < |b.fixtures| ensures SourceAt(b', g, c) == SourceAt(b, g, c) {
      SourcesKept(b, b', g, c);
    }
    forall g, c, g', c' | 0 <= g < |b.fixtures| && 0 <= g' < |b.fixtures| ensures OneUse(b', g, c, g', c') {
      assert OneUse(b, g, c, g', c');
    }
    forall f: nat | f < |b'.fixtures| - 1 ensures HasConsumer(b', f) {
      assert HasConsumer(b, f);
      var g, c :| 0 <= g < |b.fixtures| && SourceAt(b, g, c) == WinnerOf(f);
      assert SourceAt(b', g, c) == WinnerOf(f);
    }
    forall f | 0 <= f < |b'.fixtures|
      ensures b'.fixtures[f].roundNumber == b'.roundCount <==> f == |b'.fixtures| - 1
    {
      assert SameSources(b.fixtures[f], b'.fixtures[f]);
    }
  }

  // ---------------------------------------------------------------- decide

  function DecidedRow(row: FixtureRow, e: nat, d: DecisionType): FixtureRow {
    row.(winner := Some(e), status := Completed, decision := Some(d))
  }

  ghost predicate Decidable(row: FixtureRow, e: nat) {
    row.winner.None? && row.Resolved() && (Some(e) == row.red.resolved || Some(e) == row.blue.resolved)
  }

  /** No slot fed by an undecided fixture holds anybody. */
  lemma NoConflict(b: Bracket, f: nat, e: nat, d: DecisionType)
    requires BracketOK(b) && f < |b.fixtures| && b.fixtures[f].winner.None?
    ensures !Conflicting(b.fixtures[f := DecidedRow(b.fixtures[f], e, d)], f, e)
  {
    forall g | 0 <= g < |b.fixtures|
      ensures !Differs(b.fixtures[g].red, f, e) && !Differs(b.fixtures[g].blue, f, e)
    {
      assert InOrder(b, g);
    }
  }

  lemma DecidedSource(row: FixtureRow, winners: seq<Option<nat>>, entrants: seq<AthleteId>, f: nat, e: nat,
                      d: DecisionType)
    requires f < |winners| && winners[f].None?
    requires RowOK(row, winners, entrants) && Decidable(row, e) && !Feeds(row, f)
    ensures RowOK(AdvancedRow(DecidedRow(row, e, d), f, e), winners[f := Some(e)], entrants)
  {}

  lemma DecidedOther(row: FixtureRow, winners: seq<Option<nat>>, entrants: seq<AthleteId>, f: nat, e: nat)
    requires f < |winners| && winners[f].None?
    requires RowOK(row, winners, entrants)
    ensures RowOK(AdvancedRow(row, f, e), winners[f := Some(e)], entrants)
  {}

  lemma NotItsOwnSource(b: Bracket, f: nat)
    requires GraphOK(b) && f < |b.fixtures|
    ensures !Feeds(b.fixtures[f], f)
  {
    assert ComesBefore(b, SourceAt(b, f, RED), f) && ComesBefore(b, SourceAt(b, f, BLUE), f);
  }

  lemma DecideShape(b: Bracket, f: nat, e: nat, d: DecisionType)
    requires BracketOK(b) && f < |b.fixtures| && b.fixtures[f].winner.None?
    ensures Decide(b, f, e, d).Success?
    ensures var b' := Decide(b, f, e, d).value;
            && SameGraph(b, b')
            && b'.fixtures == Advanced(b.fixtures[f := DecidedRow(b.fixtures[f], e, d)], f, e)
            && Winners(b'.fixtures) == Winners(b.fixtures)[f := Some(e)]
  {
    NoConflict(b, f, e, d);
  }

  lemma DecideRows(b: Bracket, f: nat, e: nat, d: DecisionType)
    requires BracketOK(b) && f < |b.fixtures| && Decidable(b.fixtures[f], e)
    ensures Decide(b, f, e, d).Success? && RowsOK(Decide(b, f, e, d).value)
  {
    DecideShape(b, f, e, d);
    var after := Decide(b, f, e, d).value;
    forall g | 0 <= g < |b.fixtures| ensures InOrder(after, g) {
      assert InOrder(b, g);
      if g == f {
        NotItsOwnSource(b, f);
        DecidedSource(b.fixtures[f], Winners(b.fixtures), b.entrants, f, e, d);
      } else {
        DecidedOther(b.fixtures[g], Winners(b.fixtures), b.entrants, f, e);
      }
    }
  }

  lemma DecideChampion(b: Bracket, f: nat, e: nat, d: DecisionType)
    requires BracketOK(b) && f < |b.fixtures| && b.fixtures[f].winner.None? && Decide(b, f, e, d).Success?
    ensures ChampionOK(Decide(b, f, e, d).value)
  {
    assert b.fixtures[f].roundNumber == b.roundCount <==> f == |b.fixtures| - 1;
  }

  /** An undecided, fully resolved fixture can always be decided for either participant. */
  lemma DecideKeepsInvariant(b: Bracket, f: nat, e: nat, d: DecisionType)
    requires BracketOK(b) && f < |b.fixtures| && Decidable(b.fixtures[f], e)
    ensures Decide(b, f, e, d).Success?
    ensures BracketOK(Decide(b, f, e, d).value) && SameGraph(b, Decide(b, f, e, d).value)
    ensures Winners(Decide(b, f, e, d).value.fixtures) == Winners(b.fixtures)[f := Some(e)]
  {
    DecideShape(b, f, e, d);
    DecideRows(b, f, e, d);
    DecideChampion(b, f, e, d);
    GraphKept(b, Decide(b, f, e, d).value);
  }

  // ---------------------------------------------------------------- retract

  function ClearedRow(row: FixtureRow): FixtureRow {
    row.(winner := None, decision := None, status := MatchPrepared)
  }

  lemma ClearedSource(row: FixtureRow, winners: seq<Option<nat>>, entrants: seq<AthleteId>, f: nat)
    requires f < |winners| && winners[f] == row.winner
    requires RowOK(row, winners, entrants) && row.matchRow.Some? && !Feeds(row, f)
    ensures RowOK(WithdrawnRow(ClearedRow(row), f), winners[f := None], entrants)
  {}

  /** A row next to the retracted fixture stays in order exactly when it has no winner of its own. */
  lemma WithdrawnOther(row: FixtureRow, winners: seq<Option<nat>>, entrants: seq<AthleteId>, f: nat)
    requires f < |winners|
    requires RowOK(row, winners, entrants)
    requires Feeds(row, f) ==> row.matchRow.None?
    ensures RowOK(WithdrawnRow(row, f), winners[f := None], entrants) <==> !(Feeds(row, f) && row.winner.Some?)
  {}

  lemma RetractShape(b: Bracket, f: nat)
    requires BracketOK(b) && f < |b.fixtures| && HasOutcome(b.fixtures[f]) && Retract(b, f).Success?
    ensures var b' := Retract(b, f).value;
            && SameGraph(b, b')
            && b'.fixtures == Withdrawn(b.fixtures[f := ClearedRow(b.fixtures[f])], f)
            && Winners(b'.fixtures) == Winners(b.fixtures)[f := None]
  {}

  lemma RetractRow(b: Bracket, f: nat, g: nat)
    requires BracketOK(b) && f < |b.fixtures| && HasOutcome(b.fixtures[f]) && Retract(b, f).Success?
    requires b.fixtures[f].matchRow.Some? && g < |b.fixtures|
    ensures SameGraph(b, Retract(b, f).value)
    ensures InOrder(Retract(b, f).value, g) <==> !(Feeds(b.fixtures[g], f) && b.fixtures[g].winner.Some?)
  {
    RetractShape(b, f);
    assert InOrder(b, g);
    if g == f {
      NotItsOwnSource(b, f);
      ClearedSource(b.fixtures[f], Winners(b.fixtures), b.entrants, f);
    } else {
      WithdrawnOther(b.fixtures[g], Winners(b.fixtures), b.entrants, f);
    }
  }

  lemma RetractChampion(b: Bracket, f: nat)
    requires BracketOK(b) && f < |b.fixtures| && HasOutcome(b.fixtures[f]) && Retract(b, f).Success?
    ensures ChampionOK(Retract(b, f).value)
  {
    assert b.fixtures[f].roundNumber == b.roundCount <==> f == |b.fixtures| - 1;
  }

  /**
   * The preparation boundary asks for a downstream match, but a downstream fixture may have been won
   * by withdrawal without one: retraction keeps the invariant exactly when that has not happened.
   */
  lemma RetractKeepsInvariantExactly(b: Bracket, f: nat)
    requires BracketOK(b) && f < |b.fixtures| && HasOutcome(b.fixtures[f])
    requires b.fixtures[f].matchRow.Some? && Retract(b, f).Success?
    ensures BracketOK(Retract(b, f).value) <==> !DownstreamDecided(b.fixtures, f)
    ensures SameGraph(b, Retract(b, f).value) && Winners(Retract(b, f).value.fixtures) == Winners(b.fixtures)[f := None]
  {
    var b' := Retract(b, f).value;
    RetractShape(b, f);
    RetractChampion(b, f);
    GraphKept(b, b');
    forall g | 0 <= g < |b.fixtures|
      ensures InOrder(b', g)
              <==> !(Feeds(b.fixtures[g], f) && b.fixtures[g].winner.Some?)
    {
      RetractRow(b, f, g);
    }
    if DownstreamDecided(b.fixtures, f) {
      var g :| 0 <= g < |b.fixtures| && Feeds(b.fixtures[g], f) && b.fixtures[g].winner.Some?;
      assert !InOrder(b', g);
    }
  }

  // ---------------------------------------------------------------- retract undoes decide

  lemma WithdrawUndoesAdvance(row: FixtureRow, winners: seq<Option<nat>>, entrants: seq<AthleteId>, f: nat, e: nat)
    requires f < |winners| && winners[f].None?
    requires RowOK(row, winners, entrants)
    ensures WithdrawnRow(AdvancedRow(row, f, e), f) == row
    ensures Feeds(row, f) ==> AdvancedRow(row, f, e).matchRow.None?
  {}

  /** Deciding a prepared fixture for either participant and retracting restores the whole bracket. */
  lemma RetractUndoesDecide(b: Bracket, f: nat, e: nat, d: DecisionType)
    requires BracketOK(b) && f < |b.fixtures| && b.fixtures[f].status == MatchPrepared
    requires Decidable(b.fixtures[f], e)
    ensures Decide(b, f, e, d).Success? && Retract(Decide(b, f, e, d).value, f) == Success(b)
  {
    DecideShape(b, f, e, d);
    NotItsOwnSource(b, f);
    var b' := Decide(b, f, e, d).value;
    forall g | 0 <= g < |b.fixtures|
      ensures g != f ==> WithdrawnRow(b'.fixtures[g], f) == b.fixtures[g]
      ensures Feeds(b'.fixtures[g], f) ==> b'.fixtures[g].matchRow.None?
    {
      assert InOrder(b, g);
      if g != f { WithdrawUndoesAdvance(b.fixtures[g], Winners(b.fixtures), b.entrants, f, e); }
    }
    assert InOrder(b, f);
    assert !DownstreamPrepared(b'.fixtures, f);
    assert ClearedRow(b'.fixtures[f]) == b.fixtures[f];
    assert Withdrawn(b'.fixtures[f := ClearedRow(b'.fixtures[f])], f) == b.fixtures;
    assert b.fixtures[f].roundNumber == b.roundCount <==> f == |b.fixtures| - 1;
  }

  /** The same for a tie, which has advanced nobody. */
  lemma RetractUndoesTie(b: Bracket, f: nat)
    requires BracketOK(b) && f < |b.fixtures| && b.fixtures[f].status == MatchPrepared
    ensures var tied := b.(fixtures := b.fixtures[f := b.fixtures[f].(status := AwaitingWinner,
                                                                      decision := Some(RulesTie))]);
            Retract(tied, f) == Success(b)
  {
    var tied := b.(fixtures := b.fixtures[f := b.fixtures[f].(status := AwaitingWinner, decision := Some(RulesTie))]);
    NotItsOwnSource(b, f);
    forall g | 0 <= g < |b.fixtures|
      ensures WithdrawnRow(b.fixtures[g], f) == b.fixtures[g]
      ensures Feeds(tied.fixtures[g], f) ==> tied.fixtures[g].matchRow.None?
    {
      assert InOrder(b, g);
      assert InOrder(b, f);
    }
    assert ClearedRow(tied.fixtures[f]) == b.fixtures[f];
    assert Withdrawn(tied.fixtures[f := ClearedRow(tied.fixtures[f])], f) == b.fixtures;
    assert b.fixtures[f].roundNumber == b.roundCount <==> f == |b.fixtures| - 1;
  }
}
