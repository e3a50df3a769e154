/** Runs of the live bracket: the invariant over every command, and two participants who never coincide. */
module BracketRuns {
  import opened Prelude
  import opened SportRules
  import opened BracketOutcome
  import opened BracketInvariant

  // ---------------------------------------------------------------- nobody meets themselves

  predicate Holds(b: Bracket, f: nat, c: Color, e: nat) {
    f < |b.fixtures| && b.fixtures[f].Slot(c).resolved == Some(e)
  }

  /** Whoever a slot holds either enters there or won the fixture that feeds it. */
  lemma HolderCameFrom(b: Bracket, f: nat, c: Color, e: nat)
    requires BracketOK(b) && Holds(b, f, c, e)
    ensures match SourceAt(b, f, c)
            case Direct(d) => d == e
            case WinnerOf(g) =>
              && g < f && b.fixtures[g].winner == Some(e)
              && (Holds(b, g, RED, e) || Holds(b, g, BLUE, e))
  {
    assert ComesBefore(b, SourceAt(b, f, c), f);
    assert InOrder(b, f);
    match SourceAt(b, f, c)
    case Direct(_) =>
    case WinnerOf(g) => assert InOrder(b, g);
  }

  function HoldingSide(b: Bracket, g: nat, e: nat): Color {
    if Holds(b, g, RED, e) then RED else BLUE
  }

  lemma {:induction false} EntersFirst(b: Bracket, f: nat, c: Color, g: nat, c': Color, e: nat)
    requires BracketOK(b) && Holds(b, f, c, e) && Holds(b, g, c', e)
    requires SourceAt(b, g, c') == Direct(e)
    ensures (f == g && c == c') || f > g
    decreases f
  {
    HolderCameFrom(b, f, c, e);
    match SourceAt(b, f, c)
    case Direct(_) => assert OneUse(b, f, c, g, c');
    case WinnerOf(h) => EntersFirst(b, h, HoldingSide(b, h, e), g, c', e);
  }

  /** An entrant seen in two slots has won the lower fixture, whose winner goes no higher than the upper one. */
  lemma {:induction false} SeenTwice(b: Bracket, f: nat, c: Color, g: nat, c': Color, e: nat)
    requires BracketOK(b) && Holds(b, f, c, e) && Holds(b, g, c', e)
    requires f <= g && (f != g || c != c')
    ensures f < g && b.fixtures[f].winner == Some(e)
    ensures forall h, d :: 0 <= h < |b.fixtures| && SourceAt(b, h, d) == WinnerOf(f) ==> h <= g
    decreases g
  {
    HolderCameFrom(b, f, c, e);
    HolderCameFrom(b, g, c', e);
    if SourceAt(b, g, c').Direct? {
      EntersFirst(b, f, c, g, c', e);
    } else if SourceAt(b, f, c).Direct? {
      EntersFirst(b, SourceAt(b, g, c').fixture, HoldingSide(b, SourceAt(b, g, c').fixture, e), f, c, e);
      SeenTwiceAbove(b, f, c, g, c', e);
    } else {
      SeenTwiceAbove(b, f, c, g, c', e);
    }
  }

  lemma {:induction false} SeenTwiceAbove(b: Bracket, f: nat, c: Color, g: nat, c': Color, e: nat)
    requires BracketOK(b) && Holds(b, f, c, e) && Holds(b, g, c', e)
    requires f <= g && (f != g || c != c')
    requires SourceAt(b, g, c').WinnerOf?
    requires SourceAt(b, f, c).Direct? ==> f <= SourceAt(b, g, c').fixture
    ensures f < g && b.fixtures[f].winner == Some(e)
    ensures forall h, d :: 0 <= h < |b.fixtures| && SourceAt(b, h, d) == WinnerOf(f) ==> h <= g
    decreases g, 0
  {
    HolderCameFrom(b, f, c, e);
    HolderCameFrom(b, g, c', e);
    var k := SourceAt(b, g, c').fixture;
    var side := HoldingSide(b, k, e);
    if f == g {
      // Two distinct fixtures below cannot both have sent e up to this one.
      var j := SourceAt(b, f, c).fixture;
      assert OneUse(b, f, c, g, c');
      if j < k {
        SeenTwice(b, j, HoldingSide(b, j, e), k, side, e);
      } else {
        SeenTwice(b, k, side, j, HoldingSide(b, j, e), e);
      }
    } else if f < k || (f == k && c != side) {
      SeenTwice(b, f, c, k, side, e);
    } else if f == k {
      forall h, d | 0 <= h < |b.fixtures| && SourceAt(b, h, d) == WinnerOf(f) ensures h == g {
        assert OneUse(b, h, d, g, c');
      }
    } else {
      SeenTwice(b, k, side, f, c, e);
    }
  }

  /** The two participants of a fixture are always two people. */
  lemma ParticipantsDiffer(b: Bracket, f: nat)
    requires BracketOK(b) && f < |b.fixtures| && b.fixtures[f].Resolved()
    ensures b.fixtures[f].red.resolved != b.fixtures[f].blue.resolved
    ensures b.fixtures[f].red.resolved.value < |b.entrants| && b.fixtures[f].blue.resolved.value < |b.entrants|
    ensures b.entrants[b.fixtures[f].red.resolved.value] != b.entrants[b.fixtures[f].blue.resolved.value]
  {
    var r, e := b.fixtures[f].red.resolved.value, b.fixtures[f].blue.resolved.value;
    if r == e { SeenTwice(b, f, RED, f, BLUE, e); }
    HolderIsEntrant(b, f, RED, r);
    HolderIsEntrant(b, f, BLUE, e);
  }

  lemma {:induction false} HolderIsEntrant(b: Bracket, f: nat, c: Color, e: nat)
    requires BracketOK(b) && Holds(b, f, c, e)
    ensures e < |b.entrants|
    decreases f
  {
    HolderCameFrom(b, f, c, e);
    match SourceAt(b, f, c)
    case Direct(_) => assert ComesBefore(b, SourceAt(b, f, c), f);
    case WinnerOf(g) => HolderIsEntrant(b, g, HoldingSide(b, g, e), e);
  }

  // ---------------------------------------------------------------- single rows

  /** Changing only the operational columns of one row changes no slot, winner or source. */
  lemma ReplaceRow(b: Bracket, f: nat, row: FixtureRow)
    requires BracketOK(b) && f < |b.fixtures|
    requires row.red == b.fixtures[f].red && row.blue == b.fixtures[f].blue && row.winner == b.fixtures[f].winner
    requires row.roundNumber == b.fixtures[f].roundNumber && row.position == b.fixtures[f].position
    requires StatusOK(row) && MatchOK(row, b.entrants)
    ensures BracketOK(b.(fixtures := b.fixtures[f := row])) && SameGraph(b, b.(fixtures := b.fixtures[f := row]))
  {
    var b' := b.(fixtures := b.fixtures[f := row]);
    assert SameGraph(b, b');
    GraphKept(b, b');
    assert Winners(b'.fixtures) == Winners(b.fixtures);
    forall g | 0 <= g < |b.fixtures| ensures InOrder(b', g) {
      assert InOrder(b, g);
    }
  }

  // ---------------------------------------------------------------- the four commands

  /** A READY fixture of an active bracket is always prepared, with the athletes its slots hold. */
  lemma PrepareKeepsInvariant(b: Bracket, f: nat)
    requires BracketOK(b)
    ensures Prepare(b, f).Success? <==> f < |b.fixtures| && b.status == Active && b.fixtures[f].status == Ready
    ensures Prepare(b, f).Success? ==> BracketOK(Prepare(b, f).value) && SameGraph(b, Prepare(b, f).value)
  {
    if f < |b.fixtures| {
      var row := b.fixtures[f];
      assert InOrder(b, f);
      if row.status == Ready { ParticipantsDiffer(b, f); }
      if Prepare(b, f).Success? { ReplaceRow(b, f, Prepare(b, f).value.fixtures[f]); }
    }
  }

  lemma SetFinishedKeepsInvariant(b: Bracket, f: nat, finished: bool)
    requires BracketOK(b) && f < |b.fixtures| && b.fixtures[f].matchRow.Some?
    requires finished || b.fixtures[f].status != AwaitingWinner
    ensures BracketOK(SetFinished(b, f, finished)) && SameGraph(b, SetFinished(b, f, finished))
  {
    assert InOrder(b, f);
    ReplaceRow(b, f, SetFinished(b, f, finished).fixtures[f]);
  }

  /** The athlete wearing colour c in the match is the entrant in the slot of colour c. */
  lemma ColourNamesSlot(b: Bracket, f: nat, c: Color)
    requires BracketOK(b) && f < |b.fixtures| && b.fixtures[f].matchRow.Some?
    ensures ParticipantNamed(b, b.fixtures[f], AthleteIn(b.fixtures[f].matchRow.value, c))
            == b.fixtures[f].Slot(c).resolved
    ensures b.fixtures[f].Resolved()
  {
    assert InOrder(b, f);
    ParticipantsDiffer(b, f);
  }

  /** Processing a finished match never fails: a decided bout goes to that colour's slot, a draw waits. */
  lemma ProcessKeepsInvariant(b: Bracket, f: nat, events: seq<ScoreEvent>, published: Option<Color>)
    requires BracketOK(b) && f < |b.fixtures| && b.fixtures[f].matchRow.Some?
    ensures ProcessFinished(b, f, events, published).Success?
    ensures var b' := ProcessFinished(b, f, events, published).value;
            && BracketOK(b') && SameGraph(b, b')
            && (b.fixtures[f].matchRow.value.finished && !HasOutcome(b.fixtures[f]) ==>
                  match OutcomeColor(events, published)
                  case None => b'.fixtures[f].status == AwaitingWinner
                  case Some(c) => b'.fixtures[f].winner == b.fixtures[f].Slot(c).resolved)
  {
    var row := b.fixtures[f];
    assert InOrder(b, f);
    if row.matchRow.value.finished && !HasOutcome(row) {
      match OutcomeColor(events, published)
      case None => ReplaceRow(b, f, row.(status := AwaitingWinner, decision := Some(RulesTie)));
      case Some(c) =>
        ColourNamesSlot(b, f, c);
        DecideKeepsInvariant(b, f, row.Slot(c).resolved.value, Rules);
        assert Winners(Decide(b, f, row.Slot(c).resolved.value, Rules).value.fixtures)[f] == row.Slot(c).resolved;
    }
  }

  lemma FinishKeepsInvariant(b: Bracket, f: nat, events: seq<ScoreEvent>, published: Option<Color>)
    requires BracketOK(b)
    ensures Finish(b, f, events, published).Success? <==> f < |b.fixtures| && b.fixtures[f].matchRow.Some?
    ensures Finish(b, f, events, published).Success? ==>
              BracketOK(Finish(b, f, events, published).value) && SameGraph(b, Finish(b, f, events, published).value)
  {
    if f < |b.fixtures| && b.fixtures[f].matchRow.Some? {
      SetFinishedKeepsInvariant(b, f, true);
      ProcessKeepsInvariant(SetFinished(b, f, true), f, events, published);
      SameGraphTrans(b, SetFinished(b, f, true), Finish(b, f, events, published).value);
    }
  }

  lemma SameGraphTrans(a: Bracket, b: Bracket, c: Bracket)
    requires SameGraph(a, b) && SameGraph(b, c)
    ensures SameGraph(a, c)
  {
    forall g | 0 <= g < |a.fixtures| ensures SameSources(a.fixtures[g], c.fixtures[g]) {
      assert SameSources(a.fixtures[g], b.fixtures[g]) && SameSources(b.fixtures[g], c.fixtures[g]);
    }
  }

  lemma ReopenKeepsInvariant(b: Bracket, f: nat)
    requires BracketOK(b) && Reopen(b, f).Success? && !DownstreamDecided(b.fixtures, f)
    ensures BracketOK(Reopen(b, f).value) && SameGraph(b, Reopen(b, f).value)
    ensures Reopen(b, f).value.fixtures[f].status == MatchPrepared
  {
    var row := b.fixtures[f];
    assert InOrder(b, f);
    var after := Retract(b, f).value;
    if HasOutcome(row) {
      NotItsOwnSource(b, f);
      RetractShape(b, f);
      RetractKeepsInvariantExactly(b, f);
    }
    SetFinishedKeepsInvariant(after, f, false);
    SameGraphTrans(b, after, Reopen(b, f).value);
  }

  lemma ManualKeepsInvariant(b: Bracket, f: nat, e: nat, d: DecisionType)
    requires BracketOK(b)
    ensures DecideManually(b, f, e, d).Success? ==>
              BracketOK(DecideManually(b, f, e, d).value) && SameGraph(b, DecideManually(b, f, e, d).value)
    ensures DecideManually(b, f, e, d) != Failure(ParticipantsUnresolved)
    ensures DecideManually(b, f, e, d) != Failure(DecisionConflict)
  {
    if f < |b.fixtures| {
      var row := b.fixtures[f];
      assert InOrder(b, f);
      if row.Resolved() { ParticipantsDiffer(b, f); }
      if row.winner.None? && row.Resolved() && (Some(e) == row.red.resolved || Some(e) == row.blue.resolved) {
        DecideKeepsInvariant(b, f, e, d);
      }
    }
  }

  // ---------------------------------------------------------------- replaying a finished match

  lemma FinishNames(b: Bracket, f: nat, events: seq<ScoreEvent>, published: Option<Color>)
    requires BracketOK(b) && f < |b.fixtures| && b.fixtures[f].status == MatchPrepared
    ensures Finish(b, f, events, published).Success?
    ensures var row := Finish(b, f, events, published).value.fixtures[f];
            match OutcomeColor(events, published)
            case None => row.status == AwaitingWinner && row.winner.None?
            case Some(c) => row.winner == b.fixtures[f].Slot(c).resolved && row.winner.Some?
  {
    assert InOrder(b, f);
    SetFinishedKeepsInvariant(b, f, true);
    ProcessKeepsInvariant(SetFinished(b, f, true), f, events, published);
    assert InOrder(Finish(b, f, events, published).value, f);
  }

  /**
   * Undoing the reset of a finished match settles its fixture again from the score events alone. That gives the
   * fixture back the winner that was published exactly when the events name the same colour.
   */
  lemma ReplayAgreesExactly(b: Bracket, f: nat, events: seq<ScoreEvent>, c: Color)
    requires BracketOK(b) && f < |b.fixtures| && b.fixtures[f].status == MatchPrepared
    ensures Finish(b, f, events, None) == Finish(b, f, events, Some(c))
            <==> DetermineWinner(Total(events, RED), Total(events, BLUE)) == Some(c)
  {
    FinishNames(b, f, events, None);
    FinishNames(b, f, events, Some(c));
    assert InOrder(b, f);
    ParticipantsDiffer(b, f);
  }

  // ---------------------------------------------------------------- every run

  /** A reopened match must not feed a fixture that was won by withdrawal. */
  predicate Permitted(b: Bracket, command: Command) {
    command.ReopenMatch? ==> !DownstreamDecided(b.fixtures, command.fixture)
  }

  ghost predicate PermittedRun(b: Bracket, commands: seq<Command>)
    decreases |commands|
  {
    commands != [] ==> Permitted(b, commands[0]) && PermittedRun(Step(b, commands[0]), commands[1..])
  }

  function Run(b: Bracket, commands: seq<Command>): Bracket
    decreases |commands|
  {
    if commands == [] then b else Run(Step(b, commands[0]), commands[1..])
  }

  lemma StepKeepsInvariant(b: Bracket, command: Command)
    requires BracketOK(b) && Permitted(b, command)
    ensures BracketOK(Step(b, command)) && SameGraph(b, Step(b, command))
  {
    match command
    case PrepareMatch(f) => PrepareKeepsInvariant(b, f);
    case FinishMatch(f, events, published) => FinishKeepsInvariant(b, f, events, published);
    case ReopenMatch(f) => if Reopen(b, f).Success? { ReopenKeepsInvariant(b, f); }
    case ManualDecision(f, e, d) => ManualKeepsInvariant(b, f, e, d);
  }

  lemma {:induction false} RunKeepsInvariant(b: Bracket, commands: seq<Command>)
    requires BracketOK(b) && PermittedRun(b, commands)
    ensures BracketOK(Run(b, commands)) && SameGraph(b, Run(b, commands))
    decreases |commands|
  {
    if commands != [] {
      StepKeepsInvariant(b, commands[0]);
      RunKeepsInvariant(Step(b, commands[0]), commands[1..]);
      SameGraphTrans(b, Step(b, commands[0]), Run(b, commands));
    }
  }

  // ---------------------------------------------------------------- why the hypothesis is needed

  function ThreeEntrants(): Bracket {
    var opening := FixtureRow(1, 2, SlotRow(Direct(1), Some(1)), SlotRow(Direct(2), Some(2)), Ready, None, None, None);
    var final := FixtureRow(2, 1, SlotRow(Direct(0), Some(0)), SlotRow(WinnerOf(0), None), PendingParticipants, None,
                            None, None);
    Bracket(2, ["a", "b", "c"], [opening, final], Active, None)
  }

  /** RED wins the opening bout, the final is given to the bye by withdrawal, and the opening match is then reset. */
  function WithdrawThenReset(): seq<Command> {
    [PrepareMatch(0), FinishMatch(0, [], Some(RED)), ManualDecision(1, 0, WithdrawalOrInjury), ReopenMatch(0)]
  }

  lemma ThreeEntrantsFit()
    ensures BracketOK(ThreeEntrants())
  {
    var b := ThreeEntrants();
    assert SourceAt(b, 1, BLUE) == WinnerOf(0);
    assert HasConsumer(b, 0);
    assert forall g, c, g', c' :: 0 <= g < 2 && 0 <= g' < 2 ==> OneUse(b, g, c, g', c');
    assert forall f :: 0 <= f < 2 ==> InOrder(b, f);
  }

  lemma RunOfFour(b: Bracket, commands: seq<Command>)
    requires |commands| == 4
    ensures Run(b, commands) == Step(Step(Step(Step(b, commands[0]), commands[1]), commands[2]), commands[3])
  {
    var b1 := Step(b, commands[0]);
    var b2 := Step(b1, commands[1]);
    var b3 := Step(b2, commands[2]);
    var two, three := commands[1..][1..], commands[1..][1..][1..];
    assert Run(b, commands) == Run(b1, commands[1..]) == Run(b2, two) == Run(b3, three)
           == Run(Step(b3, commands[3]), three[1..]);
  }

  /** The bracket just before the reset: both fixtures are decided, the final without a match. */
  function WithdrawnFinal(): Bracket {
    var opening := FixtureRow(1, 2, SlotRow(Direct(1), Some(1)), SlotRow(Direct(2), Some(2)),
                              Completed, Some(1), Some(Rules), Some(MatchRow("b", "c", true)));
    var final := FixtureRow(2, 1, SlotRow(Direct(0), Some(0)), SlotRow(WinnerOf(0), Some(1)),
                            Completed, Some(0), Some(WithdrawalOrInjury), None);
    Bracket(2, ["a", "b", "c"], [opening, final], Finished, Some(0))
  }

  lemma ReachesWithdrawnFinal()
    ensures var cs := WithdrawThenReset();
            Step(Step(Step(ThreeEntrants(), cs[0]), cs[1]), cs[2]) == WithdrawnFinal()
  {
    var b0 := ThreeEntrants();
    var cs := WithdrawThenReset();
    var b1 := Step(b0, cs[0]);
    assert b1 == Prepare(b0, 0).value;
    var b2 := Step(b1, cs[1]);
    assert b2 == Decide(SetFinished(b1, 0, true), 0, 1, Rules).value;
    var b3 := Step(b2, cs[2]);
    assert b3 == Decide(b2, 1, 0, WithdrawalOrInjury).value;
    assert b3.fixtures[0] == WithdrawnFinal().fixtures[0] && b3.fixtures[1] == WithdrawnFinal().fixtures[1];
    assert b3.fixtures == WithdrawnFinal().fixtures;
  }

  lemma ResetEmptiesDecidedFinal()
    ensures var after := Step(WithdrawnFinal(), ReopenMatch(0));
            after.champion == Some(0) && |after.fixtures| == 2 && !after.fixtures[1].Resolved() && !BracketOK(after)
  {
    var b := WithdrawnFinal();
    assert !DownstreamPrepared(b.fixtures, 0);
    assert Reopen(b, 0).Success?;
    var after := Reopen(b, 0).value;
    assert after.fixtures[1].winner == Some(0) && after.fixtures[1].blue.resolved.None?;
    assert !InOrder(after, 1);
  }

  /** Every command is accepted, yet the final ends with a winner and an empty slot. */
  lemma ResetBelowWithdrawalBreaks()
    ensures BracketOK(ThreeEntrants())
    ensures var after := Run(ThreeEntrants(), WithdrawThenReset());
            after.champion == Some(0) && |after.fixtures| == 2 && !after.fixtures[1].Resolved() && !BracketOK(after)
  {
    ThreeEntrantsFit();
    ReachesWithdrawnFinal();
    RunOfFour(ThreeEntrants(), WithdrawThenReset());
    ResetEmptiesDecidedFinal();
  }
}
