/** The unique indexes and checks of the database, as every state of every run satisfies them. */
module MatchConstraints {
  import opened Prelude
  import opened SportRules
  import opened MatchTables
  import opened MatchModel
  import opened MatchCommands
  import opened MatchHistory
  import opened MatchColumns
  import opened MatchPhases
  import opened MatchScores
  import opened MatchVoting

  // ---------------------------------------------------------------- the match row

  /**
   * A match that is not suspended has the lifecycle of its phase. A waiting match has not been started and a finished
   * one has a finish time, and neither is ever suspended.
   */
  predicate PhaseColumns(
      lifecycle: Lifecycle, status: Status, currentRound: Option<nat>, startedAt: Option<Time>,
      finishedAt: Option<Time>)
  {
    && (lifecycle == Suspended || lifecycle == LifecycleForPhase(status))
    && (status == Waiting ==> lifecycle != Suspended && startedAt.None? && currentRound.None?)
    && (status == Finished ==> lifecycle != Suspended && finishedAt.Some?)
  }

  predicate RowFits(m: Match) {
    PhaseColumns(m.lifecycle, m.status, m.currentRound, m.startedAt, m.finishedAt)
  }

  predicate OperationLegal(op: Operation) {
    PhaseColumns(op.previousLifecycle, op.previousStatus, op.previousCurrentRound, op.previousStartedAt,
                 op.previousFinishedAt)
  }

  ghost predicate OperationsLegal(m: Match) {
    forall o :: 0 <= o < |m.operations| ==> OperationLegal(m.operations[o])
  }

  /** The two checks on the lifecycle that do not speak of the time of suspension. */
  lemma {:induction false} RowPassesChecks(m: Match)
    requires RowFits(m)
    ensures m.lifecycle == Completed ==> m.status == Finished && m.finishedAt.Some?
    ensures m.lifecycle == NotStarted ==> m.status == Waiting && m.startedAt.None? && m.currentRound.None?
  {
    assert LifecycleForPhase(m.status) == NotStarted <==> m.status == Waiting;
  }

  lemma {:induction false} SuspendedRefuses(m: Match, command: Command, now: Time)
    requires m.lifecycle == Suspended && (command.Start? || command.Expire? || command.Complete?)
    ensures Step(m, command, now) == m
  {}

  lemma {:induction false} SuspendedUndo(m: Match, o: nat, now: Time)
    requires m.lifecycle == Suspended
    ensures Step(m, Undo(o), now) == m || Step(m, Undo(o), now).lifecycle == Suspended
  {}

  /**
   * No update but an exit or a new crew may move a match into or out of suspension. So a suspended match cannot be
   * started, ended, reset or published, its wake-ups change nothing, and an undo could only leave it suspended.
   */
  lemma {:induction false} SuspendedStandsStill(m: Match, command: Command, now: Time)
    requires m.lifecycle == Suspended
    ensures command.Start? || command.Expire? || command.Cancel? || command.Complete? ==> Step(m, command, now) == m
    ensures command.Publish? ==> Step(m, command, now) == m
    ensures command.Undo? && Step(m, command, now) != m ==> Step(m, command, now).lifecycle == Suspended
  {
    if command.Start? || command.Expire? || command.Complete? {
      SuspendedRefuses(m, command, now);
    } else {
      match command
      case Cancel(entire, retracted) => var ids := CancelStep(m, entire, retracted, now);
      case Publish(key) => var outcome := PublishStep(m, key, now);
      case Undo(o) => SuspendedUndo(m, o, now);
      case _ =>
    }
  }

  lemma {:induction false} SameOpsLegal(m: Match, after: Match)
    requires OperationsLegal(m) && after.operations == m.operations
    ensures OperationsLegal(after)
  {}

  lemma {:induction false} ResolveDueKeepsRow(m: Match, now: Time)
    ensures var after := ResolveDue(m, now);
            && after.operations == m.operations && after.appeals == m.appeals && after.decisions == m.decisions
            && after.finishedAt == m.finishedAt && after.currentRound == m.currentRound
            && after.startedAt == m.startedAt && after.status == m.status && after.lifecycle == m.lifecycle
            && after.rounds == m.rounds
    decreases Unresolved(m.windows)
  {
    var first := FirstPending(m.windows, Some(now));
    if first.Some? {
      var resolved := ResolveWindow(m, first.value, now);
      ResolvingOne(m.windows, first.value, resolved.windows[first.value]);
      ResolveDueKeepsRow(resolved, now);
    }
  }

  lemma {:induction false} ClockRow(m: Match, command: Command, now: Time)
    requires RowFits(m) && OperationsLegal(m)
    requires command.Start? || command.Pause? || command.Resume? || command.Claim? || command.Complete?
    ensures RowFits(Step(m, command, now)) && OperationsLegal(Step(m, command, now))
  {
    SameOpsLegal(m, Step(m, command, now));
  }

  lemma {:induction false} VotingRow(m: Match, command: Command, now: Time)
    requires RowFits(m) && OperationsLegal(m) && (command.CastVote? || command.Resolve?)
    ensures RowFits(Step(m, command, now)) && OperationsLegal(Step(m, command, now))
  {
    match command
    case CastVote(found, judge, c) => var before, after := VoteStep(m, found, judge, c, now);
    case Resolve(_) => SameOpsLegal(m, Step(m, command, now));
  }

  lemma {:induction false} ExpireRow(m: Match, i: nat, now: Time)
    requires RowFits(m) && OperationsLegal(m)
    ensures RowFits(Step(m, Expire(i), now)) && OperationsLegal(Step(m, Expire(i), now))
  {
    if Expires(m, i, now) {
      ResolveDueKeepsRow(Ended(m, i), now);
      SameOpsLegal(m, Closed(m, Settled(m, i, now), i, now));
    }
  }

  lemma {:induction false} CancelRow(m: Match, entire: bool, retracted: bool, now: Time)
    requires RowFits(m) && OperationsLegal(m)
    ensures var after := Step(m, Cancel(entire, retracted), now); RowFits(after) && OperationsLegal(after)
  {
    var ids := CancelStep(m, entire, retracted, now);
    if CancelResults(m, entire, retracted, now).Success? {
      var after := Cancelled(m, ids, entire, now);
      CancelledEntry(m, ids, entire, now);
      assert OperationLegal(after.operations[|m.operations|]);
    }
  }

  lemma {:induction false} LeaveRow(m: Match, mode: ExitMode, now: Time)
    requires RowFits(m) && OperationsLegal(m) && ExitAllowed(m, mode)
    ensures RowFits(Exited(m, mode, now)) && OperationsLegal(Exited(m, mode, now))
  {
    assert OperationLegal(Exited(m, mode, now).operations[|m.operations|]);
  }

  lemma {:induction false} UndoRow(m: Match, o: nat)
    requires OperationsLegal(m) && o < |m.operations|
    ensures RowFits(Undone(m, o)) && OperationsLegal(Undone(m, o))
  {
    assert OperationLegal(m.operations[o]);
  }

  lemma {:induction false} AppealedRow(m: Match, appeal: Appeal)
    requires RowFits(m) && OperationsLegal(m) && (m.status == RegulationAppeal || m.status == OvertimeAppeal)
    ensures RowFits(Appealed(m, appeal)) && OperationsLegal(Appealed(m, appeal))
  {
    SameOpsLegal(m, Appealed(m, appeal));
  }

  lemma {:induction false} RegulationRow(m: Match, key: string, red: Adjustment, blue: Adjustment, now: Time)
    requires RowFits(m) && OperationsLegal(m)
    ensures var after := Step(m, AppealRegulation(key, red, blue), now); RowFits(after) && OperationsLegal(after)
  {
    var accepted, added := RegulationStep(m, key, red, blue, now);
    if accepted && added.Some? { AppealedRow(CleanUpAppeals(m), added.value); }
  }

  lemma {:induction false} OvertimeRow(m: Match, key: string, red: Adjustment, blue: Adjustment, now: Time)
    requires RowFits(m) && OperationsLegal(m)
    ensures var after := Step(m, AppealOvertime(key, red, blue), now); RowFits(after) && OperationsLegal(after)
  {
    var round := OvertimeStep(m, key, red, blue, now);
    if round.Some? { AppealedRow(m, OvertimeAppealOver(m, round.value, key, red, blue, now)); }
  }

  lemma {:induction false} ResultRow(m: Match, command: Command, now: Time)
    requires RowFits(m) && OperationsLegal(m) && (command.Restart? || command.Choose? || command.Publish?)
    ensures RowFits(Step(m, command, now)) && OperationsLegal(Step(m, command, now))
  {
    match command
    case Restart => var a := RestartStep(m, now);
    case Choose(winner) => var a := ChooseStep(m, winner, now);
    case Publish(key) => var outcome := PublishStep(m, key, now);
  }

  lemma {:induction false} StepRow(m: Match, command: Command, now: Time)
    requires RowFits(m) && OperationsLegal(m)
    ensures RowFits(Step(m, command, now)) && OperationsLegal(Step(m, command, now))
  {
    match command
    case CastVote(_, _, _) => VotingRow(m, command, now);
    case Resolve(_) => VotingRow(m, command, now);
    case Expire(i) => ExpireRow(m, i, now);
    case Cancel(entire, retracted) => CancelRow(m, entire, retracted, now);
    case Exit(mode) => if ExitAllowed(m, mode) { LeaveRow(m, mode, now); }
    case Undo(o) => if UndoAllowed(m, o) { UndoRow(m, o); }
    case AppealRegulation(key, red, blue) => RegulationRow(m, key, red, blue, now);
    case AppealOvertime(key, red, blue) => OvertimeRow(m, key, red, blue, now);
    case Restart => ResultRow(m, command, now);
    case Choose(_) => ResultRow(m, command, now);
    case Publish(_) => ResultRow(m, command, now);
    case _ => ClockRow(m, command, now);
  }

  // ---------------------------------------------------------------- the index on appeals

  /** Appeals are over rounds on record, regulation appeals of attempt 0, and no two live ones share a slot. */
  ghost predicate AppealsIndexed(m: Match) {
    && SlotsDiffer(m.appeals)
    && (forall a :: 0 <= a < |m.appeals| ==> m.appeals[a].val.source < |m.rounds|)
  }

  ghost predicate FewerLive(m: Match, after: Match) {
    && |m.appeals| == |after.appeals| && |m.rounds| <= |after.rounds|
    && (forall a :: 0 <= a < |m.appeals| ==> after.appeals[a].val == m.appeals[a].val)
    && (forall a :: 0 <= a < |m.appeals| && after.appeals[a].stamp.None? ==> m.appeals[a].stamp.None?)
  }

  lemma {:induction false} FewerIndexed(m: Match, after: Match)
    requires AppealsIndexed(m) && FewerLive(m, after)
    ensures AppealsIndexed(after)
  {}

  /** An appeal is added when no live one holds its slot. */
  predicate SlotFree(appeals: Table<Appeal>, appeal: Appeal) {
    forall a :: 0 <= a < |appeals| && appeals[a].stamp.None? ==> !SameSlot(appeals[a].val, appeal)
  }

  lemma {:induction false} AppealedIndexed(m: Match, appeal: Appeal)
    requires AppealsIndexed(m) && SlotFree(m.appeals, appeal) && appeal.source < |m.rounds|
    ensures AppealsIndexed(Appealed(m, appeal))
  {}

  /** After the sweep live appeals are over live rounds, so a valid regulation appeal would have been found. */
  lemma {:induction false} SweptSlotFree(m: Match, appeal: Appeal)
    requires AppealsIndexed(m) && !HasValidRegulationAppeal(CleanUpAppeals(m))
    requires appeal.scope == Regulation
    ensures SlotFree(CleanUpAppeals(m).appeals, appeal)
  {
    var swept := CleanUpAppeals(m);
    forall a | 0 <= a < |swept.appeals| && swept.appeals[a].stamp.None?
      ensures !SameSlot(swept.appeals[a].val, appeal)
    {
      assert m.appeals[a].stamp.None? && m.appeals[a].val.source < |m.rounds|;
      assert a !in StaleAppeals(m);
      assert ValidAppeal(swept, a);
    }
  }

  lemma {:induction false} RegulationIndexed(m: Match, key: string, red: Adjustment, blue: Adjustment, now: Time)
    requires AppealsIndexed(m)
    ensures AppealsIndexed(Step(m, AppealRegulation(key, red, blue), now))
  {
    var accepted, added := RegulationStep(m, key, red, blue, now);
    var swept := CleanUpAppeals(m);
    FewerIndexed(m, swept);
    if accepted && added.Some? {
      SweptSlotFree(m, added.value);
      AppealedIndexed(swept, added.value);
    }
  }

  lemma {:induction false} OvertimeIndexed(m: Match, key: string, red: Adjustment, blue: Adjustment, now: Time)
    requires AppealsIndexed(m)
    ensures AppealsIndexed(Step(m, AppealOvertime(key, red, blue), now))
  {
    var round := OvertimeStep(m, key, red, blue, now);
    if round.Some? { AppealedIndexed(m, OvertimeAppealOver(m, round.value, key, red, blue, now)); }
  }

  lemma {:induction false} ScoringIndexed(m: Match, command: Command, now: Time)
    requires AppealsIndexed(m) && ScoringCommand(command)
    ensures AppealsIndexed(Step(m, command, now))
  {
    match command
    case Expire(i) => if Expires(m, i, now) { ResolveDueKeepsRow(Ended(m, i), now); }
    case CastVote(found, judge, c) => var before, after := VoteStep(m, found, judge, c, now);
    case Resolve(_) => FewerIndexed(m, Step(m, command, now));
  }

  lemma {:induction false} OthersIndexed(m: Match, command: Command, now: Time)
    requires AppealsIndexed(m)
    requires command.Start? || command.Pause? || command.Resume? || command.Claim? || command.Complete?
             || command.Exit? || command.Choose? || command.Publish?
    ensures AppealsIndexed(Step(m, command, now))
  {
    FewerIndexed(m, Step(m, command, now));
  }

  lemma {:induction false} CancelIndexed(m: Match, entire: bool, retracted: bool, now: Time)
    requires AppealsIndexed(m)
    ensures AppealsIndexed(Step(m, Cancel(entire, retracted), now))
  {
    var ids := CancelStep(m, entire, retracted, now);
    FewerIndexed(m, Cancelled(m, ids, entire, now));
  }

  lemma {:induction false} UndoIndexed(m: Match, o: nat)
    requires AppealsIndexed(m) && UndoAllowed(m, o)
    ensures AppealsIndexed(Undone(m, o))
  {}

  lemma {:induction false} RestartIndexed(m: Match, now: Time)
    requires AppealsIndexed(m)
    ensures AppealsIndexed(Step(m, Restart, now))
  {
    var a := RestartStep(m, now);
    if a.Some? { FewerIndexed(m, Restarted(m, a.value)); }
  }

  lemma {:induction false} StepIndexed(m: Match, command: Command, now: Time)
    requires AppealsIndexed(m)
    ensures AppealsIndexed(Step(m, command, now))
  {
    match command
    case CastVote(_, _, _) => ScoringIndexed(m, command, now);
    case Resolve(_) => ScoringIndexed(m, command, now);
    case Expire(_) => ScoringIndexed(m, command, now);
    case Cancel(entire, retracted) => CancelIndexed(m, entire, retracted, now);
    case Undo(o) => if UndoAllowed(m, o) { UndoIndexed(m, o); }
    case AppealRegulation(key, red, blue) => RegulationIndexed(m, key, red, blue, now);
    case AppealOvertime(key, red, blue) => OvertimeIndexed(m, key, red, blue, now);
    case Restart => RestartIndexed(m, now);
    case _ => OthersIndexed(m, command, now);
  }

  // ---------------------------------------------------------------- the indexes on windows and decisions

  ghost predicate OneDecisionEach(decisions: Table<Decision>) {
    forall d, e :: 0 <= d < e < |decisions| ==> decisions[d].val.appeal != decisions[e].val.appeal
  }

  lemma {:induction false} ResolveOneUnresolved(m: Match, now: Time)
    requires OneUnresolved(m.windows)
    ensures OneUnresolved(ResolveDue(m, now).windows)
    decreases Unresolved(m.windows)
  {
    var first := FirstPending(m.windows, Some(now));
    if first.Some? {
      var resolved := ResolveWindow(m, first.value, now);
      ResolvingOne(m.windows, first.value, resolved.windows[first.value]);
      ResolveOneUnresolved(resolved, now);
    }
  }

  lemma {:induction false} VoteOneUnresolved(m: Match, found: nat, judge: Judge, c: Color, now: Time)
    requires OneUnresolved(m.windows)
    ensures OneUnresolved(Step(m, CastVote(found, judge, c), now).windows)
  {
    var before, after := VoteStep(m, found, judge, c, now);
  }

  lemma {:induction false} ExpireOneUnresolved(m: Match, i: nat, now: Time)
    requires OneUnresolved(m.windows)
    ensures OneUnresolved(Step(m, Expire(i), now).windows)
  {
    if Expires(m, i, now) { ResolveOneUnresolved(Ended(m, i), now); }
  }

  lemma {:induction false} StepOneUnresolved(m: Match, command: Command, now: Time)
    requires OneUnresolved(m.windows)
    ensures OneUnresolved(Step(m, command, now).windows)
  {
    match command
    case Expire(i) => ExpireOneUnresolved(m, i, now);
    case CastVote(found, judge, c) => VoteOneUnresolved(m, found, judge, c, now);
    case Resolve(_) =>
    case _ => StepContents(m, command, now);
  }

  lemma {:induction false} ScoringDecides(m: Match, command: Command, now: Time)
    requires ScoringCommand(command)
    ensures Step(m, command, now).decisions == m.decisions
  {
    match command
    case Expire(i) => if Expires(m, i, now) { ResolveDueKeepsRow(Ended(m, i), now); }
    case CastVote(found, judge, c) => var before, after := VoteStep(m, found, judge, c, now);
    case Resolve(_) =>
  }

  lemma {:induction false} CorrectionDecides(m: Match, command: Command, now: Time)
    requires command.Cancel? || command.Undo? || command.Exit? || command.Restart?
    ensures SameVals(m.decisions, Step(m, command, now).decisions)
  {
    match command
    case Cancel(entire, retracted) => var ids := CancelStep(m, entire, retracted, now);
    case Exit(mode) => var after := ExitStep(m, mode, now);
    case Restart => var a := RestartStep(m, now);
    case Undo(o) => UndoDecides(m, o, now);
  }

  lemma {:induction false} UndoDecides(m: Match, o: nat, now: Time)
    ensures SameVals(m.decisions, Step(m, Undo(o), now).decisions)
  {}

  lemma {:induction false} CommitDecides(m: Match, command: Command, now: Time)
    requires CommitsAppeal(command)
    ensures Step(m, command, now).decisions == m.decisions
  {
    match command
    case AppealRegulation(key, red, blue) => var accepted, added := RegulationStep(m, key, red, blue, now);
    case AppealOvertime(key, red, blue) => var round := OvertimeStep(m, key, red, blue, now);
  }

  lemma {:induction false} ClockDecides(m: Match, command: Command, now: Time)
    requires command.Start? || command.Pause? || command.Resume? || command.Claim? || command.Complete?
             || command.Publish?
    ensures Step(m, command, now).decisions == m.decisions
  {}

  lemma {:induction false} SameDecisions(m: Match, command: Command, now: Time)
    requires !command.Choose?
    ensures SameVals(m.decisions, Step(m, command, now).decisions)
  {
    if ScoringCommand(command) {
      ScoringDecides(m, command, now);
    } else if CommitsAppeal(command) {
      CommitDecides(m, command, now);
    } else if command.Cancel? || command.Undo? || command.Exit? || command.Restart? {
      CorrectionDecides(m, command, now);
    } else {
      ClockDecides(m, command, now);
    }
  }

  lemma {:induction false} StepOneDecision(m: Match, command: Command, now: Time)
    requires OneDecisionEach(m.decisions)
    ensures OneDecisionEach(Step(m, command, now).decisions)
  {
    match command
    case Choose(winner) => var a := ChooseStep(m, winner, now);
    case _ => SameDecisions(m, command, now);
  }

  // ---------------------------------------------------------------- every run

  ghost predicate ConstraintsOK(m: Match) {
    && RowFits(m) && OperationsLegal(m) && AppealsIndexed(m) && OneUnresolved(m.windows) && OneDecisionEach(m.decisions)
  }

  /** Whatever is done to a match, in whatever order: no index is violated and the row fits its phase. */
  lemma {:induction false} RunKeepsConstraints(m: Match, script: seq<Timed>)
    requires ConstraintsOK(m)
    ensures ConstraintsOK(Run(m, script))
    decreases |script|
  {
    if script != [] {
      var command, now := script[0].command, script[0].now;
      StepRow(m, command, now);
      StepIndexed(m, command, now);
      StepOneUnresolved(m, command, now);
      StepOneDecision(m, command, now);
      RunKeepsConstraints(Step(m, command, now), script[1..]);
    }
  }

  lemma ConstraintsOfAnyRun(
      rules: RulesVersion, judges: nat, duration: nat, intermission: nat, script: seq<Timed>)
    ensures ConstraintsOK(Run(NewMatch(rules, judges, duration, intermission), script))
  {
    RunKeepsConstraints(NewMatch(rules, judges, duration, intermission), script);
  }

  /** The index on rounds is never in the way: the phase keeps live rounds apart. */
  lemma {:induction false} LiveRoundsDiffer(m: Match, i: nat, j: nat)
    requires Fits(m) && Live(m.rounds, i) && Live(m.rounds, j) && i != j
    ensures var r, s := m.rounds[i].val, m.rounds[j].val;
            !(r.stage == s.stage && r.attempt == s.attempt && r.number == s.number)
  {
    LiveKindExpected(m, i);
    LiveKindExpected(m, j);
    if i < j { LiveKindsDiffer(m, i, j); } else { LiveKindsDiffer(m, j, i); }
  }
}
