/** No row is from the future, so a cancellation can always be undone at once. */
module MatchClock {
  import opened Prelude
  import opened SportRules
  import opened MatchTables
  import opened MatchModel
  import opened MatchCommands
  import opened MatchHistory
  import opened MatchAppeals
  import opened MatchColumns
  import opened MatchConstraints

  ghost predicate RoundsBy(rounds: Table<Round>, t: Time) {
    forall i :: 0 <= i < |rounds| ==> rounds[i].val.startedAt <= t
  }

  ghost predicate WindowsBy(windows: Table<Window>, t: Time) {
    forall w :: 0 <= w < |windows| ==> windows[w].val.startedAt <= t
  }

  ghost predicate EventsBy(events: Table<Event>, t: Time) {
    forall e :: 0 <= e < |events| ==> events[e].val.createdAt <= t
  }

  ghost predicate AppealsBy(appeals: Table<Appeal>, t: Time) {
    forall a :: 0 <= a < |appeals| ==> appeals[a].val.completedAt <= t
  }

  ghost predicate DecisionsBy(decisions: Table<Decision>, t: Time) {
    forall d :: 0 <= d < |decisions| ==> decisions[d].val.selectedAt <= t
  }

  /** Every row, cancelled or not, was written by time t. */
  ghost predicate WrittenBy(m: Match, t: Time) {
    && RoundsBy(m.rounds, t) && WindowsBy(m.windows, t) && EventsBy(m.events, t) && AppealsBy(m.appeals, t)
    && DecisionsBy(m.decisions, t) && (m.outcome.Some? ==> m.outcome.value.publishedAt <= t)
  }

  lemma {:induction false} ResolveWritten(m: Match, w: nat, now: Time)
    requires WrittenBy(m, now) && w < |m.windows|
    ensures WrittenBy(ResolveWindow(m, w, now), now)
  {}

  lemma {:induction false} ResolveDueWritten(m: Match, now: Time)
    requires WrittenBy(m, now)
    ensures WrittenBy(ResolveDue(m, now), now)
    decreases Unresolved(m.windows)
  {
    var first := FirstPending(m.windows, Some(now));
    if first.Some? {
      var resolved := ResolveWindow(m, first.value, now);
      ResolvingOne(m.windows, first.value, resolved.windows[first.value]);
      ResolveWritten(m, first.value, now);
      ResolveDueWritten(resolved, now);
    }
  }

  lemma {:induction false} RoundWritten(m: Match, command: Command, now: Time)
    requires WrittenBy(m, now)
    requires (command.Start? || command.Pause? || command.Resume? || command.Claim? || command.Complete?)
    ensures WrittenBy(Step(m, command, now), now)
  {}

  lemma {:induction false} VoteWritten(m: Match, found: nat, judge: Judge, c: Color, now: Time)
    requires WrittenBy(m, now)
    ensures WrittenBy(Step(m, CastVote(found, judge, c), now), now)
  {
    var before, after := VoteStep(m, found, judge, c, now);
    if before != m {
      var w: nat :| w < |m.windows| && Pending(m.windows[w], None) && before == ResolveWindow(m, w, now);
      ResolveWritten(m, w, now);
    }
  }

  lemma {:induction false} ExpireWritten(m: Match, i: nat, now: Time)
    requires WrittenBy(m, now)
    ensures WrittenBy(Step(m, Expire(i), now), now)
  {
    if Expires(m, i, now) {
      assert WrittenBy(Ended(m, i), now);
      ResolveDueWritten(Ended(m, i), now);
    }
  }

  lemma {:induction false} CancelWritten(m: Match, ids: set<nat>, entire: bool, now: Time)
    requires WrittenBy(m, now)
    ensures WrittenBy(Cancelled(m, ids, entire, now), now)
  {}

  lemma {:induction false} ExitWritten(m: Match, mode: ExitMode, now: Time)
    requires WrittenBy(m, now)
    ensures WrittenBy(Exited(m, mode, now), now)
  {}

  lemma {:induction false} UndoWritten(m: Match, o: nat, now: Time)
    requires WrittenBy(m, now) && o < |m.operations|
    ensures WrittenBy(Undone(m, o), now)
  {}

  lemma {:induction false} SweepWritten(m: Match, now: Time)
    requires WrittenBy(m, now)
    ensures WrittenBy(CleanUpAppeals(m), now)
  {}

  lemma {:induction false} AppealedWritten(m: Match, appeal: Appeal, now: Time)
    requires WrittenBy(m, now) && appeal.completedAt == now
    ensures WrittenBy(Appealed(m, appeal), now)
  {}

  lemma {:induction false} RegulationWritten(m: Match, key: string, red: Adjustment, blue: Adjustment, now: Time)
    requires WrittenBy(m, now)
    ensures WrittenBy(Step(m, AppealRegulation(key, red, blue), now), now)
  {
    var accepted, added := RegulationStep(m, key, red, blue, now);
    SweepWritten(m, now);
    if accepted && added.Some? { AppealedWritten(CleanUpAppeals(m), added.value, now); }
  }

  lemma {:induction false} OvertimeWritten(m: Match, key: string, red: Adjustment, blue: Adjustment, now: Time)
    requires WrittenBy(m, now)
    ensures WrittenBy(Step(m, AppealOvertime(key, red, blue), now), now)
  {
    var round := OvertimeStep(m, key, red, blue, now);
    if round.Some? { AppealedWritten(m, OvertimeAppealOver(m, round.value, key, red, blue, now), now); }
  }

  lemma {:induction false} RestartWritten(m: Match, now: Time)
    requires WrittenBy(m, now)
    ensures WrittenBy(Step(m, Restart, now), now)
  {
    var a := RestartStep(m, now);
  }

  lemma {:induction false} ResultWritten(m: Match, command: Command, now: Time)
    requires WrittenBy(m, now) && (command.Choose? || command.Publish?)
    ensures WrittenBy(Step(m, command, now), now)
  {}

  lemma {:induction false} StepWritten(m: Match, command: Command, now: Time)
    requires WrittenBy(m, now)
    ensures WrittenBy(Step(m, command, now), now)
  {
    match command
    case Expire(i) => ExpireWritten(m, i, now);
    case CastVote(found, judge, c) => VoteWritten(m, found, judge, c, now);
    case Resolve(w) => if w < |m.windows| { ResolveWritten(m, w, now); }
    case Cancel(entire, retracted) =>
      var ids := CancelStep(m, entire, retracted, now);
      CancelWritten(m, ids, entire, now);
    case Undo(o) => if UndoAllowed(m, o) { UndoWritten(m, o, now); }
    case Exit(mode) =>
      var after := ExitStep(m, mode, now);
      ExitWritten(m, mode, now);
    case AppealRegulation(key, red, blue) => RegulationWritten(m, key, red, blue, now);
    case AppealOvertime(key, red, blue) => OvertimeWritten(m, key, red, blue, now);
    case Restart => RestartWritten(m, now);
    case Choose(_) => ResultWritten(m, command, now);
    case Publish(_) => ResultWritten(m, command, now);
    case _ => RoundWritten(m, command, now);
  }

  lemma {:induction false} WrittenLater(m: Match, t: Time, now: Time)
    requires WrittenBy(m, t) && t <= now
    ensures WrittenBy(m, now)
  {}

  /** Over every run in clock order. */
  lemma {:induction false} RunWritten(m: Match, script: seq<Timed>, t: Time)
    requires WrittenBy(m, t) && TimedRun(m, script, t)
    ensures WrittenBy(Run(m, script), LastTime(script, t))
    decreases |script|
  {
    if script != [] {
      WrittenLater(m, t, script[0].now);
      StepWritten(m, script[0].command, script[0].now);
      RunWritten(Step(m, script[0].command, script[0].now), script[1..], script[0].now);
    }
  }

  /** Between two appeals the clock moves as soon as it moves between two commands. */
  lemma {:induction false} TickingClockMoves(m: Match, script: seq<Timed>, t: Time, now: Time)
    requires WrittenBy(m, t) && TimedRun(m, script, t) && LastTime(script, t) < now
    ensures ClockMoved(Run(m, script), now)
  {
    RunWritten(m, script, t);
  }

  lemma {:induction false} AuditsKept(m: Match, script: seq<Timed>, t: Time)
    requires StampsKnown(m) && AuditsOrdered(m) && TimedRun(m, script, t)
    ensures StampsKnown(Run(m, script)) && AuditsOrdered(Run(m, script))
    decreases |script|
  {
    if script != [] {
      StepCarries(m, script[0].command, script[0].now, m.nextAudit + 1);
      StepOperations(m, script[0].command, script[0].now);
      AuditsKept(Step(m, script[0].command, script[0].now), script[1..], script[0].now);
    }
  }

  /**
   * After any permitted run of a new match in clock order, a cancellation that is accepted can be undone at once.
   * That is the identity on the match and its ledger, except that the intermission deadline is gone.
   */
  lemma {:induction false} CancelThenUndoOnAnyRun(
      rules: RulesVersion, judges: nat, duration: nat, intermission: nat, script: seq<Timed>, entire: bool,
      retracted: bool, now: Time)
    requires var m0 := NewMatch(rules, judges, duration, intermission);
             TimedRun(m0, script, 0) && LastTime(script, 0) <= now
                 && CancelResults(Run(m0, script), entire, retracted, now).Success?
    ensures var m := Run(NewMatch(rules, judges, duration, intermission), script);
            var cancelled := CancelResults(m, entire, retracted, now).value;
            var o := |m.operations|;
            && UndoAllowed(cancelled, o)
            && Undone(cancelled, o) == m.(
                 intermissionEndsAt := None,
                 operations := Undone(cancelled, o).operations, nextAudit := m.nextAudit + 1)
  {
    var m0 := NewMatch(rules, judges, duration, intermission);
    RunWritten(m0, script, 0);
    AuditsKept(m0, script, 0);
    ConstraintsOfAnyRun(rules, judges, duration, intermission, script);
    NothingSince(Run(m0, script), LastTime(script, 0), now);
    CancelThenUndo(Run(m0, script), entire, retracted, now);
    NotSuspended(Run(m0, script), entire, retracted, now);
  }

  lemma {:induction false} NothingSince(m: Match, t: Time, now: Time)
    requires WrittenBy(m, t) && t <= now
    ensures !ActiveSince(m, now)
  {}

  /** What is cancelled is not suspended, so its lifecycle is that of its phase. */
  lemma {:induction false} NotSuspended(m: Match, entire: bool, retracted: bool, now: Time)
    requires RowFits(m) && CancelResults(m, entire, retracted, now).Success?
    ensures m.lifecycle == LifecycleForPhase(m.status)
  {}
}
