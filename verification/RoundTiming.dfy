/** Competition time: over every run the clock of a round counts the time it ran, and what a reset hid of it. */
module RoundTiming {
  import opened Prelude
  import opened SportRules
  import opened MatchTables
  import opened MatchModel
  import opened MatchCommands
  import opened MatchHistory
  import opened MatchColumns
  import opened MatchPhases
  import opened MatchPhaseSteps

  // ---------------------------------------------------------------- the clock of a round

  /** Competition time on the clock of an open round at time t: a stopped clock shows what remained. */
  function Ticks(r: Round, t: Time): int {
    if r.remaining.Some? then r.duration - r.remaining.value else r.duration + t - r.endsAt
  }

  /** The clock of row i is going: the row is open and not paused, whether or not it has been cancelled. */
  predicate Ticking(m: Match, i: nat) {
    i < |m.rounds| && m.rounds[i].val.endedAt.None? && m.rounds[i].val.remaining.None?
  }

  predicate Running(m: Match, i: nat) {
    Ticking(m, i) && Live(m.rounds, i)
  }

  /** A reset took the row off the ledger without stopping its clock. */
  predicate Hidden(m: Match, i: nat) {
    Ticking(m, i) && !Live(m.rounds, i)
  }

  predicate NotEnded(m: Match, i: nat) {
    i < |m.rounds| ==> m.rounds[i].val.endedAt.None?
  }

  function TicksAt(m: Match, i: nat, t: Time): int {
    if i < |m.rounds| then Ticks(m.rounds[i].val, t) else 0
  }

  function Span(counts: bool, from: Time, to: Time): int {
    if counts then to - from else 0
  }

  lemma ClockPasses(m: Match, i: nat, t: Time, now: Time)
    requires NotEnded(m, i)
    ensures TicksAt(m, i, now) == TicksAt(m, i, t) + Span(Running(m, i), t, now) + Span(Hidden(m, i), t, now)
  {}

  // ---------------------------------------------------------------- clocks stand still exactly in the paused phases

  predicate StopFits(r: Round, s: Status) {
    r.endedAt.None? ==> (r.remaining.Some? <==> PausedNumber(s).Some?)
  }

  ghost predicate StopsFit(rounds: Table<Round>, stamp: Option<nat>, s: Status) {
    forall i :: 0 <= i < |rounds| && rounds[i].stamp == stamp ==> StopFits(rounds[i].val, s)
  }

  predicate HasOpenRound(s: Status) {
    RunningNumber(s).Some? || PausedNumber(s).Some?
  }

  /** What an operation took fits its earlier phase; only an exit that changes no phase leaves a round open. */
  ghost predicate OperationStops(m: Match, op: Operation) {
    !op.undone ==>
      && StopsFit(m.rounds, Some(op.audit), op.previousStatus)
      && (HasOpenRound(op.resultingStatus) ==> op.previousStatus == op.resultingStatus)
  }

  ghost predicate OperationsStop(m: Match, n: nat)
    requires n <= |m.operations|
  {
    forall o :: 0 <= o < n ==> OperationStops(m, m.operations[o])
  }

  ghost predicate StopsOK(m: Match) {
    StopsFit(m.rounds, None, m.status) && OperationsStop(m, |m.operations|)
  }

  lemma NoOpenRound(m: Match)
    requires Fits(m) && !HasOpenRound(m.status)
    ensures StopsFit(m.rounds, None, m.status)
  {
    forall i | 0 <= i < |m.rounds| && m.rounds[i].stamp.None? ensures StopFits(m.rounds[i].val, m.status) {
      LiveKindExpected(m, i);
    }
  }

  /** The open round of a phase is its only open round. */
  lemma OtherRoundsEnded(m: Match, i: nat, j: nat)
    requires Fits(m) && Live(m.rounds, i) && m.rounds[i].val.endedAt.None? && Live(m.rounds, j) && i != j
    ensures m.rounds[j].val.endedAt.Some?
  {
    if m.rounds[j].val.endedAt.None? { AtMostOneOpen(m, i, j); }
  }

  lemma PauseStops(m: Match, now: Time)
    requires Fits(m) && StopsFit(m.rounds, None, m.status)
    ensures var after := Step(m, Pause, now); StopsFit(after.rounds, None, after.status)
  {
    if PauseRound(m, now).Success? {
      var i := LatestOpen(m.rounds, RunningNumber(m.status).value).value;
      var after := Step(m, Pause, now);
      forall j | 0 <= j < |after.rounds| && after.rounds[j].stamp.None?
        ensures StopFits(after.rounds[j].val, after.status)
      {
        if j != i { OtherRoundsEnded(m, i, j); }
      }
    }
  }

  lemma ResumeStops(m: Match, now: Time)
    requires Fits(m) && StopsFit(m.rounds, None, m.status)
    ensures var after := Step(m, Resume, now); StopsFit(after.rounds, None, after.status)
  {
    if ResumeRound(m, now).Success? {
      var i := LatestOpen(m.rounds, PausedNumber(m.status).value).value;
      var after := Step(m, Resume, now);
      forall j | 0 <= j < |after.rounds| && after.rounds[j].stamp.None?
        ensures StopFits(after.rounds[j].val, after.status)
      {
        if j != i { OtherRoundsEnded(m, i, j); }
      }
    }
  }

  lemma StartStops(m: Match, now: Time)
    requires Fits(m) && StopsFit(m.rounds, None, m.status)
    ensures var after := Step(m, Start, now); StopsFit(after.rounds, None, after.status)
  {
    if StartRound(m, now).Success? {
      var after := Step(m, Start, now);
      forall j | 0 <= j < |m.rounds| && m.rounds[j].stamp.None? ensures StopFits(m.rounds[j].val, after.status) {
        LiveKindExpected(m, j);
      }
    }
  }

  lemma UndoStops(m: Match, o: nat)
    requires Fits(m) && StopsOK(m) && UndoAllowed(m, o)
    ensures var after := Undone(m, o); StopsFit(after.rounds, None, after.status)
  {
    var after := Undone(m, o);
    assert OperationStops(m, m.operations[o]);
    forall i | 0 <= i < |after.rounds| && after.rounds[i].stamp.None?
      ensures StopFits(after.rounds[i].val, after.status)
    {
      if m.rounds[i].stamp.None? && m.rounds[i].val.endedAt.None? { LiveKindExpected(m, i); }
    }
  }

  lemma CancelCloses(m: Match, ids: set<nat>, entire: bool, now: Time)
    ensures !HasOpenRound(Cancelled(m, ids, entire, now).status)
  {}

  lemma OpenAfterCancel(m: Match, entire: bool, retracted: bool, now: Time) returns (after: Match)
    ensures after == Step(m, Cancel(entire, retracted), now)
    ensures HasOpenRound(after.status) ==> after == m
  {
    var ids := CancelStep(m, entire, retracted, now);
    CancelCloses(m, ids, entire, now);
    after := Step(m, Cancel(entire, retracted), now);
  }

  lemma {:induction false} StampsNothing(rounds: Table<Round>, k: nat)
    ensures Stamp(rounds, {}, k) == rounds
  {}

  lemma {:induction false} KeepV2Rounds(m: Match, now: Time)
    ensures Exited(m, KeepV2Phase, now).rounds == Stamp(m.rounds, {}, m.nextAudit)
    ensures Exited(m, KeepV2Phase, now).status == m.status
  {
    assert RoundsNumbered(m, {}) == {};
  }

  lemma {:induction false} ExitedPhase(m: Match, mode: ExitMode, now: Time)
    ensures Exited(m, mode, now).status == ExitStatus(m, mode)
  {}

  lemma {:induction false} OpenAfterExit(m: Match, mode: ExitMode, now: Time)
    requires HasOpenRound(Exited(m, mode, now).status)
    ensures Exited(m, mode, now).rounds == m.rounds && Exited(m, mode, now).status == m.status
  {
    ExitedPhase(m, mode, now);
    if mode == KeepV2Phase {
      KeepV2Rounds(m, now);
      StampsNothing(m.rounds, m.nextAudit);
    }
  }

  lemma AppealedCloses(m: Match, appeal: Appeal)
    ensures !HasOpenRound(Appealed(m, appeal).status)
  {}

  lemma SweepKeepsPhase(m: Match)
    ensures CleanUpAppeals(m).rounds == m.rounds && CleanUpAppeals(m).status == m.status
  {}

  lemma OpenAfterRegulation(m: Match, key: string, red: Adjustment, blue: Adjustment, now: Time) returns (after: Match)
    ensures after == Step(m, AppealRegulation(key, red, blue), now)
    ensures HasOpenRound(after.status) ==> after.rounds == m.rounds && after.status == m.status
  {
    var accepted, added := RegulationStep(m, key, red, blue, now);
    after := Step(m, AppealRegulation(key, red, blue), now);
    SweepKeepsPhase(m);
    if added.Some? { AppealedCloses(CleanUpAppeals(m), added.value); }
  }

  lemma OpenAfterOvertime(m: Match, key: string, red: Adjustment, blue: Adjustment, now: Time) returns (after: Match)
    ensures after == Step(m, AppealOvertime(key, red, blue), now)
    ensures HasOpenRound(after.status) ==> after == m
  {
    var round := OvertimeStep(m, key, red, blue, now);
    after := Step(m, AppealOvertime(key, red, blue), now);
    if round.Some? { AppealedCloses(m, OvertimeAppealOver(m, round.value, key, red, blue, now)); }
  }

  lemma RestartedStatus(m: Match, a: nat)
    requires a < |m.appeals|
    ensures Restarted(m, a).status == OvertimeReady
  {}

  lemma OpenAfterRestart(m: Match, now: Time) returns (after: Match)
    ensures after == Step(m, Restart, now)
    ensures HasOpenRound(after.status) ==> after == m
  {
    after := Step(m, Restart, now);
    var a := RestartStep(m, now);
    if a.Some? { RestartedStatus(m, a.value); }
  }

  lemma OpenAfterChoice(m: Match, winner: Color, now: Time) returns (after: Match)
    ensures after == Step(m, Choose(winner), now)
    ensures HasOpenRound(after.status) ==> after == m
  {
    after := Step(m, Choose(winner), now);
    var a := ChooseStep(m, winner, now);
    assert a.Some? ==> after.status == ResultPublicationReady;
  }

  lemma OpenAfterVoting(m: Match, command: Command, now: Time)
    requires command.CastVote? || command.Resolve?
    ensures Step(m, command, now).rounds == m.rounds && Step(m, command, now).status == m.status
  {}

  lemma OpenAfterExpiry(m: Match, i: nat, now: Time)
    requires HasOpenRound(Step(m, Expire(i), now).status)
    ensures Step(m, Expire(i), now) == m
  {}

  lemma OpenAfterOther(m: Match, command: Command, now: Time)
    requires command.Claim? || command.Complete? || command.Publish?
    requires HasOpenRound(Step(m, command, now).status)
    ensures Step(m, command, now).rounds == m.rounds && Step(m, command, now).status == m.status
  {}

  /** A phase with an open round is reached by starting, pausing, resuming or undoing; else nothing has changed. */
  lemma OpenAfter(m: Match, command: Command, now: Time)
    requires !command.Start? && !command.Pause? && !command.Resume? && !command.Undo?
    requires HasOpenRound(Step(m, command, now).status)
    ensures Step(m, command, now).rounds == m.rounds && Step(m, command, now).status == m.status
  {
    match command
    case Cancel(entire, retracted) => var after := OpenAfterCancel(m, entire, retracted, now);
    case Exit(mode) =>
      var after := ExitStep(m, mode, now);
      if ExitAllowed(m, mode) { OpenAfterExit(m, mode, now); }
    case AppealRegulation(key, red, blue) => var after := OpenAfterRegulation(m, key, red, blue, now);
    case AppealOvertime(key, red, blue) => var after := OpenAfterOvertime(m, key, red, blue, now);
    case Restart => var after := OpenAfterRestart(m, now);
    case Choose(winner) => var after := OpenAfterChoice(m, winner, now);
    case CastVote(_, _, _) => OpenAfterVoting(m, command, now);
    case Resolve(_) => OpenAfterVoting(m, command, now);
    case Expire(i) => OpenAfterExpiry(m, i, now);
    case _ => OpenAfterOther(m, command, now);
  }

  lemma LiveStops(m: Match, command: Command, now: Time)
    requires PhaseOK(m) && StopsOK(m) && Permitted(m, command, now)
    ensures var after := Step(m, command, now); StopsFit(after.rounds, None, after.status)
  {
    StepFits(m, command, now);
    if !HasOpenRound(Step(m, command, now).status) {
      NoOpenRound(Step(m, command, now));
    } else {
      match command
      case Start => StartStops(m, now);
      case Pause => PauseStops(m, now);
      case Resume => ResumeStops(m, now);
      case Undo(o) => if UndoAllowed(m, o) { UndoStops(m, o); }
      case _ => OpenAfter(m, command, now);
    }
  }

  lemma CancelledStops(m: Match, ids: set<nat>, entire: bool, now: Time)
    requires StopsFit(m.rounds, None, m.status) && StampsBelow(m.rounds, m.nextAudit)
    ensures |Cancelled(m, ids, entire, now).operations| == |m.operations| + 1
    ensures OperationStops(Cancelled(m, ids, entire, now), Cancelled(m, ids, entire, now).operations[|m.operations|])
  {}

  /** What a stamp takes is what was live. */
  lemma StampedStops(rounds: Table<Round>, ids: set<nat>, k: nat, s: Status)
    requires StopsFit(rounds, None, s) && StampsBelow(rounds, k)
    ensures StopsFit(Stamp(rounds, ids, k), Some(k), s)
  {}

  lemma ExitRecords(m: Match, mode: ExitMode, now: Time) returns (op: Operation)
    ensures Exited(m, mode, now).operations == m.operations + [op]
    ensures op.audit == m.nextAudit && op.previousStatus == m.status && op.resultingStatus == ExitStatus(m, mode)
    ensures Exited(m, mode, now).rounds == Stamp(m.rounds, RoundsNumbered(m, CancelledNumbers(mode)), m.nextAudit)
  {
    op := Exited(m, mode, now).operations[|m.operations|];
  }

  lemma ExitedStops(m: Match, mode: ExitMode, now: Time)
    requires StopsFit(m.rounds, None, m.status) && StampsBelow(m.rounds, m.nextAudit)
    ensures |Exited(m, mode, now).operations| == |m.operations| + 1
    ensures OperationStops(Exited(m, mode, now), Exited(m, mode, now).operations[|m.operations|])
  {
    var op := ExitRecords(m, mode, now);
    StampedStops(m.rounds, RoundsNumbered(m, CancelledNumbers(mode)), m.nextAudit, m.status);
    assert HasOpenRound(ExitStatus(m, mode)) ==> mode == KeepV2Phase;
  }

  lemma NewOperationStops(m: Match, command: Command, now: Time)
    requires PhaseOK(m) && StopsOK(m) && Permitted(m, command, now)
    requires |Step(m, command, now).operations| > |m.operations|
    ensures |Step(m, command, now).operations| == |m.operations| + 1
    ensures OperationStops(Step(m, command, now), Step(m, command, now).operations[|m.operations|])
  {
    match command
    case Cancel(entire, retracted) =>
      var ids := CancelStep(m, entire, retracted, now);
      CancelledStops(m, ids, entire, now);
    case Exit(mode) =>
      var after := ExitStep(m, mode, now);
      ExitedStops(m, mode, now);
    case _ => OnlyCancelsRecord(m, command, now);
  }

  lemma OldOperationStops(m: Match, command: Command, now: Time, o: nat)
    requires PhaseOK(m) && StopsOK(m) && Permitted(m, command, now) && o < |m.operations|
    ensures o < |Step(m, command, now).operations|
    ensures OperationStops(Step(m, command, now), Step(m, command, now).operations[o])
  {
    var after, k := Step(m, command, now), m.operations[o].audit;
    StepOperations(m, command, now);
    assert OperationStops(m, m.operations[o]);
    if command.Undo? && command.operation < |m.operations| && m.operations[command.operation].audit == k {
      assert command.operation == o;
    } else {
      StepCarries(m, command, now, k);
    }
  }

  lemma StepStops(m: Match, command: Command, now: Time)
    requires PhaseOK(m) && StopsOK(m) && Permitted(m, command, now)
    ensures StopsOK(Step(m, command, now))
  {
    LiveStops(m, command, now);
    StepOperationsStop(m, command, now);
  }

  lemma StepOperationsStop(m: Match, command: Command, now: Time)
    requires PhaseOK(m) && StopsOK(m) && Permitted(m, command, now)
    ensures OperationsStop(Step(m, command, now), |Step(m, command, now).operations|)
  {
    var after := Step(m, command, now);
    StepOperations(m, command, now);
    if |after.operations| > |m.operations| { NewOperationStops(m, command, now); }
    forall o: nat | o < |after.operations| ensures OperationStops(after, after.operations[o]) {
      if o < |m.operations| { OldOperationStops(m, command, now, o); }
    }
  }

  // ---------------------------------------------------------------- what moves the clock of a round

  ghost predicate SameRounds(m: Match, after: Match) {
    |after.rounds| == |m.rounds| && forall i :: 0 <= i < |m.rounds| ==> after.rounds[i].val == m.rounds[i].val
  }

  predicate MovesClock(command: Command) {
    command.Start? || command.Pause? || command.Resume? || command.Expire?
  }

  lemma CancelRounds(m: Match, ids: set<nat>, entire: bool, now: Time)
    ensures SameRounds(m, Cancelled(m, ids, entire, now))
  {}

  lemma RestartedRounds(m: Match, a: nat)
    requires a < |m.appeals|
    ensures SameRounds(m, Restarted(m, a))
  {}

  lemma ExitedRounds(m: Match, mode: ExitMode, now: Time)
    ensures SameRounds(m, Exited(m, mode, now))
  {}

  lemma VotesKeepRounds(m: Match, command: Command, now: Time)
    requires command.CastVote? || command.Resolve?
    ensures SameRounds(m, Step(m, command, now))
  {
    match command
    case CastVote(found, judge, c) => var before, after := VoteStep(m, found, judge, c, now);
    case Resolve(_) =>
  }

  lemma ResultsKeepRounds(m: Match, command: Command, now: Time)
    requires command.Claim? || command.Complete? || command.Choose? || command.Publish? || command.Undo?
    ensures SameRounds(m, Step(m, command, now))
  {}

  /** Cancelling and undoing stamp rows and lift stamps; they never touch the clock. */
  lemma OthersKeepRounds(m: Match, command: Command, now: Time)
    requires !MovesClock(command)
    ensures SameRounds(m, Step(m, command, now))
  {
    match command
    case Cancel(entire, retracted) =>
      var ids := CancelStep(m, entire, retracted, now);
      CancelRounds(m, ids, entire, now);
    case Exit(mode) =>
      var after := ExitStep(m, mode, now);
      ExitedRounds(m, mode, now);
    case AppealRegulation(key, red, blue) => var accepted, added := RegulationStep(m, key, red, blue, now);
    case AppealOvertime(key, red, blue) => var round := OvertimeStep(m, key, red, blue, now);
    case Restart =>
      var a := RestartStep(m, now);
      if a.Some? { RestartedRounds(m, a.value); }
    case CastVote(_, _, _) => VotesKeepRounds(m, command, now);
    case Resolve(_) => VotesKeepRounds(m, command, now);
    case _ => ResultsKeepRounds(m, command, now);
  }

  lemma ExpireTicks(m: Match, j: nat, now: Time, i: nat)
    requires NotEnded(Step(m, Expire(j), now), i)
    ensures NotEnded(m, i) && TicksAt(Step(m, Expire(j), now), i, now) == TicksAt(m, i, now)
  {
    if Expires(m, j, now) { ResolveDueAdds(Ended(m, j), now); }
  }

  lemma PauseTicks(m: Match, now: Time, i: nat)
    requires StopsFit(m.rounds, None, m.status) && NotEnded(Step(m, Pause, now), i)
    ensures NotEnded(m, i) && TicksAt(Step(m, Pause, now), i, now) == TicksAt(m, i, now)
  {
    if PauseRound(m, now).Success? {
      var j := LatestOpen(m.rounds, RunningNumber(m.status).value).value;
      assert StopFits(m.rounds[j].val, m.status);
    }
  }

  /** At the instant of a step the clock of a round that stays open shows the same before and after. */
  lemma StepTicks(m: Match, command: Command, now: Time, i: nat)
    requires StopsFit(m.rounds, None, m.status) && NotEnded(Step(m, command, now), i)
    ensures NotEnded(m, i) && TicksAt(Step(m, command, now), i, now) == TicksAt(m, i, now)
  {
    match command
    case Start =>
    case Pause => PauseTicks(m, now, i);
    case Resume =>
    case Expire(j) => ExpireTicks(m, j, now, i);
    case _ => OthersKeepRounds(m, command, now);
  }

  // ---------------------------------------------------------------- over a run

  /** Time row i spent live and running, from t to now, while the script is played. */
  function RunningTime(m: Match, script: seq<Timed>, i: nat, t: Time, now: Time): int
    decreases |script|
  {
    if script == [] then Span(Running(m, i), t, now)
    else Span(Running(m, i), t, script[0].now)
         + RunningTime(Step(m, script[0].command, script[0].now), script[1..], i, script[0].now, now)
  }

  /** Time row i spent cancelled with its clock going. */
  function HiddenTime(m: Match, script: seq<Timed>, i: nat, t: Time, now: Time): int
    decreases |script|
  {
    if script == [] then Span(Hidden(m, i), t, now)
    else Span(Hidden(m, i), t, script[0].now)
         + HiddenTime(Step(m, script[0].command, script[0].now), script[1..], i, script[0].now, now)
  }

  lemma {:induction false} RunTicks(m: Match, script: seq<Timed>, i: nat, t: Time, now: Time)
    requires PhaseOK(m) && StopsOK(m) && TimedRun(m, script, t) && NotEnded(Run(m, script), i)
    ensures NotEnded(m, i) && PhaseOK(Run(m, script)) && StopsOK(Run(m, script))
    ensures TicksAt(Run(m, script), i, now)
            == TicksAt(m, i, t) + RunningTime(m, script, i, t, now) + HiddenTime(m, script, i, t, now)
    decreases |script|
  {
    if script == [] {
      ClockPasses(m, i, t, now);
    } else {
      var command, next := script[0].command, script[0].now;
      StepPhase(m, command, next);
      StepStops(m, command, next);
      RunTicks(Step(m, command, next), script[1..], i, next, now);
      StepTicks(m, command, next, i);
      ClockPasses(m, i, t, next);
    }
  }

  lemma NewMatchStops(rules: RulesVersion, judges: nat, duration: nat, intermission: nat)
    ensures StopsOK(NewMatch(rules, judges, duration, intermission))
  {}

  lemma {:induction false} TimesAreNatural(m: Match, script: seq<Timed>, i: nat, t: Time, now: Time)
    requires TimedRun(m, script, t) && LastTime(script, t) <= now
    ensures RunningTime(m, script, i, t, now) >= 0 && HiddenTime(m, script, i, t, now) >= 0
    decreases |script|
  {
    if script != [] {
      assert LastTime(script[1..], script[0].now) == LastTime(script, t);
      TimesAreNatural(Step(m, script[0].command, script[0].now), script[1..], i, script[0].now, now);
    }
  }

  /**
   * Whatever happened to a new match, the elapsed time of a running round is, up to its duration, the time it was
   * live and running plus the time a reset hid it unpaused. So it is the running time exactly when nothing was
   * hidden; past the deadline it is the duration.
   */
  lemma ElapsedIsRunningTimeExactly(
      rules: RulesVersion, judges: nat, duration: nat, intermission: nat, script: seq<Timed>, i: nat, now: Time)
    requires var m := NewMatch(rules, judges, duration, intermission);
             TimedRun(m, script, 0) && LastTime(script, 0) <= now && Running(Run(m, script), i)
    ensures var m := NewMatch(rules, judges, duration, intermission);
            var r := Run(m, script).rounds[i].val;
            var ran, hid := RunningTime(m, script, i, 0, now), HiddenTime(m, script, i, 0, now);
            && ran >= 0 && hid >= 0
            && ElapsedMs(r, now) == (if now <= r.endsAt then ran + hid else r.duration)
            && (now <= r.endsAt <==> ran + hid <= r.duration)
            && (now <= r.endsAt ==> (ElapsedMs(r, now) == ran <==> hid == 0))
  {
    var m := NewMatch(rules, judges, duration, intermission);
    NewMatchPhase(rules, judges, duration, intermission);
    NewMatchStops(rules, judges, duration, intermission);
    RunTicks(m, script, i, 0, now);
    TimesAreNatural(m, script, i, 0, now);
  }

  /** The recorded end of a round is the instant its clock shows the duration, however late the wake-up comes. */
  lemma EndsAtItsDuration(m: Match, i: nat, now: Time)
    requires StopsFit(m.rounds, None, m.status) && Expires(m, i, now) && Live(m.rounds, i)
    ensures i < |Step(m, Expire(i), now).rounds|
    ensures var end := Step(m, Expire(i), now).rounds[i].val.endedAt;
            end.Some? && end.value <= now && TicksAt(m, i, end.value) == m.rounds[i].val.duration
  {
    assert StopFits(m.rounds[i].val, m.status);
    ResolveDueAdds(Ended(m, i), now);
  }

  // ---------------------------------------------------------------- when nothing is hidden

  /** No undo that is accepted brings back a round whose clock was left going. */
  ghost predicate ReturnsNoClock(m: Match, script: seq<Timed>)
    decreases |script|
  {
    script != [] ==>
      && (script[0].command.Undo? && UndoAllowed(m, script[0].command.operation) ==>
            GivesNoClock(m, m.operations[script[0].command.operation].audit))
      && ReturnsNoClock(Step(m, script[0].command, script[0].now), script[1..])
  }

  ghost predicate GivesNoClock(m: Match, k: nat) {
    forall i: nat :: Ticking(m, i) ==> m.rounds[i].stamp != Some(k)
  }

  lemma HiddenStays(m: Match, command: Command, now: Time, i: nat)
    requires StampsKnown(m) && Permitted(m, command, now) && Hidden(m, i)
    requires command.Undo? && UndoAllowed(m, command.operation) ==>
             GivesNoClock(m, m.operations[command.operation].audit)
    ensures Hidden(Step(m, command, now), i)
  {
    var k := m.rounds[i].stamp.value;
    if !(command.Undo? && command.operation < |m.operations| && m.operations[command.operation].audit == k) {
      StepCarries(m, command, now, k);
    }
  }

  lemma {:induction false} HiddenForGood(m: Match, script: seq<Timed>, t: Time, i: nat)
    requires StampsKnown(m) && AuditsOrdered(m) && TimedRun(m, script, t) && Hidden(m, i) && ReturnsNoClock(m, script)
    ensures Hidden(Run(m, script), i)
    decreases |script|
  {
    if script != [] {
      HiddenStays(m, script[0].command, script[0].now, i);
      StepCarries(m, script[0].command, script[0].now, m.nextAudit + 1);
      StepOperations(m, script[0].command, script[0].now);
      HiddenForGood(Step(m, script[0].command, script[0].now), script[1..], script[0].now, i);
    }
  }

  /** Then a round that is running at the end was never hidden. */
  lemma {:induction false} NothingHidden(m: Match, script: seq<Timed>, i: nat, t: Time, now: Time)
    requires StampsKnown(m) && AuditsOrdered(m) && TimedRun(m, script, t) && ReturnsNoClock(m, script)
    requires Running(Run(m, script), i)
    ensures HiddenTime(m, script, i, t, now) == 0
    decreases |script|
  {
    if Hidden(m, i) { HiddenForGood(m, script, t, i); }
    if script != [] {
      StepCarries(m, script[0].command, script[0].now, m.nextAudit + 1);
      StepOperations(m, script[0].command, script[0].now);
      NothingHidden(Step(m, script[0].command, script[0].now), script[1..], i, script[0].now, now);
    }
  }

  /** Without such an undo the clock counts running time and nothing else. */
  lemma ElapsedIsRunningTime(
      rules: RulesVersion, judges: nat, duration: nat, intermission: nat, script: seq<Timed>, i: nat, now: Time)
    requires var m := NewMatch(rules, judges, duration, intermission);
             && TimedRun(m, script, 0) && LastTime(script, 0) <= now && Running(Run(m, script), i)
             && ReturnsNoClock(m, script)
    ensures var m := NewMatch(rules, judges, duration, intermission);
            var r := Run(m, script).rounds[i].val;
            ElapsedMs(r, now) == if now <= r.endsAt then RunningTime(m, script, i, 0, now) else r.duration
  {
    var m := NewMatch(rules, judges, duration, intermission);
    NewMatchPhase(rules, judges, duration, intermission);
    NothingHidden(m, script, i, 0, now);
    ElapsedIsRunningTimeExactly(rules, judges, duration, intermission, script, i, now);
  }

  // ---------------------------------------------------------------- a reset hides time

  lemma {:induction false} TimesSnoc(m: Match, script: seq<Timed>, c: Timed, i: nat, t: Time, now: Time)
    ensures RunningTime(m, script + [c], i, t, now)
            == RunningTime(m, script, i, t, c.now) + Span(Running(Run(m, script + [c]), i), c.now, now)
    ensures HiddenTime(m, script + [c], i, t, now)
            == HiddenTime(m, script, i, t, c.now) + Span(Hidden(Run(m, script + [c]), i), c.now, now)
    decreases |script|
  {
    var more := script + [c];
    if script == [] {
      assert more[1..] == [];
    } else {
      assert more[0] == script[0] && more[1..] == script[1..] + [c];
      TimesSnoc(Step(m, script[0].command, script[0].now), script[1..], c, i, script[0].now, now);
    }
  }

  // ---------------------------------------------------------------- the windows of a round in competition time

  /** What the clock of a round shows: nothing moves it any more once the round has ended. */
  function Shown(r: Round, t: Time): int {
    if r.endedAt.Some? then r.duration else if Ticks(r, t) > r.duration then r.duration else Ticks(r, t)
  }

  /** A window opened short of the duration, and the clock has not gone back since. */
  predicate WindowClocked(rounds: Table<Round>, w: Window, t: Time) {
    w.round < |rounds| && w.elapsed < rounds[w.round].val.duration && w.elapsed <= Shown(rounds[w.round].val, t)
  }

  ghost predicate WindowsClocked(m: Match, t: Time) {
    forall w :: 0 <= w < |m.windows| ==> WindowClocked(m.rounds, m.windows[w].val, t)
  }

  /** The windows of one round, in the order they were opened, show non-decreasing competition time. */
  ghost predicate WindowsInStep(windows: Table<Window>) {
    forall u, v :: 0 <= u < v < |windows| && windows[u].val.round == windows[v].val.round ==>
      windows[u].val.elapsed <= windows[v].val.elapsed
  }

  ghost predicate ClocksStarted(m: Match, t: Time) {
    forall i :: 0 <= i < |m.rounds| && m.rounds[i].val.endedAt.None? ==> Ticks(m.rounds[i].val, t) >= 0
  }

  ghost predicate ClocksOK(m: Match, t: Time) {
    ClocksStarted(m, t) && WindowsClocked(m, t) && WindowsInStep(m.windows)
  }

  lemma ClocksAdvance(m: Match, t: Time, now: Time)
    requires ClocksOK(m, t) && t <= now
    ensures ClocksOK(m, now)
  {
    forall w | 0 <= w < |m.windows| ensures WindowClocked(m.rounds, m.windows[w].val, now) {
      assert WindowClocked(m.rounds, m.windows[w].val, t);
    }
  }

  lemma ClocksStartedKept(m: Match, command: Command, now: Time)
    requires StopsFit(m.rounds, None, m.status) && ClocksStarted(m, now)
    ensures ClocksStarted(Step(m, command, now), now)
  {
    var after := Step(m, command, now);
    forall i | 0 <= i < |after.rounds| && after.rounds[i].val.endedAt.None?
      ensures Ticks(after.rounds[i].val, now) >= 0
    {
      StepTicks(m, command, now, i);
      assert TicksAt(after, i, now) == TicksAt(m, i, now);
    }
  }

  /** A round never shows less after a step than before it. */
  lemma ShownKept(m: Match, command: Command, now: Time, i: nat)
    requires StopsFit(m.rounds, None, m.status) && i < |m.rounds|
    ensures i < |Step(m, command, now).rounds|
    ensures Shown(m.rounds[i].val, now) <= Shown(Step(m, command, now).rounds[i].val, now)
    ensures Step(m, command, now).rounds[i].val.duration == m.rounds[i].val.duration
  {
    StepColumns(m, command, now);
    assert SameRound(m.rounds[i].val, Step(m, command, now).rounds[i].val);
    if Step(m, command, now).rounds[i].val.endedAt.None? {
      StepTicks(m, command, now, i);
      assert TicksAt(Step(m, command, now), i, now) == TicksAt(m, i, now);
    }
  }

  lemma OldWindowsClocked(m: Match, command: Command, now: Time, w: nat)
    requires StopsFit(m.rounds, None, m.status) && WindowsClocked(m, now) && w < |m.windows|
    ensures w < |Step(m, command, now).windows|
    ensures WindowClocked(Step(m, command, now).rounds, Step(m, command, now).windows[w].val, now)
  {
    assert WindowClocked(m.rounds, m.windows[w].val, now);
    StepColumns(m, command, now);
    assert SameWindow(m.windows[w].val, Step(m, command, now).windows[w].val);
    ShownKept(m, command, now, m.windows[w].val.round);
  }

  // ---------------------------------------------------------------- only an accepted vote opens a window

  lemma VoteOpens(m: Match, found: nat, judge: Judge, c: Color, now: Time) returns (added: bool)
    ensures var after := Step(m, CastVote(found, judge, c), now);
            && after.rounds == m.rounds && |after.windows| == |m.windows| + (if added then 1 else 0)
            && (added ==>
                  && OpenForVotes(m, found) && now < m.rounds[found].val.endsAt
                  && after.windows[|m.windows|].val.round == found
                  && after.windows[|m.windows|].val.elapsed == ElapsedMs(m.rounds[found].val, now))
  {
    added := |Step(m, CastVote(found, judge, c), now).windows| > |m.windows|;
  }

  lemma OthersOpenNone(m: Match, command: Command, now: Time)
    requires !command.CastVote?
    ensures |Step(m, command, now).windows| == |m.windows|
  {
    match command
    case Expire(i) => if Expires(m, i, now) { ResolveDueAdds(Ended(m, i), now); }
    case Cancel(entire, retracted) => var ids := CancelStep(m, entire, retracted, now);
    case Restart => var a := RestartStep(m, now);
    case AppealRegulation(key, red, blue) => var accepted, added := RegulationStep(m, key, red, blue, now);
    case AppealOvertime(key, red, blue) => var round := OvertimeStep(m, key, red, blue, now);
    case _ =>
  }

  /** A vote is accepted only while the clock of its round is going, and short of the duration. */
  lemma NewWindowClocked(m: Match, found: nat, judge: Judge, c: Color, now: Time)
    requires StopsFit(m.rounds, None, m.status) && ClocksStarted(m, now) && Permitted(m, CastVote(found, judge, c), now)
    requires |Step(m, CastVote(found, judge, c), now).windows| > |m.windows|
    ensures var after := Step(m, CastVote(found, judge, c), now);
            var w := after.windows[|m.windows|].val;
            && WindowClocked(after.rounds, w, now)
            && w.round == found && w.elapsed == Shown(m.rounds[found].val, now)
  {
    var added := VoteOpens(m, found, judge, c, now);
    assert StopFits(m.rounds[found].val, m.status);
    assert Ticks(m.rounds[found].val, now) >= 0;
  }

  lemma StepClocks(m: Match, command: Command, now: Time)
    requires StopsFit(m.rounds, None, m.status) && ClocksOK(m, now) && Permitted(m, command, now)
    ensures ClocksOK(Step(m, command, now), now)
  {
    var after := Step(m, command, now);
    ClocksStartedKept(m, command, now);
    StepColumns(m, command, now);
    if command.CastVote? {
      var added := VoteOpens(m, command.found, command.judge, command.color, now);
      if added { NewWindowClocked(m, command.found, command.judge, command.color, now); }
    } else {
      OthersOpenNone(m, command, now);
    }
    forall w | 0 <= w < |after.windows| ensures WindowClocked(after.rounds, after.windows[w].val, now) {
      if w < |m.windows| { OldWindowsClocked(m, command, now, w); }
    }
    WindowsStayInStep(m, after, now);
  }

  lemma WindowsStayInStep(m: Match, after: Match, now: Time)
    requires WindowsInStep(m.windows) && WindowsClocked(m, now)
    requires |m.windows| <= |after.windows| <= |m.windows| + 1
    requires forall w :: 0 <= w < |m.windows| ==> SameWindow(m.windows[w].val, after.windows[w].val)
    requires |after.windows| > |m.windows| ==>
               var w := after.windows[|m.windows|].val;
               w.round < |m.rounds| && w.elapsed == Shown(m.rounds[w.round].val, now)
    ensures WindowsInStep(after.windows)
  {
    forall u, v | 0 <= u < v < |after.windows| && after.windows[u].val.round == after.windows[v].val.round
      ensures after.windows[u].val.elapsed <= after.windows[v].val.elapsed
    {
      assert SameWindow(m.windows[u].val, after.windows[u].val) && WindowClocked(m.rounds, m.windows[u].val, now);
      if v < |m.windows| { assert SameWindow(m.windows[v].val, after.windows[v].val); }
    }
  }

  /**
   * Over every permitted run of a new match in clock order: each window was opened short of its round's duration,
   * and the windows of a round never go back in competition time.
   */
  lemma {:induction false} RunClocks(m: Match, script: seq<Timed>, t: Time)
    requires PhaseOK(m) && StopsOK(m) && ClocksOK(m, t) && TimedRun(m, script, t)
    ensures ClocksOK(Run(m, script), LastTime(script, t))
    decreases |script|
  {
    if script != [] {
      var command, now := script[0].command, script[0].now;
      ClocksAdvance(m, t, now);
      StepClocks(m, command, now);
      StepPhase(m, command, now);
      StepStops(m, command, now);
      RunClocks(Step(m, command, now), script[1..], now);
    }
  }

  lemma WindowsOfAnyRun(rules: RulesVersion, judges: nat, duration: nat, intermission: nat, script: seq<Timed>)
    requires TimedRun(NewMatch(rules, judges, duration, intermission), script, 0)
    ensures var m := Run(NewMatch(rules, judges, duration, intermission), script);
            && WindowsInStep(m.windows)
            && forall w :: 0 <= w < |m.windows| ==>
                 m.windows[w].val.round < |m.rounds|
                     && m.windows[w].val.elapsed < m.rounds[m.windows[w].val.round].val.duration
  {
    NewMatchPhase(rules, judges, duration, intermission);
    NewMatchStops(rules, judges, duration, intermission);
    RunClocks(NewMatch(rules, judges, duration, intermission), script, 0);
    var m := Run(NewMatch(rules, judges, duration, intermission), script);
    forall w | 0 <= w < |m.windows|
      ensures m.windows[w].val.round < |m.rounds|
      ensures m.windows[w].val.elapsed < m.rounds[m.windows[w].val.round].val.duration
    {
      assert WindowClocked(m.rounds, m.windows[w].val, LastTime(script, 0));
    }
  }
}
