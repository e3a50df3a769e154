/** Every permitted command keeps the phase table. */
module MatchPhaseSteps {
  import opened Prelude
  import opened SportRules
  import opened MatchTables
  import opened MatchModel
  import opened MatchCommands
  import opened MatchHistory
  import opened MatchColumns
  import opened MatchPhases

  // ---------------------------------------------------------------- clock commands

  lemma StartFits(m: Match, now: Time)
    requires Fits(m)
    ensures Fits(Step(m, Start, now))
  {
    var after := Step(m, Start, now);
    if StartRound(m, now).Success? {
      forall kind ensures Held(after.rounds, None, kind) == Expected(after.status, after.currentRound, kind) {
        HeldAppend(m.rounds, after.rounds[|m.rounds|].val, kind);
        assert Held(m.rounds, None, kind) == Expected(m.status, m.currentRound, kind);
      }
    }
  }

  lemma PauseFits(m: Match, now: Time)
    requires Fits(m)
    ensures Fits(Step(m, Pause, now))
  {
    var after := Step(m, Pause, now);
    if PauseRound(m, now).Success? {
      var i := LatestOpen(m.rounds, RunningNumber(m.status).value).value;
      forall kind ensures Held(after.rounds, None, kind) == Expected(after.status, after.currentRound, kind) {
        HeldSet(m.rounds, i, after.rounds[i].val, kind);
        assert Held(m.rounds, None, kind) == Expected(m.status, m.currentRound, kind);
      }
    }
  }

  lemma ResumeFits(m: Match, now: Time)
    requires Fits(m)
    ensures Fits(Step(m, Resume, now))
  {
    var after := Step(m, Resume, now);
    if ResumeRound(m, now).Success? {
      var i := LatestOpen(m.rounds, PausedNumber(m.status).value).value;
      forall kind ensures Held(after.rounds, None, kind) == Expected(after.status, after.currentRound, kind) {
        HeldSet(m.rounds, i, after.rounds[i].val, kind);
        assert Held(m.rounds, None, kind) == Expected(m.status, m.currentRound, kind);
      }
    }
  }

  lemma {:induction false} ResolveDueKeepsRounds(m: Match, now: Time)
    ensures ResolveDue(m, now).rounds == m.rounds && ResolveDue(m, now).appeals == m.appeals
    ensures ResolveDue(m, now).startedAt == m.startedAt && ResolveDue(m, now).currentRound == m.currentRound
    decreases Unresolved(m.windows)
  {
    var first := FirstPending(m.windows, Some(now));
    if first.Some? {
      var resolved := ResolveWindow(m, first.value, now);
      ResolvingOne(m.windows, first.value, resolved.windows[first.value]);
      ResolveDueKeepsRounds(resolved, now);
    }
  }

  function ExpiredStatus(m: Match, i: nat): Status
    requires i < |m.rounds|
  {
    EndedStatus(m.rounds[i].val, m.rules)
  }

  lemma ExpireShape(m: Match, i: nat, now: Time)
    requires Expires(m, i, now)
    ensures var after := Step(m, Expire(i), now);
            && after.rounds == Ended(m, i).rounds && after.appeals == m.appeals
            && after.status == ExpiredStatus(m, i) && after.currentRound == m.currentRound
                 && after.startedAt == m.startedAt
  {
    ResolveDueKeepsRounds(Ended(m, i), now);
  }

  /** Ending row i counts for the phase exactly when the row is live. */
  lemma ExpireFits(m: Match, i: nat, now: Time)
    requires Fits(m) && Expires(m, i, now) && Live(m.rounds, i)
    ensures Fits(Step(m, Expire(i), now))
  {
    var after := Step(m, Expire(i), now);
    ExpireShape(m, i, now);
    forall kind ensures Held(after.rounds, None, kind) == Expected(after.status, after.currentRound, kind) {
      HeldSet(m.rounds, i, after.rounds[i].val, kind);
      assert Held(m.rounds, None, kind) == Expected(m.status, m.currentRound, kind);
    }
  }

  // ---------------------------------------------------------------- cancelling

  lemma MovesLive(m: Match, ids: set<nat>, entire: bool, now: Time, kind: Kind)
    requires StampsKnown(m)
    ensures Held(Cancelled(m, ids, entire, now).rounds, None, kind)
            + Held(Cancelled(m, ids, entire, now).rounds, Some(m.nextAudit), kind)
            == Held(m.rounds, None, kind)
  {
    HeldShifted(m.rounds, ids, m.nextAudit, kind);
  }

  /** Once the resulting phase fits, the new operation balances. */
  lemma CancelBalances(m: Match, ids: set<nat>, entire: bool, now: Time)
    requires StampsKnown(m) && Fits(m)
    requires var after := Cancelled(m, ids, entire, now); RoundsFit(after.rounds, after.status, after.currentRound)
    ensures OperationFits(Cancelled(m, ids, entire, now), Cancelled(m, ids, entire, now).operations[|m.operations|])
  {
    var after := Cancelled(m, ids, entire, now);
    forall kind
      ensures Expected(after.status, after.currentRound, kind) + Held(after.rounds, Some(m.nextAudit), kind)
              == Expected(m.status, m.currentRound, kind)
    {
      MovesLive(m, ids, entire, now, kind);
      assert Held(after.rounds, None, kind) == Expected(after.status, after.currentRound, kind);
      assert Held(m.rounds, None, kind) == Expected(m.status, m.currentRound, kind);
    }
  }

  lemma CancelAllFits(m: Match, now: Time)
    requires Fits(m)
    ensures Fits(Cancelled(m, LiveRounds(m), true, now))
  {
    var ids := LiveRounds(m);
    var after := Cancelled(m, ids, true, now);
    forall kind ensures Held(after.rounds, None, kind) == Expected(after.status, after.currentRound, kind) {
      HeldEmptied(m.rounds, ids, m.nextAudit, kind);
    }
  }

  lemma WithoutRegulation(m: Match, number: nat, kind: Kind)
    ensures Held(Stamp(m.rounds, LiveRegulation(m, number), m.nextAudit), None, kind)
            == if kind.stage == Regulation && kind.number == number then 0 else Held(m.rounds, None, kind)
  {
    if kind.stage == Regulation && kind.number == number {
      HeldEmptied(m.rounds, LiveRegulation(m, number), m.nextAudit, kind);
    } else {
      HeldUntouched(m.rounds, LiveRegulation(m, number), m.nextAudit, kind);
    }
  }

  lemma CancelRound2Fits(m: Match, now: Time)
    requires Fits(m) && LiveRegulation(m, 2) != {}
    requires m.status == RegulationAppeal || (m.currentRound == Some(2)
                                              && (m.status == Finished || m.status == AwaitingResultSave))
    ensures Fits(Cancelled(m, LiveRegulation(m, 2), false, now))
  {
    var ids := LiveRegulation(m, 2);
    var after := Cancelled(m, ids, false, now);
    assert after.status == Break;
    forall kind ensures Held(after.rounds, None, kind) == Expected(after.status, after.currentRound, kind) {
      WithoutRegulation(m, 2, kind);
      assert Held(m.rounds, None, kind) == Expected(m.status, m.currentRound, kind);
    }
  }

  lemma CancelRound1Fits(m: Match, now: Time)
    requires Fits(m) && m.status == Break && LiveRegulation(m, 1) != {}
    ensures Fits(Cancelled(m, LiveRegulation(m, 1), false, now))
  {
    var ids := LiveRegulation(m, 1);
    var after := Cancelled(m, ids, false, now);
    var i :| i in ids;
    assert AnyRound(m, ids, Regulation, 1);
    forall kind ensures Held(after.rounds, None, kind) == Expected(after.status, after.currentRound, kind) {
      WithoutRegulation(m, 1, kind);
      assert Held(m.rounds, None, kind) == Expected(m.status, m.currentRound, kind);
    }
  }

  /** In the overtime phases the live overtime round is the only one, and the phase without it is OVERTIME_READY. */
  lemma WithoutOvertime(m: Match, t: nat, kind: Kind)
    requires Fits(m) && OvertimePhase(m.status) && LiveOvertime(m.rounds, t, false)
    ensures Held(Stamp(m.rounds, {t}, m.nextAudit), None, kind) == RegulationEnded(kind)
  {
    LiveKindExpected(m, t);
    HeldOne(m.rounds, t, m.nextAudit, kind);
    assert Held(m.rounds, None, kind) == Expected(m.status, m.currentRound, kind);
  }

  lemma CancelOvertimeFits(m: Match, t: nat, now: Time)
    requires Fits(m) && OvertimePhase(m.status) && LiveOvertime(m.rounds, t, false)
    ensures Fits(Cancelled(m, {t}, false, now))
  {
    var after := Cancelled(m, {t}, false, now);
    assert AnyRound(m, {t}, Overtime, 0);
    forall kind ensures Held(after.rounds, None, kind) == Expected(after.status, after.currentRound, kind) {
      WithoutOvertime(m, t, kind);
    }
  }

  lemma CancelFits(m: Match, entire: bool, ids: set<nat>, now: Time)
    requires Fits(m) && ids == SelectedRounds(m, entire) && ids != {}
    ensures Fits(Cancelled(m, ids, entire, now))
  {
    if entire {
      CancelAllFits(m, now);
    } else if m.status == RegulationAppeal {
      CancelRound2Fits(m, now);
    } else if OvertimePhase(m.status) {
      CancelOvertimeFits(m, TopOvertime(m.rounds, false).value, now);
    } else if m.status == Break && m.currentRound == Some(1) {
      CancelRound1Fits(m, now);
    } else {
      CancelRound2Fits(m, now);
    }
  }

  // ---------------------------------------------------------------- undoing

  lemma UndoFits(m: Match, o: nat)
    requires Fits(m) && UndoAllowed(m, o) && OperationFits(m, m.operations[o])
    ensures Fits(Undone(m, o))
  {
    var op := m.operations[o];
    var after := Undone(m, o);
    forall kind ensures Held(after.rounds, None, kind) == Expected(after.status, after.currentRound, kind) {
      HeldCleared(m.rounds, op.audit, kind);
      assert Held(m.rounds, None, kind) == Expected(m.status, m.currentRound, kind);
      assert Expected(op.resultingStatus, op.resultingCurrentRound, kind) + Held(m.rounds, Some(op.audit), kind)
             == Expected(op.previousStatus, op.previousCurrentRound, kind);
    }
  }

  // ---------------------------------------------------------------- leaving

  lemma ExitBalances(m: Match, mode: ExitMode, now: Time)
    requires StampsKnown(m) && Fits(m)
    requires var after := Exited(m, mode, now); RoundsFit(after.rounds, after.status, after.currentRound)
    ensures OperationFits(Exited(m, mode, now), Exited(m, mode, now).operations[|m.operations|])
  {
    var after := Exited(m, mode, now);
    forall kind
      ensures Expected(after.status, after.currentRound, kind) + Held(after.rounds, Some(m.nextAudit), kind)
              == Expected(m.status, m.currentRound, kind)
    {
      HeldShifted(m.rounds, RoundsNumbered(m, CancelledNumbers(mode)), m.nextAudit, kind);
      assert Held(after.rounds, None, kind) == Expected(after.status, after.currentRound, kind);
      assert Held(m.rounds, None, kind) == Expected(m.status, m.currentRound, kind);
    }
  }

  /** Kinds with a selected number go, the others stay. */
  lemma WithoutNumbers(m: Match, numbers: set<nat>, kind: Kind)
    ensures Held(Stamp(m.rounds, RoundsNumbered(m, numbers), m.nextAudit), None, kind)
            == if kind.number in numbers then 0 else Held(m.rounds, None, kind)
  {
    if kind.number in numbers {
      HeldEmptied(m.rounds, RoundsNumbered(m, numbers), m.nextAudit, kind);
    } else {
      HeldUntouched(m.rounds, RoundsNumbered(m, numbers), m.nextAudit, kind);
    }
  }

  lemma NoLiveOvertime(m: Match, kind: Kind)
    requires !HasLiveOvertime(m) && kind.stage == Overtime
    ensures Held(m.rounds, None, kind) == 0
  {
    if Held(m.rounds, None, kind) != 0 {
      CountIsZero(RoundTags(m.rounds), (None, kind));
      var i :| 0 <= i < |m.rounds| && RoundTags(m.rounds)[i] == (None, kind);
      assert LiveOvertime(m.rounds, i, false);
    }
  }

  lemma EndedRegulationExpected(m: Match, number: nat)
    requires Fits(m) && HasEnded(m, number) && !HasLiveOvertime(m)
    ensures Expected(m.status, m.currentRound, Kind(Regulation, number, true)) >= 1
  {
    var i :| 0 <= i < |m.rounds| && m.rounds[i].stamp.None? && m.rounds[i].val.number == number
        && m.rounds[i].val.endedAt.Some?;
    assert !LiveOvertime(m.rounds, i, false);
    LiveKindExpected(m, i);
  }

  lemma ExitAllKind(m: Match, kind: Kind)
    requires Fits(m)
    ensures Held(Stamp(m.rounds, RoundsNumbered(m, {1, 2}), m.nextAudit), None, kind) == 0
  {
    WithoutNumbers(m, {1, 2}, kind);
    assert Held(m.rounds, None, kind) == Expected(m.status, m.currentRound, kind);
  }

  lemma ExitAllFits(m: Match, now: Time)
    requires Fits(m)
    ensures Fits(Exited(m, CancelAll, now))
  {
    var after := Exited(m, CancelAll, now);
    forall kind ensures Held(after.rounds, None, kind) == 0 { ExitAllKind(m, kind); }
  }

  lemma ExitKeepKind(m: Match, mode: ExitMode, kind: Kind)
    requires Fits(m) && ExitAllowed(m, mode) && (mode == KeepRound1 || mode == KeepRounds1And2) && !HasLiveOvertime(m)
    ensures (if kind.number in CancelledNumbers(mode) then 0 else Held(m.rounds, None, kind))
            == Expected(ExitStatus(m, mode), ExitRound(m, mode), kind)
    ensures m.status != Waiting
  {
    EndedRegulationExpected(m, 1);
    if mode == KeepRounds1And2 { EndedRegulationExpected(m, 2); }
    assert Held(m.rounds, None, kind) == Expected(m.status, m.currentRound, kind);
    if kind.stage == Overtime { NoLiveOvertime(m, kind); }
  }

  lemma ExitKeepFits(m: Match, mode: ExitMode, now: Time)
    requires Fits(m) && ExitAllowed(m, mode) && (mode == KeepRound1 || mode == KeepRounds1And2) && !HasLiveOvertime(m)
    ensures Fits(Exited(m, mode, now))
  {
    var after := Exited(m, mode, now);
    ExitKeepKind(m, mode, R1_OPEN);
    forall kind ensures Held(after.rounds, None, kind) == Expected(after.status, after.currentRound, kind) {
      WithoutNumbers(m, CancelledNumbers(mode), kind);
      ExitKeepKind(m, mode, kind);
    }
  }

  lemma ExitV2Fits(m: Match, now: Time)
    requires Fits(m) && ExitAllowed(m, KeepV2Phase)
    ensures Fits(Exited(m, KeepV2Phase, now))
  {
    var after := Exited(m, KeepV2Phase, now);
    forall kind ensures Held(after.rounds, None, kind) == Expected(after.status, after.currentRound, kind) {
      WithoutNumbers(m, {}, kind);
      assert Held(m.rounds, None, kind) == Expected(m.status, m.currentRound, kind);
    }
  }

  /** A live overtime round fits neither the break nor the end of regulation. */
  lemma OvertimeDoesNotFit(m: Match, i: nat)
    requires LiveOvertime(m.rounds, i, false) && (m.status == Break || m.status == AwaitingResultSave)
    ensures !Fits(m)
  {
    if Fits(m) { LiveKindExpected(m, i); }
  }

  lemma OvertimeSurvivesExit(m: Match, mode: ExitMode, now: Time, i: nat)
    requires Fits(m) && (mode == KeepRound1 || mode == KeepRounds1And2) && LiveOvertime(m.rounds, i, false)
    ensures LiveOvertime(Exited(m, mode, now).rounds, i, false)
  {
    LiveKindExpected(m, i);
    assert m.rounds[i].val.number == 1;
  }

  /** The exits that keep regulation rounds keep the phase table exactly when no overtime round is live. */
  lemma ExitKeepsPhaseExactly(m: Match, mode: ExitMode, now: Time)
    requires Fits(m) && ExitAllowed(m, mode) && (mode == KeepRound1 || mode == KeepRounds1And2)
    ensures Fits(Exited(m, mode, now)) <==> !HasLiveOvertime(m)
  {
    if HasLiveOvertime(m) {
      var i :| 0 <= i < |m.rounds| && LiveOvertime(m.rounds, i, false);
      OvertimeSurvivesExit(m, mode, now, i);
      OvertimeDoesNotFit(Exited(m, mode, now), i);
    } else {
      ExitKeepFits(m, mode, now);
    }
  }

  // ---------------------------------------------------------------- results

  lemma PhaseOnly(m: Match, after: Match)
    requires Fits(m) && after.rounds == m.rounds && CurrentFits(after.status, after.currentRound)
    requires after.status == Waiting <==> after.startedAt.None?
    requires forall kind :: Expected(after.status, after.currentRound, kind) == Expected(m.status, m.currentRound, kind)
    ensures Fits(after)
  {
    forall kind ensures Held(after.rounds, None, kind) == Expected(after.status, after.currentRound, kind) {
      assert Held(m.rounds, None, kind) == Expected(m.status, m.currentRound, kind);
    }
  }

  lemma CompleteFits(m: Match, now: Time)
    requires Fits(m)
    ensures Fits(Step(m, Complete, now))
  {
    PhaseOnly(m, Step(m, Complete, now));
  }

  lemma AppealedFits(m: Match, appeal: Appeal)
    requires Fits(m) && m.status == (if appeal.scope == Regulation then RegulationAppeal else OvertimeAppeal)
    ensures Fits(Appealed(m, appeal))
  {
    PhaseOnly(m, Appealed(m, appeal));
  }

  lemma RegulationAppealFits(m: Match, key: string, red: Adjustment, blue: Adjustment, now: Time)
    requires Fits(m)
    ensures Fits(Step(m, AppealRegulation(key, red, blue), now))
  {
    var accepted, added := RegulationStep(m, key, red, blue, now);
    PhaseOnly(m, CleanUpAppeals(m));
    if accepted && added.Some? { AppealedFits(CleanUpAppeals(m), added.value); }
  }

  lemma OvertimeAppealFits(m: Match, key: string, red: Adjustment, blue: Adjustment, now: Time)
    requires Fits(m)
    ensures Fits(Step(m, AppealOvertime(key, red, blue), now))
  {
    var round := OvertimeStep(m, key, red, blue, now);
    if round.Some? { AppealedFits(m, OvertimeAppealOver(m, round.value, key, red, blue, now)); }
  }

  lemma ChooseFits(m: Match, winner: Color, now: Time)
    requires Fits(m)
    ensures Fits(Step(m, Choose(winner), now))
  {
    PhaseOnly(m, Step(m, Choose(winner), now));
  }

  lemma PublishFits(m: Match, key: string, now: Time)
    requires Fits(m)
    ensures Fits(Step(m, Publish(key), now))
  {
    var outcome := PublishStep(m, key, now);
    PhaseOnly(m, Step(m, Publish(key), now));
  }

  lemma RestartFits(m: Match, a: nat)
    requires Fits(m) && SourcesKnown(m) && m.status == OvertimeTiebreakDecision
    requires a < |m.appeals| && m.appeals[a].val.scope == Overtime && Live(m.rounds, m.appeals[a].val.source)
    ensures Fits(Restarted(m, a))
  {
    var source := m.appeals[a].val.source;
    var after := Restarted(m, a);
    assert after.rounds == Stamp(m.rounds, {source}, m.nextAudit);
    assert LiveOvertime(m.rounds, source, false);
    forall kind ensures Held(after.rounds, None, kind) == Expected(after.status, after.currentRound, kind) {
      WithoutOvertime(m, source, kind);
    }
  }

  lemma RestartOverStaleAppeal(m: Match, a: nat)
    requires Fits(m) && SourcesKnown(m) && m.status == OvertimeTiebreakDecision
    requires a < |m.appeals| && !Live(m.rounds, m.appeals[a].val.source)
    ensures !Fits(Restarted(m, a))
  {
    var after := Restarted(m, a);
    var i := ExpectedExists(m, OT_ENDED);
    assert Live(after.rounds, i) && after.rounds[i] == m.rounds[i];
    if Fits(after) { LiveKindExpected(after, i); }
  }

  /** Restarting over the appeal the lookup finds keeps the phase table exactly when that appeal's round is live. */
  lemma RestartKeepsPhaseExactly(m: Match, a: nat)
    requires Fits(m) && SourcesKnown(m) && m.status == OvertimeTiebreakDecision
    requires TopOvertimeAppeal(m.appeals) == Some(a)
    ensures Fits(Restarted(m, a)) <==> Live(m.rounds, m.appeals[a].val.source)
  {
    if Live(m.rounds, m.appeals[a].val.source) { RestartFits(m, a); } else { RestartOverStaleAppeal(m, a); }
  }

  /** A wake-up for an expired row keeps the phase table exactly when the row is live. */
  lemma ExpiryKeepsPhaseExactly(m: Match, i: nat, now: Time)
    requires Fits(m) && Expires(m, i, now)
    ensures Fits(Step(m, Expire(i), now)) <==> Live(m.rounds, i)
  {
    var after := Step(m, Expire(i), now);
    ExpireShape(m, i, now);
    if Live(m.rounds, i) {
      ExpireFits(m, i, now);
    } else {
      var open := Kind(m.rounds[i].val.stage, m.rounds[i].val.number, false);
      assert Expected(m.status, m.currentRound, open) == 1;
      var j := ExpectedExists(m, open);
      assert after.rounds[j] == m.rounds[j];
      if Fits(after) { LiveKindExpected(after, j); }
    }
  }

  // ---------------------------------------------------------------- one step

  lemma RestartStepFits(m: Match, now: Time)
    requires Fits(m) && SourcesKnown(m) && Permitted(m, Restart, now)
    ensures Fits(Step(m, Restart, now))
  {
    var a := RestartStep(m, now);
    if a.Some? { RestartFits(m, a.value); }
  }

  lemma VoteFits(m: Match, command: Command, now: Time)
    requires Fits(m) && (command.CastVote? || command.Resolve? || command.Claim?)
    ensures Fits(Step(m, command, now))
  {
    match command
    case CastVote(found, judge, c) => var before, after := VoteStep(m, found, judge, c, now);
    case _ => PhaseOnly(m, Step(m, command, now));
  }

  lemma ExitFits(m: Match, mode: ExitMode, now: Time)
    requires Fits(m) && Permitted(m, Exit(mode), now) && ExitAllowed(m, mode)
    ensures Fits(Exited(m, mode, now))
  {
    match mode
    case CancelAll => ExitAllFits(m, now);
    case KeepV2Phase => ExitV2Fits(m, now);
    case _ => ExitKeepFits(m, mode, now);
  }

  lemma CancelStepFits(m: Match, entire: bool, retracted: bool, now: Time)
    requires Fits(m)
    ensures Fits(Step(m, Cancel(entire, retracted), now))
  {
    var ids := CancelStep(m, entire, retracted, now);
    if CancelResults(m, entire, retracted, now).Success? { CancelFits(m, entire, ids, now); }
  }

  lemma StepFits(m: Match, command: Command, now: Time)
    requires Fits(m) && SourcesKnown(m) && OperationsFit(m, |m.operations|) && Permitted(m, command, now)
    ensures Fits(Step(m, command, now))
  {
    match command
    case Start => StartFits(m, now);
    case Pause => PauseFits(m, now);
    case Resume => ResumeFits(m, now);
    case Expire(i) => if Expires(m, i, now) { ExpireFits(m, i, now); }
    case Cancel(entire, retracted) => CancelStepFits(m, entire, retracted, now);
    case Undo(o) => if UndoAllowed(m, o) { UndoFits(m, o); }
    case Exit(mode) => if ExitAllowed(m, mode) { ExitFits(m, mode, now); }
    case Complete => CompleteFits(m, now);
    case AppealRegulation(key, red, blue) => RegulationAppealFits(m, key, red, blue, now);
    case AppealOvertime(key, red, blue) => OvertimeAppealFits(m, key, red, blue, now);
    case Restart => RestartStepFits(m, now);
    case Choose(winner) => ChooseFits(m, winner, now);
    case Publish(key) => PublishFits(m, key, now);
    case _ => VoteFits(m, command, now);
  }

  // ---------------------------------------------------------------- old operations stay balanced

  lemma OldOperationFits(m: Match, command: Command, now: Time, o: nat)
    requires PhaseOK(m) && Permitted(m, command, now) && o < |m.operations|
    requires command == Undo(o) ==> !UndoAllowed(m, o)
    ensures o < |Step(m, command, now).operations|
    ensures OperationFits(Step(m, command, now), Step(m, command, now).operations[o])
  {
    var k := m.operations[o].audit;
    if command.Undo? && command.operation < |m.operations| && m.operations[command.operation].audit == k {
      assert command.operation == o;
    } else {
      StepCarries(m, command, now, k);
      StepOperations(m, command, now);
      BalanceKept(m, Step(m, command, now), o);
    }
  }

  lemma BalanceKept(m: Match, after: Match, o: nat)
    requires o < |m.operations| && OperationFits(m, m.operations[o])
    requires Kept(m.rounds, after.rounds, m.operations[o].audit) && OperationsGrow(m, after)
    ensures OperationFits(after, after.operations[o])
  {
    var op := m.operations[o];
    if !after.operations[o].undone && !op.undone {
      forall kind
        ensures Expected(op.resultingStatus, op.resultingCurrentRound, kind) + Held(after.rounds, Some(op.audit), kind)
                == Expected(op.previousStatus, op.previousCurrentRound, kind)
      {
        HeldKept(m.rounds, after.rounds, op.audit, kind);
        assert Expected(op.resultingStatus, op.resultingCurrentRound, kind) + Held(m.rounds, Some(op.audit), kind)
               == Expected(op.previousStatus, op.previousCurrentRound, kind);
      }
    }
  }

  // ---------------------------------------------------------------- every run

  lemma NewOperationFits(m: Match, command: Command, now: Time)
    requires PhaseOK(m) && Permitted(m, command, now) && Fits(Step(m, command, now))
    requires |Step(m, command, now).operations| > |m.operations|
    ensures |Step(m, command, now).operations| == |m.operations| + 1
    ensures OperationFits(Step(m, command, now), Step(m, command, now).operations[|m.operations|])
  {
    match command
    case Cancel(entire, retracted) =>
      var ids := CancelStep(m, entire, retracted, now);
      CancelBalances(m, ids, entire, now);
    case Exit(mode) => ExitBalances(m, mode, now);
    case _ => OnlyCancelsRecord(m, command, now);
  }

  lemma OnlyCancelsRecord(m: Match, command: Command, now: Time)
    requires !command.Cancel? && !command.Exit?
    ensures |Step(m, command, now).operations| == |m.operations|
  {
    match command
    case Undo(_) =>
    case CastVote(_, _, _) => VotingOperations(m, command, now);
    case Resolve(_) => VotingOperations(m, command, now);
    case Expire(_) => VotingOperations(m, command, now);
    case AppealRegulation(_, _, _) => AppealOperations(m, command, now);
    case AppealOvertime(_, _, _) => AppealOperations(m, command, now);
    case Restart => ResultOperations(m, command, now);
    case Choose(_) => ResultOperations(m, command, now);
    case Publish(_) => ResultOperations(m, command, now);
    case _ => ClockOperations(m, command, now);
  }

  lemma OldOrUndone(m: Match, command: Command, now: Time, o: nat)
    requires PhaseOK(m) && Permitted(m, command, now) && o < |m.operations|
    ensures o < |Step(m, command, now).operations|
    ensures OperationFits(Step(m, command, now), Step(m, command, now).operations[o])
  {
    if command == Undo(o) && UndoAllowed(m, o) {
      assert Step(m, command, now).operations[o].undone;
    } else {
      OldOperationFits(m, command, now, o);
    }
  }

  lemma OldOperationsFit(m: Match, command: Command, now: Time)
    requires PhaseOK(m) && Permitted(m, command, now)
    ensures |m.operations| <= |Step(m, command, now).operations|
    ensures OperationsFit(Step(m, command, now), |m.operations|)
  {
    StepOperations(m, command, now);
    forall o: nat | o < |m.operations|
      ensures OperationFits(Step(m, command, now), Step(m, command, now).operations[o])
    {
      OldOrUndone(m, command, now, o);
    }
  }

  lemma OneMoreFits(after: Match, n: nat)
    requires n <= |after.operations| <= n + 1 && OperationsFit(after, n)
    requires |after.operations| == n + 1 ==> OperationFits(after, after.operations[n])
    ensures OperationsFit(after, |after.operations|)
  {}

  lemma StepOperationsFit(m: Match, command: Command, now: Time)
    requires PhaseOK(m) && Permitted(m, command, now) && Fits(Step(m, command, now))
    ensures OperationsFit(Step(m, command, now), |Step(m, command, now).operations|)
  {
    OldOperationsFit(m, command, now);
    if |Step(m, command, now).operations| > |m.operations| { NewOperationFits(m, command, now); }
    OneMoreFits(Step(m, command, now), |m.operations|);
  }

  lemma StepAttempts(m: Match, command: Command, now: Time)
    requires AttemptsIncrease(m.rounds)
    ensures AttemptsIncrease(Step(m, command, now).rounds)
  {
    var after := Step(m, command, now);
    StepColumns(m, command, now);
    StepAdds(m, command, now);
    forall i | 0 <= i < |m.rounds| ensures SameRound(m.rounds[i].val, after.rounds[i].val) {}
    if command.Start? && |after.rounds| > |m.rounds| {
      assert after.rounds[|m.rounds|].val.stage == Overtime ==>
             after.rounds[|m.rounds|].val.attempt == MaxAttempt(m.rounds) + 1;
    }
  }

  lemma AppealRoundsKnown(m: Match)
    requires AppealRounds(m).Some?
    ensures var (first, second) := AppealRounds(m).value;
            && Live(m.rounds, first) && Live(m.rounds, second)
            && m.rounds[first].val.stage == Regulation && m.rounds[second].val.stage == Regulation
            && m.rounds[first].val.number == 1 && m.rounds[second].val.number == 2
            && m.rounds[first].val.endedAt.Some? && m.rounds[second].val.endedAt.Some?
            && EndedRegulation(m) == {first, second}
  {
    var ids := EndedRegulation(m);
    assert FindRound(ids, m, |m.rounds|, 1).value in ids && FindRound(ids, m, |m.rounds|, 2).value in ids;
  }

  lemma NewSourceKnown(m: Match, command: Command, now: Time)
    requires CommitsAppeal(command) && |Step(m, command, now).appeals| > |m.appeals|
    ensures var after := Step(m, command, now);
            && |after.appeals| == |m.appeals| + 1 && after.rounds == m.rounds
            && after.appeals[|m.appeals|].val.source < |m.rounds|
            && m.rounds[after.appeals[|m.appeals|].val.source].val.stage == after.appeals[|m.appeals|].val.scope
  {
    match command
    case AppealRegulation(key, red, blue) =>
      var accepted, added := RegulationStep(m, key, red, blue, now);
      AppealRoundsKnown(CleanUpAppeals(m));
    case AppealOvertime(key, red, blue) => var round := OvertimeStep(m, key, red, blue, now);
  }

  lemma OldSourceKnown(m: Match, command: Command, now: Time, a: nat)
    requires SourcesKnown(m) && a < |m.appeals|
    ensures a < |Step(m, command, now).appeals|
    ensures SourceKnown(Step(m, command, now).rounds, Step(m, command, now).appeals[a].val)
  {
    StepColumns(m, command, now);
    assert SameRound(m.rounds[m.appeals[a].val.source].val, Step(m, command, now).rounds[m.appeals[a].val.source].val);
  }

  lemma OneMoreSource(after: Match, n: nat)
    requires |after.appeals| <= n + 1
    requires forall a: nat :: a < n ==> a < |after.appeals| && SourceKnown(after.rounds, after.appeals[a].val)
    requires |after.appeals| == n + 1 ==> SourceKnown(after.rounds, after.appeals[n].val)
    ensures SourcesKnown(after)
  {}

  lemma StepSources(m: Match, command: Command, now: Time)
    requires SourcesKnown(m)
    ensures SourcesKnown(Step(m, command, now))
  {
    StepAdds(m, command, now);
    if |Step(m, command, now).appeals| > |m.appeals| { NewSourceKnown(m, command, now); }
    forall a: nat | a < |m.appeals|
      ensures a < |Step(m, command, now).appeals|
      ensures SourceKnown(Step(m, command, now).rounds, Step(m, command, now).appeals[a].val)
    {
      OldSourceKnown(m, command, now, a);
    }
    OneMoreSource(Step(m, command, now), |m.appeals|);
  }

  lemma StepPhase(m: Match, command: Command, now: Time)
    requires PhaseOK(m) && Permitted(m, command, now)
    ensures PhaseOK(Step(m, command, now))
  {
    StepFits(m, command, now);
    StepOperationsFit(m, command, now);
    StepAttempts(m, command, now);
    StepSources(m, command, now);
    StepCarries(m, command, now, m.nextAudit + 1);
    StepOperations(m, command, now);
  }

  lemma NewMatchPhase(rules: RulesVersion, judges: nat, duration: nat, intermission: nat)
    ensures PhaseOK(NewMatch(rules, judges, duration, intermission))
  {
    var m := NewMatch(rules, judges, duration, intermission);
    assert RoundTags(m.rounds) == [];
  }

  /** After any permitted run the live rounds are exactly those the phase calls for. */
  lemma {:induction false} RunPhase(m: Match, script: seq<Timed>)
    requires PhaseOK(m) && PermittedRun(m, script)
    ensures PhaseOK(Run(m, script))
    decreases |script|
  {
    if script != [] {
      StepPhase(m, script[0].command, script[0].now);
      RunPhase(Step(m, script[0].command, script[0].now), script[1..]);
    }
  }
}
