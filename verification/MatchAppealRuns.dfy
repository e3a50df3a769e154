/** The remaining commands on appeals, and publication after every run. */
module MatchAppealRuns {
  import opened Prelude
  import opened MatchModel
  import opened MatchCommands
  import opened MatchHistory
  import opened MatchLedger
  import opened MatchPhases
  import opened MatchPhaseSteps
  import opened MatchAppeals
  import opened MatchAppealSteps

  // ---------------------------------------------------------------- undoing a reset

  lemma UndoneAudits(m: Match, o: nat, j: nat)
    requires o < |m.operations|
    ensures ResetAudit(Undone(m, o), j) <==> ResetAudit(m, j)
  {
    var after := Undone(m, o);
    if ResetAudit(m, j) {
      var p :| 0 <= p < |m.operations| && m.operations[p].audit == j && IsReset(m.operations[p]);
      assert after.operations[p].audit == j && IsReset(after.operations[p]);
    }
    if ResetAudit(after, j) {
      var p :| 0 <= p < |after.operations| && after.operations[p].audit == j && IsReset(after.operations[p]);
      assert m.operations[p].audit == j && IsReset(m.operations[p]);
    }
  }

  lemma ResetIsAudit(m: Match, o: nat)
    requires o < |m.operations| && IsReset(m.operations[o])
    ensures ResetAudit(m, m.operations[o].audit)
  {}

  lemma UndoneAppeal(m: Match, o: nat, a: nat)
    requires ReferencesOK(m) && o < |m.operations| && IsReset(m.operations[o]) && a < |m.appeals|
    ensures AppealRefers(Undone(m, o).rounds, Undone(m, o).appeals[a].val) && AppealPaired(Undone(m, o), a)
    ensures AppealTag(Undone(m, o), a)
            == if AppealTag(m, a).0 == Some(m.operations[o].audit) then (None, AppealTag(m, a).1) else AppealTag(m, a)
  {
    var source := m.appeals[a].val.source;
    assert AppealRefers(m.rounds, m.appeals[a].val) && AppealPaired(m, a);
    ResetIsAudit(m, o);
    if m.rounds[source].stamp.Some? { UndoneAudits(m, o, m.rounds[source].stamp.value); }
    SameDecisions(m, Undone(m, o), a);
  }

  lemma UndoneDecision(m: Match, o: nat, d: nat)
    requires ReferencesOK(m) && o < |m.operations| && IsReset(m.operations[o]) && d < |m.decisions|
    ensures DecisionRefers(Undone(m, o).appeals, Undone(m, o).decisions[d].val) && DecisionPaired(Undone(m, o), d)
  {
    assert DecisionRefers(m.appeals, m.decisions[d].val) && DecisionPaired(m, d);
    var a := m.decisions[d].val.appeal;
    ResetIsAudit(m, o);
    if m.appeals[a].stamp.Some? { UndoneAudits(m, o, m.appeals[a].stamp.value); }
  }

  lemma UndoneReferences(m: Match, o: nat)
    requires ReferencesOK(m) && o < |m.operations| && IsReset(m.operations[o])
    ensures ReferencesOK(Undone(m, o))
  {
    var after := Undone(m, o);
    forall a: nat | a < |m.appeals| ensures AppealRefers(after.rounds, after.appeals[a].val) && AppealPaired(after, a) {
      UndoneAppeal(m, o, a);
    }
    forall d: nat | d < |m.decisions|
      ensures DecisionRefers(after.appeals, after.decisions[d].val) && DecisionPaired(after, d)
    {
      UndoneDecision(m, o, d);
    }
  }

  lemma UndoneShape(m: Match, o: nat)
    requires AppealsOK(m) && UndoAllowed(m, o) && IsReset(m.operations[o])
    ensures AppealShape(Undone(m, o).status, Undone(m, o).currentRound, TallyOf(Undone(m, o), None))
  {
    forall a: nat | a < |m.appeals|
      ensures AppealTags(Undone(m, o))[a]
              == if AppealTags(m)[a].0 == Some(m.operations[o].audit) then (None, AppealTags(m)[a].1)
                  else AppealTags(m)[a]
    {
      UndoneAppeal(m, o, a);
    }
    TallyRestored(AppealTags(m), AppealTags(Undone(m, o)), m.operations[o].audit);
    assert ResetBalances(m, m.operations[o]);
  }

  /** What comes back is newer, or older, than what stands, as overtime and regulation appeals must be. */
  ghost predicate ReturnsInOrder(m: Match, k: nat) {
    forall a, b :: 0 <= a < |m.appeals| && 0 <= b < |m.appeals| && Meets(m, a, b, k) ==> InOrder(m, a, b)
  }

  /** One of the two appeals is in force, the other would be brought back by lifting stamp k. */
  ghost predicate Meets(m: Match, a: nat, b: nat, k: nat)
    requires a < |m.appeals| && b < |m.appeals|
  {
    AppealTag(m, a).1.Some? && AppealTag(m, b).1.Some? &&
    ((AppealTag(m, a).0.None? && AppealTag(m, b).0 == Some(k))
     || (AppealTag(m, a).0 == Some(k) && AppealTag(m, b).0.None?))
  }

  lemma UndoneTogether(m: Match, o: nat, a: nat, b: nat)
    requires ReferencesOK(m) && o < |m.operations| && IsReset(m.operations[o]) && a < |m.appeals| && b < |m.appeals|
    ensures Together(Undone(m, o), a, b) <==> Together(m, a, b) || Meets(m, a, b, m.operations[o].audit)
    ensures InOrder(Undone(m, o), a, b) <==> InOrder(m, a, b)
  {
    UndoneAppeal(m, o, a);
    UndoneAppeal(m, o, b);
  }

  /** Undoing a reset keeps appeals in order exactly when those it brings back fit in with those in force. */
  lemma UndoKeepsOrderExactly(m: Match, o: nat)
    requires ReferencesOK(m) && AppealsInOrder(m) && o < |m.operations| && IsReset(m.operations[o])
    ensures AppealsInOrder(Undone(m, o)) <==> ReturnsInOrder(m, m.operations[o].audit)
  {
    var after, k := Undone(m, o), m.operations[o].audit;
    if AppealsInOrder(after) {
      forall a: nat, b: nat | a < |m.appeals| && b < |m.appeals| && Meets(m, a, b, k) ensures InOrder(m, a, b) {
        UndoneTogether(m, o, a, b);
      }
    }
    if ReturnsInOrder(m, k) {
      forall a: nat, b: nat | a < |after.appeals| && b < |after.appeals| && Together(after, a, b)
        ensures InOrder(after, a, b)
      {
        UndoneTogether(m, o, a, b);
      }
    }
  }

  ghost predicate ResetsBalanceUpTo(m: Match, n: nat)
    requires n <= |m.operations|
  {
    forall o :: 0 <= o < n && IsReset(m.operations[o]) && !m.operations[o].undone ==> ResetBalances(m, m.operations[o])
  }

  lemma OldResetsBalance(m: Match, command: Command, now: Time)
    requires PhaseOK(m) && ReferencesOK(m) && ResetsBalance(m) && Permitted(m, command, now)
    requires |Step(m, command, now).decisions| == |m.decisions|
    ensures |m.operations| <= |Step(m, command, now).operations|
    ensures ResetsBalanceUpTo(Step(m, command, now), |m.operations|)
  {
    StepUnmoved(m, command, now);
    forall o: nat | o < |m.operations| && IsReset(Step(m, command, now).operations[o])
        && !Step(m, command, now).operations[o].undone
      ensures ResetBalances(Step(m, command, now), Step(m, command, now).operations[o])
    {
      UnmovedBalance(m, Step(m, command, now), o);
    }
  }

  lemma OneMoreReset(after: Match, n: nat)
    requires n <= |after.operations| <= n + 1 && ResetsBalanceUpTo(after, n)
    requires |after.operations| == n + 1 && IsReset(after.operations[n]) ==> ResetBalances(after, after.operations[n])
    ensures ResetsBalance(after)
  {}

  lemma UndoKeepsAppeals(m: Match, o: nat, now: Time)
    requires PhaseOK(m) && AppealsOK(m) && UndoAllowed(m, o) && IsReset(m.operations[o])
    requires ReturnsInOrder(m, m.operations[o].audit)
    ensures AppealsOK(Undone(m, o))
  {
    UndoneReferences(m, o);
    UndoneShape(m, o);
    UndoKeepsOrderExactly(m, o);
    OldResetsBalance(m, Undo(o), now);
    OneMoreReset(Undone(m, o), |m.operations|);
  }

  // ---------------------------------------------------------------- cancelling

  lemma CancelKeepsAppeals(m: Match, entire: bool, retracted: bool, now: Time)
    requires PhaseOK(m) && AppealsOK(m)
    ensures AppealsOK(Step(m, Cancel(entire, retracted), now))
  {
    var ids := CancelStep(m, entire, retracted, now);
    if CancelResults(m, entire, retracted, now).Success? {
      SelectedAreLive(m, entire);
      SelectionShape(m, entire, ids, now);
      CancelledReferences(m, ids, entire, now);
      CancelledOrder(m, ids, entire, now);
      CancelledBalances(m, ids, entire, now);
      OldResetsBalance(m, Cancel(entire, retracted), now);
      OneMoreReset(Cancelled(m, ids, entire, now), |m.operations|);
    }
  }

  // ---------------------------------------------------------------- leaving

  lemma ExitedAudits(m: Match, mode: ExitMode, now: Time, j: nat)
    requires AuditsOrdered(m)
    ensures ResetAudit(Exited(m, mode, now), j) <==> ResetAudit(m, j)
  {
    var after := Exited(m, mode, now);
    if ResetAudit(m, j) {
      var o :| 0 <= o < |m.operations| && m.operations[o].audit == j && IsReset(m.operations[o]);
      assert after.operations[o] == m.operations[o];
    }
    if ResetAudit(after, j) {
      var o :| 0 <= o < |after.operations| && after.operations[o].audit == j && IsReset(after.operations[o]);
      assert after.operations[o] == m.operations[o];
    }
  }

  lemma FreshIsNoReset(m: Match)
    requires AuditsOrdered(m)
    ensures !ResetAudit(m, m.nextAudit)
  {}

  predicate Leaves(m: Match, mode: ExitMode, a: nat)
    requires a < |m.appeals|
  {
    ValidAppeal(m, a) && m.rounds[m.appeals[a].val.source].val.number in CancelledNumbers(mode)
  }

  lemma ExitedAppeal(m: Match, mode: ExitMode, now: Time, a: nat)
    requires ReferencesOK(m) && StampsKnown(m) && AuditsOrdered(m) && a < |m.appeals|
    ensures var after := Exited(m, mode, now);
            && AppealRefers(after.rounds, after.appeals[a].val) && AppealPaired(after, a)
            && AppealTag(after, a) == if Leaves(m, mode, a) then (None, None) else AppealTag(m, a)
  {
    var after := Exited(m, mode, now);
    var source := m.appeals[a].val.source;
    assert AppealRefers(m.rounds, m.appeals[a].val) && AppealPaired(m, a);
    if after.rounds[source].stamp.Some? { ExitedAudits(m, mode, now, after.rounds[source].stamp.value); }
    FreshIsNoReset(m);
    SameDecisions(m, after, a);
  }

  lemma ExitedReferences(m: Match, mode: ExitMode, now: Time)
    requires ReferencesOK(m) && StampsKnown(m) && AuditsOrdered(m)
    ensures ReferencesOK(Exited(m, mode, now))
  {
    var after := Exited(m, mode, now);
    forall a: nat | a < |m.appeals| ensures AppealRefers(after.rounds, after.appeals[a].val) && AppealPaired(after, a) {
      ExitedAppeal(m, mode, now, a);
    }
    forall d: nat | d < |m.decisions|
      ensures DecisionRefers(after.appeals, after.decisions[d].val) && DecisionPaired(after, d)
    {
      assert DecisionRefers(m.appeals, m.decisions[d].val) && DecisionPaired(m, d);
      if m.appeals[m.decisions[d].val.appeal].stamp.Some? {
        ExitedAudits(m, mode, now, m.appeals[m.decisions[d].val.appeal].stamp.value);
      }
    }
  }

  lemma ExitedOrder(m: Match, mode: ExitMode, now: Time)
    requires ReferencesOK(m) && StampsKnown(m) && AuditsOrdered(m) && AppealsInOrder(m)
    ensures AppealsInOrder(Exited(m, mode, now))
  {
    var after := Exited(m, mode, now);
    forall a: nat, b: nat | a < |after.appeals| && b < |after.appeals| && Together(after, a, b)
      ensures InOrder(after, a, b)
    {
      ExitedAppeal(m, mode, now, a);
      ExitedAppeal(m, mode, now, b);
      assert Together(m, a, b) && InOrder(m, a, b);
    }
  }

  lemma ExitDropsAppeal(m: Match, mode: ExitMode, a: nat)
    requires ReferencesOK(m) && Fits(m) && a < |m.appeals| && ValidAppeal(m, a)
    requires mode == CancelAll || (mode == KeepRound1 && !HasLiveOvertime(m))
    ensures Leaves(m, mode, a)
  {
    var source := m.appeals[a].val.source;
    assert AppealRefers(m.rounds, m.appeals[a].val);
    LiveKindExpected(m, source);
    assert !HasLiveOvertime(m) ==> !LiveOvertime(m.rounds, source, false);
  }

  /** Leaving a regulation number behind takes every regulation appeal out of force, and there is no other. */
  lemma ExitDropsAppeals(m: Match, mode: ExitMode, now: Time)
    requires ReferencesOK(m) && StampsKnown(m) && AuditsOrdered(m) && Fits(m)
    requires mode == CancelAll || (mode == KeepRound1 && !HasLiveOvertime(m))
    ensures TallyOf(Exited(m, mode, now), None) == Nothing()
  {
    var tags := AppealTags(Exited(m, mode, now));
    forall a: nat | a < |m.appeals| ensures tags[a].0 != None || tags[a].1.None? {
      ExitedAppeal(m, mode, now, a);
      if ValidAppeal(m, a) { ExitDropsAppeal(m, mode, a); }
    }
    TallyNone(tags, None);
  }

  lemma ExitKeepsTags(m: Match, mode: ExitMode, now: Time)
    requires ReferencesOK(m) && StampsKnown(m) && AuditsOrdered(m) && (mode == KeepRounds1And2 || mode == KeepV2Phase)
    ensures AppealTags(Exited(m, mode, now)) == AppealTags(m)
  {
    forall a: nat | a < |m.appeals| ensures AppealTags(Exited(m, mode, now))[a] == AppealTags(m)[a] {
      ExitedAppeal(m, mode, now, a);
    }
  }

  lemma KeptRegulationShape(m: Match)
    requires Fits(m) && AppealShape(m.status, m.currentRound, TallyOf(m, None)) && ExitAllowed(m, KeepRounds1And2)
    requires !HasLiveOvertime(m)
    ensures AppealShape(AwaitingResultSave, Some(2), TallyOf(m, None))
  {
    EndedRegulationExpected(m, 2);
    var kind := if Expected(m.status, m.currentRound, OT_OPEN) >= 1 then OT_OPEN else OT_ENDED;
    if Expected(m.status, m.currentRound, kind) >= 1 {
      var i := ExpectedExists(m, kind);
      assert LiveOvertime(m.rounds, i, false);
    }
  }

  lemma ExitedShape(m: Match, mode: ExitMode, now: Time)
    requires PhaseOK(m) && AppealsOK(m) && ExitAllowed(m, mode) && Permitted(m, Exit(mode), now)
    ensures AppealShape(Exited(m, mode, now).status, Exited(m, mode, now).currentRound,
                        TallyOf(Exited(m, mode, now), None))
  {
    match mode
    case CancelAll => ExitDropsAppeals(m, mode, now);
    case KeepRound1 => ExitDropsAppeals(m, mode, now);
    case KeepRounds1And2 => ExitKeepsTags(m, mode, now); KeptRegulationShape(m);
    case KeepV2Phase => ExitKeepsTags(m, mode, now);
  }

  lemma ExitKeepsAppeals(m: Match, mode: ExitMode, now: Time)
    requires PhaseOK(m) && AppealsOK(m) && ExitAllowed(m, mode) && Permitted(m, Exit(mode), now)
    ensures AppealsOK(Exited(m, mode, now))
  {
    ExitedReferences(m, mode, now);
    ExitedShape(m, mode, now);
    ExitedOrder(m, mode, now);
    OldResetsBalance(m, Exit(mode), now);
    OneMoreReset(Exited(m, mode, now), |m.operations|);
  }
}
