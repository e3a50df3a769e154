/** Every permitted command keeps the appeals in force in step with the phase. */
module MatchAppealSteps {
  import opened Prelude
  import opened MatchTables
  import opened MatchModel
  import opened MatchCommands
  import opened MatchHistory
  import opened MatchColumns
  import opened MatchLedger
  import opened MatchPhases
  import opened MatchPhaseSteps
  import opened MatchAppeals

  // ---------------------------------------------------------------- commands that touch neither appeals nor stamps

  /** Appeals, decisions and operations stay, and so do the stamps and identities of rounds. */
  ghost predicate AppealsUntouched(m: Match, after: Match) {
    && after.appeals == m.appeals && after.decisions == m.decisions && after.operations == m.operations
    && |m.rounds| <= |after.rounds|
    && forall i :: 0 <= i < |m.rounds| ==> after.rounds[i].stamp == m.rounds[i].stamp
                                           && SameRound(m.rounds[i].val, after.rounds[i].val)
  }

  lemma UntouchedTags(m: Match, after: Match)
    requires ReferencesOK(m) && AppealsUntouched(m, after)
    ensures AppealTags(after) == AppealTags(m)
  {
    forall a | 0 <= a < |m.appeals| ensures AppealTag(after, a) == AppealTag(m, a) {
      assert AppealRefers(m.rounds, m.appeals[a].val);
      assert HasDecision(after, a) <==> HasDecision(m, a);
    }
  }

  lemma UntouchedReferences(m: Match, after: Match)
    requires ReferencesOK(m) && AppealsUntouched(m, after)
    ensures ReferencesOK(after)
  {
    forall a | 0 <= a < |m.appeals| ensures AppealRefers(after.rounds, after.appeals[a].val) && AppealPaired(after, a) {
      assert AppealRefers(m.rounds, m.appeals[a].val) && AppealPaired(m, a);
      forall k ensures ResetAudit(after, k) <==> ResetAudit(m, k) {}
    }
    forall d | 0 <= d < |m.decisions|
      ensures DecisionRefers(after.appeals, after.decisions[d].val) && DecisionPaired(after, d)
    {
      assert DecisionRefers(m.appeals, m.decisions[d].val) && DecisionPaired(m, d);
      forall k ensures ResetAudit(after, k) <==> ResetAudit(m, k) {}
    }
  }

  lemma SameTagsOrder(m: Match, after: Match)
    requires AppealsInOrder(m) && AppealTags(after) == AppealTags(m) && after.appeals == m.appeals
    ensures AppealsInOrder(after)
  {
    forall a, b | 0 <= a < |after.appeals| && 0 <= b < |after.appeals| && Together(after, a, b)
      ensures InOrder(after, a, b)
    {
      assert AppealTags(after)[a] == AppealTags(m)[a] && AppealTags(after)[b] == AppealTags(m)[b];
      assert Together(m, a, b);
    }
  }

  lemma UntouchedKeeps(m: Match, after: Match)
    requires AppealsOK(m) && AppealsUntouched(m, after)
    requires AppealShape(after.status, after.currentRound, TallyOf(m, None))
    ensures AppealsOK(after)
  {
    UntouchedTags(m, after);
    UntouchedReferences(m, after);
    SameTagsOrder(m, after);
    forall o | 0 <= o < |after.operations| && IsReset(after.operations[o]) && !after.operations[o].undone
      ensures ResetBalances(after, after.operations[o])
    {
      assert ResetBalances(m, m.operations[o]);
    }
  }

  predicate ClockCommand(command: Command) {
    command.Start? || command.Pause? || command.Resume? || command.Claim? || command.Complete? || command.Publish?
  }

  lemma ClockUntouched(m: Match, command: Command, now: Time)
    requires ClockCommand(command)
    ensures AppealsUntouched(m, Step(m, command, now))
  {}

  lemma VotingUntouched(m: Match, command: Command, now: Time)
    requires command.CastVote? || command.Resolve?
    ensures AppealsUntouched(m, Step(m, command, now))
    ensures Step(m, command, now).status == m.status && Step(m, command, now).currentRound == m.currentRound
  {}

  lemma ExpireUntouched(m: Match, i: nat, now: Time)
    requires Expires(m, i, now)
    ensures AppealsUntouched(m, Step(m, Expire(i), now))
  {
    ResolveDueAdds(Ended(m, i), now);
    ResolveDueKeepsOperations(Ended(m, i), now);
    ResolveDueColumns(Ended(m, i), now);
  }

  lemma ClockKeeps(m: Match, command: Command, now: Time)
    requires AppealsOK(m) && Fits(m)
    requires ClockCommand(command)
    ensures AppealsOK(Step(m, command, now))
  {
    ClockUntouched(m, command, now);
    match command {
      case Start => StartShape(m, now);
      case Pause => PauseShape(m, command, now);
      case Resume => PauseShape(m, command, now);
      case _ => FinishShape(m, command, now);
    }
    UntouchedKeeps(m, Step(m, command, now));
  }

  lemma StartShape(m: Match, now: Time)
    requires Fits(m) && AppealShape(m.status, m.currentRound, TallyOf(m, None))
    ensures AppealShape(Step(m, Start, now).status, Step(m, Start, now).currentRound, TallyOf(m, None))
  {}

  lemma PauseShape(m: Match, command: Command, now: Time)
    requires AppealShape(m.status, m.currentRound, TallyOf(m, None)) && (command.Pause? || command.Resume?)
    ensures AppealShape(Step(m, command, now).status, Step(m, command, now).currentRound, TallyOf(m, None))
  {}

  lemma FinishShape(m: Match, command: Command, now: Time)
    requires Fits(m) && AppealShape(m.status, m.currentRound, TallyOf(m, None))
    requires command.Claim? || command.Complete? || command.Publish?
    ensures AppealShape(Step(m, command, now).status, Step(m, command, now).currentRound, TallyOf(m, None))
  {}

  lemma VotingKeeps(m: Match, command: Command, now: Time)
    requires AppealsOK(m) && (command.CastVote? || command.Resolve?)
    ensures AppealsOK(Step(m, command, now))
  {
    VotingUntouched(m, command, now);
    UntouchedKeeps(m, Step(m, command, now));
  }

  lemma ExpireKeeps(m: Match, i: nat, now: Time)
    requires AppealsOK(m) && Fits(m) && Expires(m, i, now)
    ensures AppealsOK(Step(m, Expire(i), now))
  {
    ExpireUntouched(m, i, now);
    ExpireShape(m, i, now);
    UntouchedKeeps(m, Step(m, Expire(i), now));
  }

  // ---------------------------------------------------------------- old resets stay balanced

  /** Rows under k keep, and no decision is added to an appeal under k. */
  lemma UnderStampSame(m: Match, after: Match, k: nat)
    requires ReferencesOK(m) && Kept(m.appeals, after.appeals, k) && Kept(m.rounds, after.rounds, k)
    requires ValsKept(m.appeals, after.appeals)
    requires forall a: nat :: a < |m.appeals| && m.appeals[a].stamp == Some(k) ==>
               (HasDecision(after, a) <==> HasDecision(m, a))
    ensures SameUnder(AppealTags(m), AppealTags(after), Some(k))
  {
    forall a, c | 0 <= a < |m.appeals|
      ensures AppealTag(m, a) == (Some(k), Some(c)) <==> AppealTag(after, a) == (Some(k), Some(c))
    {
      assert AppealRefers(m.rounds, m.appeals[a].val);
    }
    forall a, c | |m.appeals| <= a < |after.appeals| ensures AppealTag(after, a) != (Some(k), Some(c)) {}
  }

  /** Appeals under the stamp of an older reset stand as they did. */
  ghost predicate ResetsUnmoved(m: Match, after: Match)
    requires |m.operations| <= |after.operations|
  {
    forall o :: 0 <= o < |m.operations| && IsReset(m.operations[o]) && !after.operations[o].undone ==>
      SameUnder(AppealTags(m), AppealTags(after), Some(m.operations[o].audit))
  }

  lemma UnmovedBalance(m: Match, after: Match, o: nat)
    requires ResetsBalance(m) && OperationsGrow(m, after) && ResetsUnmoved(m, after)
    requires o < |m.operations| && IsReset(m.operations[o]) && !after.operations[o].undone
    ensures ResetBalances(after, after.operations[o])
  {
    assert ResetBalances(m, m.operations[o]);
    TallySame(AppealTags(m), AppealTags(after), Some(m.operations[o].audit));
  }

  /** A step that makes no manual decision on a cancelled appeal leaves older resets alone. */
  lemma StepUnmoved(m: Match, command: Command, now: Time)
    requires PhaseOK(m) && ReferencesOK(m) && Permitted(m, command, now)
    requires |Step(m, command, now).decisions| == |m.decisions|
    ensures OperationsGrow(m, Step(m, command, now)) && ResetsUnmoved(m, Step(m, command, now))
  {
    var after := Step(m, command, now);
    StepOperations(m, command, now);
    StepColumns(m, command, now);
    forall o | 0 <= o < |m.operations| && IsReset(m.operations[o]) && !after.operations[o].undone
      ensures SameUnder(AppealTags(m), AppealTags(after), Some(m.operations[o].audit))
    {
      if !(command == Undo(o) && UndoAllowed(m, o)) { StepUnmovedAt(m, command, now, o); }
    }
  }

  lemma StepUnmovedAt(m: Match, command: Command, now: Time, o: nat)
    requires PhaseOK(m) && ReferencesOK(m) && Permitted(m, command, now) && o < |m.operations|
    requires |Step(m, command, now).decisions| == |m.decisions|
    requires !(command == Undo(o) && UndoAllowed(m, o))
    ensures SameUnder(AppealTags(m), AppealTags(Step(m, command, now)), Some(m.operations[o].audit))
  {
    var after := Step(m, command, now);
    var k := m.operations[o].audit;
    StepColumns(m, command, now);
    if command.Undo? && command.operation < |m.operations| && m.operations[command.operation].audit == k {
      assert command.operation == o && after == m;
    } else {
      StepCarries(m, command, now, k);
    }
    forall a: nat | a < |m.appeals| && m.appeals[a].stamp == Some(k)
      ensures HasDecision(after, a) <==> HasDecision(m, a)
    {
      SameDecisions(m, after, a);
    }
    UnderStampSame(m, after, k);
  }

  lemma SameDecisions(m: Match, after: Match, a: nat)
    requires ValsKept(m.decisions, after.decisions) && |after.decisions| == |m.decisions|
    ensures HasDecision(after, a) <==> HasDecision(m, a)
  {
    if HasDecision(m, a) {
      var d :| 0 <= d < |m.decisions| && m.decisions[d].val.appeal == a;
      assert after.decisions[d].val.appeal == a;
    }
    if HasDecision(after, a) {
      var d :| 0 <= d < |after.decisions| && after.decisions[d].val.appeal == a;
      assert m.decisions[d].val.appeal == a;
    }
  }

  // ---------------------------------------------------------------- cancelling

  /** Every appeal in force that a cancellation reaches loses its source round to it. */
  ghost predicate ReachesSources(m: Match, ids: set<nat>, entire: bool) {
    forall a :: a in AffectedAppeals(m, ids, entire) && ValidAppeal(m, a) ==> m.appeals[a].val.source in ids
  }

  lemma CancelledAudits(m: Match, ids: set<nat>, entire: bool, now: Time, j: nat)
    requires AuditsOrdered(m) && j != m.nextAudit
    ensures ResetAudit(Cancelled(m, ids, entire, now), j) <==> ResetAudit(m, j)
  {
    var after := Cancelled(m, ids, entire, now);
    if ResetAudit(m, j) {
      var o :| 0 <= o < |m.operations| && m.operations[o].audit == j && IsReset(m.operations[o]);
      assert after.operations[o] == m.operations[o];
    }
    if ResetAudit(after, j) {
      var o :| 0 <= o < |after.operations| && after.operations[o].audit == j && IsReset(after.operations[o]);
      assert o < |m.operations| && after.operations[o] == m.operations[o];
    }
  }

  lemma CancelledAppeal(m: Match, ids: set<nat>, entire: bool, now: Time, a: nat)
    requires ReferencesOK(m) && StampsKnown(m) && AuditsOrdered(m) && AllLive(m, ids)
    requires (entire ==> ids == LiveRounds(m))
    requires ReachesSources(m, ids, entire) && a < |m.appeals|
    ensures var after := Cancelled(m, ids, entire, now);
            AppealRefers(after.rounds, after.appeals[a].val) && AppealPaired(after, a)
  {
    var after := Cancelled(m, ids, entire, now);
    var source := m.appeals[a].val.source;
    assert AppealRefers(m.rounds, m.appeals[a].val) && AppealPaired(m, a);
    if m.rounds[source].stamp.Some? { CancelledAudits(m, ids, entire, now, m.rounds[source].stamp.value); }
    assert a in AffectedAppeals(m, ids, entire) <==>
           m.appeals[a].stamp.None? && (entire || source in ids || m.appeals[a].val.sourceRounds * ids != {});
  }

  lemma CancelledDecision(m: Match, ids: set<nat>, entire: bool, now: Time, d: nat)
    requires ReferencesOK(m) && StampsKnown(m) && AuditsOrdered(m) && AllLive(m, ids)
    requires (entire ==> ids == LiveRounds(m))
    requires d < |m.decisions|
    ensures var after := Cancelled(m, ids, entire, now);
            DecisionRefers(after.appeals, after.decisions[d].val) && DecisionPaired(after, d)
  {
    var after := Cancelled(m, ids, entire, now);
    var affected := AffectedAppeals(m, ids, entire);
    var decision := m.decisions[d].val;
    var a := decision.appeal;
    assert DecisionRefers(m.appeals, decision) && DecisionPaired(m, d);
    assert AppealRefers(m.rounds, m.appeals[a].val) && AppealPaired(m, a);
    if m.appeals[a].stamp.Some? { CancelledAudits(m, ids, entire, now, m.appeals[a].stamp.value); }
    assert a in affected <==>
           m.appeals[a].stamp.None? && (entire || m.appeals[a].val.source in ids
                                        || m.appeals[a].val.sourceRounds * ids != {});
    assert d in DecisionsOf(m, affected, ids) <==> a in affected || decision.overtimeRound in ids;
  }

  lemma CancelledReferences(m: Match, ids: set<nat>, entire: bool, now: Time)
    requires ReferencesOK(m) && StampsKnown(m) && AuditsOrdered(m) && AllLive(m, ids)
    requires (entire ==> ids == LiveRounds(m))
    requires ReachesSources(m, ids, entire)
    ensures ReferencesOK(Cancelled(m, ids, entire, now))
  {
    var after := Cancelled(m, ids, entire, now);
    forall a: nat | a < |m.appeals| ensures AppealRefers(after.rounds, after.appeals[a].val) && AppealPaired(after, a) {
      CancelledAppeal(m, ids, entire, now, a);
    }
    forall d: nat | d < |m.decisions|
      ensures DecisionRefers(after.appeals, after.decisions[d].val) && DecisionPaired(after, d)
    {
      CancelledDecision(m, ids, entire, now, d);
    }
  }

  /** An appeal in force stays, or goes under the fresh stamp with its round; nothing else moves. */
  lemma CancelledTag(m: Match, ids: set<nat>, entire: bool, now: Time, a: nat)
    requires ReferencesOK(m) && StampsKnown(m) && AllLive(m, ids) && (entire ==> ids == LiveRounds(m))
    requires ReachesSources(m, ids, entire) && a < |m.appeals|
    ensures var after := Cancelled(m, ids, entire, now);
            AppealTag(after, a) == if ValidAppeal(m, a) && m.appeals[a].val.source in ids
                                   then (Some(m.nextAudit), AppealTag(m, a).1) else AppealTag(m, a)
    ensures AppealTag(m, a).0 != Some(m.nextAudit)
  {
    var after := Cancelled(m, ids, entire, now);
    var source := m.appeals[a].val.source;
    assert AppealRefers(m.rounds, m.appeals[a].val) && AppealPaired(m, a);
    SameDecisions(m, after, a);
    assert a in AffectedAppeals(m, ids, entire) <==>
           m.appeals[a].stamp.None? && (entire || source in ids || m.appeals[a].val.sourceRounds * ids != {});
  }

  lemma CancelledTally(m: Match, ids: set<nat>, entire: bool, now: Time)
    requires ReferencesOK(m) && StampsKnown(m) && AllLive(m, ids) && (entire ==> ids == LiveRounds(m))
    requires ReachesSources(m, ids, entire)
    ensures var after := Cancelled(m, ids, entire, now);
            Plus(TallyOf(after, None), TallyOf(after, Some(m.nextAudit))) == TallyOf(m, None)
  {
    var s, t := AppealTags(m), AppealTags(Cancelled(m, ids, entire, now));
    forall a: nat | a < |s|
      ensures s[a].0 != Some(m.nextAudit)
      ensures t[a] == s[a] || (s[a].0 == None && t[a] == (Some(m.nextAudit), s[a].1))
    {
      CancelledTag(m, ids, entire, now, a);
    }
    TallyShifted(s, t, m.nextAudit);
  }

  lemma CancelledOrder(m: Match, ids: set<nat>, entire: bool, now: Time)
    requires ReferencesOK(m) && StampsKnown(m) && AllLive(m, ids) && (entire ==> ids == LiveRounds(m))
    requires ReachesSources(m, ids, entire) && AppealsInOrder(m)
    ensures AppealsInOrder(Cancelled(m, ids, entire, now))
  {
    var after := Cancelled(m, ids, entire, now);
    forall a: nat, b: nat | a < |after.appeals| && b < |after.appeals| && Together(after, a, b)
      ensures InOrder(after, a, b)
    {
      CancelledTag(m, ids, entire, now, a);
      CancelledTag(m, ids, entire, now, b);
      assert Together(m, a, b) && InOrder(m, a, b);
    }
  }

  /** The phases a reset leads to leave no choice about the appeals in force. */
  lemma ResetShapeIsUnique(s: Status, current: Option<nat>, t: Tally, u: Tally)
    requires s == Waiting || s == Break || s == OvertimeReady
    requires AppealShape(s, current, t) && AppealShape(s, current, u)
    ensures t == u
  {}

  lemma CancelledStatuses(m: Match, ids: set<nat>, entire: bool)
    ensures var s := CancelledStatus(m, ids, entire); s == Waiting || s == Break || s == OvertimeReady
  {}

  lemma CancelledBalances(m: Match, ids: set<nat>, entire: bool, now: Time)
    requires ReferencesOK(m) && StampsKnown(m) && AllLive(m, ids) && (entire ==> ids == LiveRounds(m))
    requires ReachesSources(m, ids, entire) && AppealShape(m.status, m.currentRound, TallyOf(m, None))
    requires var after := Cancelled(m, ids, entire, now); AppealShape(after.status, after.currentRound,
                                                                      TallyOf(after, None))
    ensures var after := Cancelled(m, ids, entire, now); ResetBalances(after, after.operations[|m.operations|])
  {
    var after := Cancelled(m, ids, entire, now);
    CancelledTally(m, ids, entire, now);
    CancelledStatuses(m, ids, entire);
    forall t | AppealShape(after.status, after.currentRound, t)
      ensures AppealShape(m.status, m.currentRound, Plus(t, TallyOf(after, Some(m.nextAudit))))
    {
      ResetShapeIsUnique(after.status, after.currentRound, t, TallyOf(after, None));
    }
  }

  // The four selections.

  lemma NoneInForce(m: Match)
    requires forall a: nat :: a < |m.appeals| ==> !ValidAppeal(m, a)
    ensures TallyOf(m, None) == Nothing()
  {
    TallyNone(AppealTags(m), None);
  }

  lemma CancelAllShape(m: Match, now: Time)
    requires ReferencesOK(m) && StampsKnown(m)
    ensures ReachesSources(m, LiveRounds(m), true)
    ensures TallyOf(Cancelled(m, LiveRounds(m), true, now), None) == Nothing()
  {
    var after := Cancelled(m, LiveRounds(m), true, now);
    forall a: nat | a < |after.appeals| ensures !ValidAppeal(after, a) {
      assert AppealRefers(m.rounds, m.appeals[a].val);
      assert !Live(after.rounds, m.appeals[a].val.source);
    }
    NoneInForce(after);
  }

  lemma OnlyRegulationInForce(m: Match, a: nat)
    requires a < |m.appeals| && ValidAppeal(m, a)
    requires TallyOf(m, None) == Nothing() || TallyOf(m, None) == RegulationTiedOnly()
             || TallyOf(m, None) == RegulationDecisiveOnly()
    ensures m.appeals[a].val.scope == Regulation && TallyOf(m, None) != Nothing()
  {
    ValidIsCounted(m, a);
  }

  lemma CancelRound2Shape(m: Match, now: Time)
    requires ReferencesOK(m) && StampsKnown(m)
    requires TallyOf(m, None) == Nothing() || TallyOf(m, None) == RegulationTiedOnly()
             || TallyOf(m, None) == RegulationDecisiveOnly()
    ensures ReachesSources(m, LiveRegulation(m, 2), false)
    ensures TallyOf(Cancelled(m, LiveRegulation(m, 2), false, now), None) == Nothing()
  {
    var ids := LiveRegulation(m, 2);
    var after := Cancelled(m, ids, false, now);
    forall a: nat | a < |m.appeals| && ValidAppeal(m, a) ensures m.appeals[a].val.source in ids {
      OnlyRegulationInForce(m, a);
      assert AppealRefers(m.rounds, m.appeals[a].val);
    }
    forall a: nat | a < |after.appeals| ensures !ValidAppeal(after, a) {
      assert ValidAppeal(after, a) ==> ValidAppeal(m, a);
    }
    NoneInForce(after);
  }

  lemma CancelRound1Shape(m: Match, now: Time)
    requires ReferencesOK(m) && StampsKnown(m) && TallyOf(m, None) == Nothing()
    ensures ReachesSources(m, LiveRegulation(m, 1), false)
    ensures TallyOf(Cancelled(m, LiveRegulation(m, 1), false, now), None) == Nothing()
  {
    var after := Cancelled(m, LiveRegulation(m, 1), false, now);
    forall a: nat | a < |m.appeals| ensures !ValidAppeal(m, a) {
      if ValidAppeal(m, a) { OnlyRegulationInForce(m, a); }
    }
    forall a: nat | a < |after.appeals| ensures !ValidAppeal(after, a) {
      assert ValidAppeal(after, a) ==> ValidAppeal(m, a);
    }
    NoneInForce(after);
  }

  /** The live overtime round is the only possible source of an overtime appeal in force. */
  lemma OvertimeSourceIsTop(m: Match, t: nat, a: nat)
    requires ReferencesOK(m) && Fits(m) && LiveOvertime(m.rounds, t, false)
    requires a < |m.appeals| && ValidAppeal(m, a) && m.appeals[a].val.scope == Overtime
    ensures m.appeals[a].val.source == t
  {
    var source := m.appeals[a].val.source;
    assert AppealRefers(m.rounds, m.appeals[a].val);
    LiveKindExpected(m, t);
    LiveKindExpected(m, source);
    if source < t { LiveKindsDiffer(m, source, t); } else if t < source { LiveKindsDiffer(m, t, source); }
  }

  lemma OvertimeReach(m: Match, t: nat)
    requires ReferencesOK(m) && Fits(m) && LiveOvertime(m.rounds, t, false)
    ensures ReachesSources(m, {t}, false)
    ensures forall a: nat :: a < |m.appeals| && ValidAppeal(m, a) ==>
              (m.appeals[a].val.source == t <==> m.appeals[a].val.scope == Overtime)
  {
    forall a: nat | a < |m.appeals| && ValidAppeal(m, a)
      ensures m.appeals[a].val.source == t <==> m.appeals[a].val.scope == Overtime
      ensures a in AffectedAppeals(m, {t}, false) ==> m.appeals[a].val.source == t
    {
      assert AppealRefers(m.rounds, m.appeals[a].val);
      if m.appeals[a].val.scope == Overtime { OvertimeSourceIsTop(m, t, a); }
      if m.appeals[a].val.sourceRounds * {t} != {} { assert t in m.appeals[a].val.sourceRounds; }
    }
  }

  lemma {:induction false} TiedIsLeft(s: Status, current: Option<nat>, whole: Tally, left: Tally, taken: Tally)
    requires OvertimePhase(s) && AppealShape(s, current, whole) && (s == ResultPublicationReady ==> current == Some(1))
    requires Plus(left, taken) == whole && taken.regulationTied == 0
    requires left.undecided == 0 && left.decided == 0 && left.decisive == 0
    ensures left == RegulationTiedOnly()
  {}

  lemma OvertimeTallies(m: Match, t: nat, now: Time)
    requires ReferencesOK(m) && StampsKnown(m) && Fits(m) && LiveOvertime(m.rounds, t, false)
    ensures var after := Cancelled(m, {t}, false, now);
            var left := TallyOf(after, None);
            && TallyOf(after, Some(m.nextAudit)).regulationTied == 0
            && left.undecided == 0 && left.decided == 0 && left.decisive == 0
  {
    OvertimeTags(m, t, now);
    var tags := AppealTags(Cancelled(m, {t}, false, now));
    CountIsZero(tags, (Some(m.nextAudit), Some(RegulationTied)));
    CountIsZero(tags, (None, Some(OvertimeUndecided)));
    CountIsZero(tags, (None, Some(OvertimeDecided)));
    CountIsZero(tags, (None, Some(OvertimeDecisive)));
  }

  lemma CancelOvertimeShape(m: Match, t: nat, now: Time)
    requires ReferencesOK(m) && StampsKnown(m) && Fits(m) && LiveOvertime(m.rounds, t, false)
    requires OvertimePhase(m.status) && AppealShape(m.status, m.currentRound, TallyOf(m, None))
    ensures ReachesSources(m, {t}, false)
    ensures TallyOf(Cancelled(m, {t}, false, now), None) == RegulationTiedOnly()
  {
    var after := Cancelled(m, {t}, false, now);
    OvertimeReach(m, t);
    LiveKindExpected(m, t);
    CancelledTally(m, {t}, false, now);
    OvertimeTallies(m, t, now);
    TiedIsLeft(m.status, m.currentRound, TallyOf(m, None), TallyOf(after, None), TallyOf(after, Some(m.nextAudit)));
  }

  lemma OvertimeTags(m: Match, t: nat, now: Time)
    requires ReferencesOK(m) && StampsKnown(m) && Fits(m) && LiveOvertime(m.rounds, t, false)
    ensures var tags := AppealTags(Cancelled(m, {t}, false, now));
            && (Some(m.nextAudit), Some(RegulationTied)) !in tags
            && (None, Some(OvertimeUndecided)) !in tags && (None, Some(OvertimeDecided)) !in tags
                 && (None, Some(OvertimeDecisive)) !in tags
  {
    OvertimeReach(m, t);
    var tags := AppealTags(Cancelled(m, {t}, false, now));
    forall a: nat | a < |tags|
      ensures tags[a] != (Some(m.nextAudit), Some(RegulationTied))
      ensures tags[a].0.None? ==> tags[a].1.None? || tags[a].1 == Some(RegulationTied)
                                  || tags[a].1 == Some(RegulationDecisive)
    {
      CancelledTag(m, {t}, false, now, a);
    }
  }

  lemma SelectedStatuses(m: Match, t: nat, now: Time)
    ensures LiveOvertime(m.rounds, t, false) ==> Cancelled(m, {t}, false, now).status == OvertimeReady
    ensures Cancelled(m, LiveRegulation(m, 2), false, now).status == Break
    ensures LiveRegulation(m, 1) != {} ==> Cancelled(m, LiveRegulation(m, 1), false, now).status == Waiting
  {
    if LiveOvertime(m.rounds, t, false) { assert AnyRound(m, {t}, Overtime, 0); }
    if LiveRegulation(m, 1) != {} {
      var i :| i in LiveRegulation(m, 1);
      assert AnyRound(m, LiveRegulation(m, 1), Regulation, 1);
    }
  }

  lemma OvertimeSelectionShape(m: Match, now: Time)
    requires PhaseOK(m) && AppealsOK(m) && OvertimePhase(m.status) && TopOvertime(m.rounds, false).Some?
    ensures var ids := {TopOvertime(m.rounds, false).value};
            var after := Cancelled(m, ids, false, now);
            ReachesSources(m, ids, false) && AppealShape(after.status, after.currentRound, TallyOf(after, None))
  {
    var t := TopOvertime(m.rounds, false).value;
    CancelOvertimeShape(m, t, now);
    SelectedStatuses(m, t, now);
  }

  lemma RegulationSelectionShape(m: Match, number: nat, now: Time)
    requires PhaseOK(m) && AppealsOK(m) && LiveRegulation(m, number) != {}
    requires (number == 1 && m.status == Break) ||
             (number == 2 && (m.status == RegulationAppeal ||
                              (m.currentRound == Some(2) && (m.status == Finished || m.status == AwaitingResultSave))))
    ensures var ids := LiveRegulation(m, number);
            var after := Cancelled(m, ids, false, now);
            ReachesSources(m, ids, false) && AppealShape(after.status, after.currentRound, TallyOf(after, None))
  {
    SelectedStatuses(m, 0, now);
    if number == 1 { CancelRound1Shape(m, now); } else { CancelRound2Shape(m, now); }
  }

  lemma SelectionShape(m: Match, entire: bool, ids: set<nat>, now: Time)
    requires PhaseOK(m) && AppealsOK(m) && ids == SelectedRounds(m, entire) && ids != {}
    ensures ReachesSources(m, ids, entire)
    ensures var after := Cancelled(m, ids, entire, now); AppealShape(after.status, after.currentRound,
                                                                     TallyOf(after, None))
  {
    if entire {
      CancelAllShape(m, now);
    } else if m.status == RegulationAppeal {
      RegulationSelectionShape(m, 2, now);
    } else if OvertimePhase(m.status) {
      OvertimeSelectionShape(m, now);
    } else if m.status == Break && m.currentRound == Some(1) {
      RegulationSelectionShape(m, 1, now);
    } else {
      RegulationSelectionShape(m, 2, now);
    }
  }
}
