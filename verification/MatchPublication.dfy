/** Committing, restarting and deciding appeals; a ready result can be published after every permitted run. */
module MatchPublication {
  import opened Prelude
  import opened SportRules
  import opened MatchTables
  import opened MatchModel
  import opened MatchCommands
  import opened MatchHistory
  import opened MatchPhases
  import opened MatchPhaseSteps
  import opened MatchAppeals
  import opened MatchAppealSteps
  import opened MatchAppealRuns
  import opened MatchExitUndo

  lemma SameOperationsAudits(m: Match, after: Match, k: nat)
    requires after.operations == m.operations
    ensures ResetAudit(after, k) <==> ResetAudit(m, k)
  {}

  lemma SameTagsResets(m: Match, after: Match)
    requires ResetsBalance(m) && after.operations == m.operations
    requires forall o :: 0 <= o < |m.operations| ==>
               TallyOf(after, Some(m.operations[o].audit)) == TallyOf(m, Some(m.operations[o].audit))
    ensures ResetsBalance(after)
  {
    forall o | 0 <= o < |after.operations| && IsReset(after.operations[o]) && !after.operations[o].undone
      ensures ResetBalances(after, after.operations[o])
    {
      assert ResetBalances(m, m.operations[o]);
    }
  }

  // ---------------------------------------------------------------- sweeping stale appeals

  lemma SweptAppeal(m: Match, a: nat)
    requires ReferencesOK(m) && StampsKnown(m) && AuditsOrdered(m) && a < |m.appeals|
    ensures var after := CleanUpAppeals(m);
            && AppealRefers(after.rounds, after.appeals[a].val) && AppealPaired(after, a)
            && AppealTag(after, a) == AppealTag(m, a)
  {
    var after := CleanUpAppeals(m);
    var source := m.appeals[a].val.source;
    assert AppealRefers(m.rounds, m.appeals[a].val) && AppealPaired(m, a);
    if m.rounds[source].stamp.Some? { SameOperationsAudits(m, after, m.rounds[source].stamp.value); }
    SameDecisions(m, after, a);
    assert a in StaleAppeals(m) <==> m.appeals[a].stamp.None? && m.rounds[source].stamp.Some?;
  }

  lemma SweptDecision(m: Match, d: nat)
    requires ReferencesOK(m) && StampsKnown(m) && AuditsOrdered(m) && d < |m.decisions|
    ensures var after := CleanUpAppeals(m);
            DecisionRefers(after.appeals, after.decisions[d].val) && DecisionPaired(after, d)
  {
    var after := CleanUpAppeals(m);
    assert DecisionRefers(m.appeals, m.decisions[d].val) && DecisionPaired(m, d);
    var a := m.decisions[d].val.appeal;
    FreshIsNoReset(m);
    if after.appeals[a].stamp.Some? { SameOperationsAudits(m, after, after.appeals[a].stamp.value); }
  }

  lemma SweepKeepsAppeals(m: Match)
    requires AppealsOK(m) && StampsKnown(m) && AuditsOrdered(m)
    ensures AppealsOK(CleanUpAppeals(m)) && AppealTags(CleanUpAppeals(m)) == AppealTags(m)
  {
    var after := CleanUpAppeals(m);
    forall a: nat | a < |m.appeals|
      ensures AppealRefers(after.rounds, after.appeals[a].val) && AppealPaired(after, a)
      ensures AppealTags(after)[a] == AppealTags(m)[a]
    {
      SweptAppeal(m, a);
    }
    forall d: nat | d < |m.decisions|
      ensures DecisionRefers(after.appeals, after.decisions[d].val) && DecisionPaired(after, d)
    {
      SweptDecision(m, d);
    }
    assert AppealTags(after) == AppealTags(m);
    SameTagsResets(m, after);
    SweptOrder(m);
  }

  lemma SweptOrder(m: Match)
    requires AppealsInOrder(m) && ReferencesOK(m) && StampsKnown(m) && AuditsOrdered(m)
    ensures AppealsInOrder(CleanUpAppeals(m))
  {
    var after := CleanUpAppeals(m);
    forall a: nat, b: nat | a < |after.appeals| && b < |after.appeals| && Together(after, a, b)
      ensures InOrder(after, a, b)
    {
      SweptAppeal(m, a);
      SweptAppeal(m, b);
      assert Together(m, a, b) && InOrder(m, a, b);
    }
  }

  // ---------------------------------------------------------------- a new appeal

  function ClassOfNew(a: Appeal): Class {
    if a.scope == Regulation then if a.Tied() then RegulationTied else RegulationDecisive
    else if a.Tied() then OvertimeUndecided else OvertimeDecisive
  }

  lemma NewAppealTags(m: Match, appeal: Appeal)
    requires ReferencesOK(m) && Live(m.rounds, appeal.source)
    ensures AppealTags(Appealed(m, appeal)) == AppealTags(m) + [(None, Some(ClassOfNew(appeal)))]
  {
    var after := Appealed(m, appeal);
    forall a: nat | a < |m.appeals| ensures AppealTag(after, a) == AppealTag(m, a) {
      assert AppealRefers(m.rounds, m.appeals[a].val);
      SameDecisions(m, after, a);
    }
    forall d | 0 <= d < |m.decisions| ensures m.decisions[d].val.appeal != |m.appeals| {
      assert DecisionRefers(m.appeals, m.decisions[d].val);
    }
  }

  lemma NewAppealReferences(m: Match, appeal: Appeal)
    requires ReferencesOK(m) && Live(m.rounds, appeal.source) && AppealRefers(m.rounds, appeal)
    ensures ReferencesOK(Appealed(m, appeal))
  {
    var after := Appealed(m, appeal);
    forall a: nat | a < |after.appeals|
      ensures AppealRefers(after.rounds, after.appeals[a].val) && AppealPaired(after, a)
    {
      if a < |m.appeals| {
        assert AppealRefers(m.rounds, m.appeals[a].val) && AppealPaired(m, a);
        if m.rounds[m.appeals[a].val.source].stamp.Some? {
          SameOperationsAudits(m, after, m.rounds[m.appeals[a].val.source].stamp.value);
        }
      }
    }
    forall d: nat | d < |m.decisions|
      ensures DecisionRefers(after.appeals, after.decisions[d].val) && DecisionPaired(after, d)
    {
      assert DecisionRefers(m.appeals, m.decisions[d].val) && DecisionPaired(m, d);
      var a := m.decisions[d].val.appeal;
      if m.appeals[a].stamp.Some? { SameOperationsAudits(m, after, m.appeals[a].stamp.value); }
    }
  }

  /** No overtime appeal is in force beside a new regulation appeal, and a new overtime appeal is the newest. */
  ghost predicate NewestOfAll(m: Match, appeal: Appeal) {
    forall a :: 0 <= a < |m.appeals| && ValidAppeal(m, a) ==>
      if appeal.scope == Regulation then m.appeals[a].val.scope == Regulation
      else m.appeals[a].val.scope == Regulation && m.appeals[a].val.completedAt < appeal.completedAt
  }

  lemma NewAppealOrder(m: Match, appeal: Appeal)
    requires ReferencesOK(m) && Live(m.rounds, appeal.source) && AppealsInOrder(m) && NewestOfAll(m, appeal)
    ensures AppealsInOrder(Appealed(m, appeal))
  {
    var after, n := Appealed(m, appeal), |m.appeals|;
    NewAppealTags(m, appeal);
    forall a: nat, b: nat | a < |after.appeals| && b < |after.appeals| && Together(after, a, b)
      ensures InOrder(after, a, b)
    {
      assert AppealTags(after)[a] == AppealTag(after, a) && AppealTags(after)[b] == AppealTag(after, b);
      if a < n && b < n {
        assert AppealTags(m)[a] == AppealTag(m, a) && AppealTags(m)[b] == AppealTag(m, b);
        assert Together(m, a, b) && InOrder(m, a, b);
      } else if a < n {
        assert AppealTags(m)[a] == AppealTag(m, a);
        assert ValidAppeal(m, a);
      } else if b < n {
        assert AppealTags(m)[b] == AppealTag(m, b);
        assert ValidAppeal(m, b);
      }
    }
  }

  lemma NewAppealResets(m: Match, appeal: Appeal)
    requires ReferencesOK(m) && Live(m.rounds, appeal.source) && ResetsBalance(m)
    ensures ResetsBalance(Appealed(m, appeal))
  {
    var after := Appealed(m, appeal);
    NewAppealTags(m, appeal);
    forall o | 0 <= o < |m.operations|
      ensures TallyOf(after, Some(m.operations[o].audit)) == TallyOf(m, Some(m.operations[o].audit))
    {
      TallySame(AppealTags(m), AppealTags(after), Some(m.operations[o].audit));
    }
    SameTagsResets(m, after);
  }

  lemma AppendedTally(m: Match, after: Match, c: Class)
    requires AppealTags(after) == AppealTags(m) + [(None, Some(c))]
    ensures TallyOf(after, None) == Bump(TallyOf(m, None), c)
  {
    TallyAppended(AppealTags(m), c);
  }

  lemma ReplacedTally(m: Match, after: Match, a: nat, c: Class, tag: Tag<Option<Class>>)
    requires a < |m.appeals| && AppealTags(m)[a] == (None, Some(c)) && AppealTags(after) == AppealTags(m)[a := tag]
    ensures Bump(TallyOf(after, None), c)
            == if tag.0 == None && tag.1.Some? then Bump(TallyOf(m, None), tag.1.value) else TallyOf(m, None)
  {
    TallyReplaced(AppealTags(m), a, c, tag);
  }

  lemma NewShape(appeal: Appeal, s: Status, current: Option<nat>, t: Tally)
    requires CurrentFits(s, current) && AppealShape(s, current, t)
    requires s == (if appeal.scope == Regulation then RegulationAppeal else OvertimeAppeal)
    ensures AppealShape(if !appeal.Tied() then ResultPublicationReady
                        else if appeal.scope == Regulation then OvertimeReady else OvertimeTiebreakDecision,
                        current, Bump(t, ClassOfNew(appeal)))
  {}

  lemma NewAppealShape(m: Match, appeal: Appeal)
    requires ReferencesOK(m) && Live(m.rounds, appeal.source)
    requires CurrentFits(m.status, m.currentRound) && AppealShape(m.status, m.currentRound, TallyOf(m, None))
    requires m.status == (if appeal.scope == Regulation then RegulationAppeal else OvertimeAppeal)
    ensures AppealShape(Appealed(m, appeal).status, Appealed(m, appeal).currentRound,
                        TallyOf(Appealed(m, appeal), None))
  {
    NewAppealTags(m, appeal);
    AppendedTally(m, Appealed(m, appeal), ClassOfNew(appeal));
    NewShape(appeal, m.status, m.currentRound, TallyOf(m, None));
  }

  lemma NewAppealKeeps(m: Match, appeal: Appeal)
    requires AppealsOK(m) && Fits(m) && Live(m.rounds, appeal.source) && AppealRefers(m.rounds, appeal)
    requires NewestOfAll(m, appeal)
    requires m.status == (if appeal.scope == Regulation then RegulationAppeal else OvertimeAppeal)
    ensures AppealsOK(Appealed(m, appeal))
  {
    NewAppealReferences(m, appeal);
    NewAppealOrder(m, appeal);
    NewAppealResets(m, appeal);
    NewAppealShape(m, appeal);
  }

  lemma NothingInForce(m: Match)
    requires TallyOf(m, None) == Nothing()
    ensures forall a: nat :: a < |m.appeals| ==> !ValidAppeal(m, a)
  {
    forall a: nat | a < |m.appeals| ensures !ValidAppeal(m, a) {
      if ValidAppeal(m, a) { ValidIsCounted(m, a); }
    }
  }

  lemma RegulationKeepsAppeals(m: Match, key: string, red: Adjustment, blue: Adjustment, now: Time)
    requires PhaseOK(m) && AppealsOK(m)
    ensures AppealsOK(Step(m, AppealRegulation(key, red, blue), now))
  {
    var accepted, added := RegulationStep(m, key, red, blue, now);
    var clean := CleanUpAppeals(m);
    SweepKeepsAppeals(m);
    if accepted && added.Some? {
      PhaseOnly(m, clean);
      RegulationAppealRefers(clean, added.value);
      NothingInForce(clean);
      NewAppealKeeps(clean, added.value);
    }
  }

  lemma RegulationAppealRefers(m: Match, appeal: Appeal)
    requires AppealRounds(m).Some?
    requires appeal.scope == Regulation && appeal.source == AppealRounds(m).value.1
    requires appeal.sourceRounds == {AppealRounds(m).value.0, AppealRounds(m).value.1}
    ensures Live(m.rounds, appeal.source) && AppealRefers(m.rounds, appeal)
  {
    AppealRoundsKnown(m);
  }

  lemma OvertimeKeepsAppeals(m: Match, key: string, red: Adjustment, blue: Adjustment, now: Time)
    requires PhaseOK(m) && AppealsOK(m) && ClockMoved(m, now)
    ensures AppealsOK(Step(m, AppealOvertime(key, red, blue), now))
  {
    var round := OvertimeStep(m, key, red, blue, now);
    if round.Some? {
      forall a: nat | a < |m.appeals| && ValidAppeal(m, a) ensures m.appeals[a].val.scope == Regulation {
        OnlyRegulationInForce(m, a);
      }
      NewAppealKeeps(m, OvertimeAppealOver(m, round.value, key, red, blue, now));
    }
  }

  /** An appeal in force as late as a new overtime appeal is out of order beside it. */
  lemma {:induction false} LateAppealSpoils(m: Match, a: nat, appeal: Appeal)
    requires ReferencesOK(m) && Live(m.rounds, appeal.source) && appeal.scope == Overtime
    requires a < |m.appeals| && ValidAppeal(m, a) && m.appeals[a].val.scope == Regulation
    requires appeal.completedAt <= m.appeals[a].val.completedAt
    ensures !AppealsInOrder(Appealed(m, appeal))
  {
    var after, n := Appealed(m, appeal), |m.appeals|;
    NewAppealTags(m, appeal);
    assert AppealTags(after)[a] == AppealTag(after, a) && AppealTags(after)[n] == AppealTag(after, n);
    assert AppealTags(m)[a] == AppealTag(m, a);
    assert Together(after, a, n) && !InOrder(after, a, n);
  }

  /** A new overtime appeal keeps the appeals in order exactly when the clock has moved since those in force. */
  lemma {:induction false} OvertimeKeepsAppealsExactly(m: Match, key: string, red: Adjustment, blue: Adjustment,
                                                       now: Time)
    requires PhaseOK(m) && AppealsOK(m)
    requires CommitOvertimeAppeal(m, key, red, blue, now).Success? && FindAppeal(m.appeals, key).None?
    ensures AppealsOK(Step(m, AppealOvertime(key, red, blue), now)) <==> ClockMoved(m, now)
  {
    if ClockMoved(m, now) {
      OvertimeKeepsAppeals(m, key, red, blue, now);
    } else {
      var a: nat :| a < |m.appeals| && ValidAppeal(m, a) && now <= m.appeals[a].val.completedAt;
      OvertimeTooEarly(m, a, key, red, blue, now);
    }
  }

  lemma {:induction false} OvertimeTooEarly(m: Match, a: nat, key: string, red: Adjustment, blue: Adjustment, now: Time)
    requires AppealsOK(m)
    requires CommitOvertimeAppeal(m, key, red, blue, now).Success? && FindAppeal(m.appeals, key).None?
    requires a < |m.appeals| && ValidAppeal(m, a) && now <= m.appeals[a].val.completedAt
    ensures !AppealsInOrder(Step(m, AppealOvertime(key, red, blue), now))
  {
    var round := OvertimeStep(m, key, red, blue, now);
    OnlyRegulationInForce(m, a);
    LateAppealSpoils(m, a, OvertimeAppealOver(m, round.value, key, red, blue, now));
  }

  // ---------------------------------------------------------------- restarting overtime

  lemma RestartedAppeal(m: Match, a: nat, b: nat)
    requires ReferencesOK(m) && StampsKnown(m) && AuditsOrdered(m) && a < |m.appeals| && b < |m.appeals|
    requires ValidAppeal(m, a) && (ValidAppeal(m, b) && m.appeals[b].val.source == m.appeals[a].val.source ==> b == a)
    ensures var after := Restarted(m, a);
            && AppealRefers(after.rounds, after.appeals[b].val) && AppealPaired(after, b)
            && AppealTag(after, b) == if b == a then (Some(m.nextAudit), AppealTag(m, a).1) else AppealTag(m, b)
    ensures AppealTag(m, b).0 != Some(m.nextAudit)
  {
    var after := Restarted(m, a);
    var source := m.appeals[b].val.source;
    assert AppealRefers(m.rounds, m.appeals[b].val) && AppealPaired(m, b);
    FreshIsNoReset(m);
    if after.rounds[source].stamp.Some? { SameOperationsAudits(m, after, after.rounds[source].stamp.value); }
    SameDecisions(m, after, b);
  }

  lemma RestartedDecision(m: Match, a: nat, d: nat)
    requires ReferencesOK(m) && StampsKnown(m) && AuditsOrdered(m) && a < |m.appeals| && ValidAppeal(m, a)
    requires d < |m.decisions|
    ensures var after := Restarted(m, a);
            DecisionRefers(after.appeals, after.decisions[d].val) && DecisionPaired(after, d)
  {
    var after := Restarted(m, a);
    assert DecisionRefers(m.appeals, m.decisions[d].val) && DecisionPaired(m, d);
    var b := m.decisions[d].val.appeal;
    FreshIsNoReset(m);
    if after.appeals[b].stamp.Some? { SameOperationsAudits(m, after, after.appeals[b].stamp.value); }
    assert d in DecisionsOf(m, {a}, {}) <==> b == a;
  }

  /** In the tiebreak phase the tied overtime appeal stands alone over its round. */
  lemma AloneOverItsRound(m: Match, a: nat, b: nat)
    requires ReferencesOK(m) && TallyOf(m, None) == Tally(1, 0, 1, 0, 0)
    requires a < |m.appeals| && b < |m.appeals| && ValidAppeal(m, a) && ValidAppeal(m, b)
    requires m.appeals[a].val.scope == Overtime
    requires m.appeals[b].val.source == m.appeals[a].val.source
    ensures ClassOf(m, a) == OvertimeUndecided && b == a
  {
    assert AppealRefers(m.rounds, m.appeals[a].val) && AppealRefers(m.rounds, m.appeals[b].val);
    ValidIsCounted(m, a);
    ValidIsCounted(m, b);
    CountedOnce(m, a, b);
  }

  lemma RestartedReferences(m: Match, a: nat)
    requires ReferencesOK(m) && StampsKnown(m) && AuditsOrdered(m)
    requires a < |m.appeals| && ValidAppeal(m, a) && m.appeals[a].val.scope == Overtime
    requires forall b: nat | b < |m.appeals| && ValidAppeal(m, b) ::
               m.appeals[b].val.source == m.appeals[a].val.source ==> b == a
    ensures ReferencesOK(Restarted(m, a))
  {
    var after := Restarted(m, a);
    forall b: nat | b < |m.appeals|
      ensures AppealRefers(after.rounds, after.appeals[b].val) && AppealPaired(after, b)
    {
      RestartedAppeal(m, a, b);
    }
    forall d: nat | d < |m.decisions|
      ensures DecisionRefers(after.appeals, after.decisions[d].val) && DecisionPaired(after, d)
    {
      RestartedDecision(m, a, d);
    }
  }

  lemma RestartedTags(m: Match, a: nat)
    requires ReferencesOK(m) && StampsKnown(m) && AuditsOrdered(m) && TallyOf(m, None) == Tally(1, 0, 1, 0, 0)
    requires a < |m.appeals| && ValidAppeal(m, a) && m.appeals[a].val.scope == Overtime
    ensures AppealTags(Restarted(m, a)) == AppealTags(m)[a := (Some(m.nextAudit), Some(OvertimeUndecided))]
    ensures AppealTags(m)[a] == (None, Some(OvertimeUndecided))
    ensures ReferencesOK(Restarted(m, a))
  {
    var after := Restarted(m, a);
    AloneOverItsRound(m, a, a);
    forall b: nat | b < |m.appeals| && ValidAppeal(m, b) && m.appeals[b].val.source == m.appeals[a].val.source
      ensures b == a
    {
      AloneOverItsRound(m, a, b);
    }
    RestartedReferences(m, a);
    forall b: nat | b < |m.appeals|
      ensures AppealTags(after)[b] == if b == a then (Some(m.nextAudit), Some(OvertimeUndecided)) else AppealTags(m)[b]
    {
      RestartedAppeal(m, a, b);
    }
  }

  lemma TallyReplaced(s: seq<Tag<Option<Class>>>, a: nat, c: Class, tag: Tag<Option<Class>>)
    requires a < |s| && s[a] == (None, Some(c))
    ensures var t := s[a := tag];
            Bump(TallyTags(t, None), c)
            == if tag.0 == None && tag.1.Some? then Bump(TallyTags(s, None), tag.1.value) else TallyTags(s, None)
  {
    CountUpdated(s, a, tag, (None, Some(RegulationTied)));
    CountUpdated(s, a, tag, (None, Some(RegulationDecisive)));
    CountUpdated(s, a, tag, (None, Some(OvertimeUndecided)));
    CountUpdated(s, a, tag, (None, Some(OvertimeDecided)));
    CountUpdated(s, a, tag, (None, Some(OvertimeDecisive)));
  }

  lemma RestartedOrder(m: Match, a: nat)
    requires AppealsInOrder(m) && a < |m.appeals|
    requires AppealTags(Restarted(m, a)) == AppealTags(m)[a := (Some(m.nextAudit), Some(OvertimeUndecided))]
    requires forall b: nat :: b < |m.appeals| ==> AppealTag(m, b).0 != Some(m.nextAudit)
    ensures AppealsInOrder(Restarted(m, a))
  {
    var after := Restarted(m, a);
    forall b: nat, c: nat | b < |after.appeals| && c < |after.appeals| && Together(after, b, c)
      ensures InOrder(after, b, c)
    {
      assert AppealTags(after)[b] == AppealTag(after, b) && AppealTags(after)[c] == AppealTag(after, c);
      assert AppealTags(m)[b] == AppealTag(m, b) && AppealTags(m)[c] == AppealTag(m, c);
      if b != c { assert Together(m, b, c) && InOrder(m, b, c); }
    }
  }

  lemma FreshTags(m: Match)
    requires StampsKnown(m)
    ensures forall b: nat :: b < |m.appeals| ==> AppealTag(m, b).0 != Some(m.nextAudit)
  {}

  lemma RestartedShape(m: Match, a: nat)
    requires a < |m.appeals| && m.status == OvertimeTiebreakDecision && TallyOf(m, None) == Tally(1, 0, 1, 0, 0)
    requires AppealTags(Restarted(m, a)) == AppealTags(m)[a := (Some(m.nextAudit), Some(OvertimeUndecided))]
    requires AppealTags(m)[a] == (None, Some(OvertimeUndecided))
    ensures AppealShape(Restarted(m, a).status, Restarted(m, a).currentRound, TallyOf(Restarted(m, a), None))
  {
    ReplacedTally(m, Restarted(m, a), a, OvertimeUndecided, (Some(m.nextAudit), Some(OvertimeUndecided)));
  }

  lemma RestartedKeeps(m: Match, a: nat)
    requires AppealsOK(m) && StampsKnown(m) && AuditsOrdered(m) && m.status == OvertimeTiebreakDecision
    requires a < |m.appeals| && ValidAppeal(m, a) && m.appeals[a].val.scope == Overtime
    ensures ReferencesOK(Restarted(m, a)) && AppealsInOrder(Restarted(m, a))
    ensures AppealShape(Restarted(m, a).status, Restarted(m, a).currentRound, TallyOf(Restarted(m, a), None))
  {
    RestartedTags(m, a);
    RestartedShape(m, a);
    FreshTags(m);
    RestartedOrder(m, a);
  }

  lemma RestartKeepsAppeals(m: Match, now: Time)
    requires PhaseOK(m) && AppealsOK(m) && Permitted(m, Restart, now)
    ensures AppealsOK(Step(m, Restart, now))
  {
    var a := RestartStep(m, now);
    if a.Some? {
      RestartedKeeps(m, a.value);
      OldResetsBalance(m, Restart, now);
      OneMoreReset(Restarted(m, a.value), |m.operations|);
    }
  }

  // ---------------------------------------------------------------- a manual decision

  lemma ChosenHasDecision(m: Match, a: nat, winner: Color, now: Time, b: nat)
    requires a < |m.appeals|
    ensures HasDecision(Chosen(m, a, winner, now), b) <==> b == a || HasDecision(m, b)
  {
    var after := Chosen(m, a, winner, now);
    assert after.decisions[|m.decisions|].val.appeal == a;
    if HasDecision(m, b) {
      var d :| 0 <= d < |m.decisions| && m.decisions[d].val.appeal == b;
      assert after.decisions[d].val.appeal == b;
    }
    if HasDecision(after, b) && b != a {
      var d :| 0 <= d < |after.decisions| && after.decisions[d].val.appeal == b;
      assert m.decisions[d].val.appeal == b;
    }
  }

  lemma ChosenTags(m: Match, a: nat, winner: Color, now: Time)
    requires ReferencesOK(m) && a < |m.appeals| && ValidAppeal(m, a) && ClassOf(m, a) == OvertimeUndecided
    ensures AppealTags(Chosen(m, a, winner, now)) == AppealTags(m)[a := (None, Some(OvertimeDecided))]
    ensures AppealTags(m)[a] == (None, Some(OvertimeUndecided))
  {
    var after := Chosen(m, a, winner, now);
    forall b: nat | b < |m.appeals|
      ensures AppealTags(after)[b] == if b == a then (None, Some(OvertimeDecided)) else AppealTags(m)[b]
    {
      ChosenHasDecision(m, a, winner, now, b);
      assert AppealRefers(m.rounds, m.appeals[b].val);
    }
  }

  lemma ChosenReferences(m: Match, a: nat, winner: Color, now: Time)
    requires ReferencesOK(m) && a < |m.appeals| && ValidAppeal(m, a) && ClassOf(m, a) == OvertimeUndecided
    ensures ReferencesOK(Chosen(m, a, winner, now))
  {
    var after := Chosen(m, a, winner, now);
    forall b: nat | b < |m.appeals| ensures AppealRefers(after.rounds, after.appeals[b].val) && AppealPaired(after, b) {
      assert AppealRefers(m.rounds, m.appeals[b].val) && AppealPaired(m, b);
      if m.rounds[m.appeals[b].val.source].stamp.Some? {
        SameOperationsAudits(m, after, m.rounds[m.appeals[b].val.source].stamp.value);
      }
    }
    forall d: nat | d < |after.decisions|
      ensures DecisionRefers(after.appeals, after.decisions[d].val) && DecisionPaired(after, d)
    {
      if d < |m.decisions| {
        assert DecisionRefers(m.appeals, m.decisions[d].val) && DecisionPaired(m, d);
        if m.appeals[m.decisions[d].val.appeal].stamp.Some? {
          SameOperationsAudits(m, after, m.appeals[m.decisions[d].val.appeal].stamp.value);
        }
      }
    }
  }

  lemma ChosenResets(m: Match, a: nat, winner: Color, now: Time)
    requires ReferencesOK(m) && ResetsBalance(m) && a < |m.appeals| && ValidAppeal(m, a)
    requires ClassOf(m, a) == OvertimeUndecided
    ensures ResetsBalance(Chosen(m, a, winner, now))
  {
    var after := Chosen(m, a, winner, now);
    ChosenTags(m, a, winner, now);
    forall o | 0 <= o < |m.operations|
      ensures TallyOf(after, Some(m.operations[o].audit)) == TallyOf(m, Some(m.operations[o].audit))
    {
      TallySame(AppealTags(m), AppealTags(after), Some(m.operations[o].audit));
    }
    SameTagsResets(m, after);
  }

  lemma ChosenOrder(m: Match, a: nat, winner: Color, now: Time)
    requires ReferencesOK(m) && AppealsInOrder(m) && a < |m.appeals| && ValidAppeal(m, a)
    requires ClassOf(m, a) == OvertimeUndecided
    ensures AppealsInOrder(Chosen(m, a, winner, now))
  {
    var after := Chosen(m, a, winner, now);
    ChosenTags(m, a, winner, now);
    forall b: nat, c: nat | b < |after.appeals| && c < |after.appeals| && Together(after, b, c)
      ensures InOrder(after, b, c)
    {
      assert AppealTags(after)[b] == AppealTag(after, b) && AppealTags(after)[c] == AppealTag(after, c);
      assert AppealTags(m)[b] == AppealTag(m, b) && AppealTags(m)[c] == AppealTag(m, c);
      assert Together(m, b, c) && InOrder(m, b, c);
    }
  }

  lemma ChosenShape(m: Match, a: nat, winner: Color, now: Time)
    requires a < |m.appeals| && m.currentRound == Some(1) && TallyOf(m, None) == Tally(1, 0, 1, 0, 0)
    requires AppealTags(Chosen(m, a, winner, now)) == AppealTags(m)[a := (None, Some(OvertimeDecided))]
    requires AppealTags(m)[a] == (None, Some(OvertimeUndecided))
    ensures var after := Chosen(m, a, winner, now); AppealShape(after.status, after.currentRound, TallyOf(after, None))
  {
    ReplacedTally(m, Chosen(m, a, winner, now), a, OvertimeUndecided, (None, Some(OvertimeDecided)));
  }

  lemma ChosenKeeps(m: Match, a: nat, winner: Color, now: Time)
    requires AppealsOK(m) && Fits(m) && m.status == OvertimeTiebreakDecision
    requires a < |m.appeals| && ValidAppeal(m, a) && m.appeals[a].val.scope == Overtime
    ensures AppealsOK(Chosen(m, a, winner, now))
  {
    AloneOverItsRound(m, a, a);
    ChosenTags(m, a, winner, now);
    ChosenShape(m, a, winner, now);
    ChosenReferences(m, a, winner, now);
    ChosenResets(m, a, winner, now);
    ChosenOrder(m, a, winner, now);
  }

  /** A decision on an appeal that is out of force changes no appeal in force. */
  lemma {:induction false} ChosenOverStale(m: Match, a: nat, winner: Color, now: Time)
    requires a < |m.appeals| && !ValidAppeal(m, a)
    ensures TallyOf(Chosen(m, a, winner, now), None) == TallyOf(m, None)
  {
    var after := Chosen(m, a, winner, now);
    forall b: nat, c: Class | b < |m.appeals|
      ensures AppealTags(m)[b] == (None, Some(c)) <==> AppealTags(after)[b] == (None, Some(c))
    {
      if b != a && HasDecision(m, b) {
        var d :| 0 <= d < |m.decisions| && m.decisions[d].val.appeal == b;
        assert after.decisions[d].val.appeal == b;
      }
    }
    TallySame(AppealTags(m), AppealTags(after), None);
  }

  /** A manual decision on the appeal the lookup finds keeps the appeals in order exactly when its round is live. */
  lemma {:induction false} ChooseKeepsAppealsExactly(m: Match, a: nat, winner: Color, now: Time)
    requires PhaseOK(m) && AppealsOK(m) && m.status == OvertimeTiebreakDecision
    requires TopOvertimeAppeal(m.appeals) == Some(a)
    ensures AppealsOK(Chosen(m, a, winner, now)) <==> Live(m.rounds, m.appeals[a].val.source)
  {
    if Live(m.rounds, m.appeals[a].val.source) {
      ChosenKeeps(m, a, winner, now);
    } else {
      ChosenOverStale(m, a, winner, now);
    }
  }

  lemma ChooseKeepsAppeals(m: Match, winner: Color, now: Time)
    requires PhaseOK(m) && AppealsOK(m) && DecidesInForce(m, Choose(winner))
    ensures AppealsOK(Step(m, Choose(winner), now))
  {
    var a := ChooseStep(m, winner, now);
    if a.Some? { ChosenKeeps(m, a.value, winner, now); }
  }

  // ---------------------------------------------------------------- every run

  /** What an undo brings back fits with what stands: in time and, after an exit, because nobody has cancelled it. */
  ghost predicate ReturnsWell(m: Match, o: nat)
    requires o < |m.operations|
  {
    var op := m.operations[o];
    if IsReset(op) then ReturnsInOrder(m, op.audit)
    else NothingSwept(m, op.audit) && ComesInOrder(m, op.audit) && PhaseAwaits(m, op, TallyOf(m, None))
  }

  /** Undos return well, and the clock moves between two commits of appeals. */
  ghost predicate Orderly(m: Match, command: Command, now: Time) {
    match command
    case Undo(o) => UndoAllowed(m, o) ==> ReturnsWell(m, o)
    case AppealOvertime(_, _, _) => ClockMoved(m, now)
    case Choose(_) => DecidesInForce(m, command)
    case _ => true
  }

  /** An undo keeps the appeals in order exactly when it returns well. */
  lemma UndoKeepsAppealsExactly(m: Match, o: nat, now: Time)
    requires PhaseOK(m) && AppealsOK(m) && ExitsBalance(m) && UndoAllowed(m, o)
    ensures AppealsOK(Undone(m, o)) <==> ReturnsWell(m, o)
  {
    if !IsReset(m.operations[o]) {
      ExitUndoKeepsAppealsExactly(m, o);
    } else {
      UndoKeepsOrderExactly(m, o);
      if ReturnsWell(m, o) { UndoKeepsAppeals(m, o, now); }
    }
  }

  lemma WakeUpKeepsAppeals(m: Match, i: nat, now: Time)
    requires PhaseOK(m) && AppealsOK(m) && Permitted(m, Expire(i), now)
    ensures AppealsOK(Step(m, Expire(i), now))
  {
    if Expires(m, i, now) { ExpireKeeps(m, i, now); }
  }

  lemma UndoStepAppeals(m: Match, o: nat, now: Time)
    requires PhaseOK(m) && AppealsOK(m) && ExitsBalance(m) && (UndoAllowed(m, o) ==> ReturnsWell(m, o))
    ensures AppealsOK(Step(m, Undo(o), now))
  {
    if UndoAllowed(m, o) { UndoKeepsAppealsExactly(m, o, now); }
  }

  lemma ExitStepAppeals(m: Match, mode: ExitMode, now: Time)
    requires PhaseOK(m) && AppealsOK(m) && Permitted(m, Exit(mode), now)
    ensures AppealsOK(Step(m, Exit(mode), now))
  {
    if ExitAllowed(m, mode) { ExitKeepsAppeals(m, mode, now); }
  }

  /** Rounds, votes and wake-ups. */
  lemma PlayKeepsAppeals(m: Match, command: Command, now: Time)
    requires PhaseOK(m) && AppealsOK(m) && Permitted(m, command, now)
    requires !CorrectsMatch(command) && !SettlesMatch(command)
    ensures AppealsOK(Step(m, command, now))
  {
    match command
    case Expire(i) => WakeUpKeepsAppeals(m, i, now);
    case CastVote(_, _, _) => VotingKeeps(m, command, now);
    case Resolve(_) => VotingKeeps(m, command, now);
    case _ => ClockKeeps(m, command, now);
  }

  predicate CorrectsMatch(command: Command) {
    command.Cancel? || command.Undo? || command.Exit?
  }

  lemma CorrectionKeepsAppeals(m: Match, command: Command, now: Time)
    requires PhaseOK(m) && AppealsOK(m) && ExitsBalance(m) && Permitted(m, command, now) && Orderly(m, command, now)
    requires CorrectsMatch(command)
    ensures AppealsOK(Step(m, command, now))
  {
    match command
    case Cancel(entire, retracted) => CancelKeepsAppeals(m, entire, retracted, now);
    case Undo(o) => UndoStepAppeals(m, o, now);
    case Exit(mode) => ExitStepAppeals(m, mode, now);
  }

  predicate SettlesMatch(command: Command) {
    command.AppealRegulation? || command.AppealOvertime? || command.Restart? || command.Choose?
  }

  lemma SettlementKeepsAppeals(m: Match, command: Command, now: Time)
    requires PhaseOK(m) && AppealsOK(m) && Permitted(m, command, now) && Orderly(m, command, now)
    requires SettlesMatch(command)
    ensures AppealsOK(Step(m, command, now))
  {
    match command
    case AppealRegulation(key, red, blue) => RegulationKeepsAppeals(m, key, red, blue, now);
    case AppealOvertime(key, red, blue) => OvertimeKeepsAppeals(m, key, red, blue, now);
    case Restart => RestartKeepsAppeals(m, now);
    case Choose(winner) => ChooseKeepsAppeals(m, winner, now);
  }

  lemma StepAppeals(m: Match, command: Command, now: Time)
    requires PhaseOK(m) && AppealsOK(m) && ExitsBalance(m) && Permitted(m, command, now) && Orderly(m, command, now)
    ensures AppealsOK(Step(m, command, now))
  {
    if CorrectsMatch(command) {
      CorrectionKeepsAppeals(m, command, now);
    } else if SettlesMatch(command) {
      SettlementKeepsAppeals(m, command, now);
    } else {
      PlayKeepsAppeals(m, command, now);
    }
  }

  ghost predicate OrderlyRun(m: Match, script: seq<Timed>)
    decreases |script|
  {
    script != [] ==>
      && Permitted(m, script[0].command, script[0].now) && Orderly(m, script[0].command, script[0].now)
      && OrderlyRun(Step(m, script[0].command, script[0].now), script[1..])
  }

  lemma NewMatchAppeals(rules: RulesVersion, judges: nat, duration: nat, intermission: nat)
    ensures AppealsOK(NewMatch(rules, judges, duration, intermission))
    ensures ExitsBalance(NewMatch(rules, judges, duration, intermission))
  {
    assert AppealTags(NewMatch(rules, judges, duration, intermission)) == [];
  }

  lemma {:induction false} RunAppeals(m: Match, script: seq<Timed>)
    requires PhaseOK(m) && AppealsOK(m) && ExitsBalance(m) && OrderlyRun(m, script)
    ensures PhaseOK(Run(m, script)) && AppealsOK(Run(m, script)) && ExitsBalance(Run(m, script))
    decreases |script|
  {
    if script != [] {
      StepPhase(m, script[0].command, script[0].now);
      StepAppeals(m, script[0].command, script[0].now);
      StepExits(m, script[0].command, script[0].now);
      RunAppeals(Step(m, script[0].command, script[0].now), script[1..]);
    }
  }

  /** The outcome names an appeal in force, and its winner leads there or was decided for. */
  ghost predicate GivesVerdict(m: Match, outcome: Option<Outcome>) {
    && outcome.Some? && outcome.value.appeal < |m.appeals| && ValidAppeal(m, outcome.value.appeal)
    && (Leads(m.appeals[outcome.value.appeal].val, outcome.value.winner)
        || DecidedFor(m, outcome.value.appeal, outcome.value.winner))
  }

  /**
   * After any orderly run of a new match, a ready result can be published exactly when none has been published yet,
   * and the verdict is the one its newest appeal in force gives.
   */
  lemma ReadyResultIsPublishable(
      rules: RulesVersion, judges: nat, duration: nat, intermission: nat, script: seq<Timed>, key: string, now: Time)
    requires OrderlyRun(NewMatch(rules, judges, duration, intermission), script)
    requires var m := Run(NewMatch(rules, judges, duration, intermission), script);
             && m.status == ResultPublicationReady && m.lifecycle == InProgress
             && m.rules == FaultAppealOvertimeV2 && Unanswered(m, key)
    ensures var m := Run(NewMatch(rules, judges, duration, intermission), script);
            && (PublishResult(m, key, now).Success? <==> m.outcome.None?)
            && (m.outcome.None? ==> GivesVerdict(m, PublishResult(m, key, now).value.outcome))
  {
    NewMatchPhase(rules, judges, duration, intermission);
    NewMatchAppeals(rules, judges, duration, intermission);
    RunAppeals(NewMatch(rules, judges, duration, intermission), script);
    var m := Run(NewMatch(rules, judges, duration, intermission), script);
    PublicationIsOnce(m, key, now);
    if m.outcome.None? { PublicationSucceeds(m, key, now); }
  }
}
