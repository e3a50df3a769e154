/** Undoing an exit: it brings back rounds, and with them the appeals nobody has cancelled since. */
module MatchExitUndo {
  import opened Prelude
  import opened MatchTables
  import opened MatchModel
  import opened MatchCommands
  import opened MatchHistory
  import opened MatchColumns
  import MatchConstraints
  import opened MatchPhases
  import opened MatchPhaseSteps
  import opened MatchAppeals
  import opened MatchAppealSteps
  import opened MatchAppealRuns

  // ---------------------------------------------------------------- the appeals over the rounds of an exit

  /** The stamp of the source round, whatever became of the appeal itself. */
  ghost function SourceTag(m: Match, a: nat): Tag<Option<Class>>
    requires a < |m.appeals|
  {
    var source := m.appeals[a].val.source;
    if source < |m.rounds| then (m.rounds[source].stamp, Some(ClassOf(m, a))) else (None, None)
  }

  ghost function SourceTags(m: Match): (tags: seq<Tag<Option<Class>>>)
    ensures |tags| == |m.appeals|
  {
    seq(|m.appeals|, a requires 0 <= a < |m.appeals| => SourceTag(m, a))
  }

  /** The appeals over rounds that exit k took. */
  ghost function Taken(m: Match, k: nat): Tally {
    TallyTags(SourceTags(m), Some(k))
  }

  predicate OverTaken(m: Match, a: nat, k: nat)
    requires a < |m.appeals|
  {
    var source := m.appeals[a].val.source;
    source < |m.rounds| && m.rounds[source].stamp == Some(k)
  }

  /** Exits stamp neither appeals nor decisions. */
  ghost predicate NoneUnder(m: Match, k: nat) {
    && (forall a :: 0 <= a < |m.appeals| ==> m.appeals[a].stamp != Some(k))
    && (forall d :: 0 <= d < |m.decisions| ==> m.decisions[d].stamp != Some(k))
  }

  /**
   * Giving back what the exit took fits the earlier phase, whatever has come into force since. Only the exit that
   * keeps both regulation rounds takes nothing and leaves the phase open.
   */
  ghost predicate ExitBalances(m: Match, op: Operation) {
    && NoneUnder(m, op.audit)
    && if op.resultingStatus == AwaitingResultSave then Taken(m, op.audit) == Nothing()
       else forall t :: AppealShape(op.resultingStatus, op.resultingCurrentRound, t) ==>
              AppealShape(op.previousStatus, op.previousCurrentRound, Plus(t, Taken(m, op.audit)))
  }

  ghost predicate ExitsBalanceUpTo(m: Match, n: nat)
    requires n <= |m.operations|
  {
    forall o :: 0 <= o < n && !IsReset(m.operations[o]) && !m.operations[o].undone ==> ExitBalances(m, m.operations[o])
  }

  ghost predicate ExitsBalance(m: Match) {
    ExitsBalanceUpTo(m, |m.operations|)
  }

  // ---------------------------------------------------------------- what an undo of an exit brings back

  /** No appeal over a round the exit took has been cancelled since. */
  ghost predicate NothingSwept(m: Match, k: nat) {
    forall a :: 0 <= a < |m.appeals| && OverTaken(m, a, k) ==> m.appeals[a].stamp.None?
  }

  /** In force, or about to be. */
  predicate Comes(m: Match, a: nat, k: nat)
    requires a < |m.appeals|
  {
    ValidAppeal(m, a) || OverTaken(m, a, k)
  }

  ghost predicate ComesInOrder(m: Match, k: nat) {
    forall a, b :: 0 <= a < |m.appeals| && 0 <= b < |m.appeals| && Comes(m, a, k) && Comes(m, b, k) ==> InOrder(m, a, b)
  }

  lemma ExitIsNoReset(m: Match, o: nat)
    requires AuditsOrdered(m) && o < |m.operations| && !IsReset(m.operations[o])
    ensures !ResetAudit(m, m.operations[o].audit)
  {
    forall p | 0 <= p < |m.operations| && m.operations[p].audit == m.operations[o].audit ensures p == o {}
  }

  lemma ReturnedAppeal(m: Match, o: nat, a: nat)
    requires ReferencesOK(m) && AuditsOrdered(m) && o < |m.operations| && !IsReset(m.operations[o]) && a < |m.appeals|
    requires NoneUnder(m, m.operations[o].audit)
    ensures var after, k := Undone(m, o), m.operations[o].audit;
            && AppealRefers(after.rounds, after.appeals[a].val)
            && (AppealPaired(after, a) <==> (OverTaken(m, a, k) ==> m.appeals[a].stamp.None?))
            && AppealTag(after, a) == (if OverTaken(m, a, k)
                                       && m.appeals[a].stamp.None? then (None, Some(ClassOf(m, a)))
                                            else AppealTag(m, a))
            && ClassOf(after, a) == ClassOf(m, a)
  {
    var after, k := Undone(m, o), m.operations[o].audit;
    var source := m.appeals[a].val.source;
    assert AppealRefers(m.rounds, m.appeals[a].val) && AppealPaired(m, a);
    assert Clear(m.appeals, k)[a] == m.appeals[a];
    if m.rounds[source].stamp.Some? { UndoneAudits(m, o, m.rounds[source].stamp.value); }
    ExitIsNoReset(m, o);
    SameDecisions(m, after, a);
  }

  lemma ReturnedReferences(m: Match, o: nat)
    requires ReferencesOK(m) && AuditsOrdered(m) && o < |m.operations| && !IsReset(m.operations[o])
    requires NoneUnder(m, m.operations[o].audit)
    ensures ReferencesOK(Undone(m, o)) <==> NothingSwept(m, m.operations[o].audit)
  {
    var after, k := Undone(m, o), m.operations[o].audit;
    forall a: nat | a < |m.appeals|
      ensures AppealRefers(after.rounds, after.appeals[a].val)
      ensures AppealPaired(after, a) <==> (OverTaken(m, a, k) ==> m.appeals[a].stamp.None?)
    {
      ReturnedAppeal(m, o, a);
    }
    forall d: nat | d < |m.decisions|
      ensures DecisionRefers(after.appeals, after.decisions[d].val) && DecisionPaired(after, d)
    {
      ReturnedDecision(m, o, d);
    }
  }

  lemma ReturnedDecision(m: Match, o: nat, d: nat)
    requires ReferencesOK(m) && AuditsOrdered(m) && o < |m.operations| && !IsReset(m.operations[o]) && d < |m.decisions|
    requires NoneUnder(m, m.operations[o].audit)
    ensures DecisionRefers(Undone(m, o).appeals, Undone(m, o).decisions[d].val) && DecisionPaired(Undone(m, o), d)
  {
    var after, k := Undone(m, o), m.operations[o].audit;
    var a := m.decisions[d].val.appeal;
    assert DecisionRefers(m.appeals, m.decisions[d].val) && DecisionPaired(m, d);
    assert Clear(m.appeals, k)[a] == m.appeals[a] && Clear(m.decisions, k)[d] == m.decisions[d];
    if m.appeals[a].stamp.Some? { UndoneAudits(m, o, m.appeals[a].stamp.value); }
  }

  lemma ReturnedOrder(m: Match, o: nat)
    requires ReferencesOK(m) && AppealsInOrder(m) && AuditsOrdered(m) && o < |m.operations| && !IsReset(m.operations[o])
    requires NoneUnder(m, m.operations[o].audit) && NothingSwept(m, m.operations[o].audit)
    ensures AppealsInOrder(Undone(m, o)) <==> ComesInOrder(m, m.operations[o].audit)
  {
    var after, k := Undone(m, o), m.operations[o].audit;
    forall a: nat, b: nat | a < |m.appeals| && b < |m.appeals|
      ensures Together(after, a, b) <==> (Comes(m, a, k) && Comes(m, b, k)) || Together(m, a, b)
      ensures InOrder(after, a, b) <==> InOrder(m, a, b)
    {
      ReturnedTogether(m, o, a, b);
    }
  }

  lemma ReturnedTogether(m: Match, o: nat, a: nat, b: nat)
    requires ReferencesOK(m) && AuditsOrdered(m) && o < |m.operations| && !IsReset(m.operations[o])
    requires NoneUnder(m, m.operations[o].audit) && NothingSwept(m, m.operations[o].audit) && a < |m.appeals|
    requires b < |m.appeals|
    ensures Together(Undone(m, o), a, b)
            <==> (Comes(m, a, m.operations[o].audit) && Comes(m, b, m.operations[o].audit)) || Together(m, a, b)
    ensures InOrder(Undone(m, o), a, b) <==> InOrder(m, a, b)
  {
    ReturnedAppeal(m, o, a);
    ReturnedAppeal(m, o, b);
  }

  // ---------------------------------------------------------------- the phase table after the undo

  /** The appeals as they stand, with those over the taken rounds put under the stamp of the exit. */
  ghost function MixedTags(m: Match, k: nat): (tags: seq<Tag<Option<Class>>>)
    ensures |tags| == |m.appeals|
  {
    seq(|m.appeals|, a requires 0 <= a < |m.appeals| => if OverTaken(m, a, k) then SourceTag(m, a) else AppealTag(m, a))
  }

  lemma MixedCounts(m: Match, k: nat, c: Class)
    requires NothingSwept(m, k) && NoneUnder(m, k)
    ensures Count(MixedTags(m, k), (None, Some(c))) == Count(AppealTags(m), (None, Some(c)))
    ensures Count(MixedTags(m, k), (Some(k), Some(c))) == Count(SourceTags(m), (Some(k), Some(c)))
  {
    CountMatches(MixedTags(m, k), AppealTags(m), (None, Some(c)), (None, Some(c)));
    CountMatches(MixedTags(m, k), SourceTags(m), (Some(k), Some(c)), (Some(k), Some(c)));
  }

  lemma ReturnedCount(m: Match, o: nat, c: Class)
    requires ReferencesOK(m) && AuditsOrdered(m) && o < |m.operations| && !IsReset(m.operations[o])
    requires NoneUnder(m, m.operations[o].audit) && NothingSwept(m, m.operations[o].audit)
    ensures var k := m.operations[o].audit;
            Count(AppealTags(Undone(m, o)), (None, Some(c)))
            == Count(AppealTags(m), (None, Some(c))) + Count(SourceTags(m), (Some(k), Some(c)))
  {
    var k := m.operations[o].audit;
    forall a: nat | a < |m.appeals|
      ensures AppealTags(Undone(m, o))[a]
              == if MixedTags(m, k)[a].0 == Some(k) then (None, MixedTags(m, k)[a].1) else MixedTags(m, k)[a]
    {
      ReturnedAppeal(m, o, a);
    }
    CountRestored(MixedTags(m, k), AppealTags(Undone(m, o)), k, Some(c));
    MixedCounts(m, k, c);
  }

  lemma {:induction false} TalliesAdd(s: Tally, t: Tally, u: Tally)
    requires forall c: Class :: ClassCount(s, c) == ClassCount(t, c) + ClassCount(u, c)
    ensures s == Plus(t, u)
  {
    assert ClassCount(s, RegulationTied) == ClassCount(t, RegulationTied) + ClassCount(u, RegulationTied);
    assert ClassCount(s, RegulationDecisive) == ClassCount(t, RegulationDecisive) + ClassCount(u, RegulationDecisive);
    assert ClassCount(s, OvertimeUndecided) == ClassCount(t, OvertimeUndecided) + ClassCount(u, OvertimeUndecided);
    assert ClassCount(s, OvertimeDecided) == ClassCount(t, OvertimeDecided) + ClassCount(u, OvertimeDecided);
    assert ClassCount(s, OvertimeDecisive) == ClassCount(t, OvertimeDecisive) + ClassCount(u, OvertimeDecisive);
  }

  lemma {:induction false} ClassCounts(s: seq<Tag<Option<Class>>>, key: Option<nat>, c: Class)
    ensures ClassCount(TallyTags(s, key), c) == Count(s, (key, Some(c)))
  {}

  lemma {:induction false} ReturnedTally(m: Match, o: nat)
    requires ReferencesOK(m) && AuditsOrdered(m) && o < |m.operations| && !IsReset(m.operations[o])
    requires NoneUnder(m, m.operations[o].audit) && NothingSwept(m, m.operations[o].audit)
    ensures TallyOf(Undone(m, o), None) == Plus(TallyOf(m, None), Taken(m, m.operations[o].audit))
  {
    var k := m.operations[o].audit;
    var s, t, u := TallyOf(Undone(m, o), None), TallyOf(m, None), Taken(m, k);
    forall c: Class ensures ClassCount(s, c) == ClassCount(t, c) + ClassCount(u, c) {
      ReturnedCount(m, o, c);
      ClassCounts(AppealTags(Undone(m, o)), None, c);
      ClassCounts(AppealTags(m), None, c);
      ClassCounts(SourceTags(m), Some(k), c);
    }
    TalliesAdd(s, t, u);
  }

  /** The one exit that takes nothing asks whether the appeals in force still fit the phase it interrupted. */
  predicate PhaseAwaits(m: Match, op: Operation, t: Tally) {
    op.resultingStatus == AwaitingResultSave ==> AppealShape(op.previousStatus, op.previousCurrentRound, t)
  }

  lemma ReturnedShape(m: Match, o: nat)
    requires AppealsOK(m) && ExitsBalance(m) && AuditsOrdered(m) && UndoAllowed(m, o) && !IsReset(m.operations[o])
    requires NothingSwept(m, m.operations[o].audit)
    ensures AppealShape(Undone(m, o).status, Undone(m, o).currentRound, TallyOf(Undone(m, o), None))
            <==> PhaseAwaits(m, m.operations[o], TallyOf(m, None))
  {
    assert ExitBalances(m, m.operations[o]);
    ReturnedTally(m, o);
  }

  lemma ReturnedUnmoved(m: Match, o: nat, j: nat)
    requires ReferencesOK(m) && AuditsOrdered(m) && o < |m.operations| && !IsReset(m.operations[o])
    requires NoneUnder(m, m.operations[o].audit) && NothingSwept(m, m.operations[o].audit) && j != m.operations[o].audit
    ensures TallyOf(Undone(m, o), Some(j)) == TallyOf(m, Some(j))
  {
    forall a: nat, c: Class | a < |m.appeals|
      ensures AppealTags(m)[a] == (Some(j), Some(c)) <==> AppealTags(Undone(m, o))[a] == (Some(j), Some(c))
    {
      ReturnedAppeal(m, o, a);
    }
    TallySame(AppealTags(m), AppealTags(Undone(m, o)), Some(j));
  }

  lemma ReturnedBalances(m: Match, o: nat)
    requires ReferencesOK(m) && ResetsBalance(m) && AuditsOrdered(m) && o < |m.operations| && !IsReset(m.operations[o])
    requires NoneUnder(m, m.operations[o].audit) && NothingSwept(m, m.operations[o].audit)
    ensures ResetsBalance(Undone(m, o))
  {
    var after := Undone(m, o);
    forall p | 0 <= p < |after.operations| && IsReset(after.operations[p]) && !after.operations[p].undone
      ensures ResetBalances(after, after.operations[p])
    {
      assert p != o && ResetBalances(m, m.operations[p]);
      ReturnedUnmoved(m, o, m.operations[p].audit);
    }
  }

  /**
   * Undoing an exit keeps the appeals in order exactly when no appeal over a round it took has been cancelled
   * since, those that come back fit in time with those in force and, for the exit that keeps both regulation
   * rounds, the appeals in force fit the phase that returns.
   */
  lemma ExitUndoKeepsAppealsExactly(m: Match, o: nat)
    requires PhaseOK(m) && AppealsOK(m) && ExitsBalance(m) && UndoAllowed(m, o) && !IsReset(m.operations[o])
    ensures var op := m.operations[o];
            AppealsOK(Undone(m, o))
            <==> NothingSwept(m, op.audit) && ComesInOrder(m, op.audit) && PhaseAwaits(m, op, TallyOf(m, None))
  {
    assert ExitBalances(m, m.operations[o]);
    ReturnedReferences(m, o);
    if NothingSwept(m, m.operations[o].audit) {
      ReturnedOrder(m, o);
      ReturnedShape(m, o);
      ReturnedBalances(m, o);
    }
  }

  // ---------------------------------------------------------------- every step keeps exits balanced

  lemma NewSourceIsLive(m: Match, command: Command, now: Time)
    requires CommitsAppeal(command) && |Step(m, command, now).appeals| > |m.appeals|
    ensures var after := Step(m, command, now);
            && |after.appeals| == |m.appeals| + 1 && after.rounds == m.rounds
            && Live(m.rounds, after.appeals[|m.appeals|].val.source)
  {
    match command
    case AppealRegulation(key, red, blue) =>
      var accepted, added := RegulationStep(m, key, red, blue, now);
      AppealRoundsKnown(CleanUpAppeals(m));
    case AppealOvertime(key, red, blue) => var round := OvertimeStep(m, key, red, blue, now);
  }

  /** A manual decision is only ever made on an appeal whose round is live. */
  lemma DecisionsOverTaken(m: Match, command: Command, now: Time, a: nat, k: nat)
    requires DecidesInForce(m, command) && a < |m.appeals| && OverTaken(m, a, k)
    ensures HasDecision(Step(m, command, now), a) <==> HasDecision(m, a)
  {
    var after := Step(m, command, now);
    StepColumns(m, command, now);
    if command.Choose? {
      var chosen := ChooseStep(m, command.winner, now);
      if chosen.Some? {
        assert chosen.value != a;
        forall d | 0 <= d < |after.decisions| && after.decisions[d].val.appeal == a ensures d < |m.decisions| {}
        assert forall d :: 0 <= d < |m.decisions| ==> after.decisions[d] == m.decisions[d];
        if HasDecision(m, a) {
          var d :| 0 <= d < |m.decisions| && m.decisions[d].val.appeal == a;
          assert after.decisions[d].val.appeal == a;
        }
      }
    } else {
      OthersDecideNone(m, command, now);
      SameDecisions(m, after, a);
    }
  }

  lemma OthersDecideNone(m: Match, command: Command, now: Time)
    requires !command.Choose?
    ensures |Step(m, command, now).decisions| == |m.decisions|
  {
    MatchConstraints.SameDecisions(m, command, now);
  }

  lemma TakenKept(m: Match, after: Match, k: nat)
    requires SourcesKnown(m) && ValsKept(m.appeals, after.appeals) && Kept(m.rounds, after.rounds, k)
    requires forall a: nat :: a < |m.appeals| && OverTaken(m, a, k) ==> (HasDecision(after, a) <==> HasDecision(m, a))
    requires forall a: nat :: |m.appeals| <= a < |after.appeals| ==> !OverTaken(after, a, k)
    ensures Taken(after, k) == Taken(m, k)
  {
    forall a, c: Class | 0 <= a < |m.appeals|
      ensures SourceTags(m)[a] == (Some(k), Some(c)) <==> SourceTags(after)[a] == (Some(k), Some(c))
    {
      assert SourceKnown(m.rounds, m.appeals[a].val);
    }
    forall a, c: Class | |m.appeals| <= a < |after.appeals| ensures SourceTags(after)[a] != (Some(k), Some(c)) {
      assert !OverTaken(after, a, k);
    }
    TallySame(SourceTags(m), SourceTags(after), Some(k));
  }

  lemma NewIsFree(m: Match, after: Match, k: nat)
    requires |after.appeals| <= |m.appeals| + 1
    requires |after.appeals| == |m.appeals| + 1 ==> Live(after.rounds, after.appeals[|m.appeals|].val.source)
    ensures forall a: nat :: |m.appeals| <= a < |after.appeals| ==> !OverTaken(after, a, k)
  {}

  lemma NewNotTaken(m: Match, command: Command, now: Time, k: nat)
    ensures forall a: nat :: |m.appeals| <= a < |Step(m, command, now).appeals| ==>
              !OverTaken(Step(m, command, now), a, k)
  {
    StepAdds(m, command, now);
    if CommitsAppeal(command) && |Step(m, command, now).appeals| > |m.appeals| { NewSourceIsLive(m, command, now); }
    if CommitsAppeal(command) { CommitsAdd(m, command, now); }
    NewIsFree(m, Step(m, command, now), k);
  }

  lemma CommitsAdd(m: Match, command: Command, now: Time)
    requires CommitsAppeal(command)
    ensures |m.appeals| <= |Step(m, command, now).appeals| <= |m.appeals| + 1
  {
    match command
    case AppealRegulation(key, red, blue) => var accepted, added := RegulationStep(m, key, red, blue, now);
    case AppealOvertime(key, red, blue) => var round := OvertimeStep(m, key, red, blue, now);
  }

  /** What an exit took stays as it was for as long as it is not undone. */
  lemma TakenStays(m: Match, command: Command, now: Time, k: nat)
    requires PhaseOK(m) && SourcesKnown(m) && Permitted(m, command, now) && DecidesInForce(m, command)
    requires k < m.nextAudit
    requires command.Undo? && command.operation < |m.operations| ==> m.operations[command.operation].audit != k
    ensures Taken(Step(m, command, now), k) == Taken(m, k)
    ensures NoneUnder(m, k) ==> NoneUnder(Step(m, command, now), k)
  {
    var after := Step(m, command, now);
    StepCarries(m, command, now, k);
    StepColumns(m, command, now);
    forall a: nat | a < |m.appeals| && OverTaken(m, a, k) ensures HasDecision(after, a) <==> HasDecision(m, a) {
      DecisionsOverTaken(m, command, now, a, k);
    }
    NewNotTaken(m, command, now, k);
    TakenKept(m, after, k);
  }

  lemma OldExitBalances(m: Match, command: Command, now: Time, o: nat)
    requires PhaseOK(m) && ExitsBalance(m) && Permitted(m, command, now) && DecidesInForce(m, command)
    requires o < |m.operations| && !IsReset(m.operations[o])
    ensures o < |Step(m, command, now).operations|
    ensures var op := Step(m, command, now).operations[o];
            !IsReset(op) && (!op.undone ==> ExitBalances(Step(m, command, now), op))
  {
    var after, k := Step(m, command, now), m.operations[o].audit;
    StepOperations(m, command, now);
    if !after.operations[o].undone {
      assert ExitBalances(m, m.operations[o]);
      if command.Undo? && command.operation < |m.operations| && m.operations[command.operation].audit == k {
        assert command.operation == o && after == m;
      } else {
        TakenStays(m, command, now, k);
      }
    }
  }

  // ---------------------------------------------------------------- a new exit is balanced

  lemma ExitedTag(m: Match, mode: ExitMode, now: Time, a: nat)
    requires ReferencesOK(m) && StampsKnown(m) && AuditsOrdered(m) && a < |m.appeals|
    ensures OverTaken(Exited(m, mode, now), a, m.nextAudit) <==> Leaves(m, mode, a)
    ensures ClassOf(Exited(m, mode, now), a) == ClassOf(m, a)
  {
    assert AppealRefers(m.rounds, m.appeals[a].val) && AppealPaired(m, a);
    SameDecisions(m, Exited(m, mode, now), a);
  }

  /** An exit that leaves a regulation number behind takes the rounds of every appeal in force. */
  lemma ExitTakesAll(m: Match, mode: ExitMode, now: Time)
    requires ReferencesOK(m) && StampsKnown(m) && AuditsOrdered(m) && Fits(m)
    requires mode == CancelAll || (mode == KeepRound1 && !HasLiveOvertime(m))
    ensures Taken(Exited(m, mode, now), m.nextAudit) == TallyOf(m, None)
  {
    var after, k := Exited(m, mode, now), m.nextAudit;
    forall a: nat, c: Class | a < |m.appeals|
      ensures SourceTags(after)[a] == (Some(k), Some(c)) <==> AppealTags(m)[a] == (None, Some(c))
    {
      ExitedTag(m, mode, now, a);
      if ValidAppeal(m, a) { ExitDropsAppeal(m, mode, a); }
    }
    ClassesMatch(SourceTags(after), AppealTags(m), Some(k), None);
  }

  lemma ClassesMatch(s: seq<Tag<Option<Class>>>, t: seq<Tag<Option<Class>>>, x: Option<nat>, y: Option<nat>)
    requires |s| == |t| && forall i, c: Class :: 0 <= i < |s| ==> (s[i] == (x, Some(c)) <==> t[i] == (y, Some(c)))
    ensures TallyTags(s, x) == TallyTags(t, y)
  {
    CountMatches(s, t, (x, Some(RegulationTied)), (y, Some(RegulationTied)));
    CountMatches(s, t, (x, Some(RegulationDecisive)), (y, Some(RegulationDecisive)));
    CountMatches(s, t, (x, Some(OvertimeUndecided)), (y, Some(OvertimeUndecided)));
    CountMatches(s, t, (x, Some(OvertimeDecided)), (y, Some(OvertimeDecided)));
    CountMatches(s, t, (x, Some(OvertimeDecisive)), (y, Some(OvertimeDecisive)));
  }

  lemma ExitTakesNone(m: Match, mode: ExitMode, now: Time)
    requires ReferencesOK(m) && StampsKnown(m) && AuditsOrdered(m) && (mode == KeepRounds1And2 || mode == KeepV2Phase)
    ensures Taken(Exited(m, mode, now), m.nextAudit) == Nothing()
  {
    var after := Exited(m, mode, now);
    forall a | 0 <= a < |m.appeals| ensures SourceTags(after)[a].0 != Some(m.nextAudit) {
      ExitedTag(m, mode, now, a);
      assert AppealRefers(m.rounds, m.appeals[a].val);
    }
    TallyNone(SourceTags(after), Some(m.nextAudit));
  }

  lemma ExitedNoneUnder(m: Match, mode: ExitMode, now: Time)
    requires StampsKnown(m)
    ensures NoneUnder(Exited(m, mode, now), m.nextAudit)
  {}

  lemma {:induction false} PlusNothing(nothing: Tally, t: Tally)
    requires nothing == Nothing()
    ensures Plus(nothing, t) == t && Plus(t, nothing) == t
  {}

  lemma {:induction false} NothingAwaited(s: Status, current: Option<nat>, t: Tally)
    requires (s == Waiting || s == Break) && AppealShape(s, current, t)
    ensures t == Nothing()
  {}

  /** What the operation of an exit records. */
  lemma ExitEntry(m: Match, mode: ExitMode, now: Time) returns (op: Operation)
    ensures |Exited(m, mode, now).operations| == |m.operations| + 1
    ensures op == Exited(m, mode, now).operations[|m.operations|]
    ensures op.audit == m.nextAudit && op.previousStatus == m.status && op.previousCurrentRound == m.currentRound
    ensures op.resultingStatus == ExitStatus(m, mode) && op.resultingCurrentRound == ExitRound(m, mode)
  {
    op := Exited(m, mode, now).operations[|m.operations|];
  }

  lemma {:induction false} TakingBalances(after: Match, op: Operation)
    requires NoneUnder(after, op.audit) && (op.resultingStatus == Waiting || op.resultingStatus == Break)
    requires AppealShape(op.previousStatus, op.previousCurrentRound, Taken(after, op.audit))
    ensures ExitBalances(after, op)
  {
    var taken := Taken(after, op.audit);
    forall t | AppealShape(op.resultingStatus, op.resultingCurrentRound, t)
      ensures AppealShape(op.previousStatus, op.previousCurrentRound, Plus(t, taken))
    {
      NothingAwaited(op.resultingStatus, op.resultingCurrentRound, t);
      PlusNothing(t, taken);
    }
  }

  lemma KeepingBalances(after: Match, op: Operation)
    requires NoneUnder(after, op.audit) && Taken(after, op.audit) == Nothing()
    requires op.resultingStatus != AwaitingResultSave ==>
               op.resultingStatus == op.previousStatus && op.resultingCurrentRound == op.previousCurrentRound
    ensures ExitBalances(after, op)
  {
    var taken := Taken(after, op.audit);
    forall t ensures Plus(t, taken) == t { PlusNothing(taken, t); }
  }

  lemma NewExitBalances(m: Match, mode: ExitMode, now: Time)
    requires PhaseOK(m) && AppealsOK(m) && ExitAllowed(m, mode) && Permitted(m, Exit(mode), now)
    ensures |Exited(m, mode, now).operations| == |m.operations| + 1
    ensures ExitBalances(Exited(m, mode, now), Exited(m, mode, now).operations[|m.operations|])
  {
    var op := ExitEntry(m, mode, now);
    ExitedNoneUnder(m, mode, now);
    if mode == CancelAll || mode == KeepRound1 {
      ExitTakesAll(m, mode, now);
      TakingBalances(Exited(m, mode, now), op);
    } else {
      ExitTakesNone(m, mode, now);
      KeepingBalances(Exited(m, mode, now), op);
    }
  }

  lemma OneMoreExit(after: Match, n: nat)
    requires n <= |after.operations| <= n + 1 && ExitsBalanceUpTo(after, n)
    requires |after.operations| == n + 1 && !IsReset(after.operations[n]) ==> ExitBalances(after, after.operations[n])
    ensures ExitsBalance(after)
  {}

  lemma StepExits(m: Match, command: Command, now: Time)
    requires PhaseOK(m) && AppealsOK(m) && ExitsBalance(m) && Permitted(m, command, now) && DecidesInForce(m, command)
    ensures ExitsBalance(Step(m, command, now))
  {
    var after := Step(m, command, now);
    StepOperations(m, command, now);
    forall o: nat | o < |m.operations| && !IsReset(after.operations[o]) && !after.operations[o].undone
      ensures ExitBalances(after, after.operations[o])
    {
      OldExitBalances(m, command, now, o);
    }
    if |after.operations| > |m.operations| { NewestExitBalances(m, command, now); }
    OneMoreExit(after, |m.operations|);
  }

  lemma NewestExitBalances(m: Match, command: Command, now: Time)
    requires PhaseOK(m) && AppealsOK(m) && Permitted(m, command, now)
    requires |Step(m, command, now).operations| > |m.operations|
    ensures |Step(m, command, now).operations| == |m.operations| + 1
    ensures var op := Step(m, command, now).operations[|m.operations|]; !IsReset(op) ==>
            ExitBalances(Step(m, command, now), op)
  {
    match command
    case Cancel(entire, retracted) => var ids := CancelStep(m, entire, retracted, now);
    case Exit(mode) =>
      var after := ExitStep(m, mode, now);
      NewExitBalances(m, mode, now);
    case _ => OnlyCancelsRecord(m, command, now);
  }
}
