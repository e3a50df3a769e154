/** Runs that an exit spoils: an overtime round that survives it, and a stale overtime appeal found first. */
module MatchStaleAppeals {
  import opened Prelude
  import opened SportRules
  import opened MatchTables
  import opened MatchModel
  import opened MatchCommands
  import opened MatchHistory
  import opened MatchPhases
  import opened MatchPhaseSteps
  import opened MatchAppeals
  import opened MatchStories
  import opened MatchStuckResults

  // ---------------------------------------------------------------- leaving over a live overtime round

  /** The phase table holds on every page a run reaches. */
  lemma {:induction false} PageIsOK(story: Story, script: seq<Timed>, p: Page, t: Time)
    requires On(story, script, p, t)
    ensures PhaseOK(Scene(story, p))
  {
    TimedIsPermitted(FreshMatch(), script, 0);
    NewMatchPhase(FaultAppealOvertimeV2, 3, 1, 0);
    RunPhase(FreshMatch(), script);
  }

  lemma {:induction false} LeavesOverOvertime(story: Story, three: nat, now: Time) returns (script: seq<Timed>, p: Page)
    requires Thrice(story, three)
    ensures On(story, script, p, story.appeals[1].completedAt)
    ensures var m := Scene(story, p);
            ExitAllowed(m, KeepRounds1And2) && Fits(m) && !Fits(Step(m, Exit(KeepRounds1And2), now))
  {
    script, p := OvertimeWon(story, three, FirstPage());
    PageIsOK(story, script, p, story.appeals[1].completedAt);
    var m := Scene(story, p);
    assert LiveOvertime(m.rounds, 2, false);
    assert m.rounds[0].val.number == 1 && m.rounds[1].val.number == 2 && m.rounds[0].stamp.None?
           && m.rounds[1].stamp.None?;
    var after := ExitStep(m, KeepRounds1And2, now);
    ExitKeepsPhaseExactly(m, KeepRounds1And2, now);
  }

  /**
   * A result won in overtime is left with rounds 1 and 2 kept: the overtime round stays live in a phase that has none.
   */
  lemma {:induction false} OvertimeSurvivesItsExit(now: Time) returns (m: Match, script: seq<Timed>)
    ensures m == NewMatch(FaultAppealOvertimeV2, 3, 1, 0) && TimedRun(m, script, 0)
    ensures var left := Run(m, script);
            ExitAllowed(left, KeepRounds1And2) && Fits(left) && !Fits(Step(left, Exit(KeepRounds1And2), now))
  {
    var story, three := ThreeBoutsTold();
    m := FreshMatch();
    var p;
    script, p := LeavesOverOvertime(story, three, now);
  }

  // ---------------------------------------------------------------- a stale appeal of a later attempt

  /**
   * A regulation and its overtime (rounds 0 to 2, appeal 0), a round that is only started over (round 3), a second
   * regulation and overtime (rounds 4 to 6, appeals 1 and 2), and last the appeal of the first overtime (appeal 3).
   * Everything is tied.
   */
  predicate Interrupted(story: Story, four: nat) {
    && four == 4 && |story.rounds| == four + 3 && |story.appeals| == four
    && (forall i :: 0 <= i < |story.rounds| ==> OneTick(story.rounds[i]))
    && (forall a :: 0 <= a < |story.appeals| ==> story.appeals[a].Tied())
    && RegulationFollows(story, 0, 0, 0) && NextAttempt(story, 2) && story.rounds[2].stage == Overtime
    && story.appeals[0].completedAt <= story.rounds[2].startedAt
    && story.rounds[3].stage == Regulation && story.rounds[3].number == 1 && story.rounds[3].attempt == 0
    && story.rounds[2].endsAt <= story.rounds[3].startedAt
    && RegulationFollows(story, four, 1, story.rounds[3].endsAt)
    && OvertimeFollows(story, four + 2, 2, story.appeals[1].completedAt) && NextAttempt(story, four + 2)
    && AppealsOvertime(story, 3, 2) && story.appeals[2].completedAt <= story.appeals[3].completedAt
    && story.rounds[2].attempt < story.rounds[four + 2].attempt
  }

  lemma {:induction false} FirstTie(story: Story, four: nat, p: Page) returns (script: seq<Timed>, q: Page)
    requires Interrupted(story, four) && p == FirstPage()
    ensures On(story, script, q, story.appeals[0].completedAt)
    ensures q.rounds == [None, None] && q.sums == [None, None] && q.appeals == [None]
    ensures q.ops == [] && q.audit == 0 && q.status == OvertimeReady && q.outcome.None?
  {
    Begins(story, p);
    var played;
    script, played, q := RegulationBout(story, [], p, 0, 0);
    assert p.rounds + [None, None] == [None, None];
  }

  /** The first regulation is tied and its overtime played. */
  lemma {:induction false} FirstOvertime(story: Story, four: nat, p: Page) returns (script: seq<Timed>, q: Page)
    requires Interrupted(story, four) && p == FirstPage()
    ensures On(story, script, q, story.rounds[2].endsAt)
    ensures q.rounds == [None, None, None] && q.sums == [None, None, None] && q.appeals == [None]
    ensures q.ops == [] && q.audit == 0
    ensures q.status == OvertimeAppeal && q.current == Some(1) && q.outcome.None?
  {
    var earlier, p1 := FirstTie(story, four, p);
    AttemptIsNext(story, p1, 2);
    script, q := Plays(story, earlier, p1, story.appeals[0].completedAt);
  }

  /** The match is left, and a first round started over. */
  lemma {:induction false} LeavesAndStarts(story: Story, four: nat, script: seq<Timed>, p: Page)
    returns (longer: seq<Timed>, q: Page)
    requires Interrupted(story, four) && On(story, script, p, story.rounds[2].endsAt)
    requires p.rounds == [None, None, None] && p.sums == [None, None, None] && p.appeals == [None]
    requires p.ops == [] && p.audit == 0
    requires p.status == OvertimeAppeal && p.current == Some(1) && p.outcome.None?
    ensures On(story, longer, q, story.rounds[3].endsAt)
    ensures q.rounds == [Some(0), Some(0), Some(0), None] && q.sums == [None, None, None, None] && q.appeals == [None]
    ensures q.audit == 1 && |q.ops| == 1 && IsEntry(q.ops[0], 0, story.rounds[2].endsAt, OvertimeAppeal, Waiting)
    ensures q.outcome.None?
  {
    var t := story.rounds[2].endsAt;
    var leaving, left := Leaves(story, script, p, t, t);
    assert left.rounds == [Some(0), Some(0), Some(0)];
    longer, q := Plays(story, leaving, left, t);
  }

  /** That round is reset, and the first appeal, in force over cancelled rounds, goes with it. */
  lemma {:induction false} ResetTakesAppeal(story: Story, four: nat, script: seq<Timed>, p: Page)
    returns (longer: seq<Timed>, q: Page)
    requires Interrupted(story, four) && On(story, script, p, story.rounds[3].endsAt)
    requires p.rounds == [Some(0), Some(0), Some(0), None] && p.sums == [None, None, None, None] && p.appeals == [None]
    requires p.audit == 1 && |p.ops| == 1 && p.outcome.None?
    ensures On(story, longer, q, story.rounds[3].endsAt)
    ensures q.rounds == [Some(0), Some(0), Some(0), Some(1)] && q.appeals == [Some(1)]
    ensures q.sums == [None, None, None, Some(1)]
    ensures q.audit == 2 && |q.ops| == 2 && q.ops[0] == p.ops[0] && q.outcome.None?
    ensures q.status == Waiting && q.current.None? && q.started.None?
  {
    longer, q := Resets(story, script, p, story.rounds[3].endsAt, 3, story.rounds[3].endsAt);
  }

  /** The stamps of the first bout, of the second bout and of its appeals; the first appeal lies under stamp 1. */
  predicate Beside(p: Page, a: Option<nat>, c: Option<nat>, y: Option<nat>) {
    && p.rounds == [a, a, a, Some(1), c, c, c] && p.appeals == [Some(1), y, y] && p.outcome.None?
    && |p.sums| == 7
  }

  lemma {:induction false} SecondRegulation(story: Story, four: nat, script: seq<Timed>, p: Page)
    returns (longer: seq<Timed>, q: Page)
    requires Interrupted(story, four) && On(story, script, p, story.rounds[3].endsAt)
    requires p.rounds == [Some(0), Some(0), Some(0), Some(1)] && p.appeals == [Some(1)]
    requires p.sums == [None, None, None, Some(1)] && p.outcome.None?
    requires p.status == Waiting && p.current.None? && p.started.None?
    ensures On(story, longer, q, story.appeals[1].completedAt)
    ensures q.rounds == [Some(0), Some(0), Some(0), Some(1), None, None] && q.appeals == [Some(1), None]
    ensures |q.sums| == 6 && q.sums[2].None? && q.outcome.None?
    ensures q.ops == p.ops && q.audit == p.audit && q.status == OvertimeReady
  {
    var played;
    longer, played, q := RegulationBout(story, script, p, story.rounds[3].endsAt, four);
    assert !exists a :: 0 <= a < |played.appeals| && Stale(story, played, a);
  }

  lemma {:induction false} SecondTie(story: Story, four: nat, script: seq<Timed>, p: Page)
    returns (longer: seq<Timed>, q: Page)
    requires Interrupted(story, four) && On(story, script, p, story.appeals[1].completedAt)
    requires p.rounds == [Some(0), Some(0), Some(0), Some(1), None, None] && p.appeals == [Some(1), None]
    requires |p.sums| == 6 && p.sums[2].None? && p.outcome.None? && p.status == OvertimeReady
    ensures On(story, longer, q, story.appeals[2].completedAt) && Beside(q, Some(0), None, None) && q.sums[2].None?
    ensures q.ops == p.ops && q.audit == p.audit && q.status == OvertimeTiebreakDecision && q.current == Some(1)
  {
    longer, q := OvertimeBout(story, script, p, story.appeals[1].completedAt, four + 2);
  }

  // ---------------------------------------------------------------- the two bouts change places

  lemma {:induction false} ReturnedBeside(p: Page, a: Option<nat>, c: Option<nat>, y: Option<nat>, o: nat)
    requires Beside(p, a, c, y) && o < |p.ops| && p.ops[o].audit != 1
    ensures var k := p.ops[o].audit; Beside(Returned(p, o), Lift(a, k), Lift(c, k), Lift(y, k))
    ensures Returned(p, o).sums[2] == Lift(p.sums[2], p.ops[o].audit)
  {}

  lemma {:induction false} BesideApart(story: Story, four: nat, p: Page, o: nat)
    requires Interrupted(story, four) && Told(story, p) && o < |p.ops| && |p.appeals| == 3
    requires Returned(p, o).appeals[0].Some?
    ensures Told(story, Returned(p, o)) && SlotsApart(story, Returned(p, o))
  {
    assert story.appeals[1].scope == Regulation && story.appeals[2].scope == Overtime;
  }

  /** An operation of a waiting match is undone. */
  lemma {:induction false} BoutBack(story: Story, four: nat, script: seq<Timed>, p: Page, a: Option<nat>,
                                    c: Option<nat>, y: Option<nat>, o: nat, k: nat, since: Time, s: Status, t: Time)
    returns (longer: seq<Timed>, q: Page)
    requires Interrupted(story, four) && On(story, script, p, t) && Beside(p, a, c, y) && k != 1
    requires o < |p.ops| && IsEntry(p.ops[o], k, since, s, Waiting) && NoNewer(story, p, since)
    requires p.status == Waiting && p.current.None?
    ensures On(story, longer, q, t) && q == Returned(p, o) && Beside(q, Lift(a, k), Lift(c, k), Lift(y, k))
    ensures q.sums[2] == Lift(p.sums[2], k) && q.status == s && q.current == Some(1) && q.audit == p.audit
    ensures |q.ops| == |p.ops| && forall i :: 0 <= i < |p.ops| && i != o ==> q.ops[i] == p.ops[i]
  {
    ReturnedBeside(p, a, c, y, o);
    BesideApart(story, four, p, o);
    longer, q := TakesBack(story, script, p, t, o, t);
  }

  lemma {:induction false} AllResetBeside(p: Page, a: Option<nat>, c: Option<nat>, y: Option<nat>, now: Time)
    requires Beside(p, a, c, y)
    ensures Beside(AllReset(p, now), Fill(a, p.audit), Fill(c, p.audit), Fill(y, p.audit))
    ensures AllReset(p, now).sums[2] == if a.None? then Fill(p.sums[2], p.audit) else p.sums[2]
  {}

  lemma {:induction false} BoutHidden(story: Story, script: seq<Timed>, p: Page, a: Option<nat>, c: Option<nat>,
                                      y: Option<nat>, t: Time)
    returns (longer: seq<Timed>, q: Page)
    requires On(story, script, p, t) && Beside(p, a, c, y) && (a.None? || c.None?) && p.current == Some(1)
    ensures On(story, longer, q, t) && Beside(q, Fill(a, p.audit), Fill(c, p.audit), Fill(y, p.audit))
    ensures q.sums[2] == if a.None? then Fill(p.sums[2], p.audit) else p.sums[2]
    ensures q.status == Waiting && q.current.None? && q.audit == p.audit + 1 && |q.ops| == |p.ops| + 1
    ensures q.ops[..|p.ops|] == p.ops && IsEntry(q.ops[|p.ops|], p.audit, t, p.status, Waiting)
  {
    AllResetBeside(p, a, c, y, t);
    longer, q := Resets(story, script, p, t, if a.None? then 0 else 4, t);
  }

  lemma {:induction false} BoutLeft(story: Story, script: seq<Timed>, p: Page, a: nat, t: Time)
    returns (longer: seq<Timed>, q: Page)
    requires On(story, script, p, t) && Beside(p, Some(a), None, None) && p.status != Finished
    ensures On(story, longer, q, t) && Beside(q, Some(a), Some(p.audit), None) && q.sums == p.sums
    ensures q.status == Waiting && q.current.None? && q.audit == p.audit + 1 && |q.ops| == |p.ops| + 1
    ensures q.ops[..|p.ops|] == p.ops
  {
    longer, q := Leaves(story, script, p, t, t);
  }

  /** The second bout is reset and the exit undone: the first bout is back, without its appeal. */
  lemma {:induction false} FirstReturns(story: Story, four: nat, script: seq<Timed>, p: Page, since: Time, t: Time)
    returns (longer: seq<Timed>, q: Page)
    requires Interrupted(story, four) && On(story, script, p, t) && Beside(p, Some(0), None, None) && p.sums[2].None?
    requires p.status == OvertimeTiebreakDecision && p.current == Some(1) && p.audit == 2 == |p.ops|
    requires IsEntry(p.ops[0], 0, since, OvertimeAppeal, Waiting)
    requires forall i :: 0 <= i < 3 ==> story.rounds[i].startedAt <= since
    ensures On(story, longer, q, t) && Beside(q, None, Some(2), Some(2)) && q.sums[2].None?
    ensures q.status == OvertimeAppeal && q.current == Some(1) && q.audit == 3 == |q.ops|
    ensures IsEntry(q.ops[2], 2, t, OvertimeTiebreakDecision, Waiting)
  {
    var s1, p1 := BoutHidden(story, script, p, Some(0), None, None, t);
    longer, q := BoutBack(story, four, s1, p1, Some(0), Some(2), Some(2), 0, 0, since, OvertimeAppeal, t);
  }

  /** And is reset, after the second one was. */
  lemma {:induction false} FirstResetLast(story: Story, four: nat, script: seq<Timed>, p: Page, since: Time, t: Time)
    returns (longer: seq<Timed>, q: Page)
    requires Interrupted(story, four) && On(story, script, p, t) && Beside(p, Some(0), None, None) && p.sums[2].None?
    requires p.status == OvertimeTiebreakDecision && p.current == Some(1) && p.audit == 2 == |p.ops|
    requires IsEntry(p.ops[0], 0, since, OvertimeAppeal, Waiting)
    requires forall i :: 0 <= i < 3 ==> story.rounds[i].startedAt <= since
    ensures On(story, longer, q, t) && Beside(q, Some(3), Some(2), Some(2)) && q.sums[2] == Some(3)
    ensures q.status == Waiting && q.current.None? && q.audit == 4 == |q.ops|
    ensures IsEntry(q.ops[2], 2, t, OvertimeTiebreakDecision, Waiting)
    ensures IsEntry(q.ops[3], 3, t, OvertimeAppeal, Waiting)
  {
    var s2, p2 := FirstReturns(story, four, script, p, since, t);
    longer, q := BoutHidden(story, s2, p2, None, Some(2), Some(2), t);
  }

  /** The second bout comes back and is left: the exit takes its rounds and leaves its appeals in force. */
  lemma {:induction false} SecondIsLeft(story: Story, four: nat, script: seq<Timed>, p: Page, t: Time)
    returns (longer: seq<Timed>, q: Page)
    requires Interrupted(story, four) && On(story, script, p, t) && Beside(p, Some(3), Some(2), Some(2))
    requires p.sums[2] == Some(3) && p.status == Waiting && p.current.None? && p.audit == 4 == |p.ops|
    requires IsEntry(p.ops[2], 2, t, OvertimeTiebreakDecision, Waiting)
    ensures On(story, longer, q, t) && Beside(q, Some(3), Some(4), None) && q.sums[2] == Some(3)
    ensures q.status == Waiting && q.current.None? && |q.ops| == 5 && q.ops[3] == p.ops[3]
  {
    var s1, p1 := BoutBack(story, four, script, p, Some(3), Some(2), Some(2), 2, 2, t, OvertimeTiebreakDecision, t);
    longer, q := BoutLeft(story, s1, p1, 3, t);
  }

  /** Then the first one comes back beside them. */
  lemma {:induction false} FirstBesideStale(story: Story, four: nat, script: seq<Timed>, p: Page, t: Time)
    returns (longer: seq<Timed>, q: Page)
    requires Interrupted(story, four) && On(story, script, p, t) && Beside(p, Some(3), Some(2), Some(2))
    requires p.sums[2] == Some(3) && p.status == Waiting && p.current.None? && p.audit == 4 == |p.ops|
    requires IsEntry(p.ops[2], 2, t, OvertimeTiebreakDecision, Waiting)
    requires IsEntry(p.ops[3], 3, t, OvertimeAppeal, Waiting)
    requires story.appeals[1].completedAt <= t && story.appeals[2].completedAt <= t
    ensures On(story, longer, q, t) && Beside(q, None, Some(4), None) && q.sums[2].None?
    ensures q.status == OvertimeAppeal && q.current == Some(1)
  {
    var s2, p2 := SecondIsLeft(story, four, script, p, t);
    longer, q := BoutBack(story, four, s2, p2, Some(3), Some(4), None, 3, 3, t, OvertimeAppeal, t);
  }

  /** The appeal of the first overtime is committed: tied, and of the lower attempt. */
  lemma {:induction false} LateAppeal(story: Story, four: nat, script: seq<Timed>, p: Page, t: Time)
    returns (longer: seq<Timed>, q: Page)
    requires Interrupted(story, four) && On(story, script, p, t) && Beside(p, None, Some(4), None)
    requires p.sums[2].None? && p.status == OvertimeAppeal && t <= story.appeals[3].completedAt
    ensures On(story, longer, q, story.appeals[3].completedAt)
    ensures q.rounds == p.rounds && q.appeals == [Some(1), None, None, None] && q.outcome.None?
    ensures q.status == OvertimeTiebreakDecision
  {
    assert story.appeals[2].attempt != story.rounds[2].attempt;
    longer, q := AppealsOvertimeRound(story, script, p, t, 2);
  }

  // ---------------------------------------------------------------- what the look-up finds

  lemma {:induction false} TopIsHighest(appeals: Table<Appeal>, a: nat)
    requires a < |appeals| && appeals[a].stamp.None? && appeals[a].val.scope == Overtime
    ensures TopOvertimeAppeal(appeals).Some?
    ensures appeals[TopOvertimeAppeal(appeals).value].val.attempt >= appeals[a].val.attempt
  {
    if a < |appeals| - 1 { TopIsHighest(appeals[..|appeals| - 1], a); }
  }

  /** The look-up for the tied appeal takes the highest attempt, and that one is stale. */
  lemma {:induction false} StaleIsOnTop(story: Story, four: nat, p: Page)
    requires Interrupted(story, four) && Told(story, p) && |p.rounds| == 7 && p.rounds[6].Some?
    requires p.appeals == [Some(1), None, None, None]
    ensures TopOvertimeAppeal(Scene(story, p).appeals) == Some(2)
    ensures !Live(Scene(story, p).rounds, story.appeals[2].source)
  {
    var appeals := Scene(story, p).appeals;
    var top := TopOvertimeAppeal(appeals);
    assert appeals[2].stamp.None? && appeals[2].val.scope == Overtime;
    TopIsHighest(appeals, 2);
    assert appeals[1].val.scope == Regulation;
  }

  lemma {:induction false} StaleBouts(story: Story, four: nat) returns (script: seq<Timed>, p: Page)
    requires Interrupted(story, four)
    ensures On(story, script, p, story.appeals[3].completedAt)
    ensures p.rounds == [None, None, None, Some(1), Some(4), Some(4), Some(4)]
    ensures p.appeals == [Some(1), None, None, None] && p.outcome.None? && p.status == OvertimeTiebreakDecision
  {
    var t := story.appeals[2].completedAt;
    var s1, p1 := FirstOvertime(story, four, FirstPage());
    var s2, p2 := LeavesAndStarts(story, four, s1, p1);
    var s3, p3 := ResetTakesAppeal(story, four, s2, p2);
    var s4, p4 := SecondRegulation(story, four, s3, p3);
    var s5, p5 := SecondTie(story, four, s4, p4);
    StartsBefore(story, four);
    var s6, p6 := FirstResetLast(story, four, s5, p5, story.rounds[2].endsAt, t);
    var s7, p7 := FirstBesideStale(story, four, s6, p6, t);
    script, p := LateAppeal(story, four, s7, p7, t);
  }

  lemma {:induction false} StartsBefore(story: Story, four: nat)
    requires Interrupted(story, four)
    ensures forall i :: 0 <= i < 3 ==> story.rounds[i].startedAt <= story.rounds[2].endsAt
    ensures story.appeals[1].completedAt <= story.appeals[2].completedAt
  {
    assert OneTick(story.rounds[0]) && OneTick(story.rounds[1]) && OneTick(story.rounds[2]);
    assert OneTick(story.rounds[four + 2]);
  }

  function TwoTies(): Story {
    Story([EndedRound(Regulation, 1, 0, 0), EndedRound(Regulation, 2, 0, 1), EndedRound(Overtime, 1, 1, 3),
           EndedRound(Regulation, 1, 0, 5), EndedRound(Regulation, 1, 0, 7), EndedRound(Regulation, 2, 0, 8),
           EndedRound(Overtime, 1, 2, 10)],
          [BonusAppeal(Regulation, 0, 1, {0, 1}, "first", 0, 2), BonusAppeal(Regulation, 0, 5, {4, 5}, "second", 0, 9),
           BonusAppeal(Overtime, 2, 6, {6}, "another", 0, 11), BonusAppeal(Overtime, 1, 2, {2}, "overtime", 0, 12)])
  }

  lemma {:induction false} TwoTiesFit(story: Story, four: nat)
    requires story == TwoTies() && four == 4
    ensures Interrupted(story, four)
  {
    assert story.rounds[2].stage == Overtime && story.rounds[2].attempt == 1;
  }

  lemma {:induction false} TwoTiesTold() returns (story: Story, four: nat)
    ensures Interrupted(story, four)
  {
    story, four := TwoTies(), 4;
    TwoTiesFit(story, four);
  }

  /**
   * A bout is left before its overtime is appealed, and its first appeal cancelled by the reset of a round that was
   * only started over. So it can come back beside the appeals that a second exit has left in force over the rounds of
   * a second bout. Once its overtime is tied as well, a restart sets the overtime of the second bout aside.
   */
  lemma {:induction false} RestartFindsStaleAppeal() returns (m: Match, script: seq<Timed>)
    ensures m == NewMatch(FaultAppealOvertimeV2, 3, 1, 0) && TimedRun(m, script, 0)
    ensures var tied := Run(m, script);
            && tied.status == OvertimeTiebreakDecision && Fits(tied) && !TopAppealIsValid(tied)
            && RestartOvertime(tied).Success? && !Fits(RestartOvertime(tied).value)
  {
    var story, four := TwoTiesTold();
    m := FreshMatch();
    var p;
    script, p := StaleBouts(story, four);
    PageIsOK(story, script, p, story.appeals[3].completedAt);
    StaleIsOnTop(story, four, p);
    RestartSpoils(Scene(story, p), 2);
    RestartAccepted(Scene(story, p), 2);
  }

  lemma {:induction false} RestartAccepted(m: Match, a: nat)
    requires m.rules == FaultAppealOvertimeV2 && m.status == OvertimeTiebreakDecision
    requires TopOvertimeAppeal(m.appeals) == Some(a)
    ensures RestartOvertime(m) == Success(Restarted(m, a))
  {}

  lemma {:induction false} RestartSpoils(m: Match, a: nat)
    requires PhaseOK(m) && m.status == OvertimeTiebreakDecision && TopOvertimeAppeal(m.appeals) == Some(a)
    requires !Live(m.rounds, m.appeals[a].val.source)
    ensures Fits(m) && !TopAppealIsValid(m) && !Fits(Restarted(m, a))
  {
    RestartKeepsPhaseExactly(m, a);
  }

  lemma {:induction false} ChoiceAccepted(m: Match, a: nat, winner: Color, now: Time)
    requires m.rules == FaultAppealOvertimeV2 && m.status == OvertimeTiebreakDecision && m.decisions == []
    requires TopOvertimeAppeal(m.appeals) == Some(a)
    ensures SelectWinner(m, winner, now) == Success(Chosen(m, a, winner, now))
  {}

  /** The only valid appeal is the tied one of the first overtime, and nobody has decided it. */
  lemma {:induction false} TieStands(story: Story, four: nat, p: Page, winner: Color, key: string, now: Time)
    requires Interrupted(story, four) && Told(story, p) && p.outcome.None? && p.status == OvertimeTiebreakDecision
    requires p.rounds == [None, None, None, Some(1), Some(4), Some(4), Some(4)]
    requires p.appeals == [Some(1), None, None, None]
    ensures Stuck(Chosen(Scene(story, p), 2, winner, now), key, now)
  {
    var after := Chosen(Scene(story, p), 2, winner, now);
    var newest := NewestValid(after, |after.appeals|);
    assert after.appeals[3].val == story.appeals[3];
    assert ValidAppeal(after, 3) && !ValidAppeal(after, 0) && !ValidAppeal(after, 1) && !ValidAppeal(after, 2);
    assert newest == Some(3);
    assert FindDecision(after.decisions, 3).None?;
  }

  /** In the same state a manual decision falls on the stale appeal, and the result can never be published. */
  lemma {:induction false} ChoiceFindsStaleAppeal(winner: Color, key: string, now: Time)
    returns (m: Match, script: seq<Timed>)
    ensures m == NewMatch(FaultAppealOvertimeV2, 3, 1, 0) && TimedRun(m, script, 0)
    ensures var tied := Run(m, script);
            SelectWinner(tied, winner, now).Success? && Stuck(SelectWinner(tied, winner, now).value, key, now)
  {
    var story, four := TwoTiesTold();
    m := FreshMatch();
    var p;
    script, p := StaleBouts(story, four);
    StaleIsOnTop(story, four, p);
    ChoiceAccepted(Scene(story, p), 2, winner, now);
    TieStands(story, four, p, winner, key, now);
  }
}
