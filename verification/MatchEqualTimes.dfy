/** A run in which a regulation and an overtime appeal are committed in the same millisecond. */
module MatchEqualTimes {
  import opened Prelude
  import opened SportRules
  import opened MatchTables
  import opened MatchModel
  import opened MatchCommands
  import opened MatchHistory
  import opened MatchAppeals
  import opened MatchStories
  import opened MatchStuckResults

  // ---------------------------------------------------------------- a round that was reset as soon as it was started

  /** The match with one cancelled round more. */
  function Beyond(m: Match, r: Row<Round>): Match {
    m.(rounds := m.rounds + [r])
  }

  predicate NoBallots(m: Match) {
    m.windows == [] && m.votes == [] && m.events == [] && m.decisions == []
  }

  lemma {:induction false} BeyondResets(m: Match, r: Row<Round>, now: Time)
    requires r.stamp.Some? && CancelResults(m, true, false, now).Success? && NoBallots(m)
    ensures CancelResults(Beyond(m, r), true, false, now)
            == Success(Beyond(CancelResults(m, true, false, now).value, r))
  {
    var more := Beyond(m, r);
    assert LiveRounds(more) == LiveRounds(m);
    assert Stamp(more.rounds, LiveRounds(m), m.nextAudit) == Stamp(m.rounds, LiveRounds(m), m.nextAudit) + [r];
  }

  lemma {:induction false} BeyondTop(m: Match, r: Row<Round>, ended: bool)
    requires r.stamp.Some?
    ensures TopOvertime(Beyond(m, r).rounds, ended) == TopOvertime(m.rounds, ended)
  {
    assert Beyond(m, r).rounds[..|m.rounds|] == m.rounds;
  }

  lemma {:induction false} BeyondStamps(m: Match, r: Row<Round>, i: nat, k: nat)
    requires r.stamp.Some? && NoBallots(m) && i < |m.rounds|
    ensures StampRounds(Beyond(m, r), {i}, false, k) == Beyond(StampRounds(m, {i}, false, k), r)
  {
    assert Stamp(m.rounds + [r], {i}, k) == Stamp(m.rounds, {i}, k) + [r];
  }

  lemma {:induction false} BeyondSelects(m: Match, r: Row<Round>, i: nat)
    requires r.stamp.Some? && OvertimePhase(m.status) && TopOvertime(m.rounds, false) == Some(i)
    ensures SelectedRounds(m, false) == {i} && SelectedRounds(Beyond(m, r), false) == {i}
  {
    BeyondTop(m, r, false);
  }

  lemma {:induction false} BeyondCancelled(m: Match, r: Row<Round>, i: nat, now: Time)
    requires r.stamp.Some? && NoBallots(m) && i < |m.rounds| && m.rounds[i].val.stage == Overtime
    ensures Cancelled(Beyond(m, r), {i}, false, now) == Beyond(Cancelled(m, {i}, false, now), r)
  {
    OvertimeComesBack(m, i);
    OvertimeComesBack(Beyond(m, r), i);
    BeyondStamps(m, r, i, m.nextAudit);
  }

  lemma {:induction false} BeyondResetsOvertime(m: Match, r: Row<Round>, i: nat, now: Time)
    requires r.stamp.Some? && NoBallots(m) && OvertimePhase(m.status) && TopOvertime(m.rounds, false) == Some(i)
    requires CancelResults(m, false, false, now).Success?
    ensures CancelResults(Beyond(m, r), false, false, now)
            == Success(Beyond(CancelResults(m, false, false, now).value, r))
  {
    BeyondSelects(m, r, i);
    BeyondCancelled(m, r, i, now);
  }

  lemma {:induction false} BeyondReturns(m: Match, r: Row<Round>, o: nat)
    requires r.stamp.Some? && UndoCancellation(m, o).Success? && r.stamp != Some(m.operations[o].audit)
    ensures UndoCancellation(Beyond(m, r), o) == Success(Beyond(UndoCancellation(m, o).value, r))
  {
    var more, k := Beyond(m, r), m.operations[o].audit;
    assert Clear(more.rounds, k) == Clear(m.rounds, k) + [r];
    assert !ActiveSince(more, m.operations[o].createdAt);
  }

  lemma {:induction false} BeyondAppeals(m: Match, r: Row<Round>, key: string, red: Adjustment, blue: Adjustment,
                                         now: Time)
    requires r.stamp.Some? && CommitOvertimeAppeal(m, key, red, blue, now).Success? && FindAppeal(m.appeals, key).None?
    ensures CommitOvertimeAppeal(Beyond(m, r), key, red, blue, now)
            == Success(Beyond(CommitOvertimeAppeal(m, key, red, blue, now).value, r))
  {
    BeyondTop(m, r, true);
  }

  /** An overtime is started and reset at once. */
  function Aborted(p: Page, now: Time): Page {
    p.(status := OvertimeReady, current := Some(1), finished := None,
       ops := p.ops + [Operation(RoundReset, p.audit, now, OvertimeRunning, InProgress, Some(1), p.started, p.finished,
                                 OvertimeReady, Some(1), false)],
       audit := p.audit + 1)
  }

  function Opened(attempt: nat, now: Time): Round {
    Round(Overtime, 1, attempt, 1, now, now + 1, None, None, None)
  }

  /** The last round has no summaries and no appeals yet. */
  predicate Untouched(m: Match, i: nat) {
    && |m.rounds| == i + 1 && m.rounds[i].stamp.None? && NoBallots(m)
    && (forall s :: 0 <= s < |m.summaries| ==> m.summaries[s].val.round < i)
    && (forall a :: 0 <= a < |m.appeals| ==> m.appeals[a].val.source < i && i !in m.appeals[a].val.sourceRounds)
  }

  lemma {:induction false} UntouchedAppeals(m: Match, i: nat, k: nat)
    requires Untouched(m, i)
    ensures Stamp(m.appeals, AffectedAppeals(m, {i}, false), k) == m.appeals
  {
    forall a | 0 <= a < |m.appeals| ensures a !in AffectedAppeals(m, {i}, false) {
      assert m.appeals[a].val.sourceRounds * {i} == {};
    }
  }

  lemma {:induction false} UntouchedStamps(m: Match, i: nat, k: nat)
    requires Untouched(m, i)
    ensures StampRounds(m, {i}, false, k) == m.(rounds := m.rounds[..i] + [Row(m.rounds[i].val, Some(k))])
  {
    assert Stamp(m.rounds, {i}, k) == m.rounds[..i] + [Row(m.rounds[i].val, Some(k))];
    assert Stamp(m.summaries, SummariesIn(m, {i}), k) == m.summaries;
    UntouchedAppeals(m, i, k);
  }

  lemma {:induction false} UntouchedResets(m: Match, i: nat, now: Time)
    requires Untouched(m, i) && m.status == OvertimeRunning && m.lifecycle == InProgress && m.currentRound == Some(1)
    requires m.rounds[i].val.stage == Overtime && TopOvertime(m.rounds, false) == Some(i)
    ensures CancelResults(m, false, false, now)
            == Success(m.(rounds := m.rounds[..i] + [Row(m.rounds[i].val, Some(m.nextAudit))],
                          status := OvertimeReady, finishedAt := None, intermissionEndsAt := None,
                          operations := m.operations + [Operation(
                            RoundReset, m.nextAudit, now, OvertimeRunning, InProgress, Some(1), m.startedAt,
                            m.finishedAt, OvertimeReady, Some(1), false)],
                          nextAudit := m.nextAudit + 1))
  {
    OvertimeComesBack(m, i);
    UntouchedStamps(m, i, m.nextAudit);
  }

  // ---------------------------------------------------------------- page by page, with that round aside

  /** The run so far ends on this page, with one cancelled round beside it. */
  ghost predicate Aside(story: Story, script: seq<Timed>, p: Page, r: Row<Round>, t: Time) {
    Told(story, p) && r.stamp.Some? && Reaches(FreshMatch(), script, Beyond(Scene(story, p), r), t)
  }

  lemma {:induction false} AsideResets(story: Story, script: seq<Timed>, p: Page, r: Row<Round>, i: nat, t: Time)
    returns (longer: seq<Timed>, q: Page)
    requires Aside(story, script, p, r, t) && i in Alive(p.rounds) && p.status != Finished
    ensures Aside(story, longer, q, r, t) && q == AllReset(p, t)
  {
    q := AllReset(p, t);
    ResetGoes(story, p, i, t);
    BeyondResets(Scene(story, p), r, t);
    longer := script + [Timed(Cancel(true, false), t)];
    Then(FreshMatch(), script, Beyond(Scene(story, p), r), t, Timed(Cancel(true, false), t),
         Beyond(Scene(story, q), r));
  }

  lemma {:induction false} AsideResetsOvertime(story: Story, script: seq<Timed>, p: Page, r: Row<Round>, i: nat,
                                               t: Time)
    returns (longer: seq<Timed>, q: Page)
    requires Aside(story, script, p, r, t) && OvertimePhase(p.status) && SourcesApart(story, i)
    requires OnlyOvertime(story, p, i)
    ensures Aside(story, longer, q, r, t) && q == OvertimeReset(story, p, i, t)
  {
    q := OvertimeReset(story, p, i, t);
    OvertimeResetGoes(story, p, i, t);
    TopIs(Scene(story, p), i);
    BeyondResetsOvertime(Scene(story, p), r, i, t);
    longer := script + [Timed(Cancel(false, false), t)];
    Then(FreshMatch(), script, Beyond(Scene(story, p), r), t, Timed(Cancel(false, false), t),
         Beyond(Scene(story, q), r));
  }

  lemma {:induction false} AsideReturns(story: Story, script: seq<Timed>, p: Page, r: Row<Round>, o: nat, t: Time)
    returns (longer: seq<Timed>, q: Page)
    requires Aside(story, script, p, r, t) && Undoable(story, p, o) && r.stamp != Some(p.ops[o].audit)
    ensures Aside(story, longer, q, r, t) && q == Returned(p, o)
  {
    q := Returned(p, o);
    UndoGoes(story, p, o);
    BeyondReturns(Scene(story, p), r, o);
    longer := script + [Timed(Undo(o), t)];
    Then(FreshMatch(), script, Beyond(Scene(story, p), r), t, Timed(Undo(o), t), Beyond(Scene(story, q), r));
  }

  // ---------------------------------------------------------------- the run

  /** A regulation and its overtime, another regulation, and at the same time as its appeal the one of the overtime. */
  predicate Evenly(story: Story, three: nat) {
    && three == 3 && |story.rounds| == three + 2 && |story.appeals| == three
    && (forall i :: 0 <= i < |story.rounds| ==> OneTick(story.rounds[i]))
    && RegulationFollows(story, 0, 0, 0) && story.appeals[0].Tied()
    && story.rounds[2].stage == Overtime && story.rounds[2].attempt == 1
    && story.appeals[0].completedAt <= story.rounds[2].startedAt
    && RegulationFollows(story, three, 1, story.rounds[2].endsAt) && story.appeals[1].Tied()
    && AppealsOvertime(story, 2, 2) && !story.appeals[2].Tied()
    && story.appeals[2].completedAt == story.appeals[1].completedAt
  }

  /** The stamps of the first regulation, the overtime and the second regulation. */
  predicate Has(p: Page, a: Option<nat>, b: Option<nat>, c: Option<nat>) {
    p.rounds == [a, a, b, c, c] && p.sums == p.rounds && p.appeals == [a, c] && p.outcome.None?
  }

  lemma {:induction false} FirstTied(story: Story, three: nat, p: Page) returns (script: seq<Timed>, q: Page)
    requires Evenly(story, three) && p == FirstPage()
    ensures On(story, script, q, story.appeals[0].completedAt)
    ensures q.rounds == [None, None] && q.sums == [None, None] && q.appeals == [None]
    ensures q.ops == [] && q.audit == 0 && q.status == OvertimeReady && q.outcome.None?
  {
    Begins(story, p);
    var played;
    script, played, q := RegulationBout(story, [], p, 0, 0);
    assert p.rounds + [None, None] == [None, None];
  }

  lemma {:induction false} OvertimeFought(story: Story, three: nat) returns (script: seq<Timed>, q: Page)
    requires Evenly(story, three)
    ensures On(story, script, q, story.rounds[2].endsAt)
    ensures q.rounds == [None, None, None] && q.sums == [None, None, None] && q.appeals == [None]
    ensures q.ops == [] && q.audit == 0 && q.status == OvertimeAppeal && q.current == Some(1) && q.outcome.None?
  {
    var earlier, p := FirstTied(story, three, FirstPage());
    AttemptIsNext(story, p, 2);
    script, q := Plays(story, earlier, p, story.appeals[0].completedAt);
  }

  lemma {:induction false} EvenSources(story: Story, three: nat)
    requires Evenly(story, three)
    ensures SourcesApart(story, 2)
  {}

  lemma {:induction false} OvertimeIsReset(story: Story, three: nat) returns (script: seq<Timed>, q: Page)
    requires Evenly(story, three)
    ensures On(story, script, q, story.rounds[2].endsAt)
    ensures q.rounds == [None, None, Some(0)] && q.sums == q.rounds && q.appeals == [None]
    ensures q.audit == 1 == |q.ops| && q.status == OvertimeReady && q.current == Some(1) && q.outcome.None?
    ensures IsEntry(q.ops[0], 0, story.rounds[2].endsAt, OvertimeAppeal, OvertimeReady)
  {
    var s1, p1 := OvertimeFought(story, three);
    EvenSources(story, three);
    script, q := ResetsOvertime(story, s1, p1, story.rounds[2].endsAt, 2, story.rounds[2].endsAt);
  }

  /** The overtime is reset, and then everything. */
  lemma {:induction false} BothReset(story: Story, three: nat) returns (script: seq<Timed>, q: Page)
    requires Evenly(story, three)
    ensures On(story, script, q, story.rounds[2].endsAt)
    ensures q.rounds == [Some(1), Some(1), Some(0)] && q.sums == q.rounds && q.appeals == [Some(1)]
    ensures q.audit == 2 == |q.ops| && q.status == Waiting && q.current.None? && q.started.None? && q.outcome.None?
    ensures IsEntry(q.ops[0], 0, story.rounds[2].endsAt, OvertimeAppeal, OvertimeReady)
    ensures IsEntry(q.ops[1], 1, story.rounds[2].endsAt, OvertimeReady, Waiting)
  {
    var s1, p1 := OvertimeIsReset(story, three);
    script, q := Resets(story, s1, p1, story.rounds[2].endsAt, 0, story.rounds[2].endsAt);
  }

  /** Regulation is tied again. */
  lemma {:induction false} SecondTied(story: Story, three: nat) returns (script: seq<Timed>, q: Page)
    requires Evenly(story, three)
    ensures On(story, script, q, story.appeals[1].completedAt) && Has(q, Some(1), Some(0), None)
    ensures q.audit == 2 == |q.ops| && q.status == OvertimeReady && q.current == Some(2)
    ensures IsEntry(q.ops[0], 0, story.rounds[2].endsAt, OvertimeAppeal, OvertimeReady)
    ensures IsEntry(q.ops[1], 1, story.rounds[2].endsAt, OvertimeReady, Waiting)
  {
    var s1, p1 := BothReset(story, three);
    var played;
    script, played, q := RegulationBout(story, s1, p1, story.rounds[2].endsAt, three);
    assert played.rounds == [Some(1), Some(1), Some(0), None, None];
    assert !exists a :: 0 <= a < |played.appeals| && Stale(story, played, a);
  }

  lemma {:induction false} SecondAttempt(story: Story, three: nat, p: Page, now: Time)
    requires Evenly(story, three) && Told(story, p) && Has(p, Some(1), Some(0), None) && p.status == OvertimeReady
    ensures MaxAttempt(Scene(story, p).rounds) == 1
  {
    var rounds := Scene(story, p).rounds;
    AttemptsBounded(rounds, 1);
    assert rounds[2].val.stage == Overtime && rounds[2].val.attempt == 1;
  }

  lemma {:induction false} OpenedRuns(story: Story, p: Page, r: Round, now: Time)
    requires Told(story, p) && |p.rounds| == 5 && r == EndedRound(Overtime, 1, 2, now) && p.status == OvertimeReady
    requires MaxAttempt(Scene(story, p).rounds) == 1
    ensures var after := Running(Scene(story, p), r);
            && Step(Scene(story, p), Start, now) == after
            && after.rounds == Scene(story, p).rounds + [Row(Opened(2, now), None)]
  {
    StartsRound(Scene(story, p), r);
  }

  lemma {:induction false} RunsUntouched(story: Story, three: nat, p: Page, r: Round, now: Time)
    requires Evenly(story, three) && Told(story, p) && Has(p, Some(1), Some(0), None) && p.status == OvertimeReady
    requires r == EndedRound(Overtime, 1, 2, now)
    ensures var m := Running(Scene(story, p), r); Untouched(m, 5) && TopOvertime(m.rounds, false) == Some(5)
  {
    var m := Running(Scene(story, p), r);
    forall a | 0 <= a < |m.appeals| ensures 5 !in m.appeals[a].val.sourceRounds {
      assert story.appeals[0].sourceRounds == {0, 1} && story.appeals[1].sourceRounds == {three, three + 1};
    }
    assert m.rounds[..5] == Scene(story, p).rounds;
    assert LiveOvertime(m.rounds, 5, false);
  }

  lemma {:induction false} RunningIsReset(story: Story, three: nat, p: Page, ended: Round, t: Time)
    requires Evenly(story, three) && Told(story, p) && Has(p, Some(1), Some(0), None)
    requires p.status == OvertimeReady && p.audit == 2 && ended == EndedRound(Overtime, 1, 2, t)
    ensures Told(story, Aborted(p, t))
    ensures CancelResults(Running(Scene(story, p), ended), false, false, t)
            == Success(Beyond(Scene(story, Aborted(p, t)), Row(Opened(2, t), Some(2))))
  {
    var m := Scene(story, p);
    RunsUntouched(story, three, p, ended, t);
    UntouchedResets(Running(m, ended), 5, t);
    assert Running(m, ended).rounds[..5] == m.rounds;
    assert Scene(story, Aborted(p, t)).rounds == m.rounds;
  }

  /** An overtime is started and reset, all at the time of the appeal. */
  lemma {:induction false} OpensAndResets(story: Story, three: nat, script: seq<Timed>, p: Page, t: Time)
    returns (longer: seq<Timed>, q: Page, r: Row<Round>)
    requires Evenly(story, three) && On(story, script, p, t) && Has(p, Some(1), Some(0), None)
    requires p.status == OvertimeReady && p.audit == 2
    ensures q == Aborted(p, t) && r.stamp == Some(2) && Aside(story, longer, q, r, t)
  {
    var m, ended := Scene(story, p), EndedRound(Overtime, 1, 2, t);
    q, r := Aborted(p, t), Row(Opened(2, t), Some(2));
    SecondAttempt(story, three, p, t);
    OpenedRuns(story, p, ended, t);
    RunningIsReset(story, three, p, ended, t);
    var opening := script + [Timed(Start, t)];
    Then(FreshMatch(), script, m, t, Timed(Start, t), Running(m, ended));
    longer := opening + [Timed(Cancel(false, false), t)];
    Then(FreshMatch(), opening, Running(m, ended), t, Timed(Cancel(false, false), t), Beyond(Scene(story, q), r));
  }

  // ---------------------------------------------------------------- the stamps, step by step

  lemma {:induction false} HasReset(p: Page, a: Option<nat>, b: Option<nat>, c: Option<nat>, now: Time)
    requires Has(p, a, b, c)
    ensures Has(AllReset(p, now), Fill(a, p.audit), Fill(b, p.audit), Fill(c, p.audit))
  {}

  lemma {:induction false} HasReturned(p: Page, a: Option<nat>, b: Option<nat>, c: Option<nat>, o: nat)
    requires Has(p, a, b, c) && o < |p.ops|
    ensures var k := p.ops[o].audit; Has(Returned(p, o), Lift(a, k), Lift(b, k), Lift(c, k))
  {}

  lemma {:induction false} HasOvertimeReset(story: Story, three: nat, p: Page, a: Option<nat>, c: Option<nat>,
                                            now: Time)
    requires Evenly(story, three) && Told(story, p) && Has(p, a, None, c)
    ensures Has(OvertimeReset(story, p, 2, now), a, Some(p.audit), c)
  {}

  lemma {:induction false} EvenSlots(story: Story, three: nat, p: Page)
    requires Evenly(story, three) && Told(story, p) && |p.appeals| == 2 && (p.appeals[0].Some? || p.appeals[1].Some?)
    ensures SlotsApart(story, p)
  {}

  lemma {:induction false} Hides(story: Story, script: seq<Timed>, p: Page, r: Row<Round>, a: Option<nat>,
                                 b: Option<nat>, c: Option<nat>, t: Time)
    returns (longer: seq<Timed>, q: Page)
    requires Aside(story, script, p, r, t) && Has(p, a, b, c) && (a.None? || c.None?) && p.status != Finished
    requires p.current == Some(1)
    ensures Aside(story, longer, q, r, t) && Has(q, Fill(a, p.audit), Fill(b, p.audit), Fill(c, p.audit))
    ensures q.status == Waiting && q.current.None? && q.audit == p.audit + 1 && |q.ops| == |p.ops| + 1
    ensures q.ops[..|p.ops|] == p.ops && IsEntry(q.ops[|p.ops|], p.audit, t, p.status, Waiting)
  {
    HasReset(p, a, b, c, t);
    longer, q := AsideResets(story, script, p, r, if a.None? then 0 else 3, t);
  }

  lemma {:induction false} HidesTheOvertime(story: Story, three: nat, script: seq<Timed>, p: Page, r: Row<Round>,
                                            a: Option<nat>, c: Option<nat>, t: Time)
    returns (longer: seq<Timed>, q: Page)
    requires Evenly(story, three) && Aside(story, script, p, r, t) && Has(p, a, None, c) && p.status == OvertimeAppeal
    requires p.current == Some(1)
    ensures Aside(story, longer, q, r, t) && Has(q, a, Some(p.audit), c)
    ensures q.status == OvertimeReady && q.current == Some(1) && q.audit == p.audit + 1 && |q.ops| == |p.ops| + 1
    ensures q.ops[..|p.ops|] == p.ops && IsEntry(q.ops[|p.ops|], p.audit, t, OvertimeAppeal, OvertimeReady)
  {
    EvenSources(story, three);
    HasOvertimeReset(story, three, p, a, c, t);
    longer, q := AsideResetsOvertime(story, script, p, r, 2, t);
  }

  lemma {:induction false} Brings(story: Story, three: nat, script: seq<Timed>, p: Page, r: Row<Round>, a: Option<nat>,
                                  b: Option<nat>, c: Option<nat>, o: nat, k: nat, since: Time, s: Status, t: Time)
    returns (longer: seq<Timed>, q: Page)
    requires Evenly(story, three) && Aside(story, script, p, r, t) && Has(p, a, b, c) && r.stamp != Some(k)
    requires o < |p.ops| && IsEntry(p.ops[o], k, since, s, p.status) && NoNewer(story, p, since)
    requires p.current == (if p.status == Waiting then None else Some(1)) && (Lift(a, k).Some? || Lift(c, k).Some?)
    ensures Aside(story, longer, q, r, t) && Has(q, Lift(a, k), Lift(b, k), Lift(c, k))
    ensures q.status == s && q.current == Some(1) && q.audit == p.audit
    ensures |q.ops| == |p.ops| && forall i :: 0 <= i < |p.ops| && i != o ==> q.ops[i] == p.ops[i]
  {
    HasReturned(p, a, b, c, o);
    EvenSlots(story, three, Returned(p, o));
    longer, q := AsideReturns(story, script, p, r, o, t);
  }

  /** The phase, with the number of audit entries, each of an operation. */
  predicate Stands(p: Page, s: Status, n: nat) {
    p.status == s && p.current == (if s == Waiting then None else Some(1)) && p.audit == n == |p.ops|
  }

  lemma {:induction false} FirstIsOlder(story: Story, three: nat, p: Page)
    requires Evenly(story, three) && Told(story, p) && Has(p, None, Some(0), Some(3))
    ensures NoNewer(story, p, story.rounds[2].endsAt)
  {
    assert OneTick(story.rounds[0]) && OneTick(story.rounds[1]) && OneTick(story.rounds[2]);
  }

  /** With nothing live, the first regulation and its overtime come back. */
  lemma {:induction false} FirstOnesBack(story: Story, three: nat, script: seq<Timed>, p: Page, r: Row<Round>, t: Time)
    returns (longer: seq<Timed>, q: Page)
    requires Evenly(story, three) && Aside(story, script, p, r, t) && Has(p, Some(1), Some(0), Some(3))
    requires r.stamp == Some(2) && Stands(p, Waiting, 4)
    requires IsEntry(p.ops[0], 0, story.rounds[2].endsAt, OvertimeAppeal, OvertimeReady)
    requires IsEntry(p.ops[1], 1, story.rounds[2].endsAt, OvertimeReady, Waiting)
    ensures Aside(story, longer, q, r, t) && Has(q, None, None, Some(3)) && Stands(q, OvertimeAppeal, 4)
    ensures q.ops[3] == p.ops[3]
  {
    var since := story.rounds[2].endsAt;
    var s2, p2 := Brings(story, three, script, p, r, Some(1), Some(0), Some(3), 1, 1, since, OvertimeReady, t);
    FirstIsOlder(story, three, p2);
    longer, q := Brings(story, three, s2, p2, r, None, Some(0), Some(3), 0, 0, since, OvertimeAppeal, t);
  }

  /** They are reset again, the overtime first. */
  lemma {:induction false} FirstOnesReset(story: Story, three: nat, script: seq<Timed>, p: Page, r: Row<Round>, t: Time)
    returns (longer: seq<Timed>, q: Page)
    requires Evenly(story, three) && Aside(story, script, p, r, t) && Has(p, None, None, Some(3))
    requires Stands(p, OvertimeAppeal, 4)
    ensures Aside(story, longer, q, r, t) && Has(q, Some(5), Some(4), Some(3)) && Stands(q, Waiting, 6)
    ensures q.ops[3] == p.ops[3] && IsEntry(q.ops[4], 4, t, OvertimeAppeal, OvertimeReady)
  {
    var s1, p1 := HidesTheOvertime(story, three, script, p, r, None, Some(3), t);
    longer, q := Hides(story, s1, p1, r, None, Some(4), Some(3), t);
    assert q.ops[3] == q.ops[..5][3] && q.ops[4] == q.ops[..5][4] && p1.ops[3] == p1.ops[..4][3];
  }

  /** Then the second regulation comes back, and to it the overtime of the first. */
  lemma {:induction false} OvertimeChangesSides(story: Story, three: nat, script: seq<Timed>, p: Page, r: Row<Round>,
                                                t: Time)
    returns (longer: seq<Timed>, q: Page)
    requires Evenly(story, three) && Aside(story, script, p, r, t) && Has(p, Some(5), Some(4), Some(3))
    requires r.stamp == Some(2) && Stands(p, Waiting, 6) && story.appeals[1].completedAt <= t
    requires IsEntry(p.ops[3], 3, t, OvertimeReady, Waiting) && IsEntry(p.ops[4], 4, t, OvertimeAppeal, OvertimeReady)
    ensures Aside(story, longer, q, r, t) && Has(q, Some(5), None, None) && q.status == OvertimeAppeal
  {
    assert OneTick(story.rounds[three]) && OneTick(story.rounds[three + 1]);
    var s3, p3 := Brings(story, three, script, p, r, Some(5), Some(4), Some(3), 3, 3, t, OvertimeReady, t);
    longer, q := Brings(story, three, s3, p3, r, Some(5), Some(4), None, 4, 4, t, OvertimeAppeal, t);
  }

  /** An overtime that is aborted, and everything reset: all of it at the time of the second regulation appeal. */
  lemma {:induction false} AllReset3(story: Story, three: nat) returns (script: seq<Timed>, q: Page, r: Row<Round>)
    requires Evenly(story, three)
    ensures Aside(story, script, q, r, story.appeals[1].completedAt) && Has(q, Some(1), Some(0), Some(3))
    ensures r.stamp == Some(2) && Stands(q, Waiting, 4)
    ensures IsEntry(q.ops[0], 0, story.rounds[2].endsAt, OvertimeAppeal, OvertimeReady)
    ensures IsEntry(q.ops[1], 1, story.rounds[2].endsAt, OvertimeReady, Waiting)
    ensures IsEntry(q.ops[3], 3, story.appeals[1].completedAt, OvertimeReady, Waiting)
  {
    var t := story.appeals[1].completedAt;
    var s1, p1 := SecondTied(story, three);
    var s2, p2;
    s2, p2, r := OpensAndResets(story, three, s1, p1, t);
    script, q := Hides(story, s2, p2, r, Some(1), Some(0), None, t);
    assert q.ops[0] == q.ops[..3][0] && q.ops[1] == q.ops[..3][1];
  }

  lemma {:induction false} SidesChanged(story: Story, three: nat) returns (script: seq<Timed>, q: Page, r: Row<Round>)
    requires Evenly(story, three)
    ensures Aside(story, script, q, r, story.appeals[1].completedAt) && Has(q, Some(5), None, None)
    ensures q.status == OvertimeAppeal
  {
    var t := story.appeals[1].completedAt;
    var p1;
    script, p1, r := AllReset3(story, three);
    var s2, p2 := FirstOnesBack(story, three, script, p1, r, t);
    var s3, p3 := FirstOnesReset(story, three, s2, p2, r, t);
    script, q := OvertimeChangesSides(story, three, s3, p3, r, t);
  }

  // ---------------------------------------------------------------- the appeal

  lemma {:induction false} LateCommit(story: Story, three: nat, p: Page, r: Row<Round>)
    requires Evenly(story, three) && Told(story, p) && r.stamp.Some? && Has(p, Some(5), None, None)
    requires p.status == OvertimeAppeal
    ensures Told(story, Committed(story, p))
    ensures Step(Beyond(Scene(story, p), r), OvertimeCommand(story, 2), story.appeals[2].completedAt)
            == Beyond(Scene(story, Committed(story, p)), r)
  {
    var appeal := story.appeals[2];
    OvertimeAppealGoes(story, p, 2);
    BeyondAppeals(Scene(story, p), r, appeal.key, appeal.red.adjustment, appeal.blue.adjustment, appeal.completedAt);
  }

  /** Of two appeals committed in the same millisecond the first is found, and it is tied. */
  lemma {:induction false} TiedIsFound(story: Story, three: nat, p: Page, r: Row<Round>, key: string, now: Time)
    requires Evenly(story, three) && Told(story, p) && p.rounds == [Some(5), Some(5), None, None, None]
    requires p.appeals == [Some(5), None, None] && p.outcome.None? && p.status == ResultPublicationReady
    ensures Stuck(Beyond(Scene(story, p), r), key, now)
  {
    var m := Beyond(Scene(story, p), r);
    assert ValidAppeal(m, 1) && ValidAppeal(m, 2) && !ValidAppeal(m, 0);
    assert NewestValid(m, |m.appeals|) == Some(1);
  }

  lemma {:induction false} EvenTimes(story: Story, three: nat, key: string, now: Time)
    returns (script: seq<Timed>, commit: Timed)
    requires Evenly(story, three)
    ensures TimedRun(FreshMatch(), script + [commit], 0) && commit.command.AppealOvertime?
    ensures !ClockMoved(Run(FreshMatch(), script), commit.now)
    ensures Stuck(Run(FreshMatch(), script + [commit]), key, now)
  {
    var p, r;
    script, p, r := SidesChanged(story, three);
    var t, q := story.appeals[2].completedAt, Committed(story, p);
    commit := Timed(OvertimeCommand(story, 2), t);
    var before := Beyond(Scene(story, p), r);
    LateCommit(story, three, p, r);
    Then(FreshMatch(), script, before, t, commit, Beyond(Scene(story, q), r));
    TiedIsFound(story, three, q, r, key, now);
    assert ValidAppeal(before, 1) && before.appeals[1].val == story.appeals[1];
  }

  function EvenBouts(): Story {
    Story([EndedRound(Regulation, 1, 0, 0), EndedRound(Regulation, 2, 0, 1), EndedRound(Overtime, 1, 1, 3),
           EndedRound(Regulation, 1, 0, 4), EndedRound(Regulation, 2, 0, 5)],
          [BonusAppeal(Regulation, 0, 1, {0, 1}, "first", 0, 2), BonusAppeal(Regulation, 0, 4, {3, 4}, "second", 0, 7),
           BonusAppeal(Overtime, 1, 2, {2}, "overtime", 1, 7)])
  }

  lemma {:induction false} EvenBoutsFit(story: Story, three: nat)
    requires story == EvenBouts() && three == 3
    ensures Evenly(story, three)
  {}

  lemma {:induction false} EvenBoutsTold() returns (story: Story, three: nat)
    ensures Evenly(story, three)
  {
    story, three := EvenBouts(), 3;
    EvenBoutsFit(story, three);
  }

  /**
   * A regulation is tied and its overtime played; both are reset and regulation tied again. Within the millisecond of
   * that appeal another overtime is started and reset, and resets are undone until the first overtime stands beside
   * the second regulation. Its appeal comes at the same time, and the result is ready and refused.
   */
  lemma {:induction false} EqualTimesCannotBePublished(key: string, now: Time)
    returns (m: Match, script: seq<Timed>, commit: Timed)
    ensures m == NewMatch(FaultAppealOvertimeV2, 3, 1, 0) && TimedRun(m, script + [commit], 0)
    ensures commit.command.AppealOvertime? && !ClockMoved(Run(m, script), commit.now)
    ensures Stuck(Run(m, script + [commit]), key, now)
  {
    var story, three := EvenBoutsTold();
    m := FreshMatch();
    script, commit := EvenTimes(story, three, key, now);
  }
}
