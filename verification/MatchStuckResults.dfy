/** Two runs that end with a result ready for publication that is refused for ever. */
module MatchStuckResults {
  import opened Prelude
  import opened SportRules
  import opened MatchModel
  import opened MatchCommands
  import opened MatchHistory
  import opened MatchStories

  /** A result that is ready, in progress and was never published, and is refused all the same. */
  predicate Stuck(m: Match, key: string, now: Time) {
    && m.rules == FaultAppealOvertimeV2 && m.status == ResultPublicationReady && m.lifecycle == InProgress
    && m.outcome.None? && PublishResult(m, key, now).Failure?
  }

  function EndedRound(stage: Stage, number: nat, attempt: nat, t: Time): Round {
    Round(stage, number, attempt, 1, t, t + 1, None, None, Some(t + 1))
  }

  /** An appeal over no points: RED is given the bonus. */
  function BonusAppeal(scope: Stage, attempt: nat, source: nat, rounds: set<nat>, key: string, bonus: nat,
                       t: Time): Appeal {
    Appeal(scope, attempt, source, rounds, key, Score(0, Adjustment(bonus, 0), bonus), Score(0, Adjustment(0, 0), 0), t)
  }

  // ---------------------------------------------------------------- an exit undone after its appeal was swept

  /** Two regulations, each with its appeal; the first appeal is decided. */
  predicate Twice(story: Story, two: nat) {
    && two == 2 && |story.rounds| == two + 2 && |story.appeals| == two
    && RegulationFollows(story, 0, 0, 0) && !story.appeals[0].Tied()
    && RegulationFollows(story, two, 1, story.appeals[0].completedAt)
    && (forall i :: 0 <= i < |story.rounds| ==> OneTick(story.rounds[i]))
  }

  lemma {:induction false} FirstBoutWon(story: Story, two: nat, p: Page) returns (script: seq<Timed>, q: Page)
    requires Twice(story, two) && p == FirstPage()
    ensures On(story, script, q, story.appeals[0].completedAt)
    ensures q.rounds == [None, None] && q.sums == [None, None] && q.appeals == [None] && q.ops == [] && q.audit == 0
    ensures q.status == ResultPublicationReady && q.current == Some(2) && q.started.Some? && q.outcome.None?
  {
    Begins(story, p);
    var played;
    script, played, q := RegulationBout(story, [], p, 0, 0);
    assert p.rounds + [None, None] == [None, None];
  }

  /** The match is left, and regulation replayed: the new appeal sweeps the old one. */
  lemma {:induction false} SecondBoutSweeps(story: Story, two: nat, script: seq<Timed>, p: Page)
    returns (longer: seq<Timed>, q: Page)
    requires Twice(story, two) && On(story, script, p, story.appeals[0].completedAt)
    requires p.rounds == [None, None] && p.sums == [None, None] && p.appeals == [None] && p.ops == [] && p.audit == 0
    requires p.status == ResultPublicationReady && p.current == Some(2) && p.started.Some? && p.outcome.None?
    ensures On(story, longer, q, story.appeals[1].completedAt)
    ensures q.rounds == [Some(0), Some(0), None, None] && q.appeals == [Some(1), None] && q.audit == 2
    ensures q.ops == [Entry(p, MatchExit, story.appeals[0].completedAt, Waiting)] && q.outcome.None?
  {
    var t := story.appeals[0].completedAt;
    var leaving, left := Leaves(story, script, p, t, t);
    assert left.rounds == [Some(0), Some(0)];
    var played;
    longer, played, q := RegulationBout(story, leaving, left, t, two);
    assert Stale(story, played, 0);
    assert played.rounds == [Some(0), Some(0), None, None];
  }

  lemma {:induction false} SecondBoutReset(story: Story, two: nat, script: seq<Timed>, p: Page, t: Time)
    returns (longer: seq<Timed>, q: Page)
    requires Twice(story, two) && On(story, script, p, t) && |p.ops| == 1 && p.outcome.None?
    requires p.rounds == [Some(0), Some(0), None, None] && p.appeals == [Some(1), None] && p.audit == 2
    ensures On(story, longer, q, t)
    ensures q.rounds == [Some(0), Some(0), Some(2), Some(2)] && q.appeals == [Some(1), Some(2)] && q.outcome.None?
    ensures q.status == Waiting && q.current.None? && |q.ops| == 2 && q.ops[0] == p.ops[0]
  {
    longer, q := Resets(story, script, p, t, 2, t);
  }

  /** The second bout is reset and the exit undone: the rounds come back without their appeal. */
  lemma {:induction false} ExitUndone(story: Story, two: nat, script: seq<Timed>, p: Page, p0: Page, t: Time)
    returns (longer: seq<Timed>, q: Page)
    requires Twice(story, two) && On(story, script, p, t)
    requires p.rounds == [Some(0), Some(0), None, None] && p.appeals == [Some(1), None] && p.audit == 2
    requires p.ops == [Entry(p0, MatchExit, story.appeals[0].completedAt, Waiting)] && p.outcome.None?
    requires p0.audit == 0 && p0.status == ResultPublicationReady
    ensures On(story, longer, q, t)
    ensures q.appeals == [Some(1), Some(2)] && q.status == ResultPublicationReady && q.outcome.None?
  {
    var resetting, reset := SecondBoutReset(story, two, script, p, t);
    assert Returned(reset, 0).appeals == [Some(1), Some(2)];
    longer, q := TakesBack(story, resetting, reset, t, 0, t);
  }

  lemma {:induction false} NothingToPublish(story: Story, p: Page, key: string, now: Time)
    requires Told(story, p) && p.status == ResultPublicationReady && p.outcome.None?
    requires forall a :: 0 <= a < |p.appeals| ==> p.appeals[a].Some?
    ensures Stuck(Scene(story, p), key, now)
  {
    assert NewestValid(Scene(story, p), |Scene(story, p).appeals|).None?;
  }

  function TwoBouts(): Story {
    Story([EndedRound(Regulation, 1, 0, 0), EndedRound(Regulation, 2, 0, 1), EndedRound(Regulation, 1, 0, 3),
           EndedRound(Regulation, 2, 0, 4)],
          [BonusAppeal(Regulation, 0, 1, {0, 1}, "first", 1, 2), BonusAppeal(Regulation, 0, 3, {2, 3}, "second", 0, 5)])
  }

  lemma {:induction false} TwoBoutsFit(story: Story, two: nat)
    requires story == TwoBouts() && two == 2
    ensures Twice(story, two)
  {}

  lemma {:induction false} TwoBoutsTold() returns (story: Story, two: nat)
    ensures Twice(story, two)
  {
    story, two := TwoBouts(), 2;
    TwoBoutsFit(story, two);
  }

  lemma {:induction false} SweptBouts(story: Story, two: nat, key: string, now: Time)
    returns (script: seq<Timed>, q: Page)
    requires Twice(story, two)
    ensures On(story, script, q, story.appeals[1].completedAt) && Stuck(Scene(story, q), key, now)
  {
    var first, p1 := FirstBoutWon(story, two, FirstPage());
    var second, p2 := SecondBoutSweeps(story, two, first, p1);
    script, q := ExitUndone(story, two, second, p2, p1, story.appeals[1].completedAt);
    NothingToPublish(story, q, key, now);
  }

  /**
   * A result is ready; the match is left and its regulation replayed, so that the new appeal sweeps the old one;
   * everything is reset and the exit undone. The result is ready again, but its appeal stays cancelled.
   */
  lemma {:induction false} SweptResultCannotBePublished(key: string, now: Time) returns (m: Match, script: seq<Timed>)
    ensures m == NewMatch(FaultAppealOvertimeV2, 3, 1, 0) && TimedRun(m, script, 0) && Stuck(Run(m, script), key, now)
  {
    var story, two := TwoBoutsTold();
    m := FreshMatch();
    var q;
    script, q := SweptBouts(story, two, key, now);
  }

  // ---------------------------------------------------------------- resets undone out of their nesting

  /** Regulation tied, overtime won, regulation tied again and another overtime; three appeals. */
  predicate Thrice(story: Story, three: nat) {
    && three == 3 && |story.rounds| == three + 3 && |story.appeals| == three
    && (forall i :: 0 <= i < |story.rounds| ==> OneTick(story.rounds[i]))
    && RegulationFollows(story, 0, 0, 0) && story.appeals[0].Tied()
    && OvertimeFollows(story, 2, 1, story.appeals[0].completedAt) && NextAttempt(story, 2) && !story.appeals[1].Tied()
    && RegulationFollows(story, three, 2, story.appeals[1].completedAt) && story.appeals[2].Tied()
    && story.rounds[three + 2].stage == Overtime && NextAttempt(story, three + 2)
    && story.appeals[2].completedAt <= story.rounds[three + 2].startedAt
  }

  lemma {:induction false} FirstBoutTied(story: Story, three: nat, p: Page) returns (script: seq<Timed>, q: Page)
    requires Thrice(story, three) && p == FirstPage()
    ensures On(story, script, q, story.appeals[0].completedAt)
    ensures q.rounds == [None, None] && q.sums == [None, None] && q.appeals == [None] && q.ops == [] && q.audit == 0
    ensures q.status == OvertimeReady && q.started.Some? && q.outcome.None?
  {
    Begins(story, p);
    var played;
    script, played, q := RegulationBout(story, [], p, 0, 0);
    assert p.rounds + [None, None] == [None, None];
  }

  lemma {:induction false} OvertimeWon(story: Story, three: nat, p: Page) returns (script: seq<Timed>, q: Page)
    requires Thrice(story, three) && p == FirstPage()
    ensures On(story, script, q, story.appeals[1].completedAt)
    ensures q.rounds == [None, None, None] && q.sums == [None, None, None] && q.appeals == [None, None] && q.ops == []
    ensures q.audit == 0
    ensures q.status == ResultPublicationReady && q.current == Some(1) && q.started.Some? && q.outcome.None?
  {
    var earlier, p1 := FirstBoutTied(story, three, p);
    script, q := OvertimeBout(story, earlier, p1, story.appeals[0].completedAt, 2);
  }

  /** All that is reset, and regulation is tied again. */
  lemma {:induction false} TiedAgain(story: Story, three: nat, script: seq<Timed>, p: Page)
    returns (longer: seq<Timed>, q: Page)
    requires Thrice(story, three) && On(story, script, p, story.appeals[1].completedAt)
    requires p.rounds == [None, None, None] && p.sums == [None, None, None] && p.appeals == [None, None] && p.ops == []
    requires p.audit == 0
    requires p.status == ResultPublicationReady && p.current == Some(1) && p.started.Some? && p.outcome.None?
    ensures On(story, longer, q, story.appeals[2].completedAt)
    ensures q.rounds == [Some(0), Some(0), Some(0), None, None] && q.appeals == [Some(0), Some(0), None]
    ensures q.ops == [Entry(p, MatchReset, story.appeals[1].completedAt, Waiting)] && q.audit == 1
    ensures q.status == OvertimeReady && q.outcome.None?
  {
    var t := story.appeals[1].completedAt;
    var resetting, reset := Resets(story, script, p, t, 0, t);
    assert reset.rounds == [Some(0), Some(0), Some(0)] && reset.appeals == [Some(0), Some(0)];
    var played;
    longer, played, q := RegulationBout(story, resetting, reset, t, three);
    assert !exists a :: 0 <= a < |played.appeals| && Stale(story, played, a);
  }

  /** The stamps of the first regulation, the first overtime, the second regulation and the second overtime. */
  predicate Bears(p: Page, a: Option<nat>, b: Option<nat>, c: Option<nat>, d: Option<nat>) {
    p.rounds == [a, a, b, c, c, d] && p.appeals == [a, b, c] && p.outcome.None?
  }

  lemma {:induction false} PlayedBears(story: Story, three: nat, p: Page, k: nat)
    requires Thrice(story, three) && Told(story, p)
    requires p.rounds == [Some(k), Some(k), Some(k), None, None] && p.appeals == [Some(k), Some(k), None]
    requires p.status == OvertimeReady && p.outcome.None?
    ensures Bears(Played(story, p), Some(k), Some(k), None, None)
  {}

  lemma {:induction false} AnotherIsNext(story: Story, three: nat, p: Page)
    requires Thrice(story, three) && Told(story, p) && |p.rounds| == three + 2 && p.status == OvertimeReady
    ensures Next(Scene(story, p), story.rounds[three + 2])
  {
    AttemptIsNext(story, p, three + 2);
  }

  /** Another overtime is fought. */
  lemma {:induction false} OvertimeAgain(story: Story, three: nat, script: seq<Timed>, p: Page, k: nat)
    returns (longer: seq<Timed>, q: Page)
    requires Thrice(story, three) && On(story, script, p, story.appeals[2].completedAt)
    requires p.rounds == [Some(k), Some(k), Some(k), None, None] && p.appeals == [Some(k), Some(k), None]
    requires p.status == OvertimeReady && p.outcome.None?
    ensures On(story, longer, q, story.rounds[three + 2].endsAt)
    ensures Bears(q, Some(k), Some(k), None, None) && q.ops == p.ops && q.audit == p.audit && q.status == OvertimeAppeal
    ensures q.current == Some(1)
    ensures q.started == p.started
  {
    AnotherIsNext(story, three, p);
    PlayedBears(story, three, p, k);
    longer, q := Plays(story, script, p, story.appeals[2].completedAt);
  }

  function Fill(a: Option<nat>, k: nat): Option<nat> {
    if a.None? then Some(k) else a
  }

  function Lift(a: Option<nat>, k: nat): Option<nat> {
    if a == Some(k) then None else a
  }

  lemma {:induction false} AllResetBears(p: Page, a: Option<nat>, b: Option<nat>, c: Option<nat>, d: Option<nat>,
                                         now: Time)
    requires Bears(p, a, b, c, d)
    ensures Bears(AllReset(p, now), Fill(a, p.audit), Fill(b, p.audit), Fill(c, p.audit), Fill(d, p.audit))
  {}

  lemma {:induction false} ReturnedBears(p: Page, a: Option<nat>, b: Option<nat>, c: Option<nat>, d: Option<nat>,
                                         o: nat)
    requires Bears(p, a, b, c, d) && o < |p.ops|
    ensures var k := p.ops[o].audit; Bears(Returned(p, o), Lift(a, k), Lift(b, k), Lift(c, k), Lift(d, k))
  {}

  lemma {:induction false} Sources(story: Story, three: nat, i: nat)
    requires Thrice(story, three) && (i == 2 || i == three + 2)
    ensures SourcesApart(story, i)
  {}

  lemma {:induction false} OvertimeResetBears(story: Story, three: nat, p: Page, a: Option<nat>, b: Option<nat>,
                                              c: Option<nat>, d: Option<nat>,
                                              i: nat, now: Time)
    requires Thrice(story, three) && Told(story, p) && Bears(p, a, b, c, d)
    requires (i == 2 && b.None? && d.Some?) || (i == three + 2 && d.None? && b.Some?)
    ensures Bears(OvertimeReset(story, p, i, now), a, Fill(b, p.audit), c, Fill(d, p.audit))
  {}

  /** A reset made at t in a phase of overtime. */
  predicate IsEntry(op: Operation, k: nat, t: Time, s: Status, next: Status) {
    && op.audit == k && op.createdAt == t && !op.undone && op.previousStatus == s && op.previousCurrentRound == Some(1)
    && op.previousLifecycle == LifecycleForPhase(s)
    && op.resultingStatus == next && op.resultingCurrentRound == (if next == Waiting then None else Some(1))
  }

  /** Everything is reset. */
  lemma {:induction false} HidesAll(story: Story, script: seq<Timed>, p: Page, a: Option<nat>, b: Option<nat>,
                                    c: Option<nat>, d: Option<nat>, t: Time)
    returns (longer: seq<Timed>, q: Page)
    requires On(story, script, p, t) && Bears(p, a, b, c, d) && (a.None? || c.None?) && p.current == Some(1)
    ensures On(story, longer, q, t)
    ensures Bears(q, Fill(a, p.audit), Fill(b, p.audit), Fill(c, p.audit), Fill(d, p.audit))
    ensures q.status == Waiting && q.current.None? && q.audit == p.audit + 1 && |q.ops| == |p.ops| + 1
    ensures p.ops <= q.ops && IsEntry(q.ops[|p.ops|], p.audit, t, p.status, Waiting)
  {
    longer, q := Resets(story, script, p, t, if a.None? then 0 else 3, t);
    AllResetBears(p, a, b, c, d, t);
  }

  /** The overtime of one bout is reset; the other is not live. */
  lemma {:induction false} HidesOvertime(story: Story, three: nat, script: seq<Timed>, p: Page, a: Option<nat>,
                                         b: Option<nat>, c: Option<nat>, d: Option<nat>, i: nat, t: Time)
    returns (longer: seq<Timed>, q: Page)
    requires Thrice(story, three) && On(story, script, p, t) && Bears(p, a, b, c, d) && OvertimePhase(p.status)
    requires (i == 2 && b.None? && d.Some?) || (i == three + 2 && d.None? && b.Some?)
    requires p.current == Some(1)
    ensures On(story, longer, q, t) && Bears(q, a, Fill(b, p.audit), c, Fill(d, p.audit))
    ensures q.status == OvertimeReady && q.current == Some(1) && q.audit == p.audit + 1 && |q.ops| == |p.ops| + 1
    ensures p.ops <= q.ops && IsEntry(q.ops[|p.ops|], p.audit, t, p.status, OvertimeReady)
  {
    Sources(story, three, i);
    longer, q := ResetsOvertime(story, script, p, t, i, t);
    OvertimeResetBears(story, three, p, a, b, c, d, i, t);
  }

  /** Operation o is undone; the two regulation appeals are not in force at once. */
  lemma {:induction false} BringsBack(story: Story, three: nat, script: seq<Timed>, p: Page, a: Option<nat>,
                                      b: Option<nat>, c: Option<nat>, d: Option<nat>, o: nat, t: Time)
    returns (longer: seq<Timed>, q: Page)
    requires Thrice(story, three) && On(story, script, p, t) && Bears(p, a, b, c, d)
    requires o < |p.ops| && !p.ops[o].undone && NoNewer(story, p, p.ops[o].createdAt)
    requires p.ops[o].previousLifecycle == LifecycleForPhase(p.ops[o].previousStatus)
    requires p.status == p.ops[o].resultingStatus && p.current == p.ops[o].resultingCurrentRound
    requires Lift(a, p.ops[o].audit).Some? || Lift(c, p.ops[o].audit).Some?
    ensures On(story, longer, q, t) && q == Returned(p, o)
    ensures var k := p.ops[o].audit; Bears(q, Lift(a, k), Lift(b, k), Lift(c, k), Lift(d, k))
  {
    ReturnedBears(p, a, b, c, d, o);
    ReturnedSlots(story, three, p, o);
    longer, q := TakesBack(story, script, p, t, o, t);
  }

  lemma {:induction false} ReturnedSlots(story: Story, three: nat, p: Page, o: nat)
    requires Thrice(story, three) && Told(story, p) && o < |p.ops| && |p.appeals| == three
    requires Returned(p, o).appeals[0].Some? || Returned(p, o).appeals[2].Some?
    ensures Told(story, Returned(p, o)) && SlotsApart(story, Returned(p, o))
  {
    assert story.appeals[0].scope == Regulation && story.appeals[1].scope == Overtime;
  }

  /** The second overtime is reset, and then everything. */
  lemma {:induction false} HidesSecondBout(story: Story, three: nat, script: seq<Timed>, p: Page, z: nat, t: Time)
    returns (longer: seq<Timed>, q: Page)
    requires Thrice(story, three) && On(story, script, p, t) && Bears(p, Some(z), Some(z), None, None)
    requires p.status == OvertimeAppeal && p.current == Some(1)
    ensures var k := p.audit;
            && On(story, longer, q, t) && Bears(q, Some(z), Some(z), Some(k + 1), Some(k))
            && q.status == Waiting && q.current.None? && q.audit == k + 2 && |q.ops| == |p.ops| + 2 && p.ops <= q.ops
            && IsEntry(q.ops[|p.ops| + 1], k + 1, t, OvertimeReady, Waiting)
  {
    var middle;
    longer, middle := HidesOvertime(story, three, script, p, Some(z), Some(z), None, None, three + 2, t);
    longer, q := HidesAll(story, longer, middle, Some(z), Some(z), None, Some(p.audit), t);
  }

  /** With nothing live, the first bout comes back; its overtime is then reset. */
  lemma {:induction false} ReturnsFirstBout(story: Story, three: nat, script: seq<Timed>, p: Page, z: nat, c: nat,
                                            d: nat, o: nat, since: Time, t: Time)
    returns (longer: seq<Timed>, q: Page)
    requires Thrice(story, three) && On(story, script, p, t) && Bears(p, Some(z), Some(z), Some(c), Some(d)) && z != c
    requires z != d
    requires o < |p.ops| && IsEntry(p.ops[o], z, since, ResultPublicationReady, Waiting) && p.status == Waiting
    requires p.current.None?
    ensures var k := p.audit;
            && On(story, longer, q, t) && Bears(q, None, Some(k), Some(c), Some(d))
            && q.status == OvertimeReady && q.current == Some(1) && q.audit == k + 1 && |q.ops| == |p.ops| + 1
            && (forall i :: 0 <= i < |p.ops| && i != o ==> q.ops[i] == p.ops[i])
            && IsEntry(q.ops[|p.ops|], k, t, ResultPublicationReady, OvertimeReady)
  {
    var middle;
    longer, middle := BringsBack(story, three, script, p, Some(z), Some(z), Some(c), Some(d), o, t);
    longer, q := HidesOvertime(story, three, longer, middle, None, None, Some(c), Some(d), 2, t);
  }

  /** Then everything is reset and the second bout comes back. */
  lemma {:induction false} ReturnsSecondBout(story: Story, three: nat, script: seq<Timed>, p: Page, b: nat, c: nat,
                                             d: nat, o: nat, since: Time, t: Time)
    returns (longer: seq<Timed>, q: Page)
    requires Thrice(story, three) && On(story, script, p, t) && Bears(p, None, Some(b), Some(c), Some(d)) && c != b
    requires c != d && c < p.audit
    requires o < |p.ops| && IsEntry(p.ops[o], c, since, OvertimeReady, Waiting)
    requires p.status == OvertimeReady && p.current == Some(1)
    ensures On(story, longer, q, t) && Bears(q, Some(p.audit), Some(b), None, Some(d))
    ensures q.status == OvertimeReady && q.current == Some(1) && q.audit == p.audit + 1
    ensures |q.ops| == |p.ops| + 1 && forall i :: 0 <= i < |p.ops| && i != o ==> q.ops[i] == p.ops[i]
  {
    var middle;
    longer, middle := HidesAll(story, script, p, None, Some(b), Some(c), Some(d), t);
    longer, q := BringsBack(story, three, longer, middle, Some(p.audit), Some(b), Some(c), Some(d), o, t);
  }

  /** Last, the reset of the first overtime is undone: its appeal stands beside the second regulation appeal. */
  lemma {:induction false} ReturnsFirstOvertime(story: Story, three: nat, script: seq<Timed>, p: Page, a: nat, b: nat,
                                                d: nat, o: nat, since: Time, t: Time)
    returns (longer: seq<Timed>, q: Page)
    requires Thrice(story, three) && On(story, script, p, t) && Bears(p, Some(a), Some(b), None, Some(d)) && a != b
    requires d != b
    requires o < |p.ops| && IsEntry(p.ops[o], b, since, ResultPublicationReady, OvertimeReady)
    requires p.status == OvertimeReady && p.current == Some(1)
    requires story.rounds[three + 1].startedAt <= since && story.rounds[three].startedAt <= since
    requires story.appeals[2].completedAt <= since
    ensures On(story, longer, q, t) && Bears(q, Some(a), None, None, Some(d)) && q.status == ResultPublicationReady
  {
    longer, q := BringsBack(story, three, script, p, Some(a), Some(b), None, Some(d), o, t);
  }

  /** All of the resets and undos. */
  lemma {:induction false} Nests(story: Story, three: nat, script: seq<Timed>, p: Page, z: nat, since: Time, t: Time)
    returns (longer: seq<Timed>, q: Page)
    requires Thrice(story, three) && On(story, script, p, t) && Bears(p, Some(z), Some(z), None, None)
    requires p.status == OvertimeAppeal && p.current == Some(1) && z == 0 && |p.ops| == p.audit == 1
    requires IsEntry(p.ops[z], z, since, ResultPublicationReady, Waiting)
    requires story.rounds[three + 1].startedAt <= t && story.rounds[three].startedAt <= t
    requires story.appeals[2].completedAt <= t
    ensures On(story, longer, q, t) && q.status == ResultPublicationReady
    ensures |q.rounds| == three + 3 && q.rounds[0].Some? && Bears(q, q.rounds[0], None, None, q.rounds[5])
  {
    var k := p.audit;
    var hidden, p1 := HidesSecondBout(story, three, script, p, z, t);
    var first, p2 := ReturnsFirstBout(story, three, hidden, p1, z, k + 1, k, z, since, t);
    var second, p3 := ReturnsSecondBout(story, three, first, p2, k + 2, k + 1, k, k + 1, t, t);
    longer, q := ReturnsFirstOvertime(story, three, second, p3, p2.audit, k + 2, k, k + 2, t, t);
  }

  /** The newest appeal in force is tied and of regulation: nobody has won. */
  lemma {:induction false} TiedToPublish(story: Story, three: nat, p: Page, key: string, now: Time)
    requires Thrice(story, three) && Told(story, p) && p.status == ResultPublicationReady
    requires |p.rounds| == three + 3 && p.rounds[0].Some? && Bears(p, p.rounds[0], None, None, p.rounds[5])
    requires story.appeals[1].completedAt < story.appeals[2].completedAt
    ensures Stuck(Scene(story, p), key, now)
  {
    var m := Scene(story, p);
    assert ValidAppeal(m, 1) && ValidAppeal(m, 2) && !ValidAppeal(m, 0);
    assert NewestValid(m, |m.appeals|) == Some(2);
  }

  lemma {:induction false} NestedBouts(story: Story, three: nat, key: string, now: Time)
    returns (script: seq<Timed>, q: Page)
    requires Thrice(story, three) && story.appeals[1].completedAt < story.appeals[2].completedAt
    ensures On(story, script, q, story.rounds[three + 2].endsAt) && Stuck(Scene(story, q), key, now)
  {
    var t := story.rounds[three + 2].endsAt;
    var s1, p1 := OvertimeWon(story, three, FirstPage());
    var s2, p2 := TiedAgain(story, three, s1, p1);
    var s3, p3 := OvertimeAgain(story, three, s2, p2, 0);
    script, q := Nests(story, three, s3, p3, 0, story.appeals[1].completedAt, t);
    TiedToPublish(story, three, q, key, now);
  }

  function ThreeBouts(): Story {
    Story([EndedRound(Regulation, 1, 0, 0), EndedRound(Regulation, 2, 0, 1), EndedRound(Overtime, 1, 1, 3),
           EndedRound(Regulation, 1, 0, 5), EndedRound(Regulation, 2, 0, 6), EndedRound(Overtime, 1, 2, 8)],
          [BonusAppeal(Regulation, 0, 1, {0, 1}, "first", 0, 2), BonusAppeal(Overtime, 1, 2, {2}, "overtime", 1, 4),
           BonusAppeal(Regulation, 0, 4, {3, 4}, "second", 0, 7)])
  }

  lemma {:induction false} ThreeBoutsFit(story: Story, three: nat)
    requires story == ThreeBouts() && three == 3
    ensures Thrice(story, three) && story.appeals[1].completedAt < story.appeals[2].completedAt
  {
    assert story.rounds[2].stage == Overtime && story.rounds[2].attempt == 1;
  }

  lemma {:induction false} ThreeBoutsTold() returns (story: Story, three: nat)
    ensures Thrice(story, three) && story.appeals[1].completedAt < story.appeals[2].completedAt
  {
    story, three := ThreeBouts(), 3;
    ThreeBoutsFit(story, three);
  }

  /**
   * Regulation is tied, overtime won, everything reset and regulation tied again. Then resets are undone out of
   * their nesting, each of them accepted: the overtime appeal that comes back is older than the regulation appeal,
   * and the result, ready and in progress, is refused.
   */
  lemma {:induction false} UndoneResultCannotBePublished(key: string, now: Time) returns (m: Match, script: seq<Timed>)
    ensures m == NewMatch(FaultAppealOvertimeV2, 3, 1, 0) && TimedRun(m, script, 0) && Stuck(Run(m, script), key, now)
  {
    var story, three := ThreeBoutsTold();
    m := FreshMatch();
    var q;
    script, q := NestedBouts(story, three, key, now);
  }
}
