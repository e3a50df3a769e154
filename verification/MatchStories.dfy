/** Longer runs in which nobody votes: rounds of one tick, appeals, resets, an exit and undos, page by page. */
module MatchStories {
  import opened Prelude
  import opened SportRules
  import opened MatchTables
  import opened MatchModel
  import opened MatchCommands
  import opened MatchHistory
  import opened MatchExamples

  // ---------------------------------------------------------------- what a story fixes, and its pages

  /** The rounds and appeals in the order they are made. */
  datatype Story = Story(rounds: seq<Round>, appeals: seq<Appeal>)

  /**
   * The stamps the rounds, their summaries and the appeals made so far bear, the phase with its operations, and what
   * has been published.
   */
  datatype Page = Page(
    rounds: seq<Option<nat>>, sums: seq<Option<nat>>, appeals: seq<Option<nat>>,
    status: Status, current: Option<nat>, started: Option<Time>, finished: Option<Time>,
    outcome: Option<Outcome>, ops: seq<Operation>, audit: nat)

  predicate OneTick(r: Round) {
    && r.number in {1, 2} && (r.stage == Overtime ==> r.number == 1)
    && r.duration == 1 && r.endsAt == r.startedAt + 1 && r.pausedAt.None? && r.remaining.None?
         && r.endedAt == Some(r.endsAt)
  }

  predicate Told(story: Story, p: Page) {
    && |p.rounds| <= |story.rounds| && |p.sums| == |p.rounds| && |p.appeals| <= |story.appeals|
    && (forall i :: 0 <= i < |story.rounds| ==> OneTick(story.rounds[i]))
    && (forall a :: 0 <= a < |p.appeals| ==> story.appeals[a].source < |p.rounds|)
  }

  function SummaryOf(rounds: seq<Round>, j: nat): Summary
    requires j / 2 < |rounds|
  {
    Summary(j / 2, if j % 2 == 0 then RED else BLUE, 0, rounds[j / 2].endsAt)
  }

  function FreshMatch(): Match {
    NewMatch(FaultAppealOvertimeV2, 3, 1, 0)
  }

  /** The match on a page of the story. */
  function Scene(story: Story, p: Page): Match
    requires Told(story, p)
  {
    FreshMatch().(
      rounds := seq(|p.rounds|, i requires 0 <= i < |p.rounds| => Row(story.rounds[i], p.rounds[i])),
      summaries := seq(2 * |p.sums|, j requires 0 <= j < 2 * |p.sums| => Row(SummaryOf(story.rounds, j),
                                                                             p.sums[j / 2])),
      appeals := seq(|p.appeals|, a requires 0 <= a < |p.appeals| => Row(story.appeals[a], p.appeals[a])),
      status := p.status, lifecycle := LifecycleForPhase(p.status), currentRound := p.current, startedAt := p.started,
      finishedAt := p.finished, outcome := p.outcome, operations := p.ops, nextAudit := p.audit)
  }

  function FirstPage(): Page {
    Page([], [], [], Waiting, None, None, None, None, [], 0)
  }

  /** The run so far ends on this page. */
  ghost predicate On(story: Story, script: seq<Timed>, p: Page, t: Time) {
    Told(story, p) && Reaches(FreshMatch(), script, Scene(story, p), t)
  }

  lemma {:induction false} Begins(story: Story, p: Page)
    requires p == FirstPage() && Told(story, p)
    ensures On(story, [], p, 0)
  {
    assert Scene(story, p) == FreshMatch();
  }

  // ---------------------------------------------------------------- a round is played

  /** Nobody scored, so the round ends with two empty summaries. */
  function Over(m: Match, r: Round): Match {
    var i := |m.rounds|;
    m.(rounds := Append(m.rounds, r),
       summaries := Append(Append(m.summaries, Summary(i, RED, 0, r.endsAt)), Summary(i, BLUE, 0, r.endsAt)),
       status := EndedStatus(r, FaultAppealOvertimeV2), lifecycle := InProgress,
       currentRound := Some(r.number), startedAt := StartTime(r, m.startedAt), intermissionEndsAt := None)
  }

  function StartTime(r: Round, started: Option<Time>): Option<Time> {
    if r.number == 1 && r.stage == Regulation then Some(r.startedAt) else started
  }

  /** The round has just been started. */
  function Running(m: Match, r: Round): Match {
    m.(rounds := Append(m.rounds, r.(endedAt := None)),
       status := StartedStatus(Descriptor(r.stage, r.number, r.attempt)),
       lifecycle := InProgress, currentRound := Some(r.number), startedAt := StartTime(r, m.startedAt),
           intermissionEndsAt := None)
  }

  predicate Next(m: Match, r: Round) {
    NextRoundDescriptor(m) == Some(Descriptor(r.stage, r.number, r.attempt))
  }

  lemma {:induction false} StartsRound(m: Match, r: Round)
    requires OneTick(r) && Next(m, r) && m.roundDuration == 1 && m.lifecycle != Suspended
    ensures Step(m, Start, r.startedAt) == Running(m, r)
  {}

  predicate Voteless(m: Match) {
    m.windows == [] && m.events == [] && m.rules == FaultAppealOvertimeV2 && m.intermissionSeconds == 0
  }

  lemma {:induction false} EndsRound(m: Match, r: Round)
    requires OneTick(r) && Voteless(m)
    ensures Permitted(Running(m, r), Expire(|m.rounds|), r.endsAt)
    ensures Step(Running(m, r), Expire(|m.rounds|), r.endsAt) == Over(m, r)
  {
    var i := |m.rounds|;
    assert Expires(Running(m, r), i, r.endsAt);
    EndsBeforeItsWindow(Running(m, r), i, r.endsAt);
    assert Ended(Running(m, r), i).rounds == Append(m.rounds, r);
  }

  function Played(story: Story, p: Page): Page
    requires |p.rounds| < |story.rounds|
  {
    var r := story.rounds[|p.rounds|];
    p.(rounds := p.rounds + [None], sums := p.sums + [None], status := EndedStatus(r, FaultAppealOvertimeV2),
       current := Some(r.number), started := StartTime(r, p.started))
  }

  lemma {:induction false} PageOver(story: Story, p: Page)
    requires Told(story, p) && |p.rounds| < |story.rounds|
    ensures Told(story, Played(story, p))
    ensures Over(Scene(story, p), story.rounds[|p.rounds|]) == Scene(story, Played(story, p))
  {
    var m, r, after := Scene(story, p), story.rounds[|p.rounds|], Scene(story, Played(story, p));
    var i := |p.rounds|;
    assert Over(m, r).rounds == after.rounds;
    assert SummaryOf(story.rounds, 2 * i) == Summary(i, RED, 0, r.endsAt)
           && SummaryOf(story.rounds, 2 * i + 1) == Summary(i, BLUE, 0, r.endsAt);
    assert Over(m, r).summaries == after.summaries;
  }

  /** The next round of the story is played: started, and ended a tick later. */
  lemma {:induction false} Plays(story: Story, script: seq<Timed>, p: Page, t: Time)
    returns (longer: seq<Timed>, q: Page)
    requires On(story, script, p, t) && |p.rounds| < |story.rounds| && t <= story.rounds[|p.rounds|].startedAt
    requires Next(Scene(story, p), story.rounds[|p.rounds|])
    ensures q == Played(story, p) && On(story, longer, q, story.rounds[|p.rounds|].endsAt)
  {
    var m, r := Scene(story, p), story.rounds[|p.rounds|];
    q := Played(story, p);
    StartsRound(m, r);
    EndsRound(m, r);
    PageOver(story, p);
    var starting := script + [Timed(Start, r.startedAt)];
    Then(FreshMatch(), script, m, t, Timed(Start, r.startedAt), Running(m, r));
    longer := starting + [Timed(Expire(|m.rounds|), r.endsAt)];
    Then(FreshMatch(), starting, Running(m, r), r.startedAt, Timed(Expire(|m.rounds|), r.endsAt), Scene(story, q));
  }

  lemma {:induction false} AttemptsBounded(rounds: Table<Round>, n: nat)
    requires forall i :: 0 <= i < |rounds| && rounds[i].val.stage == Overtime ==> rounds[i].val.attempt <= n
    ensures MaxAttempt(rounds) <= n
  {
    if rounds != [] { AttemptsBounded(rounds[..|rounds| - 1], n); }
  }

  // ---------------------------------------------------------------- an appeal is committed

  /** A score over no points. */
  predicate Unscored(s: Score) {
    s.base == 0 && s.final == FinalScore(0, s.adjustment)
  }

  predicate IsEnded(row: Row<Round>, stage: Stage, number: nat) {
    row.stamp.None? && row.val.stage == stage && row.val.number == number
        && (stage == Regulation ==> row.val.attempt == 0) &&
    row.val.endedAt.Some?
  }

  predicate Unscoring(m: Match) {
    && |m.summaries| == 2 * |m.rounds| && Voteless(m) && m.lifecycle == InProgress
    && (forall s :: 0 <= s < |m.summaries| ==> m.summaries[s].val.round == s / 2 && m.summaries[s].val.points == 0)
  }

  /**
   * Rounds i and i + 1 are the regulation just played; whatever came before is cancelled, and no appeal is in force.
   */
  predicate JustPlayed(m: Match, i: nat) {
    && |m.rounds| == i + 2 && Unscoring(m) && m.status == RegulationAppeal
    && (forall j :: 0 <= j < i ==> m.rounds[j].stamp.Some?)
    && IsEnded(m.rounds[i], Regulation, 1) && IsEnded(m.rounds[i + 1], Regulation, 2)
    && (forall s :: 2 * i <= s < |m.summaries| ==> m.summaries[s].stamp.None?)
    && (forall a :: 0 <= a < |m.appeals| ==> m.appeals[a].val.source < i)
  }

  lemma {:induction false} RegulationRounds(m: Match, i: nat)
    requires JustPlayed(m, i)
    ensures AppealRounds(m) == Some((i, i + 1))
  {
    assert EndedRegulation(m) == {i, i + 1};
  }

  lemma {:induction false} RegulationInputs(m: Match, i: nat)
    requires JustPlayed(m, i)
    ensures AppealRounds(m) == Some((i, i + 1)) && |LiveSummaries(m, {i, i + 1})| == 4
  {
    RegulationRounds(m, i);
    assert LiveSummaries(m, {i, i + 1}) == {2 * i, 2 * i + 1, 2 * i + 2, 2 * i + 3};
  }

  lemma {:induction false} SweptIsJustPlayed(m: Match, i: nat)
    requires JustPlayed(m, i)
    ensures JustPlayed(CleanUpAppeals(m), i) && !HasValidRegulationAppeal(CleanUpAppeals(m))
  {}

  /** Nobody has scored: the appeal records a base of 0 for both. */
  lemma {:induction false} RecordsRegulation(m: Match, i: nat, appeal: Appeal)
    requires JustPlayed(m, i) && Unscored(appeal.red) && Unscored(appeal.blue)
    requires appeal == Appeal(Regulation, 0, i + 1, {i, i + 1}, appeal.key, appeal.red, appeal.blue, appeal.completedAt)
    ensures RegulationAppealOver(m, i, i + 1, appeal.key, appeal.red.adjustment, appeal.blue.adjustment,
                                 appeal.completedAt) == appeal
  {
    NoPointsNoBase(m.summaries, {i, i + 1}, RED);
    NoPointsNoBase(m.summaries, {i, i + 1}, BLUE);
  }

  lemma {:induction false} CommitsReconciled(m: Match, i: nat, appeal: Appeal)
    requires JustPlayed(m, i) && !HasValidRegulationAppeal(m) && FindAppeal(m.appeals, appeal.key).None?
    requires Unscored(appeal.red) && Unscored(appeal.blue)
    requires appeal == Appeal(Regulation, 0, i + 1, {i, i + 1}, appeal.key, appeal.red, appeal.blue, appeal.completedAt)
    ensures AppealReconciled(m, appeal.key, appeal.red.adjustment, appeal.blue.adjustment, appeal.completedAt)
            == Success(Appealed(m, appeal))
  {
    RegulationInputs(m, i);
    RecordsRegulation(m, i, appeal);
  }

  lemma {:induction false} SweepsAndCommits(m: Match, key: string, red: Adjustment, blue: Adjustment, now: Time,
                                            after: Match)
    requires AppealReconciled(CleanUpAppeals(m), key, red, blue, now) == Success(after)
    ensures Step(m, AppealRegulation(key, red, blue), now) == after
  {
    var accepted, added := RegulationStep(m, key, red, blue, now);
  }

  lemma {:induction false} CommitsRegulation(m: Match, i: nat, appeal: Appeal)
    requires JustPlayed(m, i) && FindAppeal(CleanUpAppeals(m).appeals, appeal.key).None? && Unscored(appeal.red)
    requires Unscored(appeal.blue)
    requires appeal == Appeal(Regulation, 0, i + 1, {i, i + 1}, appeal.key, appeal.red, appeal.blue, appeal.completedAt)
    ensures Step(m, AppealRegulation(appeal.key, appeal.red.adjustment, appeal.blue.adjustment), appeal.completedAt)
            == Appealed(CleanUpAppeals(m), appeal)
  {
    SweptIsJustPlayed(m, i);
    CommitsReconciled(CleanUpAppeals(m), i, appeal);
    SweepsAndCommits(m, appeal.key, appeal.red.adjustment, appeal.blue.adjustment, appeal.completedAt,
                     Appealed(CleanUpAppeals(m), appeal));
  }

  /** Round i is an overtime that has been played, the only one that is live; its attempt has no live appeal. */
  predicate OvertimePlayed(m: Match, i: nat) {
    && i < |m.rounds| && Unscoring(m) && m.status == OvertimeAppeal
    && IsEnded(m.rounds[i], Overtime, 1)
    && (forall j :: 0 <= j < |m.rounds| && j != i && m.rounds[j].stamp.None? ==> m.rounds[j].val.stage == Regulation)
    && m.summaries[2 * i].stamp.None? && m.summaries[2 * i + 1].stamp.None?
    && !HasOvertimeAppeal(m, m.rounds[i].val.attempt)
  }

  lemma {:induction false} OvertimeInputs(m: Match, i: nat)
    requires OvertimePlayed(m, i)
    ensures TopOvertime(m.rounds, true) == Some(i) && |LiveSummaries(m, {i})| == 2
    ensures Base(m.summaries, {i}, RED) == 0 && Base(m.summaries, {i}, BLUE) == 0
  {
    assert LiveOvertime(m.rounds, i, true);
    assert LiveSummaries(m, {i}) == {2 * i, 2 * i + 1};
    NoPointsNoBase(m.summaries, {i}, RED);
    NoPointsNoBase(m.summaries, {i}, BLUE);
  }

  lemma {:induction false} CommitsOvertime(m: Match, i: nat, appeal: Appeal)
    requires OvertimePlayed(m, i) && FindAppeal(m.appeals, appeal.key).None? && Unscored(appeal.red)
    requires Unscored(appeal.blue)
    requires appeal == Appeal(Overtime, m.rounds[i].val.attempt, i, {i}, appeal.key, appeal.red, appeal.blue,
                              appeal.completedAt)
    ensures Step(m, AppealOvertime(appeal.key, appeal.red.adjustment, appeal.blue.adjustment), appeal.completedAt)
            == Appealed(m, appeal)
  {
    OvertimeInputs(m, i);
  }

  // ---------------------------------------------------------------- the same, page by page

  predicate NewKey(story: Story, n: nat) {
    n < |story.appeals| && forall a :: 0 <= a < n ==> story.appeals[a].key != story.appeals[n].key
  }

  lemma {:induction false} KeyIsNew(appeals: Table<Appeal>, story: Story, n: nat)
    requires NewKey(story, n) && |appeals| == n && forall a :: 0 <= a < n ==> appeals[a].val == story.appeals[a]
    ensures FindAppeal(appeals, story.appeals[n].key).None?
  {}

  /** Appeals in force over cancelled rounds are swept, under an audit entry of their own. */
  predicate Stale(story: Story, p: Page, a: nat)
    requires Told(story, p) && a < |p.appeals|
  {
    p.appeals[a].None? && p.rounds[story.appeals[a].source].Some?
  }

  function Swept(story: Story, p: Page): Page
    requires Told(story, p)
  {
    if exists a :: 0 <= a < |p.appeals| && Stale(story, p, a) then
      p.(appeals := seq(|p.appeals|, a requires 0 <= a < |p.appeals| => if Stale(story, p, a) then Some(p.audit)
                        else p.appeals[a]),
         audit := p.audit + 1)
    else p
  }

  lemma {:induction false} PageSwept(story: Story, p: Page)
    requires Told(story, p)
    ensures Told(story, Swept(story, p)) && CleanUpAppeals(Scene(story, p)) == Scene(story, Swept(story, p))
  {
    var m := Scene(story, p);
    if a :| 0 <= a < |p.appeals| && Stale(story, p, a) {
      assert a in StaleAppeals(m);
      assert Stamp(m.appeals, StaleAppeals(m), p.audit) == Scene(story, Swept(story, p)).appeals;
    } else {
      forall a: nat | a < |p.appeals| ensures a !in StaleAppeals(m) { assert !Stale(story, p, a); }
      assert StaleAppeals(m) == {};
    }
  }

  /** The next appeal of the story is on record. */
  function Committed(story: Story, p: Page): Page
    requires |p.appeals| < |story.appeals|
  {
    var appeal := story.appeals[|p.appeals|];
    p.(appeals := p.appeals + [None],
       status := if !appeal.Tied() then ResultPublicationReady
                 else if appeal.scope == Regulation then OvertimeReady else OvertimeTiebreakDecision)
  }

  lemma {:induction false} PageCommitted(story: Story, p: Page)
    requires Told(story, p) && |p.appeals| < |story.appeals| && story.appeals[|p.appeals|].source < |p.rounds|
    requires p.status != Waiting && p.status != Finished
    ensures Told(story, Committed(story, p))
    ensures Appealed(Scene(story, p), story.appeals[|p.appeals|]) == Scene(story, Committed(story, p))
  {
    assert Appealed(Scene(story, p), story.appeals[|p.appeals|]).appeals == Scene(story, Committed(story, p)).appeals;
  }

  /** The next appeal of the story is of the regulation rounds i and i + 1. */
  predicate AppealsTo(story: Story, n: nat, i: nat) {
    && i + 1 < |story.rounds| && NewKey(story, n)
    && story.rounds[i].stage == Regulation && story.rounds[i].number == 1 && story.rounds[i].attempt == 0
    && story.rounds[i + 1].stage == Regulation && story.rounds[i + 1].number == 2 && story.rounds[i + 1].attempt == 0
    && var appeal := story.appeals[n];
       && Unscored(appeal.red) && Unscored(appeal.blue)
       && appeal == Appeal(Regulation, 0, i + 1, {i, i + 1}, appeal.key, appeal.red, appeal.blue, appeal.completedAt)
  }

  /** Everything before the last two rounds is cancelled, and those two have not been appealed. */
  predicate Replayed(story: Story, p: Page, i: nat)
    requires Told(story, p)
  {
    && |p.rounds| == i + 2 && p.status == RegulationAppeal
    && p.rounds[i].None? && p.rounds[i + 1].None? && p.sums[i].None? && p.sums[i + 1].None?
    && (forall j :: 0 <= j < i ==> p.rounds[j].Some?)
    && (forall a :: 0 <= a < |p.appeals| ==> story.appeals[a].source < i)
  }

  lemma {:induction false} ReplayedIsJustPlayed(story: Story, p: Page, i: nat)
    requires Told(story, p) && Replayed(story, p, i) && AppealsTo(story, |p.appeals|, i)
    ensures JustPlayed(Scene(story, p), i)
  {}

  lemma {:induction false} AppealsRegulation(story: Story, script: seq<Timed>, p: Page, t: Time, i: nat)
    returns (longer: seq<Timed>, q: Page)
    requires On(story, script, p, t) && Replayed(story, p, i) && AppealsTo(story, |p.appeals|, i)
    requires t <= story.appeals[|p.appeals|].completedAt
    ensures q == Committed(story, Swept(story, p)) && On(story, longer, q, story.appeals[|p.appeals|].completedAt)
  {
    var m, appeal := Scene(story, p), story.appeals[|p.appeals|];
    var command := AppealRegulation(appeal.key, appeal.red.adjustment, appeal.blue.adjustment);
    q := Committed(story, Swept(story, p));
    ReplayedIsJustPlayed(story, p, i);
    PageSwept(story, p);
    KeyIsNew(Scene(story, Swept(story, p)).appeals, story, |p.appeals|);
    CommitsRegulation(m, i, appeal);
    PageCommitted(story, Swept(story, p));
    longer := script + [Timed(command, appeal.completedAt)];
    Then(FreshMatch(), script, m, t, Timed(command, appeal.completedAt), Scene(story, q));
  }

  /** The next appeal of the story is of overtime round i. */
  predicate AppealsOvertime(story: Story, n: nat, i: nat) {
    && i < |story.rounds| && NewKey(story, n) && story.rounds[i].stage == Overtime
    && var appeal := story.appeals[n];
       && Unscored(appeal.red) && Unscored(appeal.blue)
       && appeal == Appeal(Overtime, story.rounds[i].attempt, i, {i}, appeal.key, appeal.red, appeal.blue,
                           appeal.completedAt)
  }

  /** Overtime i has been played, no other is live, and its attempt has no appeal in force. */
  predicate OvertimeDone(story: Story, p: Page, i: nat)
    requires Told(story, p)
  {
    && i < |p.rounds| && p.status == OvertimeAppeal && p.rounds[i].None? && p.sums[i].None?
    && (forall j :: 0 <= j < |p.rounds| && j != i && p.rounds[j].None? ==> story.rounds[j].stage == Regulation)
    && (forall a :: 0 <= a < |p.appeals| && p.appeals[a].None? && story.appeals[a].scope == Overtime ==>
          story.appeals[a].attempt != story.rounds[i].attempt)
  }

  lemma {:induction false} DoneIsPlayed(story: Story, p: Page, i: nat)
    requires Told(story, p) && OvertimeDone(story, p, i) && AppealsOvertime(story, |p.appeals|, i)
    ensures OvertimePlayed(Scene(story, p), i)
  {}

  /** The command that commits appeal n of the story. */
  function OvertimeCommand(story: Story, n: nat): Command
    requires n < |story.appeals|
  {
    AppealOvertime(story.appeals[n].key, story.appeals[n].red.adjustment, story.appeals[n].blue.adjustment)
  }

  lemma {:induction false} OvertimeAppealGoes(story: Story, p: Page, i: nat)
    requires Told(story, p) && OvertimeDone(story, p, i) && AppealsOvertime(story, |p.appeals|, i)
    ensures Told(story, Committed(story, p))
    ensures FindAppeal(Scene(story, p).appeals, story.appeals[|p.appeals|].key).None?
    ensures Step(Scene(story, p), OvertimeCommand(story, |p.appeals|), story.appeals[|p.appeals|].completedAt)
            == Scene(story, Committed(story, p))
  {
    DoneIsPlayed(story, p, i);
    KeyIsNew(Scene(story, p).appeals, story, |p.appeals|);
    CommitsOvertime(Scene(story, p), i, story.appeals[|p.appeals|]);
    PageCommitted(story, p);
  }

  lemma {:induction false} AppealsOvertimeRound(story: Story, script: seq<Timed>, p: Page, t: Time, i: nat)
    returns (longer: seq<Timed>, q: Page)
    requires On(story, script, p, t) && OvertimeDone(story, p, i) && AppealsOvertime(story, |p.appeals|, i)
    requires t <= story.appeals[|p.appeals|].completedAt
    ensures q == Committed(story, p) && On(story, longer, q, story.appeals[|p.appeals|].completedAt)
  {
    var command, now := OvertimeCommand(story, |p.appeals|), story.appeals[|p.appeals|].completedAt;
    q := Committed(story, p);
    OvertimeAppealGoes(story, p, i);
    longer := script + [Timed(command, now)];
    Then(FreshMatch(), script, Scene(story, p), t, Timed(command, now), Scene(story, q));
  }

  // ---------------------------------------------------------------- cancelling

  function Alive(stamps: seq<Option<nat>>): set<nat> {
    set i: nat | i < |stamps| && stamps[i].None?
  }

  /** The live rows among ids go under the stamp. */
  function Marked(stamps: seq<Option<nat>>, ids: set<nat>, k: nat): (after: seq<Option<nat>>)
    ensures |after| == |stamps|
  {
    seq(|stamps|, i requires 0 <= i < |stamps| => if i in ids && stamps[i].None? then Some(k) else stamps[i])
  }

  function Entry(p: Page, kind: OperationKind, now: Time, next: Status): Operation {
    Operation(kind, p.audit, now, p.status, LifecycleForPhase(p.status), p.current, p.started, p.finished,
              next, if next == Waiting then None else Some(1), false)
  }

  /** Everything live is reset. */
  function AllReset(p: Page, now: Time): Page {
    p.(rounds := Marked(p.rounds, Alive(p.rounds), p.audit), sums := Marked(p.sums, Alive(p.rounds), p.audit),
       appeals := Marked(p.appeals, Alive(p.appeals), p.audit),
       status := Waiting, current := None, started := None, finished := None,
       ops := p.ops + [Entry(p, MatchReset, now, Waiting)], audit := p.audit + 1)
  }

  /** Overtime round i is reset with the appeals over it. */
  function OvertimeReset(story: Story, p: Page, i: nat, now: Time): Page
    requires Told(story, p)
  {
    var over := set a: nat | a < |p.appeals| && story.appeals[a].source == i;
    p.(rounds := Marked(p.rounds, {i}, p.audit), sums := Marked(p.sums, {i}, p.audit),
       appeals := Marked(p.appeals, over, p.audit),
       status := OvertimeReady, current := Some(1), finished := None,
       ops := p.ops + [Entry(p, RoundReset, now, OvertimeReady)], audit := p.audit + 1)
  }

  /** An appeal in force has its own source round among those it sums up, and overtime is summed up alone. */
  predicate SourcesApart(story: Story, i: nat) {
    forall a :: 0 <= a < |story.appeals| ==> (i in story.appeals[a].sourceRounds <==> story.appeals[a].source == i)
  }

  lemma {:induction false} PageRoundsReset(story: Story, p: Page, now: Time)
    requires Told(story, p)
    ensures Told(story, AllReset(p, now))
    ensures Stamp(Scene(story, p).rounds, Alive(p.rounds), p.audit) == Scene(story, AllReset(p, now)).rounds
  {}

  lemma {:induction false} PageSummariesReset(story: Story, p: Page, now: Time)
    requires Told(story, p)
    ensures Told(story, AllReset(p, now))
    ensures Stamp(Scene(story, p).summaries, SummariesIn(Scene(story, p), Alive(p.rounds)), p.audit)
            == Scene(story, AllReset(p, now)).summaries
  {}

  lemma {:induction false} PageAppealsReset(story: Story, p: Page, now: Time)
    requires Told(story, p)
    ensures Told(story, AllReset(p, now))
    ensures Stamp(Scene(story, p).appeals, AffectedAppeals(Scene(story, p), Alive(p.rounds), true), p.audit)
            == Scene(story, AllReset(p, now)).appeals
  {}

  lemma {:induction false} PageReset(story: Story, p: Page, now: Time)
    requires Told(story, p)
    ensures Told(story, AllReset(p, now))
    ensures Cancelled(Scene(story, p), Alive(p.rounds), true, now) == Scene(story, AllReset(p, now))
  {
    PageRoundsReset(story, p, now);
    PageSummariesReset(story, p, now);
    PageAppealsReset(story, p, now);
  }

  lemma {:induction false} OvertimeComesBack(m: Match, i: nat)
    requires i < |m.rounds| && m.rounds[i].val.stage == Overtime
    ensures CancelledStatus(m, {i}, false) == OvertimeReady
  {
    assert AnyRound(m, {i}, Overtime, 0);
  }

  lemma {:induction false} OvertimeStampsRounds(story: Story, p: Page, i: nat, now: Time)
    requires Told(story, p)
    ensures Told(story, OvertimeReset(story, p, i, now))
    ensures Stamp(Scene(story, p).rounds, {i}, p.audit) == Scene(story, OvertimeReset(story, p, i, now)).rounds
  {}

  lemma {:induction false} OvertimeStampsSummaries(story: Story, p: Page, i: nat, now: Time)
    requires Told(story, p)
    ensures Told(story, OvertimeReset(story, p, i, now))
    ensures Stamp(Scene(story, p).summaries, SummariesIn(Scene(story, p), {i}), p.audit)
            == Scene(story, OvertimeReset(story, p, i, now)).summaries
  {}

  lemma {:induction false} OvertimeAffects(story: Story, p: Page, i: nat, a: nat)
    requires Told(story, p) && SourcesApart(story, i) && a < |p.appeals|
    ensures a in AffectedAppeals(Scene(story, p), {i}, false) <==> p.appeals[a].None? && story.appeals[a].source == i
  {
    assert i in story.appeals[a].sourceRounds <==> story.appeals[a].sourceRounds * {i} != {} by {
      if i in story.appeals[a].sourceRounds { assert i in story.appeals[a].sourceRounds * {i}; }
    }
  }

  lemma {:induction false} OvertimeStampsAppeals(story: Story, p: Page, i: nat, now: Time)
    requires Told(story, p) && SourcesApart(story, i)
    ensures Told(story, OvertimeReset(story, p, i, now))
    ensures Stamp(Scene(story, p).appeals, AffectedAppeals(Scene(story, p), {i}, false), p.audit)
            == Scene(story, OvertimeReset(story, p, i, now)).appeals
  {
    forall a: nat | a < |p.appeals|
      ensures a in AffectedAppeals(Scene(story, p), {i}, false) <==> p.appeals[a].None? && story.appeals[a].source == i
    {
      OvertimeAffects(story, p, i, a);
    }
  }

  lemma {:induction false} PageOvertimeReset(story: Story, p: Page, i: nat, now: Time)
    requires Told(story, p) && SourcesApart(story, i) && i in Alive(p.rounds) && story.rounds[i].stage == Overtime
    ensures Told(story, OvertimeReset(story, p, i, now))
    ensures Cancelled(Scene(story, p), {i}, false, now) == Scene(story, OvertimeReset(story, p, i, now))
  {
    OvertimeComesBack(Scene(story, p), i);
    OvertimeStampsRounds(story, p, i, now);
    OvertimeStampsSummaries(story, p, i, now);
    OvertimeStampsAppeals(story, p, i, now);
  }

  /** Accepted, with i a live round. */
  lemma {:induction false} ResetGoes(story: Story, p: Page, i: nat, now: Time)
    requires Told(story, p) && i in Alive(p.rounds)
    ensures Told(story, AllReset(p, now)) && SelectedRounds(Scene(story, p), true) != {}
    ensures CancelResults(Scene(story, p), true, p.status == Finished, now) == Success(Scene(story, AllReset(p, now)))
  {
    assert LiveRounds(Scene(story, p)) == Alive(p.rounds);
    CancelAccepted(Scene(story, p), Alive(p.rounds), true, now);
    PageReset(story, p, now);
  }

  lemma {:induction false} Resets(story: Story, script: seq<Timed>, p: Page, t: Time, i: nat, now: Time)
    returns (longer: seq<Timed>, q: Page)
    requires On(story, script, p, t) && t <= now && i in Alive(p.rounds)
    ensures q == AllReset(p, now) && On(story, longer, q, now)
  {
    q := AllReset(p, now);
    ResetGoes(story, p, i, now);
    var command := Cancel(true, p.status == Finished);
    longer := script + [Timed(command, now)];
    Then(FreshMatch(), script, Scene(story, p), t, Timed(command, now), Scene(story, q));
  }

  lemma {:induction false} TopIs(m: Match, i: nat)
    requires LiveOvertime(m.rounds, i, false)
    requires forall j :: 0 <= j < |m.rounds| && j != i && m.rounds[j].stamp.None? ==>
               m.rounds[j].val.stage == Regulation
    ensures TopOvertime(m.rounds, false) == Some(i)
  {}

  /** Round i is the only live overtime. */
  predicate OnlyOvertime(story: Story, p: Page, i: nat)
    requires Told(story, p)
  {
    && i in Alive(p.rounds) && story.rounds[i].stage == Overtime
    && forall j :: 0 <= j < |p.rounds| && j != i && p.rounds[j].None? ==> story.rounds[j].stage == Regulation
  }

  lemma {:induction false} OvertimeResetGoes(story: Story, p: Page, i: nat, now: Time)
    requires Told(story, p) && OvertimePhase(p.status) && SourcesApart(story, i) && OnlyOvertime(story, p, i)
    ensures Told(story, OvertimeReset(story, p, i, now))
    ensures CancelResults(Scene(story, p), false, false, now) == Success(Scene(story, OvertimeReset(story, p, i, now)))
  {
    TopIs(Scene(story, p), i);
    CancelAccepted(Scene(story, p), {i}, false, now);
    PageOvertimeReset(story, p, i, now);
  }

  lemma {:induction false} ResetsOvertime(story: Story, script: seq<Timed>, p: Page, t: Time, i: nat, now: Time)
    returns (longer: seq<Timed>, q: Page)
    requires On(story, script, p, t) && t <= now && OvertimePhase(p.status) && SourcesApart(story, i)
    requires OnlyOvertime(story, p, i)
    ensures q == OvertimeReset(story, p, i, now) && On(story, longer, q, now)
  {
    q := OvertimeReset(story, p, i, now);
    OvertimeResetGoes(story, p, i, now);
    longer := script + [Timed(Cancel(false, false), now)];
    Then(FreshMatch(), script, Scene(story, p), t, Timed(Cancel(false, false), now), Scene(story, q));
  }

  // ---------------------------------------------------------------- leaving and coming back

  /** The match is left with nothing kept: rounds go, summaries and appeals stay. */
  function Left(p: Page, now: Time): Page {
    p.(rounds := Marked(p.rounds, Alive(p.rounds), p.audit), status := Waiting, current := None, started := None,
       finished := None, ops := p.ops + [Entry(p, MatchExit, now, Waiting)], audit := p.audit + 1)
  }

  lemma {:induction false} PageLeft(story: Story, p: Page, now: Time)
    requires Told(story, p)
    ensures Told(story, Left(p, now)) && Exited(Scene(story, p), CancelAll, now) == Scene(story, Left(p, now))
  {
    var m, k := Scene(story, p), p.audit;
    assert Stamp(m.rounds, RoundsNumbered(m, {1, 2}), k) == Scene(story, Left(p, now)).rounds;
  }

  lemma {:induction false} Leaves(story: Story, script: seq<Timed>, p: Page, t: Time, now: Time)
    returns (longer: seq<Timed>, q: Page)
    requires On(story, script, p, t) && t <= now && p.status != Finished
    ensures q == Left(p, now) && On(story, longer, q, now)
  {
    var m := Scene(story, p);
    q := Left(p, now);
    PageLeft(story, p, now);
    var after := ExitStep(m, CancelAll, now);
    longer := script + [Timed(Exit(CancelAll), now)];
    Then(FreshMatch(), script, m, t, Timed(Exit(CancelAll), now), Scene(story, q));
  }

  function Lifted(stamps: seq<Option<nat>>, k: nat): (after: seq<Option<nat>>)
    ensures |after| == |stamps|
  {
    seq(|stamps|, i requires 0 <= i < |stamps| => if stamps[i] == Some(k) then None else stamps[i])
  }

  function Returned(p: Page, o: nat): Page
    requires o < |p.ops|
  {
    var op := p.ops[o];
    p.(rounds := Lifted(p.rounds, op.audit), sums := Lifted(p.sums, op.audit), appeals := Lifted(p.appeals, op.audit),
       status := op.previousStatus, current := op.previousCurrentRound, started := op.previousStartedAt,
       finished := op.previousFinishedAt, ops := p.ops[o := op.(undone := true)])
  }

  lemma {:induction false} PageReturned(story: Story, p: Page, o: nat)
    requires Told(story, p) && o < |p.ops|
    requires p.ops[o].previousLifecycle == LifecycleForPhase(p.ops[o].previousStatus)
    ensures Told(story, Returned(p, o)) && Undone(Scene(story, p), o) == Scene(story, Returned(p, o))
  {
    var m, k, after := Scene(story, p), p.ops[o].audit, Scene(story, Returned(p, o));
    assert Clear(m.rounds, k) == after.rounds;
    assert Clear(m.summaries, k) == after.summaries;
    assert Clear(m.appeals, k) == after.appeals;
  }

  /** What stands is no newer than t. */
  predicate NoNewer(story: Story, p: Page, t: Time)
    requires Told(story, p)
  {
    && (forall i :: 0 <= i < |p.rounds| && p.rounds[i].None? ==> story.rounds[i].startedAt <= t)
    && (forall a :: 0 <= a < |p.appeals| && p.appeals[a].None? ==> story.appeals[a].completedAt <= t)
    && (p.outcome.Some? ==> p.outcome.value.publishedAt <= t)
  }

  lemma {:induction false} QuietSince(story: Story, p: Page, t: Time)
    requires Told(story, p) && NoNewer(story, p, t)
    ensures !ActiveSince(Scene(story, p), t)
  {}

  /** The appeals in force on the page are of different scope or attempt. */
  predicate SlotsApart(story: Story, p: Page)
    requires Told(story, p)
  {
    forall a, b :: 0 <= a < b < |p.appeals| && p.appeals[a].None? && p.appeals[b].None? ==>
      !SameSlot(story.appeals[a], story.appeals[b])
  }

  /** Operation o can be undone on this page. */
  predicate Undoable(story: Story, p: Page, o: nat)
    requires Told(story, p)
  {
    && o < |p.ops| && !p.ops[o].undone
    && p.ops[o].previousLifecycle == LifecycleForPhase(p.ops[o].previousStatus)
    && p.status == p.ops[o].resultingStatus && p.current == p.ops[o].resultingCurrentRound
    && NoNewer(story, p, p.ops[o].createdAt)
    && Told(story, Returned(p, o)) && SlotsApart(story, Returned(p, o))
  }

  lemma {:induction false} UndoGoes(story: Story, p: Page, o: nat)
    requires Told(story, p) && Undoable(story, p, o)
    ensures Told(story, Returned(p, o)) && UndoCancellation(Scene(story, p), o) == Success(Scene(story, Returned(p, o)))
  {
    QuietSince(story, p, p.ops[o].createdAt);
    PageReturned(story, p, o);
    assert Clear(Scene(story, p).appeals, p.ops[o].audit) == Scene(story, Returned(p, o)).appeals;
  }

  lemma {:induction false} TakesBack(story: Story, script: seq<Timed>, p: Page, t: Time, o: nat, now: Time)
    returns (longer: seq<Timed>, q: Page)
    requires On(story, script, p, t) && t <= now && Undoable(story, p, o)
    ensures q == Returned(p, o) && On(story, longer, q, now)
  {
    q := Returned(p, o);
    UndoGoes(story, p, o);
    longer := script + [Timed(Undo(o), now)];
    Then(FreshMatch(), script, Scene(story, p), t, Timed(Undo(o), now), Scene(story, q));
  }

  // ---------------------------------------------------------------- a regulation, and an overtime

  /** Rounds i and i + 1 and appeal n follow one another from t on. */
  predicate RegulationFollows(story: Story, i: nat, n: nat, t: Time) {
    && AppealsTo(story, n, i)
    && t <= story.rounds[i].startedAt && story.rounds[i].endsAt <= story.rounds[i + 1].startedAt
    && story.rounds[i + 1].endsAt <= story.appeals[n].completedAt
  }

  /** With everything earlier cancelled, regulation is played. */
  lemma {:induction false} PlaysRegulation(story: Story, script: seq<Timed>, p: Page, t: Time, i: nat)
    returns (longer: seq<Timed>, q: Page)
    requires On(story, script, p, t) && p.status == Waiting && p.current.None? && p.started.None? && |p.rounds| == i
    requires RegulationFollows(story, i, |p.appeals|, t)
    ensures q == p.(rounds := p.rounds + [None, None], sums := p.sums + [None, None], status := RegulationAppeal,
                    current := Some(2),
                    started := Some(story.rounds[i].startedAt))
    ensures On(story, longer, q, story.rounds[i + 1].endsAt)
  {
    var once, q1 := Plays(story, script, p, t);
    longer, q := Plays(story, once, q1, story.rounds[i].endsAt);
    assert p.rounds + [None] + [None] == p.rounds + [None, None] && p.sums + [None] + [None] == p.sums + [None, None];
  }

  /** And appealed: what an exit left in force over cancelled rounds is swept. */
  lemma {:induction false} RegulationBout(story: Story, script: seq<Timed>, p: Page, t: Time, i: nat)
    returns (longer: seq<Timed>, played: Page, q: Page)
    requires On(story, script, p, t) && p.status == Waiting && p.current.None? && p.started.None? && |p.rounds| == i
    requires RegulationFollows(story, i, |p.appeals|, t) && forall j :: 0 <= j < i ==> p.rounds[j].Some?
    ensures played == p.(rounds := p.rounds + [None, None], sums := p.sums + [None, None], status := RegulationAppeal,
                         current := Some(2),
                         started := Some(story.rounds[i].startedAt))
    ensures Told(story, played) && q == Committed(story, Swept(story, played))
    ensures On(story, longer, q, story.appeals[|p.appeals|].completedAt)
  {
    var earlier;
    earlier, played := PlaysRegulation(story, script, p, t, i);
    longer, q := AppealsRegulation(story, earlier, played, story.rounds[i + 1].endsAt, i);
  }

  /** Round i is an overtime and appeal n follows it, from t on. */
  predicate OvertimeFollows(story: Story, i: nat, n: nat, t: Time) {
    AppealsOvertime(story, n, i) && t <= story.rounds[i].startedAt
        && story.rounds[i].endsAt <= story.appeals[n].completedAt
  }

  /** The attempt of round i is the next one. */
  predicate NextAttempt(story: Story, i: nat) {
    && i < |story.rounds| && story.rounds[i].attempt >= 1
    && (forall j :: 0 <= j < i && story.rounds[j].stage == Overtime ==>
          story.rounds[j].attempt <= story.rounds[i].attempt - 1)
    && (story.rounds[i].attempt > 1 ==>
          exists j :: 0 <= j < i && story.rounds[j].stage == Overtime
              && story.rounds[j].attempt == story.rounds[i].attempt - 1)
  }

  lemma {:induction false} AttemptIsNext(story: Story, p: Page, i: nat)
    requires Told(story, p) && |p.rounds| == i && NextAttempt(story, i)
    ensures MaxAttempt(Scene(story, p).rounds) + 1 == story.rounds[i].attempt
  {
    var rounds := Scene(story, p).rounds;
    AttemptsBounded(rounds, story.rounds[i].attempt - 1);
    if story.rounds[i].attempt > 1 {
      var j :| 0 <= j < i && story.rounds[j].stage == Overtime
          && story.rounds[j].attempt == story.rounds[i].attempt - 1;
      assert rounds[j].val.attempt == story.rounds[i].attempt - 1;
    }
  }

  lemma {:induction false} OvertimeBout(story: Story, script: seq<Timed>, p: Page, t: Time, i: nat)
    returns (longer: seq<Timed>, q: Page)
    requires On(story, script, p, t) && p.status == OvertimeReady && |p.rounds| == i
    requires OvertimeFollows(story, i, |p.appeals|, t) && NextAttempt(story, i)
    requires forall j :: 0 <= j < i && p.rounds[j].None? ==> story.rounds[j].stage == Regulation
    requires forall a :: 0 <= a < |p.appeals| && p.appeals[a].None? ==> story.appeals[a].scope == Regulation
    ensures q == Committed(story, p.(rounds := p.rounds + [None], sums := p.sums + [None], status := OvertimeAppeal,
                                     current := Some(1)))
    ensures On(story, longer, q, story.appeals[|p.appeals|].completedAt)
  {
    AttemptIsNext(story, p, i);
    assert OneTick(story.rounds[i]);
    var once, q1 := Plays(story, script, p, t);
    longer, q := AppealsOvertimeRound(story, once, q1, story.rounds[i].endsAt, i);
  }
}
