/** One match: its phase and its ledger of rounds, voting windows, score events, summaries, appeals and decisions. */
module MatchModel {
  import opened Prelude
  import opened SportRules
  import opened MatchTables

  /** Milliseconds on the server clock. */
  type Time = nat

  const SCORING_WINDOW_DURATION_MS := 1000

  datatype Status =
    | Waiting | Round1Running | Round1Paused | Break | Round2Running | Round2Paused
    | AwaitingResultSave | RegulationAppeal
    | OvertimeReady | OvertimeRunning | OvertimePaused | OvertimeAppeal | OvertimeTiebreakDecision
    | ResultPublicationReady | Finished

  datatype Lifecycle = NotStarted | InProgress | Suspended | Completed
  datatype RulesVersion = Legacy | FaultAppealOvertimeV2
  datatype Stage = Regulation | Overtime

  datatype Round = Round(
    stage: Stage, number: nat, attempt: nat, duration: nat,
    startedAt: Time, endsAt: Time, pausedAt: Option<Time>, remaining: Option<nat>, endedAt: Option<Time>)

  /** Rows name each other by position in their tables. */
  datatype Window = Window(
    round: nat, roundNumber: nat, startedAt: Time, endsAt: Time, elapsed: nat,
    resolvedAt: Option<Time>, winner: Option<Color>)

  datatype Judge = Assigned(assignment: nat) | Slotted(slot: nat)
  datatype Vote = Vote(window: nat, judge: Judge, color: Color, receivedAt: Time)
  datatype Event = Event(window: nat, round: nat, roundNumber: nat, color: Color, value: int, createdAt: Time)
  datatype Summary = Summary(round: nat, color: Color, points: int, capturedAt: Time)

  datatype Score = Score(base: int, adjustment: Adjustment, final: int)
  datatype Appeal = Appeal(
    scope: Stage, attempt: nat, source: nat, sourceRounds: set<nat>, key: string,
    red: Score, blue: Score, completedAt: Time)
  {
    predicate Tied() { red.final == blue.final }
  }
  datatype Decision = Decision(winner: Color, appeal: nat, overtimeRound: nat, selectedAt: Time)

  datatype OutcomeMethod = RegulationScore | OvertimeScore | ManualAfterOvertimeTie
  datatype Outcome = Outcome(winner: Color, how: OutcomeMethod, appeal: nat, publishedAt: Time, key: string)

  datatype OperationKind = RoundReset | MatchReset | MatchExit
  datatype Operation = Operation(
    kind: OperationKind, audit: nat, createdAt: Time,
    previousStatus: Status, previousLifecycle: Lifecycle, previousCurrentRound: Option<nat>,
    previousStartedAt: Option<Time>, previousFinishedAt: Option<Time>,
    resultingStatus: Status, resultingCurrentRound: Option<nat>, undone: bool)

  datatype Match = Match(
    rules: RulesVersion, requiredJudgeCount: nat, roundDuration: nat, intermissionSeconds: nat,
    status: Status, lifecycle: Lifecycle, currentRound: Option<nat>,
    startedAt: Option<Time>, finishedAt: Option<Time>, intermissionEndsAt: Option<Time>,
    rounds: Table<Round>, windows: Table<Window>, votes: Table<Vote>, events: Table<Event>,
    summaries: Table<Summary>, appeals: Table<Appeal>, decisions: Table<Decision>,
    outcome: Option<Outcome>, operations: seq<Operation>, nextAudit: nat)

  function NewMatch(rules: RulesVersion, requiredJudgeCount: nat, roundDuration: nat, intermissionSeconds: nat): Match {
    Match(rules, requiredJudgeCount, roundDuration, intermissionSeconds,
          Waiting, NotStarted, None, None, None, None, [], [], [], [], [], [], [], None, [], 0)
  }

  datatype MatchError =
    | InvalidRoundStart | InvalidRoundControl | InvalidResultCancellation | UndoNotAllowed
    | CompletionNotReady | AlreadyCompleted | ProgressionLocked
    | RoundPausedForVote | MatchNotRunningForVote | RoundEndedForVote | PriorWindowPending | DuplicateVote
    | AppealState | AppealIdempotency | NotSuspended
    | ConstraintViolated

  function LifecycleForPhase(status: Status): Lifecycle {
    match status
    case Waiting => NotStarted
    case Finished => Completed
    case _ => InProgress
  }

  function RunningStatus(number: nat, stage: Stage): Option<Status> {
    if stage == Overtime then Some(OvertimeRunning)
    else if number == 1 then Some(Round1Running)
    else if number == 2 then Some(Round2Running)
    else None
  }

  // ---------------------------------------------------------------- reading the ledger

  /** Points of live score events in the given rounds. */
  function Points(events: Table<Event>, rounds: set<nat>, c: Color): int {
    if events == [] then 0
    else
      var last := events[|events| - 1];
      Points(events[..|events| - 1], rounds, c) +
      (if last.stamp.None? && last.val.round in rounds && last.val.color == c then last.val.value else 0)
  }

  /** Captured points of live summaries in the given rounds. */
  function Base(summaries: Table<Summary>, rounds: set<nat>, c: Color): int {
    if summaries == [] then 0
    else
      var last := summaries[|summaries| - 1];
      Base(summaries[..|summaries| - 1], rounds, c) +
      (if last.stamp.None? && last.val.round in rounds && last.val.color == c then last.val.points else 0)
  }

  /** The ballots of a window in the order they were received, cancelled ones included. */
  function Ballots(votes: Table<Vote>, w: nat): seq<Color> {
    if votes == [] then []
    else
      var last := votes[|votes| - 1];
      Ballots(votes[..|votes| - 1], w) + (if last.val.window == w then [last.val.color] else [])
  }

  /** A live window nobody has resolved; with a deadline, one that is due by then. */
  predicate Pending(w: Row<Window>, due: Option<Time>) {
    w.stamp.None? && w.val.resolvedAt.None? && (due.Some? ==> w.val.endsAt <= due.value)
  }

  /** The pending window that started first. */
  function FirstPending(windows: Table<Window>, due: Option<Time>): (w: Option<nat>)
    ensures w.Some? ==> w.value < |windows| && Pending(windows[w.value], due)
    ensures w.None? ==> forall i :: 0 <= i < |windows| ==> !Pending(windows[i], due)
  {
    if windows == [] then None
    else
      var last := |windows| - 1;
      var first := FirstPending(windows[..last], due);
      if Pending(windows[last], due) && (first.None?
                                         || windows[last].val.startedAt < windows[first.value].val.startedAt)
      then Some(last) else first
  }

  function Unresolved(windows: Table<Window>): nat {
    if windows == [] then 0
    else Unresolved(windows[..|windows| - 1]) + (if windows[|windows| - 1].val.resolvedAt.None? then 1 else 0)
  }

  /** The newest open live round with this number. */
  function LatestOpen(rounds: Table<Round>, number: nat): (r: Option<nat>)
    ensures r.Some? ==> Live(rounds, r.value) && rounds[r.value].val.number == number
                        && rounds[r.value].val.endedAt.None?
    ensures r.None? ==> forall i :: 0 <= i < |rounds| && Live(rounds, i) && rounds[i].val.number == number ==>
                          rounds[i].val.endedAt.Some?
  {
    if rounds == [] then None
    else
      var last := rounds[|rounds| - 1];
      if last.stamp.None? && last.val.number == number && last.val.endedAt.None? then Some(|rounds| - 1)
      else LatestOpen(rounds[..|rounds| - 1], number)
  }

  /** The highest overtime attempt ever started, cancelled ones included. */
  function MaxAttempt(rounds: Table<Round>): (n: nat)
    ensures forall i :: 0 <= i < |rounds| && rounds[i].val.stage == Overtime ==> rounds[i].val.attempt <= n
  {
    if rounds == [] then 0
    else
      var n := MaxAttempt(rounds[..|rounds| - 1]);
      var last := rounds[|rounds| - 1].val;
      if last.stage == Overtime && last.attempt > n then last.attempt else n
  }

  predicate LiveOvertime(rounds: Table<Round>, i: nat, ended: bool) {
    Live(rounds, i) && rounds[i].val.stage == Overtime && (ended ==> rounds[i].val.endedAt.Some?)
  }

  /** The live overtime round (ended, if asked) with the highest attempt, the newest of equals. */
  function TopOvertime(rounds: Table<Round>, ended: bool): (r: Option<nat>)
    ensures r.Some? ==> LiveOvertime(rounds, r.value, ended)
    ensures r.None? ==> forall i: nat :: !LiveOvertime(rounds, i, ended)
  {
    if rounds == [] then None
    else
      var last := |rounds| - 1;
      var top := TopOvertime(rounds[..last], ended);
      assert forall i: nat :: i < last ==> (LiveOvertime(rounds, i, ended) <==> LiveOvertime(rounds[..last], i, ended));
      assert forall i: nat :: LiveOvertime(rounds, i, ended) ==> i <= last;
      if LiveOvertime(rounds, last, ended) && (top.None? || rounds[last].val.attempt >= rounds[top.value].val.attempt)
      then Some(last) else top
  }

  // ---------------------------------------------------------------- constraints of the database

  /** The index on unresolved windows does not ask whether a window has been cancelled. */
  predicate AllResolved(windows: Table<Window>) {
    forall w :: 0 <= w < |windows| ==> windows[w].val.resolvedAt.Some?
  }

  predicate SameSlot(a: Appeal, b: Appeal) {
    a.scope == b.scope && a.attempt == b.attempt
  }

  /** The index on appeals: of one scope and attempt at most one is live, whatever became of its rounds. */
  predicate SlotsDiffer(appeals: Table<Appeal>) {
    forall a, b :: 0 <= a < b < |appeals| && appeals[a].stamp.None? && appeals[b].stamp.None? ==>
      !SameSlot(appeals[a].val, appeals[b].val)
  }

  /** The index on decisions: one for an appeal, cancelled or not. */
  predicate Undecided(decisions: Table<Decision>, appeal: nat) {
    forall d :: 0 <= d < |decisions| ==> decisions[d].val.appeal != appeal
  }

  // ---------------------------------------------------------------- appeals

  /** A live appeal whose source round is live. */
  predicate ValidAppeal(m: Match, a: nat) {
    Live(m.appeals, a) && Live(m.rounds, m.appeals[a].val.source)
  }

  /** The live overtime appeal with the highest attempt; its source round is not looked at. */
  function TopOvertimeAppeal(appeals: Table<Appeal>): (a: Option<nat>)
    ensures a.Some? ==> Live(appeals, a.value) && appeals[a.value].val.scope == Overtime
    ensures a.None? ==> forall i :: 0 <= i < |appeals| && appeals[i].stamp.None? ==> appeals[i].val.scope != Overtime
  {
    if appeals == [] then None
    else
      var last := |appeals| - 1;
      var top := TopOvertimeAppeal(appeals[..last]);
      if appeals[last].stamp.None? && appeals[last].val.scope == Overtime &&
         (top.None? || appeals[last].val.attempt > appeals[top.value].val.attempt)
      then Some(last) else top
  }

  /** The valid appeal committed last. */
  function NewestValid(m: Match, n: nat): (a: Option<nat>)
    requires n <= |m.appeals|
    ensures a.Some? ==> a.value < n && ValidAppeal(m, a.value)
    ensures a.Some? ==> forall i: nat :: i < n && ValidAppeal(m, i) ==>
                          m.appeals[i].val.completedAt <= m.appeals[a.value].val.completedAt
    ensures a.None? ==> forall i: nat :: i < n ==> !ValidAppeal(m, i)
  {
    if n == 0 then None
    else
      var best := NewestValid(m, n - 1);
      if ValidAppeal(m, n - 1) &&
         (best.None? || m.appeals[n - 1].val.completedAt > m.appeals[best.value].val.completedAt)
      then Some(n - 1) else best
  }

  function FindAppeal(appeals: Table<Appeal>, key: string): (a: Option<nat>)
    ensures a.Some? ==> a.value < |appeals| && appeals[a.value].val.key == key
  {
    if appeals == [] then None
    else if appeals[|appeals| - 1].val.key == key then Some(|appeals| - 1)
    else FindAppeal(appeals[..|appeals| - 1], key)
  }

  /** A live manual decision on this appeal. */
  function FindDecision(decisions: Table<Decision>, appeal: nat): (d: Option<nat>)
    ensures d.Some? ==> Live(decisions, d.value) && decisions[d.value].val.appeal == appeal
    ensures d.None? ==> forall i :: 0 <= i < |decisions| && decisions[i].stamp.None? ==>
                          decisions[i].val.appeal != appeal
  {
    if decisions == [] then None
    else
      var last := decisions[|decisions| - 1];
      if last.stamp.None? && last.val.appeal == appeal then Some(|decisions| - 1)
      else FindDecision(decisions[..|decisions| - 1], appeal)
  }
}
