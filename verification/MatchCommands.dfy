/** Every command on a match as a function of the match row and its ledger; a failed command changes nothing. */
module MatchCommands {
  import opened Prelude
  import opened SportRules
  import opened MatchTables
  import opened MatchModel

  type Attempted = Result<Match, MatchError>

  // ---------------------------------------------------------------- rounds

  datatype Descriptor = Descriptor(stage: Stage, number: nat, attempt: nat)

  function NextRoundDescriptor(m: Match): Option<Descriptor> {
    if m.status == Waiting && m.currentRound.None? && m.startedAt.None? then Some(Descriptor(Regulation, 1, 0))
    else if m.status == Break && m.currentRound == Some(1) && m.startedAt.Some? then Some(Descriptor(Regulation, 2, 0))
    else if m.status == OvertimeReady then Some(Descriptor(Overtime, 1, MaxAttempt(m.rounds) + 1))
    else None
  }

  function StartedStatus(d: Descriptor): Status {
    if d.stage == Overtime then OvertimeRunning else if d.number == 1 then Round1Running else Round2Running
  }

  function StartRound(m: Match, now: Time): Attempted {
    match NextRoundDescriptor(m)
    case None => Failure(InvalidRoundStart)
    case Some(d) =>
      if m.lifecycle == Suspended then Failure(ConstraintViolated)
      else Success(m.(
        rounds := Append(m.rounds, Round(d.stage, d.number, d.attempt, m.roundDuration, now, now + m.roundDuration,
                                         None, None, None)),
        currentRound := Some(d.number),
        intermissionEndsAt := None,
        lifecycle := InProgress,
        startedAt := if d.number == 1 && d.stage == Regulation then Some(now) else m.startedAt,
        status := StartedStatus(d)))
  }

  function RunningNumber(s: Status): Option<nat> {
    match s case Round1Running => Some(1) case Round2Running => Some(2) case OvertimeRunning => Some(1) case _ => None
  }

  function PausedNumber(s: Status): Option<nat> {
    match s case Round1Paused => Some(1) case Round2Paused => Some(2) case OvertimePaused => Some(1) case _ => None
  }

  function PauseRound(m: Match, now: Time): Attempted {
    var number := RunningNumber(m.status);
    if number.None? || m.currentRound != number then Failure(InvalidRoundControl)
    else
      match LatestOpen(m.rounds, number.value)
      case None => Failure(InvalidRoundControl)
      case Some(i) =>
        var round := m.rounds[i].val;
        if round.endsAt <= now then Failure(InvalidRoundControl)
        else Success(m.(
               rounds := SetVal(m.rounds, i, round.(pausedAt := Some(now), remaining := Some(round.endsAt - now))),
               status := if m.status == OvertimeRunning then OvertimePaused else if number.value == 1 then Round1Paused
                   else Round2Paused))
  }

  function ResumeRound(m: Match, now: Time): Attempted {
    var number := PausedNumber(m.status);
    if number.None? || m.currentRound != number then Failure(InvalidRoundControl)
    else
      match LatestOpen(m.rounds, number.value)
      case None => Failure(InvalidRoundControl)
      case Some(i) =>
        var round := m.rounds[i].val;
        if round.pausedAt.None? || round.remaining.None? then Failure(InvalidRoundControl)
        else Success(m.(
               rounds := SetVal(m.rounds, i,
                                round.(endsAt := now + round.remaining.value, pausedAt := None, remaining := None)),
               status := if m.status == OvertimePaused then OvertimeRunning
                   else if number.value == 1 then Round1Running else Round2Running))
  }

  // ---------------------------------------------------------------- voting

  /** Writes the award of window w, and the score event a majority earns. */
  function ResolveWindow(m: Match, w: nat, now: Time): Match
    requires w < |m.windows|
  {
    var window := m.windows[w].val;
    var award := Award(Ballots(m.votes, w), m.requiredJudgeCount);
    m.(windows := SetVal(m.windows, w, window.(resolvedAt := Some(now), winner := award)),
       events := match award
                 case None => m.events
                 case Some(c) => Append(m.events,
                                        Event(w, window.round, window.roundNumber, c, JUDGE_POINT_VALUE, now)))
  }

  lemma {:induction false} ResolvingOne(windows: Table<Window>, w: nat, row: Row<Window>)
    requires w < |windows| && windows[w].val.resolvedAt.None? && row.val.resolvedAt.Some?
    ensures Unresolved(windows[w := row]) == Unresolved(windows) - 1
  {
    var after := windows[w := row];
    if w == |windows| - 1 {
      assert after[..|after| - 1] == windows[..|windows| - 1];
    } else {
      ResolvingOne(windows[..|windows| - 1], w, row);
      assert after[..|after| - 1] == windows[..|windows| - 1][w := row];
    }
  }

  /** Resolves due windows, the first started first, until none is left. */
  function ResolveDue(m: Match, now: Time): Match
    decreases Unresolved(m.windows)
  {
    match FirstPending(m.windows, Some(now))
    case None => m
    case Some(w) =>
      var resolved := ResolveWindow(m, w, now);
      ResolvingOne(m.windows, w, resolved.windows[w]);
      ResolveDue(resolved, now)
  }

  function ResolveIfDue(m: Match, w: nat, now: Time): Attempted {
    if w >= |m.windows| || !Pending(m.windows[w], Some(now)) then Success(m) else Success(ResolveWindow(m, w, now))
  }

  /** Row i is one the lookup for the running round may return: it asks for an open round, not for a live one. */
  predicate OpenForVotes(m: Match, i: nat) {
    && i < |m.rounds| && m.rounds[i].val.endedAt.None?
    && RunningNumber(m.status) == m.currentRound == Some(m.rounds[i].val.number)
    && (m.status == OvertimeRunning <==> m.rounds[i].val.stage == Overtime)
  }

  /** The row of a new window is refused while any window of the match is unresolved. */
  function TryOpenWindow(m: Match, found: nat, judge: Judge, c: Color, now: Time): Attempted
    requires found < |m.rounds|
  {
    if !AllResolved(m.windows) then Failure(ConstraintViolated) else Success(OpenWindow(m, found, judge, c, now))
  }

  function SubmitVote(m: Match, found: nat, judge: Judge, c: Color, now: Time): Attempted {
    if m.status == Round1Paused || m.status == Round2Paused
        || m.status == OvertimePaused then Failure(RoundPausedForVote)
    else if !OpenForVotes(m, found) then Failure(MatchNotRunningForVote)
    else
      var round := m.rounds[found].val;
      if now >= round.endsAt then Failure(RoundEndedForVote)
      else
        var first := FirstPending(m.windows, None);
        if first.Some? && now >= m.windows[first.value].val.endsAt
        then TryOpenWindow(ResolveWindow(m, first.value, now), found, judge, c, now)
        else if first.None? then TryOpenWindow(m, found, judge, c, now)
        else JoinWindow(m, first.value, round.number, judge, c, now)
  }

  /** Competition time on the clock of a round, pauses excluded. */
  function ElapsedMs(round: Round, now: Time): nat {
    var remaining := if round.endsAt <= now then 0 else round.endsAt - now;
    if round.duration <= remaining then 0 else round.duration - remaining
  }

  function OpenWindow(m: Match, found: nat, judge: Judge, c: Color, now: Time): Match
    requires found < |m.rounds|
  {
    var round := m.rounds[found].val;
    m.(windows := Append(m.windows, Window(found, round.number, now, now + SCORING_WINDOW_DURATION_MS,
                                           ElapsedMs(round, now), None, None)),
       votes := Append(m.votes, Vote(|m.windows|, judge, c, now)))
  }

  predicate HasVoted(votes: Table<Vote>, w: nat, judge: Judge) {
    exists i :: 0 <= i < |votes| && votes[i].val.window == w && votes[i].val.judge == judge
  }

  function JoinWindow(m: Match, w: nat, roundNumber: nat, judge: Judge, c: Color, now: Time): Attempted
    requires w < |m.windows|
  {
    var window := m.windows[w].val;
    if window.roundNumber != roundNumber then Failure(PriorWindowPending)
    else if !(window.startedAt <= now < window.endsAt) then Failure(RoundEndedForVote)
    else if HasVoted(m.votes, w, judge) then Failure(DuplicateVote)
    else Success(m.(votes := Append(m.votes, Vote(w, judge, c, now))))
  }

  // ---------------------------------------------------------------- expiry

  function EndedStatus(round: Round, rules: RulesVersion): Status {
    if round.stage == Overtime then OvertimeAppeal
    else if round.number == 1 then Break
    else if rules == FaultAppealOvertimeV2 then RegulationAppeal
    else AwaitingResultSave
  }

  function IntermissionEnd(m: Match, round: Round, now: Time): Option<Time> {
    if round.stage != Regulation || round.number != 1 then None
    else if m.intermissionEndsAt.Some? then m.intermissionEndsAt
    else if m.intermissionSeconds > 0 then Some(now + m.intermissionSeconds * 1000)
    else None
  }

  function Captured(m: Match, i: nat, endedAt: Time): Table<Summary> {
    Append(Append(m.summaries, Summary(i, RED, Points(m.events, {i}, RED), endedAt)),
           Summary(i, BLUE, Points(m.events, {i}, BLUE), endedAt))
  }

  /** The wake-up for row i has something to end: whether the row is live is not asked. */
  predicate Overdue(m: Match, i: nat, now: Time) {
    && i < |m.rounds| && m.rounds[i].val.endedAt.None?
    && m.currentRound == Some(m.rounds[i].val.number)
    && Some(m.status) == RunningStatus(m.rounds[i].val.number, m.rounds[i].val.stage)
    && m.rounds[i].val.endsAt <= now
  }

  /** And may end it: a suspended match cannot be put in progress without being taken. */
  predicate Expires(m: Match, i: nat, now: Time) {
    Overdue(m, i, now) && m.lifecycle != Suspended
  }

  function Ended(m: Match, i: nat): Match
    requires i < |m.rounds|
  {
    m.(rounds := SetVal(m.rounds, i, m.rounds[i].val.(endedAt := Some(m.rounds[i].val.endsAt))))
  }

  function Settled(m: Match, i: nat, now: Time): Match
    requires i < |m.rounds|
  {
    ResolveDue(Ended(m, i), now)
  }

  /** The settled match once round i of m is summed up and the phase moves on. */
  function Closed(m: Match, settled: Match, i: nat, now: Time): Match
    requires i < |m.rounds|
  {
    var round := m.rounds[i].val;
    settled.(
      summaries := if m.rules == FaultAppealOvertimeV2 then Captured(settled, i, round.endsAt) else settled.summaries,
      intermissionEndsAt := IntermissionEnd(m, round, now),
      lifecycle := InProgress,
      status := EndedStatus(round, m.rules))
  }

  function ExpireRound(m: Match, i: nat, now: Time): Attempted {
    if !Overdue(m, i, now) then Success(m)
    else if m.lifecycle == Suspended then Failure(ConstraintViolated)
    else Success(Closed(m, Settled(m, i, now), i, now))
  }

  // ---------------------------------------------------------------- cancelling and undoing

  predicate OvertimePhase(s: Status) {
    s == OvertimeReady || s == OvertimeRunning || s == OvertimePaused || s == OvertimeAppeal ||
    s == OvertimeTiebreakDecision || s == ResultPublicationReady
  }

  function LiveRounds(m: Match): set<nat> {
    set i: nat | i < |m.rounds| && m.rounds[i].stamp.None?
  }

  function LiveRegulation(m: Match, number: nat): set<nat> {
    set i: nat | i < |m.rounds| && m.rounds[i].stamp.None? && m.rounds[i].val.stage == Regulation
        && m.rounds[i].val.number == number
  }

  function SelectedRounds(m: Match, entire: bool): set<nat> {
    if entire then LiveRounds(m)
    else if m.status == RegulationAppeal then LiveRegulation(m, 2)
    else if OvertimePhase(m.status) then
      var top := TopOvertime(m.rounds, false);
      if top.None? then {} else {top.value}
    else if m.status == Break && m.currentRound == Some(1) then LiveRegulation(m, 1)
    else if (m.status == Finished || m.status == AwaitingResultSave)
        && m.currentRound == Some(2) then LiveRegulation(m, 2)
    else {}
  }

  predicate AnyRound(m: Match, ids: set<nat>, stage: Stage, number: nat) {
    exists i :: i in ids && i < |m.rounds| && m.rounds[i].val.stage == stage
        && (stage == Regulation ==> m.rounds[i].val.number == number)
  }

  function CancelledStatus(m: Match, ids: set<nat>, entire: bool): Status {
    if entire || AnyRound(m, ids, Regulation, 1) then Waiting
    else if AnyRound(m, ids, Overtime, 0) then OvertimeReady
    else Break
  }

  function VotesIn(m: Match, rounds: set<nat>): set<nat> {
    set v: nat | v < |m.votes| && m.votes[v].val.window < |m.windows|
        && m.windows[m.votes[v].val.window].val.round in rounds
  }

  function WindowsIn(m: Match, rounds: set<nat>): set<nat> {
    set w: nat | w < |m.windows| && m.windows[w].val.round in rounds
  }

  function EventsIn(m: Match, rounds: set<nat>): set<nat> {
    set e: nat | e < |m.events| && m.events[e].val.round in rounds
  }

  function SummariesIn(m: Match, rounds: set<nat>): set<nat> {
    set s: nat | s < |m.summaries| && m.summaries[s].val.round in rounds
  }

  function AffectedAppeals(m: Match, rounds: set<nat>, entire: bool): set<nat> {
    set a: nat | a < |m.appeals| && m.appeals[a].stamp.None? &&
                 (entire || m.appeals[a].val.source in rounds || m.appeals[a].val.sourceRounds * rounds != {})
  }

  function DecisionsOf(m: Match, appeals: set<nat>, rounds: set<nat>): set<nat> {
    set d: nat | d < |m.decisions| && (m.decisions[d].val.appeal in appeals
                                       || m.decisions[d].val.overtimeRound in rounds)
  }

  function LiveEvents(m: Match): set<nat> {
    set e: nat | e < |m.events| && m.events[e].stamp.None?
  }

  /** Every row of the selected rounds that is still live is stamped with audit entry k. */
  function StampRounds(m: Match, ids: set<nat>, entire: bool, k: nat): Match {
    var appeals := AffectedAppeals(m, ids, entire);
    m.(votes := Stamp(m.votes, VotesIn(m, ids), k),
       events := Stamp(m.events, if entire then LiveEvents(m) else EventsIn(m, ids), k),
       summaries := Stamp(m.summaries, SummariesIn(m, ids), k),
       appeals := Stamp(m.appeals, appeals, k),
       decisions := Stamp(m.decisions, DecisionsOf(m, appeals, ids), k),
       windows := Stamp(m.windows, WindowsIn(m, ids), k),
       rounds := Stamp(m.rounds, ids, k))
  }

  /** The match once the selected rounds are cancelled under a fresh audit entry. */
  function Cancelled(m: Match, ids: set<nat>, entire: bool, now: Time): Match {
    var k := m.nextAudit;
    var next := CancelledStatus(m, ids, entire);
    var current := if next == Waiting then None else Some(1);
    StampRounds(m, ids, entire, k).(
      operations := m.operations + [Operation(
        if entire then MatchReset else RoundReset, k, now,
        m.status, LifecycleForPhase(m.status), m.currentRound, m.startedAt, m.finishedAt, next, current, false)],
      nextAudit := k + 1,
      currentRound := current,
      finishedAt := None,
      intermissionEndsAt := None,
      lifecycle := if next == Waiting then NotStarted else InProgress,
      startedAt := if next == Waiting then None else m.startedAt,
      status := next)
  }

  function CancelResults(m: Match, entire: bool, retracted: bool, now: Time): Attempted {
    var ids := SelectedRounds(m, entire);
    if ids == {} then Failure(InvalidResultCancellation)
    else if m.status == Finished && !retracted then Failure(ProgressionLocked)
    else if m.lifecycle == Suspended then Failure(ConstraintViolated)
    else Success(Cancelled(m, ids, entire, now))
  }

  /** Something live came into being after t. */
  predicate ActiveSince(m: Match, t: Time) {
    || (exists i :: 0 <= i < |m.rounds| && m.rounds[i].stamp.None? && m.rounds[i].val.startedAt > t)
    || (exists i :: 0 <= i < |m.windows| && m.windows[i].stamp.None? && m.windows[i].val.startedAt > t)
    || (exists i :: 0 <= i < |m.events| && m.events[i].stamp.None? && m.events[i].val.createdAt > t)
    || (exists i :: 0 <= i < |m.appeals| && m.appeals[i].stamp.None? && m.appeals[i].val.completedAt > t)
    || (exists i :: 0 <= i < |m.decisions| && m.decisions[i].stamp.None? && m.decisions[i].val.selectedAt > t)
    || (m.outcome.Some? && m.outcome.value.publishedAt > t)
  }

  function ClearAudit(m: Match, k: nat): Match {
    m.(votes := Clear(m.votes, k), events := Clear(m.events, k), summaries := Clear(m.summaries, k),
       decisions := Clear(m.decisions, k), appeals := Clear(m.appeals, k),
       windows := Clear(m.windows, k), rounds := Clear(m.rounds, k))
  }

  /** What the service asks of an operation to be undone. */
  predicate UndoApplies(m: Match, o: nat) {
    && o < |m.operations| && !m.operations[o].undone
    && m.status == m.operations[o].resultingStatus && m.currentRound == m.operations[o].resultingCurrentRound
    && !ActiveSince(m, m.operations[o].createdAt)
  }

  /**
   * What the database asks of the rows afterwards: the time of suspension, which undo does not write, is set exactly
   * for a suspended match, and no two live appeals share scope and attempt.
   */
  predicate UndoCommits(m: Match, o: nat)
    requires o < |m.operations|
  {
    && (m.operations[o].previousLifecycle == Suspended <==> m.lifecycle == Suspended)
    && SlotsDiffer(Clear(m.appeals, m.operations[o].audit))
  }

  predicate UndoAllowed(m: Match, o: nat) {
    UndoApplies(m, o) && UndoCommits(m, o)
  }

  /** The match once operation o is taken back: its stamps are lifted and the phase it interrupted returns. */
  function Undone(m: Match, o: nat): Match
    requires o < |m.operations|
  {
    var operation := m.operations[o];
    ClearAudit(m, operation.audit).(
      currentRound := operation.previousCurrentRound,
      finishedAt := operation.previousFinishedAt,
      intermissionEndsAt := None,
      lifecycle := operation.previousLifecycle,
      startedAt := operation.previousStartedAt,
      status := operation.previousStatus,
      operations := m.operations[o := operation.(undone := true)])
  }

  function UndoCancellation(m: Match, o: nat): Attempted {
    if !UndoApplies(m, o) then Failure(UndoNotAllowed)
    else if !UndoCommits(m, o) then Failure(ConstraintViolated)
    else Success(Undone(m, o))
  }

  // ---------------------------------------------------------------- leaving a match

  datatype ExitMode = CancelAll | KeepRound1 | KeepRounds1And2 | KeepV2Phase

  predicate RetainableV2Phase(s: Status) {
    s == RegulationAppeal || OvertimePhase(s)
  }

  predicate HasEnded(m: Match, number: nat) {
    exists i :: 0 <= i < |m.rounds| && m.rounds[i].stamp.None? && m.rounds[i].val.number == number
        && m.rounds[i].val.endedAt.Some?
  }

  /** Exits select by round number alone, so overtime rounds count as round 1. */
  function RoundsNumbered(m: Match, numbers: set<nat>): set<nat> {
    set i: nat | i < |m.rounds| && m.rounds[i].val.number in numbers
  }

  function WindowsNumbered(m: Match, numbers: set<nat>): set<nat> {
    set w: nat | w < |m.windows| && m.windows[w].val.roundNumber in numbers
  }

  function EventsNumbered(m: Match, numbers: set<nat>): set<nat> {
    set e: nat | e < |m.events| && m.events[e].val.roundNumber in numbers
  }

  function VotesNumbered(m: Match, numbers: set<nat>): set<nat> {
    set v: nat | v < |m.votes| && m.votes[v].val.window < |m.windows|
        && m.windows[m.votes[v].val.window].val.roundNumber in numbers
  }

  /** Summaries, appeals and decisions are left alone. */
  function StampNumbers(m: Match, numbers: set<nat>, k: nat): Match {
    m.(votes := Stamp(m.votes, VotesNumbered(m, numbers), k),
       events := Stamp(m.events, EventsNumbered(m, numbers), k),
       windows := Stamp(m.windows, WindowsNumbered(m, numbers), k),
       rounds := Stamp(m.rounds, RoundsNumbered(m, numbers), k))
  }

  function CancelledNumbers(mode: ExitMode): set<nat> {
    match mode case CancelAll => {1, 2} case KeepRound1 => {2} case _ => {}
  }

  function ExitStatus(m: Match, mode: ExitMode): Status {
    match mode
    case CancelAll => Waiting
    case KeepRound1 => Break
    case KeepRounds1And2 => AwaitingResultSave
    case KeepV2Phase => m.status
  }

  function ExitRound(m: Match, mode: ExitMode): Option<nat> {
    match mode
    case CancelAll => None
    case KeepRound1 => Some(1)
    case KeepRounds1And2 => Some(2)
    case KeepV2Phase => m.currentRound
  }

  predicate ExitAllowed(m: Match, mode: ExitMode) {
    && m.lifecycle != Completed && m.status != Finished
    && match mode
       case CancelAll => true
       case KeepV2Phase => RetainableV2Phase(m.status)
       case KeepRound1 => HasEnded(m, 1) && FirstPending(m.windows, None).None?
       case KeepRounds1And2 => HasEnded(m, 1) && HasEnded(m, 2) && FirstPending(m.windows, None).None?
  }

  function Exited(m: Match, mode: ExitMode, now: Time): Match {
    var k := m.nextAudit;
    StampNumbers(m, CancelledNumbers(mode), k).(
      operations := m.operations + [Operation(
        MatchExit, k, now, m.status, m.lifecycle, m.currentRound, m.startedAt, m.finishedAt,
        ExitStatus(m, mode), ExitRound(m, mode), false)],
      nextAudit := k + 1,
      currentRound := ExitRound(m, mode),
      finishedAt := None,
      intermissionEndsAt := None,
      lifecycle := if mode == CancelAll then NotStarted else Suspended,
      startedAt := if mode == CancelAll then None else m.startedAt,
      status := ExitStatus(m, mode))
  }

  function ExitMatch(m: Match, mode: ExitMode, now: Time): Attempted {
    if !ExitAllowed(m, mode) then Failure(InvalidResultCancellation) else Success(Exited(m, mode, now))
  }

  /** A crew takes the match on again. */
  function ClaimSuspended(m: Match): Attempted {
    if m.lifecycle != Suspended then Failure(NotSuspended) else Success(m.(lifecycle := InProgress))
  }

  // ---------------------------------------------------------------- results

  function CompleteMatch(m: Match, now: Time): Attempted {
    if m.lifecycle == Completed || m.status == Finished then
      if m.finishedAt.None? then Failure(AlreadyCompleted) else Success(m)
    else if m.lifecycle == Suspended || m.status != AwaitingResultSave then Failure(CompletionNotReady)
    else if FirstPending(m.windows, None).Some? || !HasEnded(m, 1) || !HasEnded(m, 2) then Failure(CompletionNotReady)
    else Success(m.(finishedAt := Some(now), lifecycle := Completed, status := Finished))
  }

  /** Live appeals whose source round has been cancelled. */
  function StaleAppeals(m: Match): set<nat> {
    set a: nat | a < |m.appeals| && m.appeals[a].stamp.None? &&
                 m.appeals[a].val.source < |m.rounds| && m.rounds[m.appeals[a].val.source].stamp.Some?
  }

  function CleanUpAppeals(m: Match): Match {
    if StaleAppeals(m) == {} then m
    else m.(appeals := Stamp(m.appeals, StaleAppeals(m), m.nextAudit), nextAudit := m.nextAudit + 1)
  }

  /** Live ended regulation rounds. */
  function EndedRegulation(m: Match): set<nat> {
    set i: nat | i < |m.rounds| && m.rounds[i].stamp.None? && m.rounds[i].val.stage == Regulation &&
                 m.rounds[i].val.attempt == 0 && m.rounds[i].val.endedAt.Some?
  }

  function FindRound(ids: set<nat>, m: Match, n: nat, number: nat): (r: Option<nat>)
    requires n <= |m.rounds|
    ensures r.Some? ==> r.value < n && r.value in ids && m.rounds[r.value].val.number == number
    ensures r.None? ==> forall i: nat :: i < n && i in ids ==> m.rounds[i].val.number != number
  {
    if n == 0 then None
    else if n - 1 in ids && m.rounds[n - 1].val.number == number then Some(n - 1)
    else FindRound(ids, m, n - 1, number)
  }

  function LiveSummaries(m: Match, rounds: set<nat>): set<nat> {
    set s: nat | s < |m.summaries| && m.summaries[s].stamp.None? && m.summaries[s].val.round in rounds
  }

  function ScoreFor(m: Match, rounds: set<nat>, c: Color, adjustment: Adjustment): Score {
    var base := Base(m.summaries, rounds, c);
    Score(base, adjustment, FinalScore(base, adjustment))
  }

  predicate SamePayload(a: Appeal, scope: Stage, red: Adjustment, blue: Adjustment) {
    a.scope == scope && a.red.adjustment == red && a.blue.adjustment == blue
  }

  predicate HasValidRegulationAppeal(m: Match) {
    exists a: nat :: a < |m.appeals| && ValidAppeal(m, a) && m.appeals[a].val.scope == Regulation
  }

  /** The two ended regulation rounds an appeal needs, if they are exactly there. */
  function AppealRounds(m: Match): Option<(nat, nat)> {
    var ids := EndedRegulation(m);
    var first, second := FindRound(ids, m, |m.rounds|, 1), FindRound(ids, m, |m.rounds|, 2);
    if first.Some? && second.Some? && ids == {first.value, second.value} then Some((first.value, second.value))
        else None
  }

  /** The appeal over the given source rounds is on record and decides the next phase. */
  function Appealed(m: Match, appeal: Appeal): Match {
    m.(appeals := Append(m.appeals, appeal),
       status := if !appeal.Tied() then ResultPublicationReady
                 else if appeal.scope == Regulation then OvertimeReady else OvertimeTiebreakDecision)
  }

  function RegulationAppealOver(m: Match, first: nat, second: nat, key: string, red: Adjustment, blue: Adjustment,
                                now: Time): Appeal {
    var ids := {first, second};
    Appeal(Regulation, 0, second, ids, key, ScoreFor(m, ids, RED, red), ScoreFor(m, ids, BLUE, blue), now)
  }

  function AppealReconciled(m: Match, key: string, red: Adjustment, blue: Adjustment, now: Time): Attempted {
    var existing := FindAppeal(m.appeals, key);
    if existing.Some? then
      if SamePayload(m.appeals[existing.value].val, Regulation, red, blue) then Success(m)
          else Failure(AppealIdempotency)
    else if m.rules != FaultAppealOvertimeV2 || m.lifecycle != InProgress
        || m.status != RegulationAppeal then Failure(AppealState)
    else if FirstPending(m.windows, None).Some? || AppealRounds(m).None?
        || HasValidRegulationAppeal(m) then Failure(AppealState)
    else
      var (first, second) := AppealRounds(m).value;
      if |LiveSummaries(m, {first, second})| != 4 then Failure(AppealState)
      else Success(Appealed(m, RegulationAppealOver(m, first, second, key, red, blue, now)))
  }

  function CommitRegulationAppeal(m: Match, key: string, red: Adjustment, blue: Adjustment, now: Time): Attempted {
    AppealReconciled(CleanUpAppeals(m), key, red, blue, now)
  }

  predicate PendingIn(m: Match, round: nat) {
    exists w :: 0 <= w < |m.windows| && Pending(m.windows[w], None) && m.windows[w].val.round == round
  }

  predicate HasOvertimeAppeal(m: Match, attempt: nat) {
    exists a :: 0 <= a < |m.appeals| && m.appeals[a].stamp.None? && m.appeals[a].val.scope == Overtime
        && m.appeals[a].val.attempt == attempt
  }

  function OvertimeAppealOver(m: Match, i: nat, key: string, red: Adjustment, blue: Adjustment, now: Time): Appeal
    requires i < |m.rounds|
  {
    Appeal(Overtime, m.rounds[i].val.attempt, i, {i}, key, ScoreFor(m, {i}, RED, red), ScoreFor(m, {i}, BLUE, blue),
           now)
  }

  function CommitOvertimeAppeal(m: Match, key: string, red: Adjustment, blue: Adjustment, now: Time): Attempted {
    var existing := FindAppeal(m.appeals, key);
    if existing.Some? then
      if SamePayload(m.appeals[existing.value].val, Overtime, red, blue) then Success(m) else Failure(AppealIdempotency)
    else if m.rules != FaultAppealOvertimeV2 || m.status != OvertimeAppeal
        || m.lifecycle != InProgress then Failure(AppealState)
    else
      match TopOvertime(m.rounds, true)
      case None => Failure(AppealState)
      case Some(i) =>
        if PendingIn(m, i) || HasOvertimeAppeal(m, m.rounds[i].val.attempt)
            || |LiveSummaries(m, {i})| != 2 then Failure(AppealState)
        else Success(Appealed(m, OvertimeAppealOver(m, i, key, red, blue, now)))
  }

  /** Stamps row i whether or not it is live already. */
  function Overwrite<T>(rows: Table<T>, i: nat, k: nat): Table<T> {
    if i < |rows| then rows[i := rows[i].(stamp := Some(k))] else rows
  }

  /** Overtime appeal a and its round are set aside; votes of the round are not stamped. */
  function Restarted(m: Match, a: nat): Match
    requires a < |m.appeals|
  {
    var source, k := m.appeals[a].val.source, m.nextAudit;
    m.(rounds := Overwrite(m.rounds, source, k),
       summaries := Stamp(m.summaries, SummariesIn(m, {source}), k),
       events := Stamp(m.events, EventsIn(m, {source}), k),
       windows := Stamp(m.windows, WindowsIn(m, {source}), k),
       appeals := Stamp(m.appeals, {a}, k),
       decisions := Stamp(m.decisions, DecisionsOf(m, {a}, {}), k),
       nextAudit := k + 1,
       status := OvertimeReady)
  }

  function RestartOvertime(m: Match): Attempted {
    if m.rules != FaultAppealOvertimeV2 || m.status != OvertimeTiebreakDecision then Failure(AppealState)
    else
      match TopOvertimeAppeal(m.appeals)
      case None => Failure(AppealState)
      case Some(a) => Success(Restarted(m, a))
  }

  /** A winner is chosen for the tied overtime appeal a. */
  function Chosen(m: Match, a: nat, winner: Color, now: Time): Match
    requires a < |m.appeals|
  {
    m.(decisions := Append(m.decisions, Decision(winner, a, m.appeals[a].val.source, now)),
       status := ResultPublicationReady)
  }

  function SelectWinner(m: Match, winner: Color, now: Time): Attempted {
    if m.rules != FaultAppealOvertimeV2 || m.status != OvertimeTiebreakDecision then Failure(AppealState)
    else
      match TopOvertimeAppeal(m.appeals)
      case None => Failure(AppealState)
      case Some(a) =>
        if !Undecided(m.decisions, a) then Failure(ConstraintViolated) else Success(Chosen(m, a, winner, now))
  }

  function Verdict(m: Match, a: nat): Option<(Color, OutcomeMethod)>
    requires a < |m.appeals|
  {
    var appeal := m.appeals[a].val;
    match FindDecision(m.decisions, a)
    case Some(d) =>
      if appeal.scope != Overtime || !appeal.Tied() then None
          else Some((m.decisions[d].val.winner, ManualAfterOvertimeTie))
    case None =>
      if appeal.Tied() then None
      else Some((if appeal.red.final > appeal.blue.final then RED else BLUE,
                 if appeal.scope == Regulation then RegulationScore else OvertimeScore))
  }

  function PublishResult(m: Match, key: string, now: Time): Attempted {
    if m.outcome.Some? && m.outcome.value.key == key then Success(m)
    else if m.rules != FaultAppealOvertimeV2 || m.status != ResultPublicationReady
        || m.lifecycle != InProgress then Failure(AppealState)
    else
      match NewestValid(m, |m.appeals|)
      case None => Failure(AppealState)
      case Some(a) =>
        match Verdict(m, a)
        case None => Failure(AppealState)
        case Some((winner, how)) =>
          if m.outcome.Some? then Failure(AlreadyCompleted)
          else Success(m.(outcome := Some(Outcome(winner, how, a, now, key)),
                          status := Finished, lifecycle := Completed, finishedAt := Some(now)))
  }

  // ---------------------------------------------------------------- one step

  datatype Command =
    | Start | Pause | Resume | Expire(round: nat)
    | CastVote(found: nat, judge: Judge, color: Color) | Resolve(window: nat)
    | Cancel(entire: bool, retracted: bool) | Undo(operation: nat) | Exit(mode: ExitMode) | Claim
    | Complete
    | AppealRegulation(key: string, red: Adjustment, blue: Adjustment)
    | AppealOvertime(key: string, red: Adjustment, blue: Adjustment)
    | Restart | Choose(winner: Color) | Publish(key: string)

  function Apply(m: Match, command: Command, now: Time): Attempted {
    match command
    case Start => StartRound(m, now)
    case Pause => PauseRound(m, now)
    case Resume => ResumeRound(m, now)
    case Expire(i) => ExpireRound(m, i, now)
    case CastVote(found, judge, c) => SubmitVote(m, found, judge, c, now)
    case Resolve(w) => ResolveIfDue(m, w, now)
    case Cancel(entire, retracted) => CancelResults(m, entire, retracted, now)
    case Undo(o) => UndoCancellation(m, o)
    case Exit(mode) => ExitMatch(m, mode, now)
    case Claim => ClaimSuspended(m)
    case Complete => CompleteMatch(m, now)
    case AppealRegulation(key, red, blue) => CommitRegulationAppeal(m, key, red, blue, now)
    case AppealOvertime(key, red, blue) => CommitOvertimeAppeal(m, key, red, blue, now)
    case Restart => RestartOvertime(m)
    case Choose(winner) => SelectWinner(m, winner, now)
    case Publish(key) => PublishResult(m, key, now)
  }

  function Step(m: Match, command: Command, now: Time): Match {
    match Apply(m, command, now)
    case Success(after) => after
    case Failure(_) => m
  }

  datatype Timed = Timed(command: Command, now: Time)

  function Run(m: Match, script: seq<Timed>): Match
    decreases |script|
  {
    if script == [] then m else Run(Step(m, script[0].command, script[0].now), script[1..])
  }

  // ---------------------------------------------------------------- what a step can come to

  lemma ReconciledStep(m: Match, key: string, red: Adjustment, blue: Adjustment, now: Time)
    returns (accepted: bool, added: Option<Appeal>)
    ensures match AppealReconciled(m, key, red, blue, now)
            case Success(after) => accepted && after == if added.None? then m else Appealed(m, added.value)
            case Failure(_) => !accepted
    ensures added.Some? ==> Commits(m, key, red, blue, now, added.value)
  {
    accepted, added := AppealReconciled(m, key, red, blue, now).Success?, None;
    if accepted && FindAppeal(m.appeals, key).None? {
      var (first, second) := AppealRounds(m).value;
      added := Some(RegulationAppealOver(m, first, second, key, red, blue, now));
    }
  }

  /** A committed regulation appeal: stale appeals are swept first, even when the request is a replay. */
  lemma RegulationStep(m: Match, key: string, red: Adjustment, blue: Adjustment, now: Time)
    returns (accepted: bool, added: Option<Appeal>)
    ensures match AppealReconciled(CleanUpAppeals(m), key, red, blue, now)
            case Success(after) =>
              accepted && after == if added.None? then CleanUpAppeals(m) else Appealed(CleanUpAppeals(m), added.value)
            case Failure(_) => !accepted
    ensures Step(m, AppealRegulation(key, red, blue), now)
            == if !accepted then m
               else if added.None? then CleanUpAppeals(m) else Appealed(CleanUpAppeals(m), added.value)
    ensures accepted && added.Some? ==> Commits(CleanUpAppeals(m), key, red, blue, now, added.value)
  {
    accepted, added := ReconciledStep(CleanUpAppeals(m), key, red, blue, now);
  }

  /** What must hold for a new regulation appeal, and what it records. */
  ghost predicate Commits(m: Match, key: string, red: Adjustment, blue: Adjustment, now: Time, appeal: Appeal) {
    && m.rules == FaultAppealOvertimeV2 && m.lifecycle == InProgress && m.status == RegulationAppeal
    && FirstPending(m.windows, None).None? && AppealRounds(m).Some? && !HasValidRegulationAppeal(m)
    && |LiveSummaries(m, {AppealRounds(m).value.0, AppealRounds(m).value.1})| == 4
    && appeal == RegulationAppealOver(m, AppealRounds(m).value.0, AppealRounds(m).value.1, key, red, blue, now)
  }

  lemma OvertimeStep(m: Match, key: string, red: Adjustment, blue: Adjustment, now: Time) returns (round: Option<nat>)
    ensures round.Some? ==> round == TopOvertime(m.rounds, true) && m.status == OvertimeAppeal &&
                            m.rules == FaultAppealOvertimeV2 && !PendingIn(m, round.value)
                                && !HasOvertimeAppeal(m, m.rounds[round.value].val.attempt)
                                && |LiveSummaries(m, {round.value})| == 2
    ensures CommitOvertimeAppeal(m, key, red, blue, now).Success? && FindAppeal(m.appeals, key).None? ==> round.Some?
    ensures Step(m, AppealOvertime(key, red, blue), now)
            == if round.None? then m else Appealed(m, OvertimeAppealOver(m, round.value, key, red, blue, now))
  {
    round := None;
    if CommitOvertimeAppeal(m, key, red, blue, now).Success? && FindAppeal(m.appeals, key).None? {
      round := TopOvertime(m.rounds, true);
    }
  }

  lemma RestartStep(m: Match, now: Time) returns (a: Option<nat>)
    ensures a.Some? ==> a == TopOvertimeAppeal(m.appeals) && m.status == OvertimeTiebreakDecision
    ensures Step(m, Restart, now) == if a.None? then m else Restarted(m, a.value)
  {
    a := None;
    if m.rules == FaultAppealOvertimeV2 && m.status == OvertimeTiebreakDecision { a := TopOvertimeAppeal(m.appeals); }
  }

  lemma ExitStep(m: Match, mode: ExitMode, now: Time) returns (after: Match)
    ensures Step(m, Exit(mode), now) == after
    ensures after == if ExitAllowed(m, mode) then Exited(m, mode, now) else m
  {
    after := Step(m, Exit(mode), now);
  }

  /** What a vote comes to: nothing, one vote more, or a new window, after the one that was due is resolved. */
  lemma VoteStep(m: Match, found: nat, judge: Judge, c: Color, now: Time) returns (before: Match, after: Match)
    ensures Step(m, CastVote(found, judge, c), now) == after
    ensures before == m || (exists w: nat :: w < |m.windows| && Pending(m.windows[w], None)
                                             && before == ResolveWindow(m, w, now))
    ensures || after == m
            || (OpenForVotes(m, found) && AllResolved(before.windows)
                && after == OpenWindow(before, found, judge, c, now))
            || (exists w: nat :: w < |m.windows| && Pending(m.windows[w], None) && now < m.windows[w].val.endsAt
                                 && !HasVoted(m.votes, w, judge)
                                 && after == m.(votes := Append(m.votes, Vote(w, judge, c, now))))
  {
    before, after := m, m;
    if SubmitVote(m, found, judge, c, now).Success? {
      after := SubmitVote(m, found, judge, c, now).value;
      var first := FirstPending(m.windows, None);
      if first.Some? && now >= m.windows[first.value].val.endsAt { before := ResolveWindow(m, first.value, now); }
    }
  }

  lemma PublishStep(m: Match, key: string, now: Time) returns (outcome: Option<Outcome>)
    ensures outcome.Some? ==> m.outcome.None? && m.status == ResultPublicationReady && m.lifecycle == InProgress
                              && m.rules == FaultAppealOvertimeV2 && outcome.value.publishedAt == now
    ensures Step(m, Publish(key), now)
            == if outcome.None? then m
               else m.(outcome := outcome, status := Finished, lifecycle := Completed, finishedAt := Some(now))
  {
    outcome := None;
    if PublishResult(m, key, now).Success? && !(m.outcome.Some? && m.outcome.value.key == key) {
      outcome := PublishResult(m, key, now).value.outcome;
    }
  }

  lemma ChooseStep(m: Match, winner: Color, now: Time) returns (a: Option<nat>)
    ensures a.Some? ==> a == TopOvertimeAppeal(m.appeals) && m.status == OvertimeTiebreakDecision
    ensures a.Some? ==> Undecided(m.decisions, a.value)
    ensures Step(m, Choose(winner), now) == if a.None? then m else Chosen(m, a.value, winner, now)
  {
    a := None;
    if SelectWinner(m, winner, now).Success? { a := TopOvertimeAppeal(m.appeals); }
  }
}
