/** Short runs that show why the hypotheses of a step are needed. */
module MatchExamples {
  import opened Prelude
  import opened SportRules
  import opened MatchTables
  import opened MatchModel
  import opened MatchCommands
  import opened MatchHistory
  import opened MatchPhases
  import opened MatchPhaseSteps
  import opened MatchLedger
  import RoundTiming

  // ---------------------------------------------------------------- single steps

  function OpenRound(duration: nat, now: Time): Round {
    Round(Regulation, 1, 0, duration, now, now + duration, None, None, None)
  }

  /** The first round has just been started. */
  function Started(m: Match, now: Time): Match {
    m.(rounds := Append(m.rounds, OpenRound(m.roundDuration, now)), currentRound := Some(1), intermissionEndsAt := None,
       lifecycle := InProgress, startedAt := Some(now), status := Round1Running)
  }

  lemma Starts(m: Match, now: Time)
    requires m.status == Waiting && m.currentRound.None? && m.startedAt.None? && m.lifecycle != Suspended
    ensures Step(m, Start, now) == Started(m, now)
  {}

  lemma CancelAccepted(m: Match, ids: set<nat>, entire: bool, now: Time)
    requires SelectedRounds(m, entire) == ids != {} && m.lifecycle != Suspended
    ensures CancelResults(m, entire, m.status == Finished, now) == Success(Cancelled(m, ids, entire, now))
    ensures Step(m, Cancel(entire, m.status == Finished), now) == Cancelled(m, ids, entire, now)
  {
    var found := CancelStep(m, entire, m.status == Finished, now);
    assert CancelResults(m, entire, m.status == Finished, now).Success?;
  }

  lemma ResetsAll(m: Match, ids: set<nat>, now: Time)
    requires LiveRounds(m) == ids != {} && m.status != Finished && m.lifecycle != Suspended
    ensures Step(m, Cancel(true, false), now) == Cancelled(m, ids, true, now)
  {
    CancelAccepted(m, ids, true, now);
  }

  lemma ResetRounds(m: Match, ids: set<nat>, now: Time)
    ensures var after := Cancelled(m, ids, true, now);
            && after.rounds == Stamp(m.rounds, ids, m.nextAudit)
            && after.status == Waiting && after.currentRound.None? && after.startedAt.None?
            && after.roundDuration == m.roundDuration && after.nextAudit == m.nextAudit + 1
  {}

  /** A first round was started at 0 and reset at a. */
  lemma StartedAndReset(m: Match, a: Time) returns (after: Match)
    requires m.rounds == [] && m.status == Waiting && m.currentRound.None? && m.startedAt.None?
    requires m.lifecycle != Suspended
    ensures after == Step(Step(m, Start, 0), Cancel(true, false), a)
    ensures after == Cancelled(Started(m, 0), {0}, true, a)
    ensures after.rounds == [Row(OpenRound(m.roundDuration, 0), Some(m.nextAudit))]
    ensures after.status == Waiting && after.currentRound.None? && after.startedAt.None?
  {
    Starts(m, 0);
    assert LiveRounds(Started(m, 0)) == {0};
    ResetsAll(Started(m, 0), {0}, a);
    ResetRounds(Started(m, 0), {0}, a);
    after := Cancelled(Started(m, 0), {0}, true, a);
  }

  /** Nothing has been voted on or appealed. */
  predicate Bare(m: Match) {
    && m.windows == [] && m.votes == [] && m.events == [] && m.summaries == [] && m.appeals == [] && m.decisions == []
    && m.outcome.None?
  }

  lemma ResetIsBare(m: Match, ids: set<nat>, now: Time)
    requires Bare(m)
    ensures Bare(Cancelled(m, ids, true, now))
  {}

  // ---------------------------------------------------------------- an undo gives back time nobody fought

  function ResetAndBack(a: Time, b: Time): seq<Timed> {
    [] + [Timed(Start, 0)] + [Timed(Cancel(true, false), a)] + [Timed(Undo(0), b)]
  }

  lemma UndoesReset(m: Match, a: Time, b: Time)
    requires Bare(m) && m.rounds == [] && m.status == Waiting && m.currentRound.None? && m.startedAt.None?
    requires m.operations == [] && m.nextAudit == 0 && m.lifecycle != Suspended
    ensures var reset := Cancelled(Started(m, 0), {0}, true, a);
            && Step(reset, Undo(0), b) == Undone(reset, 0)
            && Undone(reset, 0).rounds == Started(m, 0).rounds
  {
    var reset := StartedAndReset(m, a);
    ResetIsBare(Started(m, 0), {0}, a);
    assert UndoAllowed(reset, 0);
  }

  /**
   * A match that is reset at a and brought back at b has its first round at b milliseconds, although it ran for a:
   * the deadline did not move while the round was cancelled.
   */
  lemma UndoCountsHiddenTime(m: Match, a: Time, b: Time) returns (script: seq<Timed>)
    requires m == NewMatch(m.rules, m.requiredJudgeCount, m.roundDuration, m.intermissionSeconds)
    requires a <= b <= m.roundDuration
    ensures TimedRun(m, script, 0) && LastTime(script, 0) == b && RoundTiming.Running(Run(m, script), 0)
    ensures ElapsedMs(Run(m, script).rounds[0].val, b) == b
    ensures RoundTiming.RunningTime(m, script, 0, 0, b) == a && RoundTiming.HiddenTime(m, script, 0, 0, b) == b - a
  {
    script := ResetAndBack(a, b);
    var none: seq<Timed> := [];
    var one := none + [Timed(Start, 0)];
    var two := one + [Timed(Cancel(true, false), a)];
    RunSnoc(m, none, Timed(Start, 0), 0);
    RunSnoc(m, one, Timed(Cancel(true, false), a), 0);
    RunSnoc(m, two, Timed(Undo(0), b), 0);
    var reset := StartedAndReset(m, a);
    UndoesReset(m, a, b);
    RoundTiming.TimesSnoc(m, none, Timed(Start, 0), 0, 0, a);
    RoundTiming.TimesSnoc(m, one, Timed(Cancel(true, false), a), 0, 0, b);
    RoundTiming.TimesSnoc(m, two, Timed(Undo(0), b), 0, 0, b);
    Starts(m, 0);
  }

  // ---------------------------------------------------------------- look-ups that find a cancelled round

  predicate IsNew(m: Match) {
    m == NewMatch(m.rules, m.requiredJudgeCount, m.roundDuration, m.intermissionSeconds)
  }

  /** The first round is started, reset at a, and started again at c: row 0 is open but cancelled, row 1 runs. */
  lemma StartsOver(m: Match, a: Time, c: Time) returns (script: seq<Timed>, after: Match)
    requires IsNew(m) && a <= c
    ensures TimedRun(m, script, 0) && LastTime(script, 0) == c && after == Run(m, script) && PhaseOK(after)
    ensures after.rounds == [Row(OpenRound(m.roundDuration, 0), Some(0)), Row(OpenRound(m.roundDuration, c), None)]
    ensures after.status == Round1Running && after.currentRound == Some(1) && after.lifecycle == InProgress
    ensures Bare(after)
  {
    var none: seq<Timed> := [];
    var one := none + [Timed(Start, 0)];
    var two := one + [Timed(Cancel(true, false), a)];
    script := two + [Timed(Start, c)];
    RunSnoc(m, none, Timed(Start, 0), 0);
    RunSnoc(m, one, Timed(Cancel(true, false), a), 0);
    RunSnoc(m, two, Timed(Start, c), 0);
    var reset := StartedAndReset(m, a);
    ResetIsBare(Started(m, 0), {0}, a);
    Starts(reset, c);
    after := Started(reset, c);
    TimedIsPermitted(m, script, 0);
    NewMatchPhase(m.rules, m.requiredJudgeCount, m.roundDuration, m.intermissionSeconds);
    RunPhase(m, script);
  }

  /** The wake-up of the first round, arriving when the second runs, ends a cancelled round and the running phase. */
  lemma WakeUpEndsCancelledRound(m: Match, a: Time, c: Time, now: Time) returns (script: seq<Timed>)
    requires IsNew(m) && a <= c <= now && m.roundDuration <= now
    ensures TimedRun(m, script, 0) && LastTime(script, 0) <= now
    ensures var after := Run(m, script);
            Fits(after) && Expires(after, 0, now) && !Live(after.rounds, 0) && !Fits(Step(after, Expire(0), now))
  {
    var after;
    script, after := StartsOver(m, a, c);
    ExpiryKeepsPhaseExactly(after, 0, now);
  }

  /** The look-up for the running round may return the cancelled one, and the vote opens a window nobody will cancel. */
  lemma VoteFindsCancelledRound(m: Match, a: Time, c: Time, now: Time, judge: Judge, color: Color)
    returns (script: seq<Timed>)
    requires IsNew(m) && a <= c <= now < m.roundDuration
    ensures TimedRun(m, script, 0) && LastTime(script, 0) <= now
    ensures var after := Run(m, script);
            RowsFollow(after) && SubmitVote(after, 0, judge, color, now).Success?
                && !RowsFollow(Step(after, CastVote(0, judge, color), now))
  {
    var after;
    script, after := StartsOver(m, a, c);
    VotesFirst(after, 0, judge, color, now);
    OpenFollowsExactly(after, 0, judge, color, now);
  }

  // ---------------------------------------------------------------- a vote in the last second

  lemma VotesFirst(m: Match, found: nat, judge: Judge, c: Color, now: Time)
    requires m.windows == [] && OpenForVotes(m, found) && now < m.rounds[found].val.endsAt
    ensures Step(m, CastVote(found, judge, c), now) == OpenWindow(m, found, judge, c, now)
  {}

  lemma EndsBeforeItsWindow(m: Match, i: nat, now: Time)
    requires Expires(m, i, now) && forall w :: 0 <= w < |m.windows| ==> now < m.windows[w].val.endsAt
    ensures Step(m, Expire(i), now) == Closed(m, Ended(m, i), i, now)
  {}

  lemma ResolvesLate(m: Match, w: nat, now: Time)
    requires w < |m.windows| && Pending(m.windows[w], Some(now))
    ensures Step(m, Resolve(w), now) == ResolveWindow(m, w, now)
  {}

  /** The ballots of judges 0 to k - 1, all for c and all received at v. */
  function BallotsCast(k: nat, c: Color, v: Time): (votes: Table<MatchModel.Vote>)
    ensures |votes| == k
  {
    seq(k, j requires 0 <= j < k => Row(MatchModel.Vote(0, Assigned(j), c, v), None))
  }

  /** The first round runs, and k judges have voted for c at v. */
  function Voted(m: Match, k: nat, c: Color, v: Time): Match {
    var started := Started(m, 0);
    started.(
      windows := Append(m.windows, Window(0, 1, v, v + SCORING_WINDOW_DURATION_MS,
                                          ElapsedMs(OpenRound(m.roundDuration, 0), v), None, None)),
      votes := BallotsCast(k, c, v))
  }

  /** Another judge votes in the window that is open. */
  lemma {:induction false} VotesNext(m: Match, found: nat, w: nat, judge: Judge, c: Color, now: Time)
    requires OpenForVotes(m, found) && now < m.rounds[found].val.endsAt && FirstPending(m.windows, None) == Some(w)
    requires var window := m.windows[w].val;
             window.roundNumber == m.rounds[found].val.number && window.startedAt <= now < window.endsAt
    requires !HasVoted(m.votes, w, judge)
    ensures Step(m, CastVote(found, judge, c), now)
            == m.(votes := Append(m.votes, MatchModel.Vote(w, judge, c, now)))
  {}

  lemma {:induction false} OnlyOnePending(windows: Table<Window>)
    requires |windows| == 1 && Pending(windows[0], None)
    ensures FirstPending(windows, None) == Some(0)
  {
    assert windows[..0] == [];
  }

  lemma {:induction false} VotedIsOpen(m: Match, k: nat, c: Color, v: Time)
    requires m.windows == [] && m.rounds == []
    ensures OpenForVotes(Voted(m, k, c, v), 0) && FirstPending(Voted(m, k, c, v).windows, None) == Some(0)
    ensures !HasVoted(Voted(m, k, c, v).votes, 0, Assigned(k))
  {
    OnlyOnePending(Voted(m, k, c, v).windows);
  }

  lemma {:induction false} OneVoteMore(m: Match, k: nat, c: Color, v: Time)
    ensures Voted(m, k, c, v).(votes := Append(Voted(m, k, c, v).votes, MatchModel.Vote(0, Assigned(k), c, v)))
            == Voted(m, k + 1, c, v)
  {
    assert Append(BallotsCast(k, c, v), MatchModel.Vote(0, Assigned(k), c, v)) == BallotsCast(k + 1, c, v);
  }

  lemma {:induction false} JoinsIn(m: Match, k: nat, c: Color, v: Time)
    requires m.windows == [] && m.rounds == [] && v < m.roundDuration
    ensures Step(Voted(m, k, c, v), CastVote(0, Assigned(k), c), v) == Voted(m, k + 1, c, v)
  {
    VotedIsOpen(m, k, c, v);
    VotesNext(Voted(m, k, c, v), 0, 0, Assigned(k), c, v);
    OneVoteMore(m, k, c, v);
  }

  lemma {:induction false} CastsFirst(m: Match, c: Color, v: Time) returns (script: seq<Timed>)
    requires IsNew(m) && v < m.roundDuration
    ensures Reaches(m, script, Voted(m, 1, c, v), v)
  {
    var none: seq<Timed> := [];
    Starts(m, 0);
    Then(m, none, m, 0, Timed(Start, 0), Started(m, 0));
    VotesFirst(Started(m, 0), 0, Assigned(0), c, v);
    assert Append(m.votes, MatchModel.Vote(0, Assigned(0), c, v)) == BallotsCast(1, c, v);
    script := none + [Timed(Start, 0)] + [Timed(CastVote(0, Assigned(0), c), v)];
    Then(m, none + [Timed(Start, 0)], Started(m, 0), 0, Timed(CastVote(0, Assigned(0), c), v), Voted(m, 1, c, v));
  }

  lemma {:induction false} CastsNext(m: Match, earlier: seq<Timed>, k: nat, c: Color, v: Time)
    returns (script: seq<Timed>)
    requires IsNew(m) && v < m.roundDuration && Reaches(m, earlier, Voted(m, k, c, v), v)
    ensures Reaches(m, script, Voted(m, k + 1, c, v), v)
  {
    var vote := Timed(CastVote(0, Assigned(k), c), v);
    JoinsIn(m, k, c, v);
    script := earlier + [vote];
    Then(m, earlier, Voted(m, k, c, v), v, vote, Voted(m, k + 1, c, v));
  }

  /** A round is started at 0, and at v judge after judge votes for c. */
  lemma {:induction false} CastsAll(m: Match, k: nat, c: Color, v: Time) returns (script: seq<Timed>)
    requires IsNew(m) && k >= 1 && v < m.roundDuration
    ensures Reaches(m, script, Voted(m, k, c, v), v)
  {
    if k == 1 {
      script := CastsFirst(m, c, v);
    } else {
      var earlier := CastsAll(m, k - 1, c, v);
      script := CastsNext(m, earlier, k - 1, c, v);
    }
  }

  lemma {:induction false} AllForOne(k: nat, c: Color, v: Time)
    ensures Votes(Ballots(BallotsCast(k, c, v), 0), c) == k
    ensures Votes(Ballots(BallotsCast(k, c, v), 0), Other(c)) == 0
  {
    if k > 0 {
      AllForOne(k - 1, c, v);
      assert BallotsCast(k, c, v)[..k - 1] == BallotsCast(k - 1, c, v);
      var ballots := Ballots(BallotsCast(k - 1, c, v), 0);
      assert (ballots + [c])[..|ballots|] == ballots;
    }
  }

  /** Ballots of a bare majority of the crew, all for one colour, decide. */
  lemma {:induction false} MajorityWins(k: nat, judges: nat, c: Color, v: Time)
    requires k == JudgeMajority(judges)
    ensures Award(Ballots(BallotsCast(k, c, v), 0), judges) == Some(c)
  {
    AllForOne(k, c, v);
  }

  lemma LonePoint(events: Table<Event>, c: Color)
    requires |events| == 1 && events[0].stamp.None? && events[0].val.round == 0 && events[0].val.color == c
    ensures Points(events, {0}, c) == events[0].val.value
  {
    assert events[..0] == [];
  }

  lemma {:induction false} NoPointsNoBase(summaries: Table<Summary>, ids: set<nat>, c: Color)
    requires forall s :: 0 <= s < |summaries| ==> summaries[s].val.points == 0
    ensures Base(summaries, ids, c) == 0
  {
    if summaries != [] { NoPointsNoBase(summaries[..|summaries| - 1], ids, c); }
  }

  predicate EndedLive(m: Match, i: nat) {
    Live(m.rounds, i) && m.rounds[i].val.endedAt.Some?
  }

  /** After the votes at v the round ended at e, before the window did. */
  lemma EndsUnresolved(m: Match, k: nat, c: Color, v: Time, e: Time) returns (after: Match)
    requires IsNew(m) && m.rules == FaultAppealOvertimeV2
    requires v < m.roundDuration <= e < v + SCORING_WINDOW_DURATION_MS
    ensures after == Step(Voted(m, k, c, v), Expire(0), e)
    ensures EndedLive(after, 0) && after.events == [] && after.requiredJudgeCount == m.requiredJudgeCount
    ensures forall s :: 0 <= s < |after.summaries| ==> after.summaries[s].val.points == 0
    ensures |after.windows| == 1 && after.votes == BallotsCast(k, c, v)
    ensures var w := after.windows[0];
            w.stamp.None? && w.val.resolvedAt.None? && w.val.round == 0
                && w.val.endsAt == v + SCORING_WINDOW_DURATION_MS
  {
    var voted := Voted(m, k, c, v);
    EndsBeforeItsWindow(voted, 0, e);
    after := Closed(voted, Ended(voted, 0), 0, e);
  }

  lemma ResolvedAfterwards(m: Match, r: Time, k: nat, c: Color, v: Time) returns (after: Match)
    requires EndedLive(m, 0) && m.events == [] && k == JudgeMajority(m.requiredJudgeCount)
    requires forall s :: 0 <= s < |m.summaries| ==> m.summaries[s].val.points == 0
    requires |m.windows| == 1 && m.votes == BallotsCast(k, c, v)
    requires m.windows[0].stamp.None? && m.windows[0].val.resolvedAt.None? && m.windows[0].val.round == 0
    requires m.windows[0].val.endsAt <= r
    ensures after == Step(m, Resolve(0), r)
    ensures EndedLive(after, 0) && Base(after.summaries, {0}, c) == 0 && Points(after.events, {0}, c) == 1
  {
    ResolvesLate(m, 0, r);
    after := ResolveWindow(m, 0, r);
    MajorityWins(k, m.requiredJudgeCount, c, v);
    LonePoint(after.events, c);
    NoPointsNoBase(after.summaries, {0}, c);
  }

  /**
   * A majority of the crew, whatever its size, votes at v in the last second of a round that ends at e: the point is
   * on the ledger, and not in what the round captured.
   */
  lemma LateVoteIsNotCaptured(m: Match, v: Time, e: Time, r: Time, c: Color) returns (script: seq<Timed>)
    requires IsNew(m) && m.rules == FaultAppealOvertimeV2
    requires v < m.roundDuration <= e < v + SCORING_WINDOW_DURATION_MS <= r
    ensures TimedRun(m, script, 0) && LastTime(script, 0) == r
    ensures var after := Run(m, script);
            EndedLive(after, 0) && Base(after.summaries, {0}, c) == 0 && Points(after.events, {0}, c) == 1
  {
    var k := JudgeMajority(m.requiredJudgeCount);
    var voting := CastsAll(m, k, c, v);
    var ended := EndsUnresolved(m, k, c, v, e);
    Then(m, voting, Voted(m, k, c, v), v, Timed(Expire(0), e), ended);
    var after := ResolvedAfterwards(ended, r, k, c, v);
    var ending := voting + [Timed(Expire(0), e)];
    script := ending + [Timed(Resolve(0), r)];
    Then(m, ending, ended, e, Timed(Resolve(0), r), after);
  }

  // ---------------------------------------------------------------- a reset while a vote is out

  /** One judge has voted, and the match is reset before the window is resolved. */
  lemma {:induction false} VotedAndReset(m: Match, v: Time, a: Time, c: Color)
    returns (script: seq<Timed>, reset: Match)
    requires IsNew(m) && v < m.roundDuration && v <= a
    ensures Reaches(m, script, reset, a)
    ensures reset.status == Waiting && reset.currentRound.None? && reset.startedAt.None?
    ensures reset.lifecycle == NotStarted && reset.roundDuration == m.roundDuration && |reset.rounds| == 1
    ensures |reset.windows| == 1 && reset.windows[0].stamp.Some? && reset.windows[0].val.resolvedAt.None?
  {
    var voting := CastsAll(m, 1, c, v);
    var voted := Voted(m, 1, c, v);
    assert LiveRounds(voted) == {0};
    ResetsAll(voted, {0}, a);
    reset := Cancelled(voted, {0}, true, a);
    ResetRounds(voted, {0}, a);
    Then(m, voting, voted, v, Timed(Cancel(true, false), a), reset);
    script := voting + [Timed(Cancel(true, false), a)];
  }

  /** And the match is started again. */
  lemma {:induction false} StartsOverVoted(m: Match, v: Time, a: Time, b: Time, c: Color)
    returns (script: seq<Timed>, after: Match)
    requires IsNew(m) && v < m.roundDuration && v <= a <= b
    ensures Reaches(m, script, after, b)
    ensures after.status == Round1Running && after.currentRound == Some(1) && |after.rounds| == 2
    ensures after.rounds[1] == Row(OpenRound(m.roundDuration, b), None)
    ensures |after.windows| == 1 && after.windows[0].stamp.Some? && after.windows[0].val.resolvedAt.None?
  {
    var resetting, reset := VotedAndReset(m, v, a, c);
    Starts(reset, b);
    after := Started(reset, b);
    script := resetting + [Timed(Start, b)];
    Then(m, resetting, reset, a, Timed(Start, b), after);
  }

  /** From then on every vote in the running round is refused. */
  lemma ResetBlocksVoting(m: Match, v: Time, a: Time, b: Time, now: Time, c: Color, judge: Judge, color: Color)
    returns (script: seq<Timed>)
    requires IsNew(m) && v < m.roundDuration && v <= a <= b <= now < b + m.roundDuration
    ensures TimedRun(m, script, 0) && LastTime(script, 0) == b
    ensures var after := Run(m, script);
            OpenForVotes(after, 1) && Live(after.rounds, 1) && now < after.rounds[1].val.endsAt
                && SubmitVote(after, 1, judge, color, now) == Failure(ConstraintViolated)
  {
    var after;
    script, after := StartsOverVoted(m, v, a, b, c);
    assert FirstPending(after.windows, None).None?;
  }

  // ---------------------------------------------------------------- a suspended match

  /** The first round has been fought, from 0 to e, and nobody voted. */
  lemma {:induction false} EndsVoteless(m: Match, e: Time) returns (after: Match)
    requires m.rounds == [] && m.windows == [] && m.roundDuration <= e
    ensures after == Step(Started(m, 0), Expire(0), e)
    ensures EndedLive(after, 0) && |after.rounds| == 1 && after.windows == [] && after.status == Break
    ensures after.rounds[0].val.stage == Regulation && after.rounds[0].val.number == 1
    ensures after.currentRound == Some(1) && after.lifecycle == InProgress
  {
    var started := Started(m, 0);
    assert Expires(started, 0, e);
    EndsBeforeItsWindow(started, 0, e);
    after := Closed(started, Ended(started, 0), 0, e);
  }

  lemma {:induction false} FirstIsSelected(m: Match)
    requires EndedLive(m, 0) && |m.rounds| == 1 && m.status == Break && m.currentRound == Some(1)
    requires m.rounds[0].val.stage == Regulation && m.rounds[0].val.number == 1
    ensures SelectedRounds(m, false) == {0}
  {}

  lemma {:induction false} NoneNumbered(m: Match, numbers: set<nat>, k: nat)
    requires forall i :: 0 <= i < |m.rounds| ==> m.rounds[i].val.number !in numbers
    ensures Stamp(m.rounds, RoundsNumbered(m, numbers), k) == m.rounds
  {}

  lemma {:induction false} KeepsFirst(m: Match, now: Time)
    requires |m.rounds| == 1 && m.rounds[0].val.number == 1
    ensures Exited(m, KeepRound1, now).rounds == m.rounds
  {
    NoneNumbered(m, CancelledNumbers(KeepRound1), m.nextAudit);
  }

  lemma {:induction false} ResetRefused(m: Match, now: Time)
    requires m.lifecycle == Suspended && m.status == Break && SelectedRounds(m, false) == {0}
    ensures CancelResults(m, false, false, now) == Failure(ConstraintViolated)
  {
    assert 0 in SelectedRounds(m, false);
  }

  lemma {:induction false} NoOvertimeYet(m: Match, now: Time)
    requires forall i :: 0 <= i < |m.rounds| ==> m.rounds[i].val.stage == Regulation
    ensures Permitted(m, Exit(KeepRound1), now)
  {
    assert forall i: nat :: !LiveOvertime(m.rounds, i, false);
    assert !HasLiveOvertime(m);
  }

  lemma {:induction false} LeavesSuspended(m: Match, now: Time) returns (after: Match)
    requires EndedLive(m, 0) && |m.rounds| == 1 && m.windows == [] && m.status == Break && m.lifecycle == InProgress
    requires m.rounds[0].val.stage == Regulation && m.rounds[0].val.number == 1
    ensures after == Step(m, Exit(KeepRound1), now) && Permitted(m, Exit(KeepRound1), now)
    ensures after.lifecycle == Suspended && after.status == Break
    ensures SelectedRounds(after, false) == {0}
  {
    after := ExitStep(m, KeepRound1, now);
    assert HasEnded(m, 1) && ExitAllowed(m, KeepRound1);
    NoOvertimeYet(m, now);
    KeepsFirst(m, now);
    FirstIsSelected(after);
  }

  lemma {:induction false} FirstEnds(m: Match, e: Time) returns (script: seq<Timed>, ended: Match)
    requires IsNew(m) && m.roundDuration <= e
    ensures Reaches(m, script, ended, e)
    ensures EndedLive(ended, 0) && |ended.rounds| == 1 && ended.windows == [] && ended.status == Break
    ensures ended.rounds[0].val.stage == Regulation && ended.rounds[0].val.number == 1
    ensures ended.currentRound == Some(1) && ended.lifecycle == InProgress
  {
    var none: seq<Timed> := [];
    Starts(m, 0);
    Then(m, none, m, 0, Timed(Start, 0), Started(m, 0));
    ended := EndsVoteless(m, e);
    Then(m, none + [Timed(Start, 0)], Started(m, 0), 0, Timed(Expire(0), e), ended);
    script := none + [Timed(Start, 0)] + [Timed(Expire(0), e)];
  }

  lemma {:induction false} LeftIsStuck(m: Match, ending: seq<Timed>, ended: Match, e: Time, now: Time)
    returns (script: seq<Timed>, left: Match)
    requires Reaches(m, ending, ended, e) && EndedLive(ended, 0) && |ended.rounds| == 1 && ended.windows == []
    requires ended.rounds[0].val.stage == Regulation && ended.rounds[0].val.number == 1
    requires ended.status == Break && ended.lifecycle == InProgress
    ensures Reaches(m, script, left, e) && left.lifecycle == Suspended && SelectedRounds(left, false) == {0}
    ensures CancelResults(left, false, false, now) == Failure(ConstraintViolated)
  {
    var exit := Timed(Exit(KeepRound1), e);
    left := LeavesSuspended(ended, e);
    script := ending + [exit];
    Then(m, ending, ended, e, exit, left);
    ResetRefused(left, now);
  }

  /** After its first round a match is left with the round kept; what would be reset is there, and is not reset. */
  lemma {:induction false} SuspendedResetIsRefused(m: Match, e: Time, now: Time)
    returns (script: seq<Timed>, left: Match)
    requires IsNew(m) && m.roundDuration <= e <= now
    ensures Reaches(m, script, left, e) && left.lifecycle == Suspended && SelectedRounds(left, false) == {0}
    ensures CancelResults(left, false, false, now) == Failure(ConstraintViolated)
  {
    var ending, ended := FirstEnds(m, e);
    script, left := LeftIsStuck(m, ending, ended, e, now);
  }
}
