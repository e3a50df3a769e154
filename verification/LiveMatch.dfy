/** The match row and its ledger updated in place, one locked transaction per method. */
module LiveMatch {
  import opened Prelude
  import opened SportRules
  import opened MatchTables
  import opened MatchModel
  import opened MatchHistory
  import opened MatchPhases
  import opened MatchPhaseSteps
  import opened MatchScores
  import Cmd = MatchCommands

  /** Adds up the captured points of the rounds, colour by colour. */
  method SumCaptured(summaries: Table<Summary>, ids: set<nat>) returns (red: int, blue: int)
    ensures red == Base(summaries, ids, RED) && blue == Base(summaries, ids, BLUE)
  {
    red, blue := 0, 0;
    for i := 0 to |summaries|
      invariant red == Base(summaries[..i], ids, RED) && blue == Base(summaries[..i], ids, BLUE)
    {
      assert summaries[..i + 1][..i] == summaries[..i];
      var summary := summaries[i].val;
      if summaries[i].stamp.None? && summary.round in ids {
        if summary.color == RED { red := red + summary.points; } else { blue := blue + summary.points; }
      }
    }
    assert summaries[..|summaries|] == summaries;
  }

  /** The phase table holds, the ledger agrees with the windows, and audit entries are in order. */
  ghost predicate Sound(m: Match) {
    PhaseOK(m) && LedgerOK(m)
  }

  lemma {:induction false} NewMatchIsSound(rules: RulesVersion, judges: nat, duration: nat, intermission: nat)
    ensures Sound(NewMatch(rules, judges, duration, intermission))
  {
    NewMatchPhase(rules, judges, duration, intermission);
    RunLedger(NewMatch(rules, judges, duration, intermission), [], {}, RED);
  }

  /** A permitted command that goes through leaves the match sound. */
  lemma {:induction false} AttemptKeeps(m: Match, command: Cmd.Command, now: Time)
    requires Sound(m) && Permitted(m, command, now)
    ensures Cmd.Apply(m, command, now).Success? ==> Sound(Cmd.Apply(m, command, now).value)
  {
    StepPhase(m, command, now);
    StepLedger(m, command, now);
  }

  /** The columns of the match row the commands write. */
  datatype MatchRow = MatchRow(
    status: Status, lifecycle: Lifecycle, currentRound: Option<nat>,
    startedAt: Option<Time>, finishedAt: Option<Time>, intermissionEndsAt: Option<Time>)

  class MatchRecord {
    const rules: RulesVersion
    const requiredJudgeCount: nat
    const roundDuration: nat
    const intermissionSeconds: nat
    var row: MatchRow
    var rounds: Table<Round>
    var windows: Table<Window>
    var votes: Table<MatchModel.Vote>
    var events: Table<Event>
    var summaries: Table<Summary>
    var appeals: Table<Appeal>
    var decisions: Table<Decision>
    var outcome: Option<Outcome>
    var operations: seq<Operation>
    var nextAudit: nat

    constructor (rules: RulesVersion, judges: nat, duration: nat, intermission: nat)
      ensures Model() == NewMatch(rules, judges, duration, intermission) && Valid()
    {
      this.rules, requiredJudgeCount, roundDuration, intermissionSeconds := rules, judges, duration, intermission;
      row := MatchRow(Waiting, NotStarted, None, None, None, None);
      rounds, windows, votes, events, summaries, appeals, decisions := [], [], [], [], [], [], [];
      outcome, operations, nextAudit := None, [], 0;
      new;
      NewMatchIsSound(rules, judges, duration, intermission);
    }

    /** The match row with its ledger, as the last transaction left it. */
    function Model(): Match
      reads this
    {
      Match(rules, requiredJudgeCount, roundDuration, intermissionSeconds,
            row.status, row.lifecycle, row.currentRound, row.startedAt, row.finishedAt, row.intermissionEndsAt,
            rounds, windows, votes, events, summaries, appeals, decisions, outcome, operations, nextAudit)
    }

    ghost predicate Valid()
      reads this
    {
      Sound(Model())
    }

    /** The answer of a transaction over the match as it was: one that throws changes nothing. */
    ghost predicate Answers(before: Match, attempted: Cmd.Attempted, error: Option<MatchError>)
      reads this
    {
      match attempted
      case Success(expected) => error.None? && Model() == expected
      case Failure(e) => error == Some(e) && Model() == before
    }

    // ---------------------------------------------------------------- rounds

    method BeginRound(d: Cmd.Descriptor, now: Time)
      requires Cmd.NextRoundDescriptor(Model()) == Some(d) && row.lifecycle != Suspended
      modifies this
      ensures Cmd.StartRound(old(Model()), now) == Success(Model())
    {
      rounds := Append(rounds, Round(d.stage, d.number, d.attempt, roundDuration, now, now + roundDuration, None, None,
                                     None));
      row := row.(
        currentRound := Some(d.number),
        intermissionEndsAt := None,
        lifecycle := InProgress,
        startedAt := if d.number == 1 && d.stage == Regulation then Some(now) else row.startedAt,
        status := if d.stage == Overtime then OvertimeRunning else if d.number == 1 then Round1Running
            else Round2Running);
    }

    method StartRound(now: Time) returns (error: Option<MatchError>)
      modifies this
      ensures Answers(old(Model()), Cmd.StartRound(old(Model()), now), error)
      ensures old(Valid()) ==> Valid()
    {
      if Valid() { AttemptKeeps(Model(), Cmd.Start, now); }
      var descriptor := Cmd.NextRoundDescriptor(Model());
      if descriptor.None? { return Some(InvalidRoundStart); }
      if row.lifecycle == Suspended { return Some(ConstraintViolated); }
      BeginRound(descriptor.value, now);
      error := None;
    }

    method MoveClock(i: nat, round: Round, status: Status)
      requires i < |rounds|
      modifies this`rounds, this`row
      ensures Model() == old(Model()).(rounds := SetVal(old(rounds), i, round), status := status)
    {
      rounds := SetVal(rounds, i, round);
      row := row.(status := status);
    }

    method PauseRound(now: Time) returns (error: Option<MatchError>)
      modifies this`rounds, this`row
      ensures Answers(old(Model()), Cmd.PauseRound(old(Model()), now), error)
      ensures old(Valid()) ==> Valid()
    {
      if Valid() { AttemptKeeps(Model(), Cmd.Pause, now); }
      var number := Cmd.RunningNumber(row.status);
      if number.None? || row.currentRound != number { return Some(InvalidRoundControl); }
      var open := LatestOpen(rounds, number.value);
      if open.None? { return Some(InvalidRoundControl); }
      var round := rounds[open.value].val;
      var remaining := if round.endsAt <= now then 0 else round.endsAt - now;
      if remaining == 0 { return Some(InvalidRoundControl); }
      MoveClock(open.value, round.(pausedAt := Some(now), remaining := Some(remaining)),
                if row.status == OvertimeRunning then OvertimePaused
                else if number.value == 1 then Round1Paused else Round2Paused);
      error := None;
    }

    method ResumeRound(now: Time) returns (error: Option<MatchError>)
      modifies this`rounds, this`row
      ensures Answers(old(Model()), Cmd.ResumeRound(old(Model()), now), error)
      ensures old(Valid()) ==> Valid()
    {
      if Valid() { AttemptKeeps(Model(), Cmd.Resume, now); }
      var number := Cmd.PausedNumber(row.status);
      if number.None? || row.currentRound != number { return Some(InvalidRoundControl); }
      var open := LatestOpen(rounds, number.value);
      if open.None? { return Some(InvalidRoundControl); }
      var round := rounds[open.value].val;
      if round.pausedAt.None? || round.remaining.None? { return Some(InvalidRoundControl); }
      MoveClock(open.value, round.(endsAt := now + round.remaining.value, pausedAt := None, remaining := None),
                if row.status == OvertimePaused then OvertimeRunning
                else if number.value == 1 then Round1Running else Round2Running);
      error := None;
    }

    // ---------------------------------------------------------------- voting

    method ResolveLockedWindow(w: nat, now: Time)
      requires w < |windows|
      modifies this`windows, this`events
      ensures Model() == Cmd.ResolveWindow(old(Model()), w, now)
    {
      var window := windows[w].val;
      var red, blue := Votes(Ballots(votes, w), RED), Votes(Ballots(votes, w), BLUE);
      var majority := JudgeMajority(requiredJudgeCount);
      var winner := if red >= majority then Some(RED) else if blue >= majority then Some(BLUE) else None;
      windows := SetVal(windows, w, window.(resolvedAt := Some(now), winner := winner));
      if winner.Some? {
        events := Append(events, Event(w, window.round, window.roundNumber, winner.value, JUDGE_POINT_VALUE, now));
      }
    }

    /** Resolves what is due, first started first, until nothing is; it ends because every pass resolves a window. */
    method ResolveDueWindowsLocked(now: Time)
      modifies this`windows, this`events
      ensures Model() == Cmd.ResolveDue(old(Model()), now)
      ensures FirstPending(windows, Some(now)).None?
    {
      var next := FirstPending(windows, Some(now));
      while next.Some?
        invariant next == FirstPending(windows, Some(now))
        invariant Cmd.ResolveDue(Model(), now) == Cmd.ResolveDue(old(Model()), now)
        decreases Unresolved(windows)
      {
        Cmd.ResolvingOne(windows, next.value, Cmd.ResolveWindow(Model(), next.value, now).windows[next.value]);
        ResolveLockedWindow(next.value, now);
        assert windows == Model().windows;
        next := FirstPending(windows, Some(now));
      }
    }

    method ResolveIfDue(w: nat, now: Time) returns (error: Option<MatchError>)
      modifies this`windows, this`events
      ensures Answers(old(Model()), Cmd.ResolveIfDue(old(Model()), w, now), error)
      ensures old(Valid()) ==> Valid()
    {
      if Valid() { AttemptKeeps(Model(), Cmd.Resolve(w), now); }
      if w < |windows| && windows[w].stamp.None? && windows[w].val.resolvedAt.None? && windows[w].val.endsAt <= now {
        ResolveLockedWindow(w, now);
      }
      error := None;
    }

    method OpenWindow(found: nat, judge: Judge, c: Color, now: Time)
      requires found < |rounds|
      modifies this`windows, this`votes
      ensures Model() == Cmd.OpenWindow(old(Model()), found, judge, c, now)
    {
      var round := rounds[found].val;
      var w := |windows|;
      windows := Append(windows, Window(found, round.number, now, now + SCORING_WINDOW_DURATION_MS,
                                        Cmd.ElapsedMs(round, now), None, None));
      votes := Append(votes, MatchModel.Vote(w, judge, c, now));
    }

    method TryOpenWindow(found: nat, judge: Judge, c: Color, now: Time) returns (error: Option<MatchError>)
      requires found < |rounds|
      modifies this`windows, this`votes
      ensures Answers(old(Model()), Cmd.TryOpenWindow(old(Model()), found, judge, c, now), error)
    {
      if !AllResolved(windows) { return Some(ConstraintViolated); }
      OpenWindow(found, judge, c, now);
      error := None;
    }

    method JoinWindow(w: nat, roundNumber: nat, judge: Judge, c: Color, now: Time) returns (error: Option<MatchError>)
      requires w < |windows|
      modifies this`votes
      ensures Answers(old(Model()), Cmd.JoinWindow(old(Model()), w, roundNumber, judge, c, now), error)
    {
      if windows[w].val.roundNumber != roundNumber { return Some(PriorWindowPending); }
      if !(windows[w].val.startedAt <= now < windows[w].val.endsAt) { return Some(RoundEndedForVote); }
      if Cmd.HasVoted(votes, w, judge) { return Some(DuplicateVote); }
      votes := Append(votes, MatchModel.Vote(w, judge, c, now));
      error := None;
    }

    /** A window that is refused takes the resolution before it back. */
    method ResolveAndOpen(w: nat, found: nat, judge: Judge, c: Color, now: Time) returns (error: Option<MatchError>)
      requires w < |windows| && found < |rounds|
      modifies this`windows, this`votes, this`events
      ensures match Cmd.TryOpenWindow(Cmd.ResolveWindow(old(Model()), w, now), found, judge, c, now)
              case Success(after) => error.None? && Model() == after
              case Failure(e) => error == Some(e) && Model() == old(Model())
    {
      var savedWindows, savedEvents := windows, events;
      ResolveLockedWindow(w, now);
      error := TryOpenWindow(found, judge, c, now);
      if error.Some? { windows, events := savedWindows, savedEvents; }
    }

    method SubmitVote(found: nat, judge: Judge, c: Color, now: Time) returns (error: Option<MatchError>)
      modifies this`windows, this`votes, this`events
      ensures Answers(old(Model()), Cmd.SubmitVote(old(Model()), found, judge, c, now), error)
      ensures old(Valid()) && Permitted(old(Model()), Cmd.CastVote(found, judge, c), now) ==> Valid()
    {
      if Valid() && Permitted(Model(), Cmd.CastVote(found, judge, c), now) {
        AttemptKeeps(Model(), Cmd.CastVote(found, judge, c), now);
      }
      if row.status == Round1Paused || row.status == Round2Paused || row.status == OvertimePaused {
        return Some(RoundPausedForVote);
      }
      if !Cmd.OpenForVotes(Model(), found) { return Some(MatchNotRunningForVote); }
      var round := rounds[found].val;
      if now >= round.endsAt { return Some(RoundEndedForVote); }
      var unresolved := FirstPending(windows, None);
      if unresolved.Some? && now >= windows[unresolved.value].val.endsAt {
        error := ResolveAndOpen(unresolved.value, found, judge, c, now);
        return;
      }
      if unresolved.None? {
        error := TryOpenWindow(found, judge, c, now);
        return;
      }
      error := JoinWindow(unresolved.value, round.number, judge, c, now);
    }

    // ---------------------------------------------------------------- expiry

    method EndRound(i: nat)
      requires i < |rounds|
      modifies this`rounds
      ensures Model() == Cmd.Ended(old(Model()), i)
    {
      rounds := SetVal(rounds, i, rounds[i].val.(endedAt := Some(rounds[i].val.endsAt)));
    }

    method CaptureRound(i: nat, endedAt: Time)
      modifies this`summaries
      ensures summaries == Cmd.Captured(old(Model()), i, endedAt)
    {
      var created := Append(summaries, Summary(i, RED, Points(events, {i}, RED), endedAt));
      summaries := Append(created, Summary(i, BLUE, Points(events, {i}, BLUE), endedAt));
    }

    /** The round ends at its deadline, what is due is resolved, and both colours are captured. */
    method CloseRound(i: nat, now: Time)
      requires Cmd.Expires(Model(), i, now)
      modifies this
      ensures Model() == Cmd.Closed(old(Model()), Cmd.Settled(old(Model()), i, now), i, now)
    {
      var round := rounds[i].val;
      var deadline := Cmd.IntermissionEnd(Model(), round, now);
      EndRound(i);
      ResolveDueWindowsLocked(now);
      if rules == FaultAppealOvertimeV2 { CaptureRound(i, round.endsAt); }
      row := row.(intermissionEndsAt := deadline, lifecycle := InProgress, status := Cmd.EndedStatus(round, rules));
    }

    method ExpireRound(i: nat, now: Time) returns (error: Option<MatchError>)
      modifies this
      ensures Answers(old(Model()), Cmd.ExpireRound(old(Model()), i, now), error)
      ensures old(Valid()) && Permitted(old(Model()), Cmd.Expire(i), now) ==> Valid()
    {
      if Valid() && Permitted(Model(), Cmd.Expire(i), now) { AttemptKeeps(Model(), Cmd.Expire(i), now); }
      if !Cmd.Overdue(Model(), i, now) { return None; }
      if row.lifecycle == Suspended { return Some(ConstraintViolated); }
      CloseRound(i, now);
      error := None;
    }

    // ---------------------------------------------------------------- cancelling and undoing

    /** What was scored in the rounds. */
    method StampScores(ids: set<nat>, entire: bool, k: nat)
      modifies this`votes, this`events, this`summaries
      ensures var m := old(Model());
              Model() == m.(votes := Stamp(m.votes, Cmd.VotesIn(m, ids), k),
                            events := Stamp(m.events, if entire then Cmd.LiveEvents(m) else Cmd.EventsIn(m, ids), k),
                            summaries := Stamp(m.summaries, Cmd.SummariesIn(m, ids), k))
    {
      var m := Model();
      votes := Stamp(votes, Cmd.VotesIn(m, ids), k);
      events := Stamp(events, if entire then Cmd.LiveEvents(m) else Cmd.EventsIn(m, ids), k);
      summaries := Stamp(summaries, Cmd.SummariesIn(m, ids), k);
    }

    /** Rows are selected as they stand at the start: stamping a table does not change what another selects. */
    method StampRounds(ids: set<nat>, entire: bool, k: nat)
      modifies this
      ensures Model() == Cmd.StampRounds(old(Model()), ids, entire, k)
    {
      var m := Model();
      var affected := Cmd.AffectedAppeals(m, ids, entire);
      StampScores(ids, entire, k);
      decisions := Stamp(decisions, Cmd.DecisionsOf(m, affected, ids), k);
      appeals := Stamp(appeals, affected, k);
      windows := Stamp(windows, Cmd.WindowsIn(m, ids), k);
      rounds := Stamp(rounds, ids, k);
    }

    method CancelResults(entire: bool, retracted: bool, now: Time) returns (error: Option<MatchError>)
      modifies this
      ensures Answers(old(Model()), Cmd.CancelResults(old(Model()), entire, retracted, now), error)
      ensures old(Valid()) ==> Valid()
    {
      if Valid() { AttemptKeeps(Model(), Cmd.Cancel(entire, retracted), now); }
      var ids := Cmd.SelectedRounds(Model(), entire);
      if ids == {} { return Some(InvalidResultCancellation); }
      if row.status == Finished && !retracted { return Some(ProgressionLocked); }
      if row.lifecycle == Suspended { return Some(ConstraintViolated); }
      Cancel(ids, entire, now);
      error := None;
    }

    method Cancel(ids: set<nat>, entire: bool, now: Time)
      modifies this
      ensures Model() == Cmd.Cancelled(old(Model()), ids, entire, now)
    {
      var next := Cmd.CancelledStatus(Model(), ids, entire);
      var current := if next == Waiting then None else Some(1);
      var k := nextAudit;
      var operation := Operation(if entire then MatchReset else RoundReset, k, now, row.status,
                                 LifecycleForPhase(row.status), row.currentRound,
                                 row.startedAt, row.finishedAt, next, current, false);
      StampRounds(ids, entire, k);
      operations, nextAudit := operations + [operation], k + 1;
      row := row.(
        currentRound := current,
        finishedAt := None,
        intermissionEndsAt := None,
        lifecycle := if next == Waiting then NotStarted else InProgress,
        startedAt := if next == Waiting then None else row.startedAt,
        status := next);
    }

    method ClearAudit(k: nat)
      modifies this
      ensures Model() == Cmd.ClearAudit(old(Model()), k)
    {
      var clearedVotes := Clear(votes, k);
      var clearedEvents := Clear(events, k);
      var clearedSummaries := Clear(summaries, k);
      var clearedDecisions := Clear(decisions, k);
      var clearedAppeals := Clear(appeals, k);
      var clearedWindows := Clear(windows, k);
      var clearedRounds := Clear(rounds, k);
      votes, events, summaries, decisions := clearedVotes, clearedEvents, clearedSummaries, clearedDecisions;
      appeals, windows, rounds := clearedAppeals, clearedWindows, clearedRounds;
    }

    method UndoCancellation(o: nat) returns (error: Option<MatchError>)
      modifies this
      ensures Answers(old(Model()), Cmd.UndoCancellation(old(Model()), o), error)
      ensures old(Valid()) ==> Valid()
    {
      if Valid() { AttemptKeeps(Model(), Cmd.Undo(o), 0); }
      if !Cmd.UndoApplies(Model(), o) { return Some(UndoNotAllowed); }
      if !Cmd.UndoCommits(Model(), o) { return Some(ConstraintViolated); }
      var operation := operations[o];
      ClearAudit(operation.audit);
      row := MatchRow(operation.previousStatus, operation.previousLifecycle, operation.previousCurrentRound,
                      operation.previousStartedAt, operation.previousFinishedAt, None);
      operations := operations[o := operation.(undone := true)];
      error := None;
    }

    method StampNumbers(numbers: set<nat>, k: nat)
      modifies this`rounds, this`windows, this`votes, this`events
      ensures Model() == Cmd.StampNumbers(old(Model()), numbers, k)
    {
      var m := Model();
      votes := Stamp(votes, Cmd.VotesNumbered(m, numbers), k);
      events := Stamp(events, Cmd.EventsNumbered(m, numbers), k);
      windows := Stamp(windows, Cmd.WindowsNumbered(m, numbers), k);
      rounds := Stamp(rounds, Cmd.RoundsNumbered(m, numbers), k);
    }

    method ExitMatch(mode: Cmd.ExitMode, now: Time) returns (error: Option<MatchError>)
      modifies this
      ensures Answers(old(Model()), Cmd.ExitMatch(old(Model()), mode, now), error)
      ensures old(Valid()) && Permitted(old(Model()), Cmd.Exit(mode), now) ==> Valid()
    {
      if Valid() && Permitted(Model(), Cmd.Exit(mode), now) { AttemptKeeps(Model(), Cmd.Exit(mode), now); }
      if !Cmd.ExitAllowed(Model(), mode) { return Some(InvalidResultCancellation); }
      Leave(mode, now);
      error := None;
    }

    method Leave(mode: Cmd.ExitMode, now: Time)
      modifies this
      ensures Model() == Cmd.Exited(old(Model()), mode, now)
    {
      var next, current, k := Cmd.ExitStatus(Model(), mode), Cmd.ExitRound(Model(), mode), nextAudit;
      var operation := Operation(MatchExit, k, now, row.status, row.lifecycle, row.currentRound, row.startedAt,
                                 row.finishedAt, next, current, false);
      StampNumbers(Cmd.CancelledNumbers(mode), k);
      operations, nextAudit := operations + [operation], k + 1;
      row := row.(
        currentRound := current,
        finishedAt := None,
        intermissionEndsAt := None,
        lifecycle := if mode == Cmd.CancelAll then NotStarted else Suspended,
        startedAt := if mode == Cmd.CancelAll then None else row.startedAt,
        status := next);
    }

    /** A crew takes a suspended match on again. */
    method Claim() returns (error: Option<MatchError>)
      modifies this`row
      ensures Answers(old(Model()), Cmd.ClaimSuspended(old(Model())), error)
      ensures old(Valid()) ==> Valid()
    {
      if Valid() { AttemptKeeps(Model(), Cmd.Claim, 0); }
      if row.lifecycle != Suspended { return Some(NotSuspended); }
      row := row.(lifecycle := InProgress);
      error := None;
    }

    // ---------------------------------------------------------------- results

    method CompleteMatch(now: Time) returns (error: Option<MatchError>)
      modifies this`row
      ensures Answers(old(Model()), Cmd.CompleteMatch(old(Model()), now), error)
      ensures old(Valid()) ==> Valid()
    {
      if Valid() { AttemptKeeps(Model(), Cmd.Complete, now); }
      if row.lifecycle == Completed || row.status == Finished {
        return if row.finishedAt.None? then Some(AlreadyCompleted) else None;
      }
      if row.lifecycle == Suspended || row.status != AwaitingResultSave { return Some(CompletionNotReady); }
      var pending := FirstPending(windows, None);
      if pending.Some? || !Cmd.HasEnded(Model(), 1) || !Cmd.HasEnded(Model(), 2) { return Some(CompletionNotReady); }
      MarkFinished(now);
      error := None;
    }

    method MarkFinished(now: Time)
      modifies this`row
      ensures Model() == old(Model()).(finishedAt := Some(now), lifecycle := Completed, status := Finished)
    {
      row := row.(finishedAt := Some(now), lifecycle := Completed, status := Finished);
    }

    method RecordAppeal(appeal: Appeal)
      modifies this`appeals, this`row
      ensures Model() == Cmd.Appealed(old(Model()), appeal)
    {
      appeals := Append(appeals, appeal);
      if appeal.red.final != appeal.blue.final {
        row := row.(status := ResultPublicationReady);
      } else if appeal.scope == Regulation {
        row := row.(status := OvertimeReady);
      } else {
        row := row.(status := OvertimeTiebreakDecision);
      }
    }

    method CommitReconciled(key: string, red: Adjustment, blue: Adjustment, now: Time)
      returns (error: Option<MatchError>)
      modifies this`appeals, this`row
      ensures Answers(old(Model()), Cmd.AppealReconciled(old(Model()), key, red, blue, now), error)
    {
      var m := Model();
      var existing := FindAppeal(appeals, key);
      if existing.Some? {
        return if Cmd.SamePayload(appeals[existing.value].val, Regulation, red, blue) then None
            else Some(AppealIdempotency);
      }
      if rules != FaultAppealOvertimeV2 || row.lifecycle != InProgress || row.status != RegulationAppeal {
        return Some(AppealState);
      }
      var inputs := Cmd.AppealRounds(m);
      var pending := FirstPending(windows, None);
      if pending.Some? || inputs.None? || Cmd.HasValidRegulationAppeal(m) { return Some(AppealState); }
      var (first, second) := inputs.value;
      var ids := {first, second};
      if |Cmd.LiveSummaries(m, ids)| != 4 { return Some(AppealState); }
      var redBase, blueBase := SumCaptured(summaries, ids);
      RecordAppeal(Appeal(Regulation, 0, second, ids, key,
                          Score(redBase, red, FinalScore(redBase, red)),
                              Score(blueBase, blue, FinalScore(blueBase, blue)), now));
      error := None;
    }

    method SweepStaleAppeals()
      modifies this`appeals, this`nextAudit
      ensures Model() == Cmd.CleanUpAppeals(old(Model()))
    {
      var stale := Cmd.StaleAppeals(Model());
      if stale != {} {
        appeals := Stamp(appeals, stale, nextAudit);
        nextAudit := nextAudit + 1;
      }
    }

    /** Stale appeals are swept first; a request that throws afterwards takes the sweep back with it. */
    method CommitRegulationAppeal(key: string, red: Adjustment, blue: Adjustment, now: Time)
      returns (error: Option<MatchError>)
      modifies this`appeals, this`row, this`nextAudit
      ensures Answers(old(Model()), Cmd.CommitRegulationAppeal(old(Model()), key, red, blue, now), error)
      ensures old(Valid()) ==> Valid()
    {
      if Valid() { AttemptKeeps(Model(), Cmd.AppealRegulation(key, red, blue), now); }
      var savedAppeals, savedAudit := appeals, nextAudit;
      SweepStaleAppeals();
      error := CommitReconciled(key, red, blue, now);
      if error.Some? { appeals, nextAudit := savedAppeals, savedAudit; }
    }

    method CommitOvertimeAppeal(key: string, red: Adjustment, blue: Adjustment, now: Time)
      returns (error: Option<MatchError>)
      modifies this`appeals, this`row
      ensures Answers(old(Model()), Cmd.CommitOvertimeAppeal(old(Model()), key, red, blue, now), error)
      ensures old(Valid()) ==> Valid()
    {
      if Valid() { AttemptKeeps(Model(), Cmd.AppealOvertime(key, red, blue), now); }
      var m := Model();
      var existing := FindAppeal(appeals, key);
      if existing.Some? {
        return if Cmd.SamePayload(appeals[existing.value].val, Overtime, red, blue) then None
            else Some(AppealIdempotency);
      }
      if rules != FaultAppealOvertimeV2 || row.status != OvertimeAppeal || row.lifecycle != InProgress {
        return Some(AppealState);
      }
      var top := TopOvertime(rounds, true);
      if top.None? { return Some(AppealState); }
      var i := top.value;
      var attempt := rounds[i].val.attempt;
      if Cmd.PendingIn(m, i) || Cmd.HasOvertimeAppeal(m, attempt) || |Cmd.LiveSummaries(m, {i})| != 2 {
        return Some(AppealState);
      }
      var redBase, blueBase := SumCaptured(summaries, {i});
      RecordAppeal(Appeal(Overtime, attempt, i, {i}, key,
                          Score(redBase, red, FinalScore(redBase, red)),
                              Score(blueBase, blue, FinalScore(blueBase, blue)), now));
      error := None;
    }

    method RestartOvertime() returns (error: Option<MatchError>)
      modifies this
      ensures Answers(old(Model()), Cmd.RestartOvertime(old(Model())), error)
      ensures old(Valid()) && Permitted(old(Model()), Cmd.Restart, 0) ==> Valid()
    {
      if Valid() && Permitted(Model(), Cmd.Restart, 0) { AttemptKeeps(Model(), Cmd.Restart, 0); }
      if rules != FaultAppealOvertimeV2 || row.status != OvertimeTiebreakDecision { return Some(AppealState); }
      var top := TopOvertimeAppeal(appeals);
      if top.None? { return Some(AppealState); }
      SetAside(top.value);
      error := None;
    }

    /** The round of the tied appeal is stamped even if it bears a stamp already; its votes are left alone. */
    method StampSource(source: nat, k: nat)
      modifies this
      ensures Model() == old(Model()).(
                rounds := Cmd.Overwrite(old(rounds), source, k),
                summaries := Stamp(old(summaries), Cmd.SummariesIn(old(Model()), {source}), k),
                events := Stamp(old(events), Cmd.EventsIn(old(Model()), {source}), k),
                windows := Stamp(old(windows), Cmd.WindowsIn(old(Model()), {source}), k))
    {
      var m := Model();
      if source < |rounds| { rounds := rounds[source := rounds[source].(stamp := Some(k))]; }
      summaries := Stamp(summaries, Cmd.SummariesIn(m, {source}), k);
      events := Stamp(events, Cmd.EventsIn(m, {source}), k);
      windows := Stamp(windows, Cmd.WindowsIn(m, {source}), k);
    }

    method SetAside(a: nat)
      requires a < |appeals|
      modifies this
      ensures Model() == Cmd.Restarted(old(Model()), a)
    {
      var m, k := Model(), nextAudit;
      StampSource(appeals[a].val.source, k);
      appeals := Stamp(appeals, {a}, k);
      decisions := Stamp(decisions, Cmd.DecisionsOf(m, {a}, {}), k);
      nextAudit := k + 1;
      row := row.(status := OvertimeReady);
    }

    method RecordDecision(a: nat, winner: Color, now: Time)
      requires a < |appeals|
      modifies this`decisions, this`row
      ensures Model() == Cmd.Chosen(old(Model()), a, winner, now)
    {
      decisions := Append(decisions, Decision(winner, a, appeals[a].val.source, now));
      row := row.(status := ResultPublicationReady);
    }

    method SelectWinner(winner: Color, now: Time) returns (error: Option<MatchError>)
      modifies this`decisions, this`row
      ensures Answers(old(Model()), Cmd.SelectWinner(old(Model()), winner, now), error)
      ensures old(Valid()) ==> Valid()
    {
      if Valid() { AttemptKeeps(Model(), Cmd.Choose(winner), now); }
      if rules != FaultAppealOvertimeV2 || row.status != OvertimeTiebreakDecision { return Some(AppealState); }
      var top := TopOvertimeAppeal(appeals);
      if top.None? { return Some(AppealState); }
      if !Undecided(decisions, top.value) { return Some(ConstraintViolated); }
      RecordDecision(top.value, winner, now);
      error := None;
    }

    method ReadVerdict(a: nat) returns (verdict: Option<(Color, OutcomeMethod)>)
      requires a < |appeals|
      ensures verdict == Cmd.Verdict(Model(), a)
    {
      var appeal := appeals[a].val;
      var decision := FindDecision(decisions, a);
      if decision.Some? {
        if appeal.scope != Overtime || appeal.red.final != appeal.blue.final { return None; }
        return Some((decisions[decision.value].val.winner, ManualAfterOvertimeTie));
      }
      if appeal.red.final == appeal.blue.final { return None; }
      var winner := if appeal.red.final > appeal.blue.final then RED else BLUE;
      verdict := Some((winner, if appeal.scope == Regulation then RegulationScore else OvertimeScore));
    }

    method Announce(announced: Outcome, now: Time)
      modifies this`row, this`outcome
      ensures Model() == old(Model()).(
                outcome := Some(announced), status := Finished, lifecycle := Completed, finishedAt := Some(now))
    {
      outcome := Some(announced);
      MarkFinished(now);
    }

    method PublishResult(key: string, now: Time) returns (error: Option<MatchError>)
      modifies this`row, this`outcome
      ensures Answers(old(Model()), Cmd.PublishResult(old(Model()), key, now), error)
      ensures old(Valid()) ==> Valid()
    {
      if Valid() { AttemptKeeps(Model(), Cmd.Publish(key), now); }
      if outcome.Some? && outcome.value.key == key { return None; }
      if rules != FaultAppealOvertimeV2 || row.status != ResultPublicationReady || row.lifecycle != InProgress {
        return Some(AppealState);
      }
      var newest := NewestValid(Model(), |appeals|);
      if newest.None? { return Some(AppealState); }
      var verdict := ReadVerdict(newest.value);
      if verdict.None? { return Some(AppealState); }
      if outcome.Some? { return Some(AlreadyCompleted); }
      Announce(Outcome(verdict.value.0, verdict.value.1, newest.value, now, key), now);
      error := None;
    }
  }
}
