/** What a round captures when it ends stays equal to the ledger, so an appeal commits what the live preview shows. */
module MatchCaptures {
  import opened Prelude
  import opened SportRules
  import opened MatchTables
  import opened MatchModel
  import opened MatchCommands
  import opened MatchHistory
  import opened MatchColumns
  import opened MatchLedger
  import opened MatchScores

  // ---------------------------------------------------------------- the invariant

  /** No window of an ended round is outstanding. */
  ghost predicate NoLateWindow(m: Match) {
    forall w :: 0 <= w < |m.windows| ==> Timely(m, m.windows[w].val)
  }

  predicate Timely(m: Match, w: Window) {
    w.round < |m.rounds| && m.rounds[w.round].val.endedAt.Some? ==> w.resolvedAt.Some?
  }

  /** Summaries are of ended rounds. */
  ghost predicate CapturedAfterEnd(m: Match) {
    forall s :: 0 <= s < |m.summaries| ==> EndedRound(m, m.summaries[s].val.round)
  }

  predicate EndedRound(m: Match, i: nat) {
    i < |m.rounds| && m.rounds[i].val.endedAt.Some?
  }

  /** Whether cancelled or not, an ended round has captured what it earned. */
  ghost predicate CapturesAgree(m: Match) {
    forall i: nat, c :: EndedRound(m, i) ==> Recorded(m.summaries, {i}, c) == Earned(m.events, {i}, c)
  }

  ghost predicate CapturesOK(m: Match) {
    NoLateWindow(m) && CapturedAfterEnd(m) && CapturesAgree(m)
  }

  /** Every outstanding window of the round is due when the round ends. */
  predicate AllDue(m: Match, i: nat, now: Time) {
    forall w :: 0 <= w < |m.windows| && m.windows[w].val.round == i && m.windows[w].val.resolvedAt.None? ==>
        m.windows[w].val.endsAt <= now
  }

  predicate EndsSettled(m: Match, command: Command, now: Time) {
    command.Expire? && Expires(m, command.round, now) ==> AllDue(m, command.round, now)
  }

  // ---------------------------------------------------------------- resolving

  /** A pending window is of an open round, so resolving it leaves ended rounds alone. */
  lemma ResolveKeepsCaptures(m: Match, w: nat, now: Time)
    requires CapturesOK(m) && RowsFollow(m) && WinnersResolved(m) && w < |m.windows| && Pending(m.windows[w], None)
    ensures CapturesOK(ResolveWindow(m, w, now))
  {
    var after := ResolveWindow(m, w, now);
    assert WindowFollows(m.rounds, m.windows[w]) && Timely(m, m.windows[w].val);
    forall v | 0 <= v < |after.windows| ensures Timely(after, after.windows[v].val) {
      assert Timely(m, m.windows[v].val);
    }
    forall i: nat, c | EndedRound(after, i) ensures Recorded(after.summaries, {i}, c) == Earned(after.events, {i}, c) {
      assert EndedRound(m, i);
      ResolveEarns(m, w, now, {i}, c);
      assert Recorded(m.summaries, {i}, c) == Earned(m.events, {i}, c);
    }
    forall s | 0 <= s < |after.summaries| ensures EndedRound(after, after.summaries[s].val.round) {
      assert EndedRound(m, m.summaries[s].val.round);
    }
  }

  lemma OpenKeepsCaptures(m: Match, found: nat, judge: Judge, c: Color, now: Time)
    requires CapturesOK(m) && RowsFollow(m) && found < |m.rounds| && m.rounds[found].val.endedAt.None?
    ensures CapturesOK(OpenWindow(m, found, judge, c, now))
  {
    var after := OpenWindow(m, found, judge, c, now);
    forall v | 0 <= v < |after.windows| ensures Timely(after, after.windows[v].val) {
      if v < |m.windows| { assert Timely(m, m.windows[v].val); }
    }
    SameEndsKeepCaptures(m, after);
  }

  lemma SameEndsKeepCaptures(m: Match, after: Match)
    requires CapturesOK(m) && SameVals(m.events, after.events) && SameVals(m.summaries, after.summaries)
    requires forall i: nat :: EndedRound(after, i) <==> EndedRound(m, i)
    ensures CapturedAfterEnd(after) && CapturesAgree(after)
  {
    forall i: nat, c | EndedRound(after, i) ensures Recorded(after.summaries, {i}, c) == Earned(after.events, {i}, c) {
      EarnedSame(m.events, after.events, {i}, c);
      RecordedSame(m.summaries, after.summaries, {i}, c);
      assert Recorded(m.summaries, {i}, c) == Earned(m.events, {i}, c);
    }
    forall s | 0 <= s < |after.summaries| ensures EndedRound(after, after.summaries[s].val.round) {
      assert EndedRound(m, m.summaries[s].val.round);
    }
  }

  /** A due window is resolved before the next one is opened. */
  lemma LateVoteKeepsCaptures(m: Match, w: nat, found: nat, judge: Judge, c: Color, now: Time)
    requires CapturesOK(m) && LedgerOK(m) && w < |m.windows| && Pending(m.windows[w], None)
    requires found < |m.rounds| && m.rounds[found].val.endedAt.None?
    ensures CapturesOK(OpenWindow(ResolveWindow(m, w, now), found, judge, c, now))
  {
    ResolveKeepsCaptures(m, w, now);
    ResolveFollows(m, w, now);
    OpenKeepsCaptures(ResolveWindow(m, w, now), found, judge, c, now);
  }

  lemma VoteKeepsCaptures(m: Match, found: nat, judge: Judge, c: Color, now: Time)
    requires CapturesOK(m) && LedgerOK(m)
    ensures CapturesOK(Step(m, CastVote(found, judge, c), now))
  {
    if SubmitVote(m, found, judge, c, now).Success? {
      var first := FirstPending(m.windows, None);
      if first.None? {
        OpenKeepsCaptures(m, found, judge, c, now);
      } else if now >= m.windows[first.value].val.endsAt {
        LateVoteKeepsCaptures(m, first.value, found, judge, c, now);
      } else {
        JoinKeepsCaptures(m, first.value, m.rounds[found].val.number, judge, c, now);
      }
    }
  }

  lemma JoinKeepsCaptures(m: Match, w: nat, number: nat, judge: Judge, c: Color, now: Time)
    requires CapturesOK(m) && w < |m.windows| && JoinWindow(m, w, number, judge, c, now).Success?
    ensures CapturesOK(JoinWindow(m, w, number, judge, c, now).value)
  {
    var after := JoinWindow(m, w, number, judge, c, now).value;
    forall v | 0 <= v < |after.windows| ensures Timely(after, after.windows[v].val) {
      assert Timely(m, m.windows[v].val);
    }
    SameEndsKeepCaptures(m, after);
  }

  // ---------------------------------------------------------------- ending a round

  /** The loop leaves alone the points of a round with nothing pending. */
  lemma {:induction false} ResolveDueElsewhere(m: Match, now: Time, i: nat, c: Color)
    requires WinnersResolved(m)
    requires forall w :: 0 <= w < |m.windows| && Pending(m.windows[w], None) ==> m.windows[w].val.round != i
    ensures Earned(ResolveDue(m, now).events, {i}, c) == Earned(m.events, {i}, c)
    decreases Unresolved(m.windows)
  {
    var first := FirstPending(m.windows, Some(now));
    if first.Some? {
      var resolved := ResolveWindow(m, first.value, now);
      ResolvingOne(m.windows, first.value, resolved.windows[first.value]);
      ResolveEarns(m, first.value, now, {i}, c);
      ResolveDueElsewhere(resolved, now, i, c);
    }
  }

  /** Afterwards nothing is due, and no stamp has moved. */
  lemma {:induction false} ResolveDueIsDone(m: Match, now: Time)
    ensures FirstPending(ResolveDue(m, now).windows, Some(now)).None?
    ensures |ResolveDue(m, now).windows| == |m.windows|
    ensures forall w :: 0 <= w < |m.windows| ==> ResolveDue(m, now).windows[w].stamp == m.windows[w].stamp
    decreases Unresolved(m.windows)
  {
    var first := FirstPending(m.windows, Some(now));
    if first.Some? {
      var resolved := ResolveWindow(m, first.value, now);
      ResolvingOne(m.windows, first.value, resolved.windows[first.value]);
      ResolveDueIsDone(resolved, now);
    }
  }

  lemma SettledIsTimely(m: Match, i: nat, now: Time, w: nat)
    requires CapturesOK(m) && RowsFollow(m) && Expires(m, i, now) && Live(m.rounds, i) && AllDue(m, i, now)
    ensures |Settled(m, i, now).windows| == |m.windows| && Settled(m, i, now).rounds == Ended(m, i).rounds
    ensures w < |m.windows| ==> Timely(Settled(m, i, now), Settled(m, i, now).windows[w].val)
  {
    var settled := Settled(m, i, now);
    ResolveDueIsDone(Ended(m, i), now);
    ResolveDueAdds(Ended(m, i), now);
    ResolveDueColumns(Ended(m, i), now);
    if w < |m.windows| {
      assert SameWindow(m.windows[w].val, settled.windows[w].val);
      assert Timely(m, m.windows[w].val) && WindowFollows(m.rounds, m.windows[w]);
      assert !Pending(settled.windows[w], Some(now));
    }
  }

  lemma {:induction false} NothingRecordedYet(summaries: Table<Summary>, i: nat, c: Color)
    requires forall s :: 0 <= s < |summaries| ==> summaries[s].val.round != i
    ensures Recorded(summaries, {i}, c) == 0
  {
    if summaries != [] { NothingRecordedYet(summaries[..|summaries| - 1], i, c); }
  }

  lemma CapturedAdds(m: Match, i: nat, endedAt: Time, rounds: set<nat>, c: Color)
    ensures Recorded(Captured(m, i, endedAt), rounds, c)
            == Recorded(m.summaries, rounds, c) + (if i in rounds then Points(m.events, {i}, c) else 0)
  {
    var red := Append(m.summaries, Summary(i, RED, Points(m.events, {i}, RED), endedAt));
    assert red[..|m.summaries|] == m.summaries;
    assert Captured(m, i, endedAt)[..|red|] == red;
    assert c == RED || c == BLUE;
  }

  /** The round that ends captures exactly what it earned. */
  lemma EndedRoundAgrees(m: Match, i: nat, now: Time, c: Color)
    requires CapturesOK(m) && LedgerOK(m) && Expires(m, i, now) && Live(m.rounds, i)
    ensures Recorded(Captured(Settled(m, i, now), i, m.rounds[i].val.endsAt), {i}, c)
            == Earned(Settled(m, i, now).events, {i}, c)
  {
    var settled := Settled(m, i, now);
    assert RowsFollow(Ended(m, i));
    ResolveDueFollows(Ended(m, i), now);
    ResolveDueAdds(Ended(m, i), now);
    forall s | 0 <= s < |m.summaries| ensures m.summaries[s].val.round != i {
      assert EndedRound(m, m.summaries[s].val.round);
    }
    NothingRecordedYet(m.summaries, i, c);
    CapturedAdds(settled, i, m.rounds[i].val.endsAt, {i}, c);
    LivePoints(settled, settled.events, {i}, c);
    assert LiveAmong(settled, {i}) == {i};
  }

  lemma OtherRoundAgrees(m: Match, i: nat, now: Time, j: nat, c: Color)
    requires CapturesOK(m) && LedgerOK(m) && Expires(m, i, now) && EndedRound(m, j)
    ensures Recorded(Captured(Settled(m, i, now), i, m.rounds[i].val.endsAt), {j}, c)
            == Earned(Settled(m, i, now).events, {j}, c)
  {
    ResolveDueAdds(Ended(m, i), now);
    CapturedAdds(Settled(m, i, now), i, m.rounds[i].val.endsAt, {j}, c);
    forall w | 0 <= w < |m.windows| && Pending(m.windows[w], None) ensures m.windows[w].val.round != j {
      assert Timely(m, m.windows[w].val);
    }
    ResolveDueElsewhere(Ended(m, i), now, j, c);
    assert Recorded(m.summaries, {j}, c) == Earned(m.events, {j}, c);
  }

  lemma ExpireShapeOf(m: Match, i: nat, now: Time)
    requires Expires(m, i, now) && m.rules == FaultAppealOvertimeV2
    ensures var after := Step(m, Expire(i), now);
            && after.rounds == Ended(m, i).rounds
            && after.windows == Settled(m, i, now).windows && after.events == Settled(m, i, now).events
            && after.summaries == Captured(Settled(m, i, now), i, m.rounds[i].val.endsAt)
  {
    ResolveDueAdds(Ended(m, i), now);
  }

  lemma ExpireCapturesAgree(m: Match, i: nat, now: Time)
    requires CapturesOK(m) && LedgerOK(m) && Expires(m, i, now) && Live(m.rounds, i) && m.rules == FaultAppealOvertimeV2
    ensures CapturesAgree(Step(m, Expire(i), now))
  {
    var after := Step(m, Expire(i), now);
    ExpireShapeOf(m, i, now);
    forall j: nat, c | EndedRound(after, j) ensures Recorded(after.summaries, {j}, c) == Earned(after.events, {j}, c) {
      if j == i { EndedRoundAgrees(m, i, now, c); } else { assert EndedRound(m, j); OtherRoundAgrees(m, i, now, j, c); }
    }
  }

  lemma ExpireKeepsCaptures(m: Match, i: nat, now: Time)
    requires CapturesOK(m) && LedgerOK(m) && Expires(m, i, now) && Live(m.rounds, i) && m.rules == FaultAppealOvertimeV2
    requires AllDue(m, i, now)
    ensures CapturesOK(Step(m, Expire(i), now))
  {
    var after := Step(m, Expire(i), now);
    ExpireCapturesAgree(m, i, now);
    ExpireShapeOf(m, i, now);
    SettledIsTimely(m, i, now, 0);
    forall w: nat | w < |after.windows| ensures Timely(after, after.windows[w].val) {
      SettledIsTimely(m, i, now, w);
      assert Timely(Settled(m, i, now), Settled(m, i, now).windows[w].val);
    }
    ResolveDueAdds(Ended(m, i), now);
    forall s | 0 <= s < |after.summaries| ensures EndedRound(after, after.summaries[s].val.round) {
      if s < |m.summaries| { assert EndedRound(m, m.summaries[s].val.round); }
    }
  }

  // ---------------------------------------------------------------- every step

  ghost predicate SameEnds(m: Match, after: Match) {
    |m.rounds| <= |after.rounds| && forall i: nat :: EndedRound(after, i) <==> EndedRound(m, i)
  }

  lemma CancelKeepsEnds(m: Match, entire: bool, retracted: bool, now: Time)
    ensures SameEnds(m, Step(m, Cancel(entire, retracted), now))
  {
    var ids := CancelStep(m, entire, retracted, now);
  }

  lemma LeaveKeepsEnds(m: Match, command: Command, now: Time)
    requires command.Undo? || command.Exit?
    ensures SameEnds(m, Step(m, command, now))
  {}

  lemma ClockKeepsEnds(m: Match, command: Command, now: Time)
    requires command.Start? || command.Pause? || command.Resume?
    ensures SameEnds(m, Step(m, command, now))
  {}

  lemma RestartKeepsEnds(m: Match, now: Time)
    ensures SameEnds(m, Step(m, Restart, now))
  {
    var a := RestartStep(m, now);
  }

  /** Outside votes and expiry, no round ends. */
  lemma OtherKeepsEnds(m: Match, command: Command, now: Time)
    requires !ScoringCommand(command)
    ensures SameEnds(m, Step(m, command, now))
  {
    match command
    case Cancel(entire, retracted) => CancelKeepsEnds(m, entire, retracted, now);
    case Restart => RestartKeepsEnds(m, now);
    case AppealRegulation(_, _, _) => AppealsLeaveLedger(m, command, now);
    case AppealOvertime(_, _, _) => AppealsLeaveLedger(m, command, now);
    case Undo(_) => LeaveKeepsEnds(m, command, now);
    case Exit(_) => LeaveKeepsEnds(m, command, now);
    case Start => ClockKeepsEnds(m, command, now);
    case Pause => ClockKeepsEnds(m, command, now);
    case Resume => ClockKeepsEnds(m, command, now);
    case _ => OthersLeaveLedger(m, command, now);
  }

  lemma OtherKeepsCaptures(m: Match, command: Command, now: Time)
    requires CapturesOK(m) && RowsFollow(m) && !ScoringCommand(command)
    ensures CapturesOK(Step(m, command, now))
  {
    var after := Step(m, command, now);
    StepContents(m, command, now);
    OtherKeepsEnds(m, command, now);
    SameEndsKeepCaptures(m, after);
    forall w: nat | w < |after.windows| ensures Timely(after, after.windows[w].val) {
      assert Timely(m, m.windows[w].val) && WindowFollows(m.rounds, m.windows[w]);
      assert EndedRound(after, m.windows[w].val.round) <==> EndedRound(m, m.windows[w].val.round);
    }
  }

  lemma StepCaptures(m: Match, command: Command, now: Time)
    requires CapturesOK(m) && LedgerOK(m) && m.rules == FaultAppealOvertimeV2
    requires Permitted(m, command, now) && EndsSettled(m, command, now)
    ensures CapturesOK(Step(m, command, now))
  {
    match command
    case CastVote(found, judge, c) => VoteKeepsCaptures(m, found, judge, c, now);
    case Resolve(w) => if w < |m.windows| && Pending(m.windows[w], Some(now)) { ResolveKeepsCaptures(m, w, now); }
    case Expire(i) => if Expires(m, i, now) { ExpireKeepsCaptures(m, i, now); }
    case _ => OtherKeepsCaptures(m, command, now);
  }

  // ---------------------------------------------------------------- appeals commit the live preview

  lemma {:induction false} LiveBase(m: Match, summaries: Table<Summary>, rounds: set<nat>, c: Color)
    requires forall s :: 0 <= s < |summaries| ==> SummaryFollows(m.rounds, summaries[s])
    requires forall i :: i in rounds ==> Live(m.rounds, i)
    ensures Base(summaries, rounds, c) == Recorded(summaries, rounds, c)
  {
    if summaries != [] {
      LiveBase(m, summaries[..|summaries| - 1], rounds, c);
      assert SummaryFollows(m.rounds, summaries[|summaries| - 1]);
    }
  }

  lemma {:induction false} RecordedSplits(summaries: Table<Summary>, rounds: set<nat>, i: nat, c: Color)
    requires i in rounds
    ensures Recorded(summaries, rounds, c) == Recorded(summaries, rounds - {i}, c) + Recorded(summaries, {i}, c)
  {
    if summaries != [] { RecordedSplits(summaries[..|summaries| - 1], rounds, i, c); }
  }

  lemma {:induction false} EarnedSplits(events: Table<Event>, rounds: set<nat>, i: nat, c: Color)
    requires i in rounds
    ensures Earned(events, rounds, c) == Earned(events, rounds - {i}, c) + Earned(events, {i}, c)
  {
    if events != [] { EarnedSplits(events[..|events| - 1], rounds, i, c); }
  }

  lemma {:induction false} NoRoundsNoPoints(m: Match, summaries: Table<Summary>, events: Table<Event>, c: Color)
    ensures Recorded(summaries, {}, c) == 0 && Earned(events, {}, c) == 0
    decreases |summaries| + |events|
  {
    if summaries != [] {
      NoRoundsNoPoints(m, summaries[..|summaries| - 1], events, c);
    } else if events != [] {
      NoRoundsNoPoints(m, summaries, events[..|events| - 1], c);
    }
  }

  lemma {:induction false} RecordedIsEarned(m: Match, rounds: set<nat>, c: Color)
    requires CapturesAgree(m) && forall i :: i in rounds ==> EndedRound(m, i)
    ensures Recorded(m.summaries, rounds, c) == Earned(m.events, rounds, c)
  {
    if rounds == {} {
      NoRoundsNoPoints(m, m.summaries, m.events, c);
    } else {
      var i :| i in rounds;
      RecordedSplits(m.summaries, rounds, i, c);
      EarnedSplits(m.events, rounds, i, c);
      RecordedIsEarned(m, rounds - {i}, c);
      assert Recorded(m.summaries, {i}, c) == Earned(m.events, {i}, c);
    }
  }

  /** The captured base of valid ended rounds is what the score events show now. */
  lemma BaseIsPreview(m: Match, rounds: set<nat>, c: Color)
    requires CapturesOK(m) && LedgerOK(m)
    requires forall i :: i in rounds ==> Live(m.rounds, i) && EndedRound(m, i)
    ensures Base(m.summaries, rounds, c) == Points(m.events, rounds, c) == Awarded(m.windows, rounds, c)
  {
    LiveBase(m, m.summaries, rounds, c);
    LivePoints(m, m.events, rounds, c);
    assert LiveAmong(m, rounds) == rounds;
    RecordedIsEarned(m, rounds, c);
    ProjectionCountsWindows(m, rounds, c);
  }

  /** The live preview of one colour: the points of the rounds under the given adjustment. */
  function Preview(m: Match, rounds: set<nat>, c: Color, adjustment: Adjustment): Score {
    Score(Points(m.events, rounds, c), adjustment, FinalScore(Points(m.events, rounds, c), adjustment))
  }

  /** A regulation appeal commits, for both colours, the score the preview shows over rounds 1 and 2. */
  lemma RegulationAppealCommitsPreview(m: Match, key: string, red: Adjustment, blue: Adjustment, now: Time)
    requires CapturesOK(m) && LedgerOK(m) && AppealRounds(m).Some?
    ensures var (first, second) := AppealRounds(m).value;
            var appeal := RegulationAppealOver(m, first, second, key, red, blue, now);
            appeal.red == Preview(m, {first, second}, RED, red)
                && appeal.blue == Preview(m, {first, second}, BLUE, blue)
  {
    var (first, second) := AppealRounds(m).value;
    assert first in EndedRegulation(m) && second in EndedRegulation(m);
    BaseIsPreview(m, {first, second}, RED);
    BaseIsPreview(m, {first, second}, BLUE);
  }

  lemma OvertimeAppealCommitsPreview(m: Match, key: string, red: Adjustment, blue: Adjustment, now: Time)
    requires CapturesOK(m) && LedgerOK(m) && TopOvertime(m.rounds, true).Some?
    ensures var i := TopOvertime(m.rounds, true).value;
            var appeal := OvertimeAppealOver(m, i, key, red, blue, now);
            appeal.red == Preview(m, {i}, RED, red) && appeal.blue == Preview(m, {i}, BLUE, blue)
  {
    var i := TopOvertime(m.rounds, true).value;
    BaseIsPreview(m, {i}, RED);
    BaseIsPreview(m, {i}, BLUE);
  }

  /**
   * Without the hypothesis the claim fails: a window that outlives its round's capture makes the ledger move
   * past the summary exactly when it is resolved in somebody's favour.
   */
  lemma LateWindowMovesLedgerExactly(m: Match, w: nat, now: Time, c: Color)
    requires LedgerOK(m) && w < |m.windows| && Pending(m.windows[w], None)
    requires Base(m.summaries, {m.windows[w].val.round}, c) == Points(m.events, {m.windows[w].val.round}, c)
    ensures var after := ResolveWindow(m, w, now);
            Base(after.summaries, {m.windows[w].val.round}, c) == Points(after.events, {m.windows[w].val.round}, c)
            <==> Award(Ballots(m.votes, w), m.requiredJudgeCount) != Some(c)
  {
    var after := ResolveWindow(m, w, now);
    var round := m.windows[w].val.round;
    assert WindowFollows(m.rounds, m.windows[w]);
    if |after.events| > |m.events| { assert after.events[..|m.events|] == m.events; }
  }

  // ---------------------------------------------------------------- every run

  ghost predicate SettledRun(m: Match, script: seq<Timed>)
    decreases |script|
  {
    script != [] ==>
      && Permitted(m, script[0].command, script[0].now) && EndsSettled(m, script[0].command, script[0].now)
      && SettledRun(Step(m, script[0].command, script[0].now), script[1..])
  }

  lemma {:induction false} RunCaptures(m: Match, script: seq<Timed>)
    requires CapturesOK(m) && LedgerOK(m) && StampsKnown(m) && AuditsOrdered(m) && m.rules == FaultAppealOvertimeV2
    requires SettledRun(m, script)
    ensures CapturesOK(Run(m, script)) && LedgerOK(Run(m, script))
    decreases |script|
  {
    if script != [] {
      var command, now := script[0].command, script[0].now;
      StepLedger(m, command, now);
      StepCaptures(m, command, now);
      StepCarries(m, command, now, m.nextAudit + 1);
      StepOperations(m, command, now);
      StepColumns(m, command, now);
      RunCaptures(Step(m, command, now), script[1..]);
    }
  }

  lemma CapturesOfAnyRun(judges: nat, duration: nat, intermission: nat, script: seq<Timed>)
    requires SettledRun(NewMatch(FaultAppealOvertimeV2, judges, duration, intermission), script)
    ensures CapturesOK(Run(NewMatch(FaultAppealOvertimeV2, judges, duration, intermission), script))
    ensures LedgerOK(Run(NewMatch(FaultAppealOvertimeV2, judges, duration, intermission), script))
  {
    RunCaptures(NewMatch(FaultAppealOvertimeV2, judges, duration, intermission), script);
  }
}
