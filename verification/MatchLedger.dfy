/** The score ledger agrees with the voting windows, and what a round captured agrees with both. */
module MatchLedger {
  import opened Prelude
  import opened SportRules
  import opened MatchTables
  import opened MatchModel
  import opened MatchCommands
  import opened MatchHistory
  import opened MatchColumns

  // ---------------------------------------------------------------- every row stands and falls with its round

  predicate WindowFollows(rounds: Table<Round>, w: Row<Window>) {
    w.val.round < |rounds| && w.stamp == rounds[w.val.round].stamp
        && w.val.roundNumber == rounds[w.val.round].val.number
  }

  predicate EventFollows(rounds: Table<Round>, e: Row<Event>) {
    e.val.round < |rounds| && e.stamp == rounds[e.val.round].stamp
        && e.val.roundNumber == rounds[e.val.round].val.number
  }

  /** Exits do not cancel summaries, so a cancelled round may keep live ones; never the other way round. */
  predicate SummaryFollows(rounds: Table<Round>, s: Row<Summary>) {
    s.val.round < |rounds| && (s.stamp.None? || s.stamp == rounds[s.val.round].stamp)
  }

  ghost predicate WindowsFollow(m: Match) {
    forall w :: 0 <= w < |m.windows| ==> WindowFollows(m.rounds, m.windows[w])
  }

  ghost predicate EventsFollow(m: Match) {
    forall e :: 0 <= e < |m.events| ==> EventFollows(m.rounds, m.events[e])
  }

  ghost predicate SummariesFollow(m: Match) {
    forall s :: 0 <= s < |m.summaries| ==> SummaryFollows(m.rounds, m.summaries[s])
  }

  ghost predicate RowsFollow(m: Match) {
    WindowsFollow(m) && EventsFollow(m) && SummariesFollow(m)
  }

  lemma StartFollows(m: Match, now: Time)
    requires RowsFollow(m)
    ensures RowsFollow(Step(m, Start, now))
  {}

  lemma SameStampsFollow(m: Match, after: Match)
    requires RowsFollow(m) && |after.rounds| == |m.rounds|
    requires after.windows == m.windows && after.events == m.events && after.summaries == m.summaries
    requires forall i :: 0 <= i < |m.rounds| ==>
               after.rounds[i].stamp == m.rounds[i].stamp && after.rounds[i].val.number == m.rounds[i].val.number
    ensures RowsFollow(after)
  {}

  lemma PauseFollows(m: Match, command: Command, now: Time)
    requires RowsFollow(m) && (command.Pause? || command.Resume?)
    ensures RowsFollow(Step(m, command, now))
  {
    SameStampsFollow(m, Step(m, command, now));
  }

  lemma ResolveFollows(m: Match, w: nat, now: Time)
    requires RowsFollow(m) && w < |m.windows| && Pending(m.windows[w], None)
    ensures RowsFollow(ResolveWindow(m, w, now))
  {
    assert WindowFollows(m.rounds, m.windows[w]);
  }

  lemma {:induction false} ResolveDueFollows(m: Match, now: Time)
    requires RowsFollow(m)
    ensures RowsFollow(ResolveDue(m, now))
    decreases Unresolved(m.windows)
  {
    var first := FirstPending(m.windows, Some(now));
    if first.Some? {
      var resolved := ResolveWindow(m, first.value, now);
      ResolvingOne(m.windows, first.value, resolved.windows[first.value]);
      ResolveFollows(m, first.value, now);
      ResolveDueFollows(resolved, now);
    }
  }

  /** A window opened by a vote follows its round exactly when the round the vote found is live. */
  lemma OpenFollowsExactly(m: Match, found: nat, judge: Judge, c: Color, now: Time)
    requires RowsFollow(m) && found < |m.rounds|
    ensures RowsFollow(OpenWindow(m, found, judge, c, now)) <==> Live(m.rounds, found)
  {
    var after := OpenWindow(m, found, judge, c, now);
    assert WindowFollows(after.rounds, after.windows[|m.windows|]) <==> Live(m.rounds, found);
  }

  lemma VoteFollows(m: Match, found: nat, judge: Judge, c: Color, now: Time)
    requires RowsFollow(m) && Permitted(m, CastVote(found, judge, c), now)
    ensures RowsFollow(Step(m, CastVote(found, judge, c), now))
  {
    if SubmitVote(m, found, judge, c, now).Success? {
      var first := FirstPending(m.windows, None);
      if first.None? {
        OpenFollowsExactly(m, found, judge, c, now);
      } else if now >= m.windows[first.value].val.endsAt {
        ResolveFollows(m, first.value, now);
        OpenFollowsExactly(ResolveWindow(m, first.value, now), found, judge, c, now);
      }
    }
  }

  lemma ExpireFollows(m: Match, i: nat, now: Time)
    requires RowsFollow(m)
    ensures RowsFollow(Step(m, Expire(i), now))
  {
    if Expires(m, i, now) {
      assert RowsFollow(Ended(m, i));
      ResolveDueFollows(Ended(m, i), now);
      ResolveDueAdds(Ended(m, i), now);
    }
  }

  ghost predicate AllLive(m: Match, ids: set<nat>) {
    forall i :: i in ids ==> Live(m.rounds, i)
  }

  lemma SelectedAreLive(m: Match, entire: bool)
    ensures AllLive(m, SelectedRounds(m, entire))
  {}

  lemma CancelledEvents(m: Match, ids: set<nat>, entire: bool, now: Time)
    requires EventsFollow(m) && (entire ==> ids == LiveRounds(m))
    ensures EventsFollow(Cancelled(m, ids, entire, now))
  {
    var after := Cancelled(m, ids, entire, now);
    forall e | 0 <= e < |m.events| ensures EventFollows(after.rounds, after.events[e]) {
      assert EventFollows(m.rounds, m.events[e]);
    }
  }

  lemma CancelledWindows(m: Match, ids: set<nat>, entire: bool, now: Time)
    requires WindowsFollow(m)
    ensures WindowsFollow(Cancelled(m, ids, entire, now))
  {
    var after := Cancelled(m, ids, entire, now);
    forall w | 0 <= w < |m.windows| ensures WindowFollows(after.rounds, after.windows[w]) {
      assert WindowFollows(m.rounds, m.windows[w]);
    }
  }

  lemma StampedSummaries(m: Match, ids: set<nat>, k: nat)
    requires SummariesFollow(m) && AllLive(m, ids)
    ensures forall s :: 0 <= s < |m.summaries| ==>
              SummaryFollows(Stamp(m.rounds, ids, k), Stamp(m.summaries, SummariesIn(m, ids), k)[s])
  {
    forall s | 0 <= s < |m.summaries|
      ensures SummaryFollows(Stamp(m.rounds, ids, k), Stamp(m.summaries, SummariesIn(m, ids), k)[s])
    {
      assert SummaryFollows(m.rounds, m.summaries[s]);
      assert s in SummariesIn(m, ids) <==> m.summaries[s].val.round in ids;
    }
  }

  lemma CancelledSummaries(m: Match, ids: set<nat>, entire: bool, now: Time)
    requires SummariesFollow(m) && AllLive(m, ids)
    ensures SummariesFollow(Cancelled(m, ids, entire, now))
  {
    StampedSummaries(m, ids, m.nextAudit);
  }

  lemma CancelledFollows(m: Match, ids: set<nat>, entire: bool, now: Time)
    requires RowsFollow(m) && AllLive(m, ids) && (entire ==> ids == LiveRounds(m))
    ensures RowsFollow(Cancelled(m, ids, entire, now))
  {
    CancelledEvents(m, ids, entire, now);
    CancelledWindows(m, ids, entire, now);
    CancelledSummaries(m, ids, entire, now);
  }

  lemma ExitedFollows(m: Match, mode: ExitMode, now: Time)
    requires RowsFollow(m)
    ensures RowsFollow(Exited(m, mode, now))
  {
    var after := Exited(m, mode, now);
    forall e | 0 <= e < |m.events| ensures EventFollows(after.rounds, after.events[e]) {
      assert EventFollows(m.rounds, m.events[e]);
    }
    forall s | 0 <= s < |m.summaries| ensures SummaryFollows(after.rounds, after.summaries[s]) {
      assert SummaryFollows(m.rounds, m.summaries[s]);
    }
    forall w | 0 <= w < |m.windows| ensures WindowFollows(after.rounds, after.windows[w]) {
      assert WindowFollows(m.rounds, m.windows[w]);
    }
  }

  lemma UndoneFollows(m: Match, o: nat)
    requires RowsFollow(m) && o < |m.operations|
    ensures RowsFollow(Undone(m, o))
  {
    var after := Undone(m, o);
    forall e | 0 <= e < |m.events| ensures EventFollows(after.rounds, after.events[e]) {
      assert EventFollows(m.rounds, m.events[e]);
    }
    forall s | 0 <= s < |m.summaries| ensures SummaryFollows(after.rounds, after.summaries[s]) {
      assert SummaryFollows(m.rounds, m.summaries[s]);
    }
    forall w | 0 <= w < |m.windows| ensures WindowFollows(after.rounds, after.windows[w]) {
      assert WindowFollows(m.rounds, m.windows[w]);
    }
  }

  lemma RestartedFollows(m: Match, a: nat)
    requires RowsFollow(m) && a < |m.appeals| && Live(m.rounds, m.appeals[a].val.source)
    ensures RowsFollow(Restarted(m, a))
  {
    var after := Restarted(m, a);
    forall e | 0 <= e < |m.events| ensures EventFollows(after.rounds, after.events[e]) {
      assert EventFollows(m.rounds, m.events[e]);
    }
    forall s | 0 <= s < |m.summaries| ensures SummaryFollows(after.rounds, after.summaries[s]) {
      assert SummaryFollows(m.rounds, m.summaries[s]);
    }
    forall w | 0 <= w < |m.windows| ensures WindowFollows(after.rounds, after.windows[w]) {
      assert WindowFollows(m.rounds, m.windows[w]);
    }
  }

  ghost predicate SameLedger(m: Match, after: Match) {
    after.rounds == m.rounds && after.windows == m.windows && after.events == m.events && after.summaries == m.summaries
  }

  lemma AppealsLeaveLedger(m: Match, command: Command, now: Time)
    requires command.AppealRegulation? || command.AppealOvertime?
    ensures SameLedger(m, Step(m, command, now))
  {
    match command
    case AppealRegulation(key, red, blue) => var accepted, added := RegulationStep(m, key, red, blue, now);
    case AppealOvertime(key, red, blue) => var round := OvertimeStep(m, key, red, blue, now);
  }

  lemma OthersLeaveLedger(m: Match, command: Command, now: Time)
    requires command.Claim? || command.Complete? || command.Choose? || command.Publish?
    ensures SameLedger(m, Step(m, command, now))
  {}

  lemma SameLedgerFollows(m: Match, after: Match)
    requires RowsFollow(m) && SameLedger(m, after)
    ensures RowsFollow(after)
  {}

  lemma CancelFollows(m: Match, entire: bool, retracted: bool, now: Time)
    requires RowsFollow(m) && StampsKnown(m)
    ensures RowsFollow(Step(m, Cancel(entire, retracted), now))
  {
    var ids := CancelStep(m, entire, retracted, now);
    SelectedAreLive(m, entire);
    if CancelResults(m, entire, retracted, now).Success? { CancelledFollows(m, ids, entire, now); }
  }

  lemma RestartFollows(m: Match, now: Time)
    requires RowsFollow(m) && Permitted(m, Restart, now)
    ensures RowsFollow(Step(m, Restart, now))
  {
    var a := RestartStep(m, now);
    if a.Some? { RestartedFollows(m, a.value); }
  }

  /** Windows and events are live exactly as long as their round is, through every cancellation and undo. */
  lemma StepFollows(m: Match, command: Command, now: Time)
    requires RowsFollow(m) && StampsKnown(m) && Permitted(m, command, now)
    ensures RowsFollow(Step(m, command, now))
  {
    match command
    case Start => StartFollows(m, now);
    case Pause => PauseFollows(m, command, now);
    case Resume => PauseFollows(m, command, now);
    case Expire(i) => ExpireFollows(m, i, now);
    case CastVote(found, judge, c) => VoteFollows(m, found, judge, c, now);
    case Resolve(w) => if w < |m.windows| && Pending(m.windows[w], Some(now)) { ResolveFollows(m, w, now); }
    case Cancel(entire, retracted) => CancelFollows(m, entire, retracted, now);
    case Undo(o) => if UndoAllowed(m, o) { UndoneFollows(m, o); }
    case Exit(mode) => if ExitAllowed(m, mode) { ExitedFollows(m, mode, now); }
    case Restart => RestartFollows(m, now);
    case AppealRegulation(_, _, _) => AppealsLeaveLedger(m, command, now); SameLedgerFollows(m, Step(m, command, now));
    case AppealOvertime(_, _, _) => AppealsLeaveLedger(m, command, now); SameLedgerFollows(m, Step(m, command, now));
    case _ => OthersLeaveLedger(m, command, now); SameLedgerFollows(m, Step(m, command, now));
  }
}
