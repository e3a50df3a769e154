/** Columns that are written once: what every command leaves as it was, whatever it stamps. */
module MatchColumns {
  import opened Prelude
  import opened SportRules
  import opened MatchTables
  import opened MatchModel
  import opened MatchCommands
  import opened MatchHistory

  /** Rows are never dropped and their contents never rewritten. */
  ghost predicate ValsKept<T>(before: Table<T>, after: Table<T>) {
    |before| <= |after| && forall i :: 0 <= i < |before| ==> after[i].val == before[i].val
  }

  /** A round keeps its identity, and its end once recorded. */
  predicate SameRound(r: Round, r': Round) {
    && r'.stage == r.stage && r'.number == r.number && r'.attempt == r.attempt && r'.duration == r.duration
    && r'.startedAt == r.startedAt
    && (r.endedAt.Some? ==> r'.endedAt == r.endedAt)
  }

  ghost predicate RoundsKept(before: Table<Round>, after: Table<Round>) {
    |before| <= |after| && forall i :: 0 <= i < |before| ==> SameRound(before[i].val, after[i].val)
  }

  /** A window keeps its interval, and its resolution once made. */
  predicate SameWindow(w: Window, w': Window) {
    && w'.round == w.round && w'.roundNumber == w.roundNumber && w'.startedAt == w.startedAt && w'.endsAt == w.endsAt
    && w'.elapsed == w.elapsed
    && (w.resolvedAt.Some? ==> w' == w)
  }

  ghost predicate WindowsKept(before: Table<Window>, after: Table<Window>) {
    |before| <= |after| && forall i :: 0 <= i < |before| ==> SameWindow(before[i].val, after[i].val)
  }

  ghost predicate ColumnsKept(m: Match, m': Match) {
    && m'.rules == m.rules && m'.requiredJudgeCount == m.requiredJudgeCount && m'.roundDuration == m.roundDuration
    && RoundsKept(m.rounds, m'.rounds) && WindowsKept(m.windows, m'.windows)
    && ValsKept(m.votes, m'.votes) && ValsKept(m.events, m'.events) && ValsKept(m.summaries, m'.summaries)
    && ValsKept(m.appeals, m'.appeals) && ValsKept(m.decisions, m'.decisions)
  }

  lemma ColumnsTrans(a: Match, b: Match, c: Match)
    requires ColumnsKept(a, b) && ColumnsKept(b, c)
    ensures ColumnsKept(a, c)
  {
    forall i | 0 <= i < |a.rounds| ensures SameRound(a.rounds[i].val, c.rounds[i].val) {
      assert SameRound(a.rounds[i].val, b.rounds[i].val) && SameRound(b.rounds[i].val, c.rounds[i].val);
    }
    forall i | 0 <= i < |a.windows| ensures SameWindow(a.windows[i].val, c.windows[i].val) {
      assert SameWindow(a.windows[i].val, b.windows[i].val) && SameWindow(b.windows[i].val, c.windows[i].val);
    }
  }

  lemma ClockColumns(m: Match, command: Command, now: Time)
    requires command.Start? || command.Pause? || command.Resume? || command.Claim? || command.Complete?
    ensures ColumnsKept(m, Step(m, command, now))
  {}

  lemma ResolveColumns(m: Match, w: nat, now: Time)
    requires w < |m.windows| && Pending(m.windows[w], None)
    ensures ColumnsKept(m, ResolveWindow(m, w, now))
  {}

  lemma {:induction false} ResolveDueColumns(m: Match, now: Time)
    ensures ColumnsKept(m, ResolveDue(m, now))
    decreases Unresolved(m.windows)
  {
    var first := FirstPending(m.windows, Some(now));
    if first.Some? {
      var resolved := ResolveWindow(m, first.value, now);
      ResolvingOne(m.windows, first.value, resolved.windows[first.value]);
      ResolveColumns(m, first.value, now);
      ResolveDueColumns(resolved, now);
      ColumnsTrans(m, resolved, ResolveDue(resolved, now));
    }
  }

  lemma OpenColumns(m: Match, found: nat, judge: Judge, c: Color, now: Time)
    requires found < |m.rounds|
    ensures ColumnsKept(m, OpenWindow(m, found, judge, c, now))
  {}

  lemma LateVoteColumns(m: Match, w: nat, found: nat, judge: Judge, c: Color, now: Time)
    requires w < |m.windows| && Pending(m.windows[w], None) && found < |m.rounds|
    ensures ColumnsKept(m, OpenWindow(ResolveWindow(m, w, now), found, judge, c, now))
  {
    var resolved := ResolveWindow(m, w, now);
    ResolveColumns(m, w, now);
    OpenColumns(resolved, found, judge, c, now);
    ColumnsTrans(m, resolved, OpenWindow(resolved, found, judge, c, now));
  }

  lemma VoteColumns(m: Match, found: nat, judge: Judge, c: Color, now: Time)
    ensures ColumnsKept(m, Step(m, CastVote(found, judge, c), now))
  {
    var before, after := VoteStep(m, found, judge, c, now);
    if OpenForVotes(m, found) {
      OpenColumns(m, found, judge, c, now);
      if before != m {
        var w: nat :| w < |m.windows| && Pending(m.windows[w], None) && before == ResolveWindow(m, w, now);
        LateVoteColumns(m, w, found, judge, c, now);
      }
    }
  }

  lemma EndColumns(m: Match, i: nat, now: Time)
    requires Expires(m, i, now)
    ensures ColumnsKept(m, Closed(m, Settled(m, i, now), i, now))
  {
    var settled := Settled(m, i, now);
    ResolveDueColumns(Ended(m, i), now);
    ColumnsTrans(m, Ended(m, i), settled);
    ColumnsTrans(m, settled, Closed(m, settled, i, now));
  }

  lemma ExpireColumns(m: Match, i: nat, now: Time)
    ensures ColumnsKept(m, Step(m, Expire(i), now))
  {
    if Expires(m, i, now) { EndColumns(m, i, now); }
  }

  lemma CancelledColumns(m: Match, ids: set<nat>, entire: bool, now: Time)
    ensures ColumnsKept(m, Cancelled(m, ids, entire, now))
  {}

  lemma CancelColumns(m: Match, entire: bool, retracted: bool, now: Time)
    ensures ColumnsKept(m, Step(m, Cancel(entire, retracted), now))
  {
    var ids := CancelStep(m, entire, retracted, now);
    CancelledColumns(m, ids, entire, now);
  }

  lemma UndoColumns(m: Match, o: nat, now: Time)
    ensures ColumnsKept(m, Step(m, Undo(o), now))
  {}

  lemma ExitedColumns(m: Match, mode: ExitMode, now: Time)
    ensures ColumnsKept(m, Exited(m, mode, now))
  {}

  lemma ExitColumns(m: Match, mode: ExitMode, now: Time)
    ensures ColumnsKept(m, Step(m, Exit(mode), now))
  {
    var after := ExitStep(m, mode, now);
    ExitedColumns(m, mode, now);
  }

  lemma AppealedColumns(m: Match, appeal: Appeal)
    ensures ColumnsKept(m, Appealed(m, appeal))
  {}

  lemma CleanUpColumns(m: Match)
    ensures ColumnsKept(m, CleanUpAppeals(m))
  {}

  lemma RegulationColumns(m: Match, key: string, red: Adjustment, blue: Adjustment, now: Time)
    ensures ColumnsKept(m, Step(m, AppealRegulation(key, red, blue), now))
  {
    var accepted, added := RegulationStep(m, key, red, blue, now);
    CleanUpColumns(m);
    if accepted && added.Some? {
      AppealedColumns(CleanUpAppeals(m), added.value);
      ColumnsTrans(m, CleanUpAppeals(m), Appealed(CleanUpAppeals(m), added.value));
    }
  }

  lemma OvertimeColumns(m: Match, key: string, red: Adjustment, blue: Adjustment, now: Time)
    ensures ColumnsKept(m, Step(m, AppealOvertime(key, red, blue), now))
  {
    var round := OvertimeStep(m, key, red, blue, now);
  }

  lemma RestartedColumns(m: Match, a: nat)
    requires a < |m.appeals|
    ensures ColumnsKept(m, Restarted(m, a))
  {}

  lemma RestartColumns(m: Match, now: Time)
    ensures ColumnsKept(m, Step(m, Restart, now))
  {
    var a := RestartStep(m, now);
    if a.Some? { RestartedColumns(m, a.value); }
  }

  lemma ResultColumns(m: Match, command: Command, now: Time)
    requires command.Choose? || command.Publish?
    ensures ColumnsKept(m, Step(m, command, now))
  {}

  /** In particular a window is resolved at most once, and what it was resolved to stands. */
  lemma StepColumns(m: Match, command: Command, now: Time)
    ensures ColumnsKept(m, Step(m, command, now))
  {
    match command
    case Start => ClockColumns(m, command, now);
    case Pause => ClockColumns(m, command, now);
    case Resume => ClockColumns(m, command, now);
    case Claim => ClockColumns(m, command, now);
    case Complete => ClockColumns(m, command, now);
    case CastVote(found, judge, c) => VoteColumns(m, found, judge, c, now);
    case Resolve(w) => if w < |m.windows| && Pending(m.windows[w], Some(now)) { ResolveColumns(m, w, now); }
    case Expire(i) => ExpireColumns(m, i, now);
    case Cancel(entire, retracted) => CancelColumns(m, entire, retracted, now);
    case Undo(o) => UndoColumns(m, o, now);
    case Exit(mode) => ExitColumns(m, mode, now);
    case AppealRegulation(key, red, blue) => RegulationColumns(m, key, red, blue, now);
    case AppealOvertime(key, red, blue) => OvertimeColumns(m, key, red, blue, now);
    case Restart => RestartColumns(m, now);
    case _ => ResultColumns(m, command, now);
  }

  // ---------------------------------------------------------------- which commands add rows

  lemma {:induction false} ResolveDueAdds(m: Match, now: Time)
    ensures |ResolveDue(m, now).windows| == |m.windows| && ResolveDue(m, now).votes == m.votes
    ensures ResolveDue(m, now).rounds == m.rounds && ResolveDue(m, now).appeals == m.appeals
    ensures ResolveDue(m, now).decisions == m.decisions && ResolveDue(m, now).summaries == m.summaries
    decreases Unresolved(m.windows)
  {
    var first := FirstPending(m.windows, Some(now));
    if first.Some? {
      var resolved := ResolveWindow(m, first.value, now);
      ResolvingOne(m.windows, first.value, resolved.windows[first.value]);
      ResolveDueAdds(resolved, now);
    }
  }

  predicate CommitsAppeal(command: Command) {
    command.AppealRegulation? || command.AppealOvertime?
  }

  lemma CancelAddsNothing(m: Match, entire: bool, retracted: bool, now: Time)
    ensures |Step(m, Cancel(entire, retracted), now).rounds| == |m.rounds|
    ensures |Step(m, Cancel(entire, retracted), now).appeals| == |m.appeals|
  {
    var ids := CancelStep(m, entire, retracted, now);
  }

  lemma ExpireAddsNothing(m: Match, i: nat, now: Time)
    ensures |Step(m, Expire(i), now).rounds| == |m.rounds|
    ensures |Step(m, Expire(i), now).appeals| == |m.appeals|
  {
    if Expires(m, i, now) { ResolveDueAdds(Ended(m, i), now); }
  }

  lemma VoteAddsNothing(m: Match, command: Command, now: Time)
    requires command.CastVote? || command.Resolve?
    ensures |Step(m, command, now).rounds| == |m.rounds| && |Step(m, command, now).appeals| == |m.appeals|
  {}

  lemma ExitAddsNothing(m: Match, mode: ExitMode, now: Time)
    ensures |Step(m, Exit(mode), now).rounds| == |m.rounds| && |Step(m, Exit(mode), now).appeals| == |m.appeals|
  {
    var after := ExitStep(m, mode, now);
  }

  lemma CommitAddsNoRound(m: Match, command: Command, now: Time)
    requires CommitsAppeal(command)
    ensures |Step(m, command, now).rounds| == |m.rounds|
  {
    match command
    case AppealRegulation(key, red, blue) => var accepted, added := RegulationStep(m, key, red, blue, now);
    case AppealOvertime(key, red, blue) => var round := OvertimeStep(m, key, red, blue, now);
  }

  lemma RestartAddsNothing(m: Match, now: Time)
    ensures |Step(m, Restart, now).rounds| == |m.rounds| && |Step(m, Restart, now).appeals| == |m.appeals|
  {
    var a := RestartStep(m, now);
  }

  lemma OthersAddNoAppeal(m: Match, command: Command, now: Time)
    requires command.Start? || command.Pause? || command.Resume? || command.Claim? || command.Complete?
             || command.Undo? || command.Choose? || command.Publish?
    ensures !command.Start? ==> |Step(m, command, now).rounds| == |m.rounds|
    ensures |Step(m, command, now).appeals| == |m.appeals|
  {}

  /** Rounds are added by starting one, appeals by committing one. */
  lemma StepAdds(m: Match, command: Command, now: Time)
    ensures !command.Start? ==> |Step(m, command, now).rounds| == |m.rounds|
    ensures !CommitsAppeal(command) ==> |Step(m, command, now).appeals| == |m.appeals|
  {
    match command
    case Expire(i) => ExpireAddsNothing(m, i, now);
    case Cancel(entire, retracted) => CancelAddsNothing(m, entire, retracted, now);
    case CastVote(_, _, _) => VoteAddsNothing(m, command, now);
    case Resolve(_) => VoteAddsNothing(m, command, now);
    case Exit(mode) => ExitAddsNothing(m, mode, now);
    case AppealRegulation(_, _, _) => CommitAddsNoRound(m, command, now);
    case AppealOvertime(_, _, _) => CommitAddsNoRound(m, command, now);
    case Restart => RestartAddsNothing(m, now);
    case _ => OthersAddNoAppeal(m, command, now);
  }
}
