/** A projected score is a number of won windows, and a captured score is the projected one. */
module MatchScores {
  import opened Prelude
  import opened SportRules
  import opened MatchTables
  import opened MatchModel
  import opened MatchCommands
  import opened MatchHistory
  import opened MatchLedger

  // ---------------------------------------------------------------- sums that ignore cancellation

  /** All points ever scored in the rounds, cancelled or not. */
  function Earned(events: Table<Event>, rounds: set<nat>, c: Color): int {
    if events == [] then 0
    else
      var last := events[|events| - 1].val;
      Earned(events[..|events| - 1], rounds, c) + (if last.round in rounds && last.color == c then last.value else 0)
  }

  function WinsFor(w: Window, rounds: set<nat>, c: Color): nat {
    if w.round in rounds && w.winner == Some(c) then 1 else 0
  }

  /** All windows of the rounds ever resolved in colour c, cancelled or not. */
  function Won(windows: Table<Window>, rounds: set<nat>, c: Color): nat {
    if windows == [] then 0
    else Won(windows[..|windows| - 1], rounds, c) + WinsFor(windows[|windows| - 1].val, rounds, c)
  }

  /** Live windows of the rounds resolved in colour c. */
  function Awarded(windows: Table<Window>, rounds: set<nat>, c: Color): nat {
    if windows == [] then 0
    else
      var last := windows[|windows| - 1];
      Awarded(windows[..|windows| - 1], rounds, c) + (if last.stamp.None? then WinsFor(last.val, rounds, c) else 0)
  }

  /** All points ever captured for the rounds, cancelled or not. */
  function Recorded(summaries: Table<Summary>, rounds: set<nat>, c: Color): int {
    if summaries == [] then 0
    else
      var last := summaries[|summaries| - 1].val;
      Recorded(summaries[..|summaries| - 1], rounds, c)
          + (if last.round in rounds && last.color == c then last.points else 0)
  }

  ghost predicate SameVals<T>(a: Table<T>, b: Table<T>) {
    |a| == |b| && forall i :: 0 <= i < |a| ==> a[i].val == b[i].val
  }

  lemma {:induction false} EarnedSame(a: Table<Event>, b: Table<Event>, rounds: set<nat>, c: Color)
    requires SameVals(a, b)
    ensures Earned(a, rounds, c) == Earned(b, rounds, c)
  {
    if a != [] { EarnedSame(a[..|a| - 1], b[..|b| - 1], rounds, c); }
  }

  lemma {:induction false} WonSame(a: Table<Window>, b: Table<Window>, rounds: set<nat>, c: Color)
    requires SameVals(a, b)
    ensures Won(a, rounds, c) == Won(b, rounds, c)
  {
    if a != [] { WonSame(a[..|a| - 1], b[..|b| - 1], rounds, c); }
  }

  lemma {:induction false} RecordedSame(a: Table<Summary>, b: Table<Summary>, rounds: set<nat>, c: Color)
    requires SameVals(a, b)
    ensures Recorded(a, rounds, c) == Recorded(b, rounds, c)
  {
    if a != [] { RecordedSame(a[..|a| - 1], b[..|b| - 1], rounds, c); }
  }

  lemma {:induction false} WonUpdated(windows: Table<Window>, w: nat, val: Window, rounds: set<nat>, c: Color)
    requires w < |windows|
    ensures Won(SetVal(windows, w, val), rounds, c) + WinsFor(windows[w].val, rounds, c)
            == Won(windows, rounds, c) + WinsFor(val, rounds, c)
  {
    var after := SetVal(windows, w, val);
    if w == |windows| - 1 {
      assert after[..|after| - 1] == windows[..|windows| - 1];
    } else {
      assert after[..|after| - 1] == SetVal(windows[..|windows| - 1], w, val);
      WonUpdated(windows[..|windows| - 1], w, val, rounds, c);
    }
  }

  // ---------------------------------------------------------------- windows and events balance

  ghost predicate LedgerBalances(m: Match) {
    forall rounds, c :: Earned(m.events, rounds, c) == Won(m.windows, rounds, c)
  }

  /** Only a resolved window has a winner. */
  ghost predicate WinnersResolved(m: Match) {
    forall w :: 0 <= w < |m.windows| && m.windows[w].val.resolvedAt.None? ==> m.windows[w].val.winner.None?
  }

  ghost predicate LedgerOK(m: Match) {
    RowsFollow(m) && LedgerBalances(m) && WinnersResolved(m)
  }

  lemma ResolveEarns(m: Match, w: nat, now: Time, rounds: set<nat>, c: Color)
    requires w < |m.windows| && m.windows[w].val.winner.None?
    ensures var after := ResolveWindow(m, w, now);
            && Earned(after.events, rounds, c) == Earned(m.events, rounds, c) + WinsFor(after.windows[w].val, rounds, c)
            && Won(after.windows, rounds, c) == Won(m.windows, rounds, c) + WinsFor(after.windows[w].val, rounds, c)
  {
    var after := ResolveWindow(m, w, now);
    WonUpdated(m.windows, w, after.windows[w].val, rounds, c);
    if |after.events| > |m.events| { assert after.events[..|after.events| - 1] == m.events; }
  }

  lemma ResolveBalances(m: Match, w: nat, now: Time)
    requires LedgerBalances(m) && WinnersResolved(m) && w < |m.windows| && Pending(m.windows[w], None)
    ensures LedgerBalances(ResolveWindow(m, w, now)) && WinnersResolved(ResolveWindow(m, w, now))
  {
    forall rounds, c
      ensures Earned(ResolveWindow(m, w, now).events, rounds, c) == Won(ResolveWindow(m, w, now).windows, rounds, c)
    {
      ResolveEarns(m, w, now, rounds, c);
      assert Earned(m.events, rounds, c) == Won(m.windows, rounds, c);
    }
  }

  lemma {:induction false} ResolveDueBalances(m: Match, now: Time)
    requires LedgerBalances(m) && WinnersResolved(m)
    ensures LedgerBalances(ResolveDue(m, now)) && WinnersResolved(ResolveDue(m, now))
    decreases Unresolved(m.windows)
  {
    var first := FirstPending(m.windows, Some(now));
    if first.Some? {
      var resolved := ResolveWindow(m, first.value, now);
      ResolvingOne(m.windows, first.value, resolved.windows[first.value]);
      ResolveBalances(m, first.value, now);
      ResolveDueBalances(resolved, now);
    }
  }

  lemma OpenBalances(m: Match, found: nat, judge: Judge, c: Color, now: Time)
    requires LedgerBalances(m) && WinnersResolved(m) && found < |m.rounds|
    ensures LedgerBalances(OpenWindow(m, found, judge, c, now)) && WinnersResolved(OpenWindow(m, found, judge, c, now))
  {
    var after := OpenWindow(m, found, judge, c, now);
    assert after.windows[..|m.windows|] == m.windows;
    forall rounds, k ensures Earned(after.events, rounds, k) == Won(after.windows, rounds, k) {
      assert Earned(m.events, rounds, k) == Won(m.windows, rounds, k);
    }
  }

  lemma VoteBalances(m: Match, found: nat, judge: Judge, c: Color, now: Time)
    requires LedgerBalances(m) && WinnersResolved(m)
    ensures var after := Step(m, CastVote(found, judge, c), now); LedgerBalances(after) && WinnersResolved(after)
  {
    if SubmitVote(m, found, judge, c, now).Success? {
      var first := FirstPending(m.windows, None);
      if first.None? {
        OpenBalances(m, found, judge, c, now);
      } else if now >= m.windows[first.value].val.endsAt {
        ResolveBalances(m, first.value, now);
        OpenBalances(ResolveWindow(m, first.value, now), found, judge, c, now);
      }
    }
  }

  /** Only votes and resolutions change what windows and events say; the rest at most stamps them. */
  ghost predicate SameContents(m: Match, after: Match) {
    && SameVals(m.windows, after.windows) && SameVals(m.votes, after.votes)
    && SameVals(m.events, after.events) && SameVals(m.summaries, after.summaries)
  }

  predicate ScoringCommand(command: Command) {
    command.CastVote? || command.Resolve? || command.Expire?
  }

  lemma CancelContents(m: Match, entire: bool, retracted: bool, now: Time)
    ensures SameContents(m, Step(m, Cancel(entire, retracted), now))
  {
    var ids := CancelStep(m, entire, retracted, now);
  }

  lemma RestartContents(m: Match, now: Time)
    ensures SameContents(m, Step(m, Restart, now))
  {
    var a := RestartStep(m, now);
  }

  lemma LeaveContents(m: Match, command: Command, now: Time)
    requires command.Undo? || command.Exit?
    ensures SameContents(m, Step(m, command, now))
  {}

  lemma ClockContents(m: Match, command: Command, now: Time)
    requires command.Start? || command.Pause? || command.Resume?
    ensures SameContents(m, Step(m, command, now))
  {}

  lemma StepContents(m: Match, command: Command, now: Time)
    requires !ScoringCommand(command)
    ensures SameContents(m, Step(m, command, now))
  {
    match command
    case Start => ClockContents(m, command, now);
    case Pause => ClockContents(m, command, now);
    case Resume => ClockContents(m, command, now);
    case Cancel(entire, retracted) => CancelContents(m, entire, retracted, now);
    case Undo(_) => LeaveContents(m, command, now);
    case Exit(_) => LeaveContents(m, command, now);
    case Restart => RestartContents(m, now);
    case AppealRegulation(_, _, _) => AppealsLeaveLedger(m, command, now);
    case AppealOvertime(_, _, _) => AppealsLeaveLedger(m, command, now);
    case _ => OthersLeaveLedger(m, command, now);
  }

  lemma SameContentsBalance(m: Match, after: Match)
    requires LedgerBalances(m) && WinnersResolved(m) && SameContents(m, after)
    ensures LedgerBalances(after) && WinnersResolved(after)
  {
    forall rounds, c ensures Earned(after.events, rounds, c) == Won(after.windows, rounds, c) {
      EarnedSame(m.events, after.events, rounds, c);
      WonSame(m.windows, after.windows, rounds, c);
      assert Earned(m.events, rounds, c) == Won(m.windows, rounds, c);
    }
  }

  lemma ExpireBalances(m: Match, i: nat, now: Time)
    requires LedgerBalances(m) && WinnersResolved(m)
    ensures var after := Step(m, Expire(i), now); LedgerBalances(after) && WinnersResolved(after)
  {
    if Expires(m, i, now) { ResolveDueBalances(Ended(m, i), now); }
  }

  lemma StepLedger(m: Match, command: Command, now: Time)
    requires LedgerOK(m) && StampsKnown(m) && Permitted(m, command, now)
    ensures LedgerOK(Step(m, command, now))
  {
    StepFollows(m, command, now);
    match command
    case CastVote(found, judge, c) => VoteBalances(m, found, judge, c, now);
    case Resolve(w) => if w < |m.windows| && Pending(m.windows[w], Some(now)) { ResolveBalances(m, w, now); }
    case Expire(i) => ExpireBalances(m, i, now);
    case _ => StepContents(m, command, now); SameContentsBalance(m, Step(m, command, now));
  }

  // ---------------------------------------------------------------- the projection

  function LiveAmong(m: Match, rounds: set<nat>): set<nat> {
    set i: nat | i in rounds && Live(m.rounds, i)
  }

  lemma {:induction false} LivePoints(m: Match, events: Table<Event>, rounds: set<nat>, c: Color)
    requires forall e :: 0 <= e < |events| ==> EventFollows(m.rounds, events[e])
    ensures Points(events, rounds, c) == Earned(events, LiveAmong(m, rounds), c)
  {
    if events != [] {
      LivePoints(m, events[..|events| - 1], rounds, c);
      assert EventFollows(m.rounds, events[|events| - 1]);
    }
  }

  lemma {:induction false} LiveWins(m: Match, windows: Table<Window>, rounds: set<nat>, c: Color)
    requires forall w :: 0 <= w < |windows| ==> WindowFollows(m.rounds, windows[w])
    ensures Awarded(windows, rounds, c) == Won(windows, LiveAmong(m, rounds), c)
  {
    if windows != [] {
      LiveWins(m, windows[..|windows| - 1], rounds, c);
      assert WindowFollows(m.rounds, windows[|windows| - 1]);
    }
  }

  /** For any set of rounds, the projected score is the number of live windows resolved in that colour. */
  lemma ProjectionCountsWindows(m: Match, rounds: set<nat>, c: Color)
    requires LedgerOK(m)
    ensures Points(m.events, rounds, c) == Awarded(m.windows, rounds, c)
  {
    LivePoints(m, m.events, rounds, c);
    LiveWins(m, m.windows, rounds, c);
    assert Earned(m.events, LiveAmong(m, rounds), c) == Won(m.windows, LiveAmong(m, rounds), c);
  }

  lemma {:induction false} RunLedger(m: Match, script: seq<Timed>, rounds: set<nat>, c: Color)
    requires LedgerOK(m) && StampsKnown(m) && AuditsOrdered(m) && PermittedRun(m, script)
    ensures LedgerOK(Run(m, script))
    ensures Points(Run(m, script).events, rounds, c) == Awarded(Run(m, script).windows, rounds, c)
    decreases |script|
  {
    if script == [] {
      ProjectionCountsWindows(m, rounds, c);
    } else {
      StepLedger(m, script[0].command, script[0].now);
      StepCarries(m, script[0].command, script[0].now, m.nextAudit + 1);
      StepOperations(m, script[0].command, script[0].now);
      RunLedger(Step(m, script[0].command, script[0].now), script[1..], rounds, c);
    }
  }

  /** From a new match on, through resolution, cancellation, exit, restart and undo. */
  lemma ProjectionOfAnyRun(
      rules: RulesVersion, judges: nat, duration: nat, intermission: nat, script: seq<Timed>, rounds: set<nat>,
      c: Color)
    requires PermittedRun(NewMatch(rules, judges, duration, intermission), script)
    ensures var m := Run(NewMatch(rules, judges, duration, intermission), script);
            LedgerOK(m) && Points(m.events, rounds, c) == Awarded(m.windows, rounds, c)
  {
    RunLedger(NewMatch(rules, judges, duration, intermission), script, rounds, c);
  }

  /** The projection as it is computed: one pass over the events, adding into a map. */
  method ScoreProjection(events: Table<Event>, validRounds: set<nat>) returns (scores: map<Color, int>)
    ensures scores.Keys == {RED, BLUE}
    ensures forall c :: c in scores ==> scores[c] == Points(events, validRounds, c)
  {
    scores := map[RED := 0, BLUE := 0];
    for i := 0 to |events|
      invariant scores.Keys == {RED, BLUE}
      invariant forall c :: c in scores ==> scores[c] == Points(events[..i], validRounds, c)
    {
      assert events[..i + 1][..i] == events[..i];
      var event := events[i];
      assert event.val.color == RED || event.val.color == BLUE;
      if event.stamp.None? && event.val.round in validRounds {
        scores := scores[event.val.color := scores[event.val.color] + event.val.value];
      }
    }
    assert events[..|events|] == events;
  }
}
