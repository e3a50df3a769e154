/**
 * A vote that is out when its round is cancelled: its window can neither be resolved nor replaced, so nobody can vote
 * until the cancellation is undone.
 */
module MatchBlockedVotes {
  import opened Prelude
  import opened SportRules
  import opened MatchTables
  import opened MatchModel
  import opened MatchCommands
  import opened MatchHistory
  import opened MatchScores
  import opened MatchVoting

  // ---------------------------------------------------------------- when a vote is refused

  /** No look-up finds a cancelled window, but while it is unresolved no other can be created. */
  predicate Hidden(w: Row<Window>) {
    w.stamp.Some? && w.val.resolvedAt.None?
  }

  predicate VotingBlocked(windows: Table<Window>) {
    exists w :: 0 <= w < |windows| && Hidden(windows[w])
  }

  /** A vote that finds a running round, and no vote out, opens a window exactly when none is hidden. */
  lemma {:induction false} VoteOpensExactly(m: Match, found: nat, judge: Judge, c: Color, now: Time)
    requires VotingOK(m, now) && OpenForVotes(m, found) && now < m.rounds[found].val.endsAt
    requires forall w :: 0 <= w < |m.windows| && Pending(m.windows[w], None) ==> m.windows[w].val.endsAt <= now
    ensures SubmitVote(m, found, judge, c, now).Success? <==> !VotingBlocked(m.windows)
    ensures VotingBlocked(m.windows) ==> SubmitVote(m, found, judge, c, now) == Failure(ConstraintViolated)
  {
    var first := FirstPending(m.windows, None);
    if first.Some? {
      var resolved := ResolveWindow(m, first.value, now);
      assert AllResolved(resolved.windows);
    } else {
      assert AllResolved(m.windows) <==> !VotingBlocked(m.windows) by {
        if w: nat :| w < |m.windows| && m.windows[w].val.resolvedAt.None? {
          assert !Pending(m.windows[w], None);
          assert Hidden(m.windows[w]);
        }
      }
    }
  }

  lemma {:induction false} BlockedRefuses(m: Match, found: nat, judge: Judge, c: Color, now: Time)
    requires OneUnresolved(m.windows) && VotingBlocked(m.windows)
    ensures SubmitVote(m, found, judge, c, now).Failure?
  {
    var w :| 0 <= w < |m.windows| && Hidden(m.windows[w]);
    assert !AllResolved(m.windows);
  }

  // ---------------------------------------------------------------- who blocks, and who lets go

  lemma {:induction false} StampBlocksExactly(windows: Table<Window>, ids: set<nat>, k: nat)
    requires !VotingBlocked(windows)
    ensures VotingBlocked(Stamp(windows, ids, k))
            <==> exists w: nat :: w < |windows| && w in ids && Pending(windows[w], None)
  {
    var after := Stamp(windows, ids, k);
    if w: nat :| w < |windows| && w in ids && Pending(windows[w], None) {
      assert Hidden(after[w]);
    }
    if w :| 0 <= w < |after| && Hidden(after[w]) {
      assert !Hidden(windows[w]);
      assert w in ids && Pending(windows[w], None);
    }
  }

  /** Somebody's vote is out in one of the rounds. */
  predicate VoteOut(m: Match, rounds: set<nat>) {
    exists w: nat :: w < |m.windows| && w in WindowsIn(m, rounds) && Pending(m.windows[w], None)
  }

  predicate VoteOutNumbered(m: Match, numbers: set<nat>) {
    exists w: nat :: w < |m.windows| && w in WindowsNumbered(m, numbers) && Pending(m.windows[w], None)
  }

  /** A cancellation blocks voting exactly when it takes a round in which a vote is out. */
  lemma {:induction false} CancelBlocksExactly(m: Match, entire: bool, retracted: bool, now: Time)
    requires CancelResults(m, entire, retracted, now).Success? && !VotingBlocked(m.windows)
    ensures VotingBlocked(CancelResults(m, entire, retracted, now).value.windows)
            <==> VoteOut(m, SelectedRounds(m, entire))
  {
    StampBlocksExactly(m.windows, WindowsIn(m, SelectedRounds(m, entire)), m.nextAudit);
  }

  /** An exit, exactly when it takes rounds by a number under which a vote is out. */
  lemma {:induction false} ExitBlocksExactly(m: Match, mode: ExitMode, now: Time)
    requires ExitAllowed(m, mode) && !VotingBlocked(m.windows)
    ensures VotingBlocked(Exited(m, mode, now).windows) <==> VoteOutNumbered(m, CancelledNumbers(mode))
  {
    StampBlocksExactly(m.windows, WindowsNumbered(m, CancelledNumbers(mode)), m.nextAudit);
  }

  /** A restart, exactly when a vote is out in the overtime it sets aside. */
  lemma {:induction false} RestartBlocksExactly(m: Match, a: nat)
    requires a < |m.appeals| && !VotingBlocked(m.windows)
    ensures VotingBlocked(Restarted(m, a).windows) <==> VoteOut(m, {m.appeals[a].val.source})
  {
    StampBlocksExactly(m.windows, WindowsIn(m, {m.appeals[a].val.source}), m.nextAudit);
  }

  predicate HiddenUnder(windows: Table<Window>, k: nat) {
    exists w :: 0 <= w < |windows| && windows[w].stamp == Some(k) && windows[w].val.resolvedAt.None?
  }

  /** An undo lets voting go on exactly when the hidden window is among the rows it returns. */
  lemma {:induction false} UndoUnblocksExactly(m: Match, o: nat)
    requires OneUnresolved(m.windows) && VotingBlocked(m.windows) && o < |m.operations|
    ensures !VotingBlocked(Undone(m, o).windows) <==> HiddenUnder(m.windows, m.operations[o].audit)
  {
    var after := Undone(m, o).windows;
    var w :| 0 <= w < |m.windows| && Hidden(m.windows[w]);
    if m.windows[w].stamp == Some(m.operations[o].audit) {
      forall u | 0 <= u < |after| ensures !Hidden(after[u]) {
        if u < w {
          assert m.windows[u].val.resolvedAt.Some?;
        } else if w < u {
          assert m.windows[u].val.resolvedAt.Some?;
        }
      }
    } else {
      assert Hidden(after[w]);
    }
  }

  // ---------------------------------------------------------------- for as long as it is not undone

  lemma {:induction false} RefusedVote(m: Match, command: Command, now: Time)
    requires command.CastVote? && OneUnresolved(m.windows) && VotingBlocked(m.windows)
    ensures Step(m, command, now) == m
  {
    BlockedRefuses(m, command.found, command.judge, command.color, now);
  }

  lemma {:induction false} ResolveDueAddsNone(m: Match, now: Time)
    ensures |ResolveDue(m, now).windows| == |m.windows| && ResolveDue(m, now).votes == m.votes
    decreases Unresolved(m.windows)
  {
    var first := FirstPending(m.windows, Some(now));
    if first.Some? {
      var resolved := ResolveWindow(m, first.value, now);
      ResolvingOne(m.windows, first.value, resolved.windows[first.value]);
      ResolveDueAddsNone(resolved, now);
    }
  }

  lemma {:induction false} OthersAddNone(m: Match, command: Command, now: Time)
    requires !command.CastVote?
    ensures |Step(m, command, now).windows| == |m.windows| && |Step(m, command, now).votes| == |m.votes|
  {
    match command
    case Expire(i) => if Expires(m, i, now) { ResolveDueAddsNone(Ended(m, i), now); }
    case Resolve(_) =>
    case _ => StepContents(m, command, now);
  }

  /**
   * A window hidden by cancellation k is hidden for as long as k is not undone, whatever else is permitted: no window
   * is opened, no vote is accepted, and none would be.
   */
  lemma {:induction false} StaysBlocked(m: Match, script: seq<Timed>, t: Time, k: nat)
    requires VotingOK(m, t) && StampsKnown(m) && AuditsOrdered(m) && k < m.nextAudit && HiddenUnder(m.windows, k)
    requires TimedRun(m, script, t) && NeverUndoes(m, script, k)
    ensures var after := Run(m, script);
            && HiddenUnder(after.windows, k) && |after.windows| == |m.windows| && |after.votes| == |m.votes|
            && forall found, judge, c, now :: SubmitVote(after, found, judge, c, now).Failure?
    decreases |script|
  {
    var w :| 0 <= w < |m.windows| && m.windows[w].stamp == Some(k) && m.windows[w].val.resolvedAt.None?;
    assert Hidden(m.windows[w]);
    if script == [] {
      forall found, judge, c, now ensures SubmitVote(m, found, judge, c, now).Failure? {
        BlockedRefuses(m, found, judge, c, now);
      }
    } else {
      var command, now := script[0].command, script[0].now;
      var next := Step(m, command, now);
      StepCarries(m, command, now, k);
      StepOperations(m, command, now);
      StepVoting(m, command, t, now);
      if command.CastVote? { RefusedVote(m, command, now); } else { OthersAddNone(m, command, now); }
      assert next.windows[w] == m.windows[w];
      StaysBlocked(next, script[1..], now, k);
    }
  }
}
