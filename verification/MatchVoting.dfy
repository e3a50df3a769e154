/** Voting windows: one at a time, disjoint, never resolved early, one ballot a judge. */
module MatchVoting {
  import opened Prelude
  import opened SportRules
  import opened MatchTables
  import opened MatchModel
  import opened MatchCommands
  import opened MatchHistory
  import opened MatchScores

  // ---------------------------------------------------------------- the invariant

  /** A window lasts a second and is resolved no earlier than its end; t is the clock. */
  predicate WindowTimed(w: Window, t: Time) {
    && w.endsAt == w.startedAt + SCORING_WINDOW_DURATION_MS && w.startedAt <= t
    && (w.resolvedAt.Some? ==> w.endsAt <= w.resolvedAt.value <= t)
  }

  ghost predicate WindowsTimed(windows: Table<Window>, t: Time) {
    forall w :: 0 <= w < |windows| ==> WindowTimed(windows[w].val, t)
  }

  /** All windows, cancelled ones included, are disjoint half-open intervals in the order they were opened. */
  ghost predicate WindowsDisjoint(windows: Table<Window>) {
    forall u, v :: 0 <= u < v < |windows| ==> windows[u].val.endsAt <= windows[v].val.startedAt
  }

  /** At most one window is unresolved, live or cancelled. */
  ghost predicate OneUnresolved(windows: Table<Window>) {
    forall u, v :: 0 <= u < v < |windows| ==> windows[u].val.resolvedAt.Some? || windows[v].val.resolvedAt.Some?
  }

  predicate VoteInWindow(windows: Table<Window>, v: Vote) {
    v.window < |windows| && windows[v.window].val.startedAt <= v.receivedAt < windows[v.window].val.endsAt
  }

  ghost predicate VotesInWindows(windows: Table<Window>, votes: Table<Vote>) {
    forall v :: 0 <= v < |votes| ==> VoteInWindow(windows, votes[v].val)
  }

  /** No judge votes twice in a window. */
  ghost predicate OneBallotEach(votes: Table<Vote>) {
    forall u, v :: 0 <= u < v < |votes| && votes[u].val.window == votes[v].val.window ==>
        votes[u].val.judge != votes[v].val.judge
  }

  ghost predicate VotingOK(m: Match, t: Time) {
    && WindowsTimed(m.windows, t) && WindowsDisjoint(m.windows) && OneUnresolved(m.windows)
    && VotesInWindows(m.windows, m.votes) && OneBallotEach(m.votes)
  }

  lemma ClockAdvances(m: Match, t: Time, t': Time)
    requires VotingOK(m, t) && t <= t'
    ensures VotingOK(m, t')
  {
    forall w | 0 <= w < |m.windows| ensures WindowTimed(m.windows[w].val, t') {
      assert WindowTimed(m.windows[w].val, t);
    }
  }

  // ---------------------------------------------------------------- resolving and opening

  lemma ResolveVoting(m: Match, w: nat, now: Time)
    requires VotingOK(m, now) && w < |m.windows| && Pending(m.windows[w], Some(now))
    ensures VotingOK(ResolveWindow(m, w, now), now)
  {
    var after := ResolveWindow(m, w, now);
    forall u | 0 <= u < |after.windows| ensures WindowTimed(after.windows[u].val, now) {
      assert WindowTimed(m.windows[u].val, now);
    }
    forall v | 0 <= v < |after.votes| ensures VoteInWindow(after.windows, after.votes[v].val) {
      assert VoteInWindow(m.windows, m.votes[v].val);
    }
  }

  lemma {:induction false} ResolveDueVoting(m: Match, now: Time)
    requires VotingOK(m, now)
    ensures VotingOK(ResolveDue(m, now), now)
    decreases Unresolved(m.windows)
  {
    var first := FirstPending(m.windows, Some(now));
    if first.Some? {
      var resolved := ResolveWindow(m, first.value, now);
      ResolvingOne(m.windows, first.value, resolved.windows[first.value]);
      ResolveVoting(m, first.value, now);
      ResolveDueVoting(resolved, now);
    }
  }

  /** With everything resolved, a new window starts after all earlier ones. */
  lemma OpenVoting(m: Match, found: nat, judge: Judge, c: Color, now: Time)
    requires VotingOK(m, now) && found < |m.rounds| && AllResolved(m.windows)
    ensures VotingOK(OpenWindow(m, found, judge, c, now), now)
  {
    var after := OpenWindow(m, found, judge, c, now);
    forall u | 0 <= u < |m.windows| ensures m.windows[u].val.endsAt <= now {
      assert WindowTimed(m.windows[u].val, now);
    }
    forall u | 0 <= u < |after.windows| ensures WindowTimed(after.windows[u].val, now) {
      if u < |m.windows| { assert WindowTimed(m.windows[u].val, now); }
    }
    OpenedVotes(m, found, judge, c, now);
  }

  lemma OpenedVotes(m: Match, found: nat, judge: Judge, c: Color, now: Time)
    requires VotesInWindows(m.windows, m.votes) && OneBallotEach(m.votes) && found < |m.rounds|
    ensures var after := OpenWindow(m, found, judge, c, now);
            VotesInWindows(after.windows, after.votes) && OneBallotEach(after.votes)
  {
    var after := OpenWindow(m, found, judge, c, now);
    forall v | 0 <= v < |after.votes| ensures VoteInWindow(after.windows, after.votes[v].val) {
      if v < |m.votes| { assert VoteInWindow(m.windows, m.votes[v].val); }
    }
    forall v | 0 <= v < |m.votes| ensures m.votes[v].val.window != |m.windows| {
      assert VoteInWindow(m.windows, m.votes[v].val);
    }
  }

  lemma JoinVoting(m: Match, w: nat, number: nat, judge: Judge, c: Color, now: Time)
    requires VotingOK(m, now) && w < |m.windows| && JoinWindow(m, w, number, judge, c, now).Success?
    ensures VotingOK(JoinWindow(m, w, number, judge, c, now).value, now)
  {
    var after := JoinWindow(m, w, number, judge, c, now).value;
    forall v | 0 <= v < |after.votes| ensures VoteInWindow(after.windows, after.votes[v].val) {
      if v < |m.votes| { assert VoteInWindow(m.windows, m.votes[v].val); }
    }
  }

  lemma VoteVoting(m: Match, found: nat, judge: Judge, c: Color, now: Time)
    requires VotingOK(m, now)
    ensures VotingOK(Step(m, CastVote(found, judge, c), now), now)
  {
    if SubmitVote(m, found, judge, c, now).Success? {
      var first := FirstPending(m.windows, None);
      if first.None? {
        OpenVoting(m, found, judge, c, now);
      } else if now >= m.windows[first.value].val.endsAt {
        ResolveVoting(m, first.value, now);
        OpenVoting(ResolveWindow(m, first.value, now), found, judge, c, now);
      } else {
        JoinVoting(m, first.value, m.rounds[found].val.number, judge, c, now);
      }
    }
  }

  lemma ExpireVoting(m: Match, i: nat, now: Time)
    requires VotingOK(m, now)
    ensures VotingOK(Step(m, Expire(i), now), now)
  {
    if Expires(m, i, now) {
      assert VotingOK(Ended(m, i), now);
      ResolveDueVoting(Ended(m, i), now);
    }
  }

  /** Cancelling and undoing change no window and no vote, only the stamps they bear. */
  lemma SameContentsVoting(m: Match, after: Match, t: Time)
    requires VotingOK(m, t) && SameVals(m.windows, after.windows) && SameVals(m.votes, after.votes)
    ensures VotingOK(after, t)
  {
    forall w | 0 <= w < |after.windows| ensures WindowTimed(after.windows[w].val, t) {
      assert WindowTimed(m.windows[w].val, t);
    }
    forall v | 0 <= v < |after.votes| ensures VoteInWindow(after.windows, after.votes[v].val) {
      assert VoteInWindow(m.windows, m.votes[v].val);
    }
  }

  // ---------------------------------------------------------------- every run

  lemma StepVoting(m: Match, command: Command, t: Time, now: Time)
    requires VotingOK(m, t) && t <= now
    ensures VotingOK(Step(m, command, now), now)
  {
    ClockAdvances(m, t, now);
    match command
    case CastVote(found, judge, c) => VoteVoting(m, found, judge, c, now);
    case Resolve(w) => if w < |m.windows| && Pending(m.windows[w], Some(now)) { ResolveVoting(m, w, now); }
    case Expire(i) => ExpireVoting(m, i, now);
    case _ => StepContents(m, command, now); SameContentsVoting(m, Step(m, command, now), now);
  }

  /** Any commands at all, in clock order from t on. */
  ghost predicate ClockRun(m: Match, script: seq<Timed>, t: Time)
    decreases |script|
  {
    script != [] ==>
      t <= script[0].now && ClockRun(Step(m, script[0].command, script[0].now), script[1..], script[0].now)
  }

  lemma {:induction false} RunVoting(m: Match, script: seq<Timed>, t: Time)
    requires VotingOK(m, t) && ClockRun(m, script, t)
    ensures VotingOK(Run(m, script), LastTime(script, t))
    decreases |script|
  {
    if script != [] {
      StepVoting(m, script[0].command, t, script[0].now);
      RunVoting(Step(m, script[0].command, script[0].now), script[1..], script[0].now);
    }
  }

  lemma VotingOfAnyRun(rules: RulesVersion, judges: nat, duration: nat, intermission: nat, script: seq<Timed>)
    requires ClockRun(NewMatch(rules, judges, duration, intermission), script, 0)
    ensures VotingOK(Run(NewMatch(rules, judges, duration, intermission), script), LastTime(script, 0))
  {
    RunVoting(NewMatch(rules, judges, duration, intermission), script, 0);
  }

  lemma {:induction false} TimedIsInOrder(m: Match, script: seq<Timed>, t: Time)
    requires TimedRun(m, script, t)
    ensures ClockRun(m, script, t)
    decreases |script|
  {
    if script != [] { TimedIsInOrder(Step(m, script[0].command, script[0].now), script[1..], script[0].now); }
  }

  // ---------------------------------------------------------------- consequences

  /** With one ballot a judge, a window has no more ballots than judges have voted, so majorities cannot clash. */
  lemma {:induction false} BallotsAreDistinctJudges(votes: Table<Vote>, w: nat) returns (judges: set<Judge>)
    requires OneBallotEach(votes)
    ensures |judges| == |Ballots(votes, w)|
    ensures forall j :: j in judges <==>
              exists v :: 0 <= v < |votes| && votes[v].val.window == w && votes[v].val.judge == j
  {
    if votes == [] {
      judges := {};
    } else {
      var init, last := votes[..|votes| - 1], votes[|votes| - 1].val;
      judges := BallotsAreDistinctJudges(init, w);
      if last.window == w {
        forall j | j in judges ensures j != last.judge {
          var v :| 0 <= v < |init| && init[v].val.window == w && init[v].val.judge == j;
          assert votes[v].val.judge != last.judge;
        }
        judges := judges + {last.judge};
        assert votes[|votes| - 1].val.window == w;
      }
      forall j
        ensures j in judges <==> exists v :: 0 <= v < |votes| && votes[v].val.window == w && votes[v].val.judge == j
      {
        if v :| 0 <= v < |init| && init[v].val.window == w && init[v].val.judge == j { assert votes[v].val.judge == j; }
        if v :| 0 <= v < |votes| && votes[v].val.window == w && votes[v].val.judge == j {
          if v < |init| { assert init[v].val.judge == j; }
        }
      }
    }
  }

  /** When the ballots come from a crew of the required size, a colour is awarded exactly when it has the majority. */
  lemma CrewDecidesWindow(m: Match, w: nat, crew: set<Judge>, c: Color)
    requires OneBallotEach(m.votes) && |crew| <= m.requiredJudgeCount
    requires forall v :: 0 <= v < |m.votes| && m.votes[v].val.window == w ==> m.votes[v].val.judge in crew
    ensures Award(Ballots(m.votes, w), m.requiredJudgeCount) == Some(c)
            <==> Votes(Ballots(m.votes, w), c) >= JudgeMajority(m.requiredJudgeCount)
  {
    var judges := BallotsAreDistinctJudges(m.votes, w);
    SubsetSize(judges, crew);
    AwardIsTheMajority(Ballots(m.votes, w), m.requiredJudgeCount, c);
  }

  lemma {:induction false} SubsetSize<T>(a: set<T>, b: set<T>)
    requires a <= b
    ensures |a| <= |b|
  {
    if a != {} {
      var x :| x in a;
      SubsetSize(a - {x}, b - {x});
    }
  }
}
