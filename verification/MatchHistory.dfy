/** What no command but its own undo can touch: the rows a cancellation stamped. */
module MatchHistory {
  import opened Prelude
  import opened SportRules
  import opened MatchTables
  import opened MatchModel
  import opened MatchCommands

  // ---------------------------------------------------------------- hypotheses of a step

  predicate HasLiveOvertime(m: Match) {
    exists i :: 0 <= i < |m.rounds| && LiveOvertime(m.rounds, i, false)
  }

  /** The overtime appeal a restart or a manual decision picks has a live source round. */
  predicate TopAppealIsValid(m: Match) {
    var top := TopOvertimeAppeal(m.appeals);
    top.Some? ==> Live(m.rounds, m.appeals[top.value].val.source)
  }

  /**
   * What the code leaves to its callers. Wake-ups and votes find live rounds; the exits that keep regulation
   * rounds are not taken over a live overtime round; a restart finds a valid appeal.
   */
  predicate Permitted(m: Match, command: Command, now: Time) {
    match command
    case Expire(i) => Expires(m, i, now) ==> Live(m.rounds, i)
    case CastVote(i, _, _) => OpenForVotes(m, i) ==> Live(m.rounds, i)
    case Exit(mode) => mode == KeepRound1 || mode == KeepRounds1And2 ==> !HasLiveOvertime(m)
    case Restart => m.status == OvertimeTiebreakDecision ==> TopAppealIsValid(m)
    case _ => true
  }

  /** A manual decision falls on an appeal in force. */
  predicate DecidesInForce(m: Match, command: Command) {
    command.Choose? && m.status == OvertimeTiebreakDecision ==> TopAppealIsValid(m)
  }

  ghost predicate PermittedRun(m: Match, script: seq<Timed>)
    decreases |script|
  {
    script != [] ==>
      Permitted(m, script[0].command, script[0].now)
          && PermittedRun(Step(m, script[0].command, script[0].now), script[1..])
  }

  /** A permitted run in clock order, starting no earlier than t. */
  ghost predicate TimedRun(m: Match, script: seq<Timed>, t: Time)
    decreases |script|
  {
    script != [] ==>
      && t <= script[0].now && Permitted(m, script[0].command, script[0].now)
      && TimedRun(Step(m, script[0].command, script[0].now), script[1..], script[0].now)
  }

  function LastTime(script: seq<Timed>, t: Time): Time {
    if script == [] then t else script[|script| - 1].now
  }

  /** One command more. */
  lemma {:induction false} RunSnoc(m: Match, script: seq<Timed>, c: Timed, t: Time)
    ensures Run(m, script + [c]) == Step(Run(m, script), c.command, c.now)
    ensures TimedRun(m, script + [c], t)
            <==> TimedRun(m, script, t) && LastTime(script, t) <= c.now && Permitted(Run(m, script), c.command, c.now)
    ensures LastTime(script + [c], t) == c.now
    decreases |script|
  {
    var more := script + [c];
    if script == [] {
      assert more[1..] == [];
    } else {
      var next := Step(m, script[0].command, script[0].now);
      assert more[0] == script[0] && more[1..] == script[1..] + [c];
      assert LastTime(script[1..], script[0].now) == LastTime(script, t);
      RunSnoc(next, script[1..], c, script[0].now);
    }
  }

  /** The script is a permitted run in clock order from time 0 that ends at t in the given state. */
  ghost predicate Reaches(m: Match, script: seq<Timed>, after: Match, t: Time) {
    TimedRun(m, script, 0) && Run(m, script) == after && LastTime(script, 0) == t
  }

  lemma Then(m: Match, script: seq<Timed>, before: Match, t: Time, c: Timed, after: Match)
    requires Reaches(m, script, before, t) && t <= c.now
    requires Permitted(before, c.command, c.now) && Step(before, c.command, c.now) == after
    ensures Reaches(m, script + [c], after, c.now)
  {
    RunSnoc(m, script, c, 0);
  }

  lemma {:induction false} TimedIsPermitted(m: Match, script: seq<Timed>, t: Time)
    requires TimedRun(m, script, t)
    ensures PermittedRun(m, script)
    decreases |script|
  {
    if script != [] { TimedIsPermitted(Step(m, script[0].command, script[0].now), script[1..], script[0].now); }
  }

  // ---------------------------------------------------------------- audit ids

  ghost predicate StampsKnown(m: Match) {
    && StampsBelow(m.rounds, m.nextAudit) && StampsBelow(m.windows, m.nextAudit) && StampsBelow(m.votes, m.nextAudit)
    && StampsBelow(m.events, m.nextAudit) && StampsBelow(m.summaries, m.nextAudit)
    && StampsBelow(m.appeals, m.nextAudit) && StampsBelow(m.decisions, m.nextAudit)
  }

  /** Operations own distinct audit ids, in increasing order. */
  ghost predicate AuditsOrdered(m: Match) {
    && (forall o :: 0 <= o < |m.operations| ==> m.operations[o].audit < m.nextAudit)
    && (forall o, p :: 0 <= o < p < |m.operations| ==> m.operations[o].audit < m.operations[p].audit)
  }

  /** Every row under stamp k is as it was, and no other row is under k. */
  ghost predicate KeptAll(m: Match, m': Match, k: nat) {
    && Kept(m.rounds, m'.rounds, k) && Kept(m.windows, m'.windows, k) && Kept(m.votes, m'.votes, k)
    && Kept(m.events, m'.events, k) && Kept(m.summaries, m'.summaries, k)
    && Kept(m.appeals, m'.appeals, k) && Kept(m.decisions, m'.decisions, k)
  }

  ghost predicate Carries(m: Match, m': Match, k: nat) {
    KeptAll(m, m', k) && StampsKnown(m') && m.nextAudit <= m'.nextAudit
  }

  lemma CarriesTrans(a: Match, b: Match, c: Match, k: nat)
    requires Carries(a, b, k) && Carries(b, c, k)
    ensures Carries(a, c, k)
  {
    KeptTrans(a.rounds, b.rounds, c.rounds, k);
    KeptTrans(a.windows, b.windows, c.windows, k);
    KeptTrans(a.votes, b.votes, c.votes, k);
    KeptTrans(a.events, b.events, c.events, k);
    KeptTrans(a.summaries, b.summaries, c.summaries, k);
    KeptTrans(a.appeals, b.appeals, c.appeals, k);
    KeptTrans(a.decisions, b.decisions, c.decisions, k);
  }

  // ---------------------------------------------------------------- command by command

  lemma StartCarries(m: Match, now: Time, k: nat)
    requires StampsKnown(m)
    ensures Carries(m, Step(m, Start, now), k)
  {
    if StartRound(m, now).Success? {
      CarriedAppend(m.rounds, Step(m, Start, now).rounds[|m.rounds|].val, k, m.nextAudit);
    }
  }

  lemma PauseCarries(m: Match, now: Time, k: nat)
    requires StampsKnown(m)
    ensures Carries(m, Step(m, Pause, now), k)
  {}

  lemma ResumeCarries(m: Match, now: Time, k: nat)
    requires StampsKnown(m)
    ensures Carries(m, Step(m, Resume, now), k)
  {}

  lemma ResolveCarries(m: Match, w: nat, now: Time, k: nat)
    requires StampsKnown(m) && w < |m.windows| && Pending(m.windows[w], None)
    ensures Carries(m, ResolveWindow(m, w, now), k)
  {
    CarriedSet(m.windows, w, ResolveWindow(m, w, now).windows[w].val, k, m.nextAudit);
  }

  lemma {:induction false} ResolveDueCarries(m: Match, now: Time, k: nat)
    requires StampsKnown(m)
    ensures Carries(m, ResolveDue(m, now), k)
    decreases Unresolved(m.windows)
  {
    match FirstPending(m.windows, Some(now))
    case None =>
    case Some(w) =>
      var resolved := ResolveWindow(m, w, now);
      ResolvingOne(m.windows, w, resolved.windows[w]);
      ResolveCarries(m, w, now, k);
      ResolveDueCarries(resolved, now, k);
      CarriesTrans(m, resolved, ResolveDue(resolved, now), k);
  }

  lemma OpenCarries(m: Match, found: nat, judge: Judge, c: Color, now: Time, k: nat)
    requires StampsKnown(m) && found < |m.rounds|
    ensures Carries(m, OpenWindow(m, found, judge, c, now), k)
  {}

  lemma JoinCarries(m: Match, w: nat, number: nat, judge: Judge, c: Color, now: Time, k: nat)
    requires StampsKnown(m) && w < |m.windows| && JoinWindow(m, w, number, judge, c, now).Success?
    ensures Carries(m, JoinWindow(m, w, number, judge, c, now).value, k)
  {}

  /** A window that is due is resolved before the vote opens the next one. */
  lemma ResolvedThenOpens(m: Match, w: nat, found: nat, judge: Judge, c: Color, now: Time, k: nat)
    requires StampsKnown(m) && w < |m.windows| && Pending(m.windows[w], None) && found < |m.rounds|
    ensures Carries(m, OpenWindow(ResolveWindow(m, w, now), found, judge, c, now), k)
  {
    var resolved := ResolveWindow(m, w, now);
    ResolveCarries(m, w, now, k);
    OpenCarries(resolved, found, judge, c, now, k);
    CarriesTrans(m, resolved, OpenWindow(resolved, found, judge, c, now), k);
  }

  lemma SubmitCarries(m: Match, found: nat, judge: Judge, c: Color, now: Time, k: nat)
    requires StampsKnown(m) && SubmitVote(m, found, judge, c, now).Success?
    ensures Carries(m, SubmitVote(m, found, judge, c, now).value, k)
  {
    var first := FirstPending(m.windows, None);
    if first.None? {
      OpenCarries(m, found, judge, c, now, k);
    } else if now >= m.windows[first.value].val.endsAt {
      ResolvedThenOpens(m, first.value, found, judge, c, now, k);
    } else {
      JoinCarries(m, first.value, m.rounds[found].val.number, judge, c, now, k);
    }
  }

  lemma VoteCarries(m: Match, found: nat, judge: Judge, c: Color, now: Time, k: nat)
    requires StampsKnown(m)
    ensures Carries(m, Step(m, CastVote(found, judge, c), now), k)
  {
    if SubmitVote(m, found, judge, c, now).Success? { SubmitCarries(m, found, judge, c, now, k); }
  }

  lemma EndedCarries(m: Match, i: nat, k: nat)
    requires StampsKnown(m) && Live(m.rounds, i)
    ensures Carries(m, Ended(m, i), k)
  {
    CarriedSet(m.rounds, i, Ended(m, i).rounds[i].val, k, m.nextAudit);
  }

  lemma ClosedCarries(m: Match, settled: Match, i: nat, now: Time, k: nat)
    requires StampsKnown(settled) && i < |m.rounds|
    ensures Carries(settled, Closed(m, settled, i, now), k)
  {}

  lemma ExpireCarries(m: Match, i: nat, now: Time, k: nat)
    requires StampsKnown(m) && Permitted(m, Expire(i), now)
    ensures Carries(m, Step(m, Expire(i), now), k)
  {
    if Expires(m, i, now) {
      var settled := Settled(m, i, now);
      EndedCarries(m, i, k);
      ResolveDueCarries(Ended(m, i), now, k);
      CarriesTrans(m, Ended(m, i), settled, k);
      ClosedCarries(m, settled, i, now, k);
      CarriesTrans(m, settled, Closed(m, settled, i, now), k);
    }
  }

  lemma StampRoundsCarries(m: Match, ids: set<nat>, entire: bool, k: nat)
    requires StampsKnown(m) && k != m.nextAudit
    ensures Carries(m, StampRounds(m, ids, entire, m.nextAudit).(nextAudit := m.nextAudit + 1), k)
  {
    var appeals := AffectedAppeals(m, ids, entire);
    CarriedStamp(m.votes, VotesIn(m, ids), m.nextAudit, k);
    CarriedStamp(m.events, if entire then LiveEvents(m) else EventsIn(m, ids), m.nextAudit, k);
    CarriedStamp(m.summaries, SummariesIn(m, ids), m.nextAudit, k);
    CarriedStamp(m.appeals, appeals, m.nextAudit, k);
    CarriedStamp(m.decisions, DecisionsOf(m, appeals, ids), m.nextAudit, k);
    CarriedStamp(m.windows, WindowsIn(m, ids), m.nextAudit, k);
    CarriedStamp(m.rounds, ids, m.nextAudit, k);
  }

  lemma CancelledCarries(m: Match, ids: set<nat>, entire: bool, now: Time, k: nat)
    requires StampsKnown(m) && k != m.nextAudit
    ensures Carries(m, Cancelled(m, ids, entire, now), k)
  {
    StampRoundsCarries(m, ids, entire, k);
  }

  /** A cancellation that goes ahead stamps the rounds it selected. */
  lemma CancelStep(m: Match, entire: bool, retracted: bool, now: Time) returns (ids: set<nat>)
    ensures ids == SelectedRounds(m, entire)
    ensures Step(m, Cancel(entire, retracted), now) == if CancelResults(m, entire, retracted, now).Success?
            then Cancelled(m, ids, entire, now) else m
  {
    ids := SelectedRounds(m, entire);
  }

  lemma CancelCarries(m: Match, entire: bool, retracted: bool, now: Time, k: nat)
    requires StampsKnown(m) && k != m.nextAudit
    ensures Carries(m, Step(m, Cancel(entire, retracted), now), k)
  {
    var ids := CancelStep(m, entire, retracted, now);
    CancelledCarries(m, ids, entire, now, k);
  }

  lemma ExitedCarries(m: Match, mode: ExitMode, now: Time, k: nat)
    requires StampsKnown(m) && k != m.nextAudit
    ensures Carries(m, Exited(m, mode, now), k)
  {
    var numbers := CancelledNumbers(mode);
    CarriedStamp(m.votes, VotesNumbered(m, numbers), m.nextAudit, k);
    CarriedStamp(m.events, EventsNumbered(m, numbers), m.nextAudit, k);
    CarriedStamp(m.windows, WindowsNumbered(m, numbers), m.nextAudit, k);
    CarriedStamp(m.rounds, RoundsNumbered(m, numbers), m.nextAudit, k);
  }

  lemma UndoneCarries(m: Match, o: nat, k: nat)
    requires StampsKnown(m) && o < |m.operations| && m.operations[o].audit != k
    ensures Carries(m, Undone(m, o), k)
  {
    var j := m.operations[o].audit;
    CarriedClear(m.votes, j, k, m.nextAudit);
    CarriedClear(m.events, j, k, m.nextAudit);
    CarriedClear(m.summaries, j, k, m.nextAudit);
    CarriedClear(m.decisions, j, k, m.nextAudit);
    CarriedClear(m.appeals, j, k, m.nextAudit);
    CarriedClear(m.windows, j, k, m.nextAudit);
    CarriedClear(m.rounds, j, k, m.nextAudit);
  }

  lemma CleanUpCarries(m: Match, k: nat)
    requires StampsKnown(m) && k != m.nextAudit
    ensures Carries(m, CleanUpAppeals(m), k)
  {
    CarriedStamp(m.appeals, StaleAppeals(m), m.nextAudit, k);
  }

  lemma AppealedCarries(m: Match, appeal: Appeal, k: nat)
    requires StampsKnown(m)
    ensures Carries(m, Appealed(m, appeal), k)
  {
    CarriedAppend(m.appeals, appeal, k, m.nextAudit);
  }

  lemma RegulationCarries(m: Match, key: string, red: Adjustment, blue: Adjustment, now: Time, k: nat)
    requires StampsKnown(m) && k != m.nextAudit
    ensures Carries(m, Step(m, AppealRegulation(key, red, blue), now), k)
  {
    var accepted, added := RegulationStep(m, key, red, blue, now);
    var clean := CleanUpAppeals(m);
    CleanUpCarries(m, k);
    if accepted && added.Some? {
      AppealedCarries(clean, added.value, k);
      CarriesTrans(m, clean, Appealed(clean, added.value), k);
    }
  }

  lemma OvertimeCarries(m: Match, key: string, red: Adjustment, blue: Adjustment, now: Time, k: nat)
    requires StampsKnown(m) && k != m.nextAudit
    ensures Carries(m, Step(m, AppealOvertime(key, red, blue), now), k)
  {
    var round := OvertimeStep(m, key, red, blue, now);
    if round.Some? { AppealedCarries(m, OvertimeAppealOver(m, round.value, key, red, blue, now), k); }
  }

  lemma RestartedCarries(m: Match, a: nat, k: nat)
    requires StampsKnown(m) && k != m.nextAudit && a < |m.appeals| && Live(m.rounds, m.appeals[a].val.source)
    ensures Carries(m, Restarted(m, a), k)
  {
    var source := m.appeals[a].val.source;
    CarriedStamp(m.summaries, SummariesIn(m, {source}), m.nextAudit, k);
    CarriedStamp(m.events, EventsIn(m, {source}), m.nextAudit, k);
    CarriedStamp(m.windows, WindowsIn(m, {source}), m.nextAudit, k);
    CarriedStamp(m.appeals, {a}, m.nextAudit, k);
    CarriedStamp(m.decisions, DecisionsOf(m, {a}, {}), m.nextAudit, k);
    CarriedStamp(m.rounds, {source}, m.nextAudit, k);
    assert Overwrite(m.rounds, source, m.nextAudit) == Stamp(m.rounds, {source}, m.nextAudit);
  }

  lemma RestartCarries(m: Match, now: Time, k: nat)
    requires StampsKnown(m) && k != m.nextAudit && Permitted(m, Restart, now)
    ensures Carries(m, Step(m, Restart, now), k)
  {
    var a := RestartStep(m, now);
    if a.Some? { RestartedCarries(m, a.value, k); }
  }

  lemma WakeUpCarries(m: Match, w: nat, now: Time, k: nat)
    requires StampsKnown(m)
    ensures Carries(m, Step(m, Resolve(w), now), k)
  {
    if w < |m.windows| && Pending(m.windows[w], Some(now)) { ResolveCarries(m, w, now, k); }
  }

  lemma UndoCarries(m: Match, o: nat, now: Time, k: nat)
    requires StampsKnown(m) && (o < |m.operations| ==> m.operations[o].audit != k)
    ensures Carries(m, Step(m, Undo(o), now), k)
  {
    if UndoAllowed(m, o) { UndoneCarries(m, o, k); }
  }

  lemma ExitCarries(m: Match, mode: ExitMode, now: Time, k: nat)
    requires StampsKnown(m) && k != m.nextAudit
    ensures Carries(m, Step(m, Exit(mode), now), k)
  {
    var after := ExitStep(m, mode, now);
    if ExitAllowed(m, mode) { ExitedCarries(m, mode, now, k); }
  }

  lemma RowCarries(m: Match, command: Command, now: Time, k: nat)
    requires StampsKnown(m) && (command.Claim? || command.Complete?)
    ensures Carries(m, Step(m, command, now), k)
  {}

  lemma ChooseCarries(m: Match, winner: Color, now: Time, k: nat)
    requires StampsKnown(m)
    ensures Carries(m, Step(m, Choose(winner), now), k)
  {
    var a := ChooseStep(m, winner, now);
  }

  lemma PublishCarries(m: Match, key: string, now: Time, k: nat)
    requires StampsKnown(m)
    ensures Carries(m, Step(m, Publish(key), now), k)
  {
    var outcome := PublishStep(m, key, now);
  }

  lemma StepCarries(m: Match, command: Command, now: Time, k: nat)
    requires StampsKnown(m) && k != m.nextAudit && Permitted(m, command, now)
    requires command.Undo? && command.operation < |m.operations| ==> m.operations[command.operation].audit != k
    ensures Carries(m, Step(m, command, now), k)
  {
    match command
    case Start => StartCarries(m, now, k);
    case Pause => PauseCarries(m, now, k);
    case Resume => ResumeCarries(m, now, k);
    case Expire(i) => ExpireCarries(m, i, now, k);
    case CastVote(found, judge, c) => VoteCarries(m, found, judge, c, now, k);
    case Resolve(w) => WakeUpCarries(m, w, now, k);
    case Cancel(entire, retracted) => CancelCarries(m, entire, retracted, now, k);
    case Undo(o) => UndoCarries(m, o, now, k);
    case Exit(mode) => ExitCarries(m, mode, now, k);
    case AppealRegulation(key, red, blue) => RegulationCarries(m, key, red, blue, now, k);
    case AppealOvertime(key, red, blue) => OvertimeCarries(m, key, red, blue, now, k);
    case Restart => RestartCarries(m, now, k);
    case Choose(winner) => ChooseCarries(m, winner, now, k);
    case Publish(key) => PublishCarries(m, key, now, k);
    case _ => RowCarries(m, command, now, k);
  }

  // ---------------------------------------------------------------- operations

  /** Operations are appended with fresh audit ids; an old one changes only by being marked undone. */
  ghost predicate OperationsGrow(m: Match, m': Match) {
    && |m.operations| <= |m'.operations| && m.nextAudit <= m'.nextAudit
    && (forall o :: 0 <= o < |m.operations| ==> m'.operations[o] == m.operations[o]
                                                || m'.operations[o] == m.operations[o].(undone := true))
    && (forall o :: |m.operations| <= o < |m'.operations| ==> m.nextAudit <= m'.operations[o].audit)
  }

  lemma ResolveDueKeepsOperations(m: Match, now: Time)
    ensures ResolveDue(m, now).operations == m.operations && ResolveDue(m, now).nextAudit == m.nextAudit
    decreases Unresolved(m.windows)
  {
    var first := FirstPending(m.windows, Some(now));
    if first.Some? {
      ResolvingOne(m.windows, first.value, ResolveWindow(m, first.value, now).windows[first.value]);
      ResolveDueKeepsOperations(ResolveWindow(m, first.value, now), now);
    }
  }

  ghost predicate SameOperations(m: Match, m': Match) {
    m'.operations == m.operations && m.nextAudit <= m'.nextAudit
  }

  lemma ClockOperations(m: Match, command: Command, now: Time)
    requires command.Start? || command.Pause? || command.Resume? || command.Claim? || command.Complete?
    ensures SameOperations(m, Step(m, command, now))
  {}

  lemma VotingOperations(m: Match, command: Command, now: Time)
    requires command.CastVote? || command.Resolve? || command.Expire?
    ensures SameOperations(m, Step(m, command, now))
  {
    match command
    case CastVote(found, judge, c) => var before, after := VoteStep(m, found, judge, c, now);
    case Expire(i) => if Expires(m, i, now) { ResolveDueKeepsOperations(Ended(m, i), now); }
    case Resolve(_) =>
  }

  lemma AppealOperations(m: Match, command: Command, now: Time)
    requires command.AppealRegulation? || command.AppealOvertime?
    ensures SameOperations(m, Step(m, command, now))
  {}

  lemma ResultOperations(m: Match, command: Command, now: Time)
    requires command.Restart? || command.Choose? || command.Publish?
    ensures SameOperations(m, Step(m, command, now))
  {}

  lemma CancelOperations(m: Match, entire: bool, retracted: bool, now: Time)
    requires AuditsOrdered(m)
    ensures AuditsOrdered(Step(m, Cancel(entire, retracted), now))
    ensures OperationsGrow(m, Step(m, Cancel(entire, retracted), now))
  {
    var ids := CancelStep(m, entire, retracted, now);
  }

  lemma ExitOperations(m: Match, mode: ExitMode, now: Time)
    requires AuditsOrdered(m)
    ensures AuditsOrdered(Step(m, Exit(mode), now)) && OperationsGrow(m, Step(m, Exit(mode), now))
  {
    var after := ExitStep(m, mode, now);
  }

  lemma UndoOperations(m: Match, o: nat, now: Time)
    requires AuditsOrdered(m)
    ensures AuditsOrdered(Step(m, Undo(o), now)) && OperationsGrow(m, Step(m, Undo(o), now))
  {}

  lemma StepOperations(m: Match, command: Command, now: Time)
    requires AuditsOrdered(m)
    ensures AuditsOrdered(Step(m, command, now)) && OperationsGrow(m, Step(m, command, now))
  {
    match command
    case Cancel(entire, retracted) => CancelOperations(m, entire, retracted, now);
    case Exit(mode) => ExitOperations(m, mode, now);
    case Undo(o) => UndoOperations(m, o, now);
    case Start => ClockOperations(m, command, now);
    case Pause => ClockOperations(m, command, now);
    case Resume => ClockOperations(m, command, now);
    case Claim => ClockOperations(m, command, now);
    case Complete => ClockOperations(m, command, now);
    case CastVote(_, _, _) => VotingOperations(m, command, now);
    case Resolve(_) => VotingOperations(m, command, now);
    case Expire(_) => VotingOperations(m, command, now);
    case AppealRegulation(_, _, _) => AppealOperations(m, command, now);
    case AppealOvertime(_, _, _) => AppealOperations(m, command, now);
    case _ => ResultOperations(m, command, now);
  }

  // ---------------------------------------------------------------- undo restores exactly what was cancelled

  /** No step of the script takes back the operation with audit entry k. */
  ghost predicate NeverUndoes(m: Match, script: seq<Timed>, k: nat)
    decreases |script|
  {
    script != [] ==>
      && (script[0].command.Undo? && script[0].command.operation < |m.operations| ==>
            m.operations[script[0].command.operation].audit != k)
      && NeverUndoes(Step(m, script[0].command, script[0].now), script[1..], k)
  }

  lemma {:induction false} RunCarries(m: Match, script: seq<Timed>, k: nat)
    requires StampsKnown(m) && AuditsOrdered(m) && k < m.nextAudit && PermittedRun(m, script)
    requires NeverUndoes(m, script, k)
    ensures Carries(m, Run(m, script), k) && OperationsGrow(m, Run(m, script))
    decreases |script|
  {
    if script != [] {
      var next := Step(m, script[0].command, script[0].now);
      StepCarries(m, script[0].command, script[0].now, k);
      StepOperations(m, script[0].command, script[0].now);
      RunCarries(next, script[1..], k);
      CarriesTrans(m, next, Run(m, script), k);
    }
  }

  /** Rows the cancellation stamped are back as they were before it; every other row is as it was before the undo. */
  ghost predicate Restored<T>(before: Table<T>, cancelled: Table<T>, later: Table<T>, undone: Table<T>, k: nat) {
    && |before| == |cancelled| <= |later| == |undone|
    && forall i :: 0 <= i < |undone| ==>
         undone[i] == if i < |before| && cancelled[i].stamp == Some(k) then before[i] else later[i]
  }

  lemma RestoredByClear<T>(before: Table<T>, ids: set<nat>, later: Table<T>, k: nat)
    requires StampsBelow(before, k) && Kept(Stamp(before, ids, k), later, k)
    ensures Restored(before, Stamp(before, ids, k), later, Clear(later, k), k)
  {}

  ghost predicate LedgerRestored(m: Match, cancelled: Match, later: Match, undone: Match, k: nat) {
    && Restored(m.rounds, cancelled.rounds, later.rounds, undone.rounds, k)
    && Restored(m.windows, cancelled.windows, later.windows, undone.windows, k)
    && Restored(m.votes, cancelled.votes, later.votes, undone.votes, k)
    && Restored(m.events, cancelled.events, later.events, undone.events, k)
    && Restored(m.summaries, cancelled.summaries, later.summaries, undone.summaries, k)
    && Restored(m.appeals, cancelled.appeals, later.appeals, undone.appeals, k)
    && Restored(m.decisions, cancelled.decisions, later.decisions, undone.decisions, k)
  }

  lemma LedgerRestoredByClear(m: Match, ids: set<nat>, entire: bool, now: Time, later: Match)
    requires StampsKnown(m) && KeptAll(Cancelled(m, ids, entire, now), later, m.nextAudit)
    ensures LedgerRestored(m, Cancelled(m, ids, entire, now), later, ClearAudit(later, m.nextAudit), m.nextAudit)
  {
    var k := m.nextAudit;
    var appeals := AffectedAppeals(m, ids, entire);
    RestoredByClear(m.votes, VotesIn(m, ids), later.votes, k);
    RestoredByClear(m.events, if entire then LiveEvents(m) else EventsIn(m, ids), later.events, k);
    RestoredByClear(m.summaries, SummariesIn(m, ids), later.summaries, k);
    RestoredByClear(m.appeals, appeals, later.appeals, k);
    RestoredByClear(m.decisions, DecisionsOf(m, appeals, ids), later.decisions, k);
    RestoredByClear(m.windows, WindowsIn(m, ids), later.windows, k);
    RestoredByClear(m.rounds, ids, later.rounds, k);
  }

  lemma StampedIsKnown(m: Match, ids: set<nat>, entire: bool)
    requires StampsKnown(m)
    ensures var after := StampRounds(m, ids, entire, m.nextAudit).(nextAudit := m.nextAudit + 1); StampsKnown(after)
  {
    var appeals := AffectedAppeals(m, ids, entire);
    CarriedStamp(m.votes, VotesIn(m, ids), m.nextAudit, m.nextAudit + 1);
    CarriedStamp(m.events, if entire then LiveEvents(m) else EventsIn(m, ids), m.nextAudit, m.nextAudit + 1);
    CarriedStamp(m.summaries, SummariesIn(m, ids), m.nextAudit, m.nextAudit + 1);
    CarriedStamp(m.appeals, appeals, m.nextAudit, m.nextAudit + 1);
    CarriedStamp(m.decisions, DecisionsOf(m, appeals, ids), m.nextAudit, m.nextAudit + 1);
    CarriedStamp(m.windows, WindowsIn(m, ids), m.nextAudit, m.nextAudit + 1);
    CarriedStamp(m.rounds, ids, m.nextAudit, m.nextAudit + 1);
  }

  lemma CancelledIsKnown(m: Match, ids: set<nat>, entire: bool, now: Time)
    requires StampsKnown(m) && AuditsOrdered(m)
    ensures StampsKnown(Cancelled(m, ids, entire, now)) && AuditsOrdered(Cancelled(m, ids, entire, now))
    ensures Cancelled(m, ids, entire, now).nextAudit == m.nextAudit + 1
    ensures |Cancelled(m, ids, entire, now).operations| == |m.operations| + 1
    ensures Cancelled(m, ids, entire, now).operations[|m.operations|].audit == m.nextAudit
  {
    StampedIsKnown(m, ids, entire);
  }

  /**
   * Cancel, let anything permitted happen except undoing this cancellation, then undo it: the phase, current
   * round, start and finish times are those before the cancellation, exactly the rows it stamped come back
   * unchanged, and no other row moves.
   */
  lemma UndoRestoresExactly(m: Match, entire: bool, retracted: bool, now: Time, script: seq<Timed>)
    requires StampsKnown(m) && AuditsOrdered(m) && CancelResults(m, entire, retracted, now).Success?
    requires var cancelled := CancelResults(m, entire, retracted, now).value;
             PermittedRun(cancelled, script) && NeverUndoes(cancelled, script, m.nextAudit)
    ensures var cancelled := CancelResults(m, entire, retracted, now).value;
            var later := Run(cancelled, script);
            var o := |m.operations|;
            o < |later.operations| &&
            (UndoAllowed(later, o) ==>
               var undone := Undone(later, o);
               && undone.status == m.status && undone.currentRound == m.currentRound
               && undone.startedAt == m.startedAt && undone.finishedAt == m.finishedAt
               && undone.intermissionEndsAt.None?
               && LedgerRestored(m, cancelled, later, undone, m.nextAudit))
  {
    var ids := CancelStep(m, entire, retracted, now);
    var cancelled := Cancelled(m, ids, entire, now);
    CancelledIsKnown(m, ids, entire, now);
    RunCarries(cancelled, script, m.nextAudit);
    LedgerRestoredByClear(m, ids, entire, now, Run(cancelled, script));
  }

  /**
   * An operation no live row is newer than can be undone at once, and then only the deadline and the lifecycle may
   * differ.
   */
  lemma CancelThenUndo(m: Match, entire: bool, retracted: bool, now: Time)
    requires StampsKnown(m) && AuditsOrdered(m) && !ActiveSince(m, now) && SlotsDiffer(m.appeals)
    requires CancelResults(m, entire, retracted, now).Success?
    ensures var cancelled := CancelResults(m, entire, retracted, now).value;
            var o := |m.operations|;
            && UndoAllowed(cancelled, o)
            && Undone(cancelled, o) == m.(
                 intermissionEndsAt := None, lifecycle := LifecycleForPhase(m.status),
                 operations := Undone(cancelled, o).operations, nextAudit := m.nextAudit + 1)
  {
    var ids := CancelStep(m, entire, retracted, now);
    CancelledIsKnown(m, ids, entire, now);
    CancelledUndone(m, ids, entire, now);
    NothingNewer(m, ids, entire, now);
    CancelledEntry(m, ids, entire, now);
    assert Clear(Cancelled(m, ids, entire, now).appeals, m.nextAudit) == m.appeals;
  }

  /** What the operation of a cancellation records. */
  lemma CancelledEntry(m: Match, ids: set<nat>, entire: bool, now: Time)
    ensures |Cancelled(m, ids, entire, now).operations| == |m.operations| + 1
    ensures var after := Cancelled(m, ids, entire, now);
            var operation := after.operations[|m.operations|];
            && operation.audit == m.nextAudit && operation.createdAt == now && !operation.undone
            && operation.resultingStatus == after.status && operation.resultingCurrentRound == after.currentRound
            && operation.previousLifecycle == LifecycleForPhase(m.status)
            && operation.previousLifecycle != Suspended && after.lifecycle != Suspended
  {}

  lemma NothingNewer(m: Match, ids: set<nat>, entire: bool, now: Time)
    requires !ActiveSince(m, now)
    ensures !ActiveSince(Cancelled(m, ids, entire, now), now)
  {}

  lemma CancelledUndone(m: Match, ids: set<nat>, entire: bool, now: Time)
    requires StampsKnown(m)
    ensures ClearAudit(StampRounds(m, ids, entire, m.nextAudit), m.nextAudit) == m
  {
    var k := m.nextAudit;
    var appeals := AffectedAppeals(m, ids, entire);
    ClearUndoesStamp(m.votes, VotesIn(m, ids), k);
    ClearUndoesStamp(m.events, if entire then LiveEvents(m) else EventsIn(m, ids), k);
    ClearUndoesStamp(m.summaries, SummariesIn(m, ids), k);
    ClearUndoesStamp(m.appeals, appeals, k);
    ClearUndoesStamp(m.decisions, DecisionsOf(m, appeals, ids), k);
    ClearUndoesStamp(m.windows, WindowsIn(m, ids), k);
    ClearUndoesStamp(m.rounds, ids, k);
  }
}
