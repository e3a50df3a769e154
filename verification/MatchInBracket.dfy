/** A match of a bracket: publishing, resetting and undoing write the match and its fixture in one transaction. */
module MatchInBracket {
  import opened Prelude
  import opened SportRules
  import opened MatchTables
  import M = MatchModel
  import Cmd = MatchCommands
  import opened MatchHistory
  import opened MatchConstraints
  import opened MatchReplays
  import opened BracketOutcome
  import opened BracketInvariant
  import opened BracketRuns

  /** A match and the fixture it is the match of. */
  datatype Tie = Tie(m: M.Match, b: Bracket, f: nat)

  datatype TieError = OfMatch(M.MatchError) | OfBracket(OutcomeError)

  type Attempted = Result<Tie, TieError>

  /** The fixture knows whether its match is finished. */
  predicate Linked(t: Tie) {
    && t.f < |t.b.fixtures| && t.b.fixtures[t.f].matchRow.Some?
    && (t.b.fixtures[t.f].matchRow.value.finished <==> t.m.status == M.Finished)
  }

  /** The score events as the bracket adds them up: all rounds, cancelled events left out. */
  function Scores(events: Table<M.Event>): (scores: seq<ScoreEvent>)
    ensures |scores| == |events|
  {
    seq(|events|, e requires 0 <= e < |events| => ScoreEvent(events[e].val.color, events[e].val.value,
                                                             events[e].stamp.Some?))
  }

  // ---------------------------------------------------------------- the transactions

  /** A result published before is answered again; a new one is recorded, finished and propagated. */
  function Publish(t: Tie, key: string, now: M.Time): Attempted {
    match Cmd.PublishResult(t.m, key, now)
    case Failure(e) => Failure(OfMatch(e))
    case Success(after) =>
      if after == t.m || after.outcome.None? then Success(t)
      else
        match Finish(t.b, t.f, Scores(after.events), Some(after.outcome.value.winner))
        case Failure(e) => Failure(OfBracket(e))
        case Success(b) => Success(Tie(after, b, t.f))
  }

  /** Only a finished match asks the bracket, and it asks before it changes anything. */
  function Reset(t: Tie, entire: bool, now: M.Time): Attempted {
    if Cmd.SelectedRounds(t.m, entire) == {} then Failure(OfMatch(M.InvalidResultCancellation))
    else if t.m.status != M.Finished then
      match Cmd.CancelResults(t.m, entire, false, now)
      case Failure(e) => Failure(OfMatch(e))
      case Success(after) => Success(t.(m := after))
    else
      match Reopen(t.b, t.f)
      case Failure(e) => Failure(OfBracket(e))
      case Success(b) =>
        match Cmd.CancelResults(t.m, entire, true, now)
        case Failure(e) => Failure(OfMatch(e))
        case Success(after) => Success(Tie(after, b, t.f))
  }

  /** Undoing the reset of a finished match settles the fixture anew, from the score events alone. */
  function UndoReset(t: Tie, o: nat): Attempted {
    match Cmd.UndoCancellation(t.m, o)
    case Failure(e) => Failure(OfMatch(e))
    case Success(after) =>
      if after.status != M.Finished then Success(t.(m := after))
      else
        match Finish(t.b, t.f, Scores(after.events), None)
        case Failure(e) => Failure(OfBracket(e))
        case Success(b) => Success(Tie(after, b, t.f))
  }

  // ---------------------------------------------------------------- what they come to together

  /** The bracket's total is the ledger's: the live points of all rounds. */
  lemma {:induction false} TotalsAreLedger(events: Table<M.Event>, rounds: set<nat>, c: Color)
    requires forall e :: 0 <= e < |events| ==> events[e].val.round in rounds
    ensures Total(Scores(events), c) == M.Points(events, rounds, c)
  {
    if events != [] {
      assert Scores(events)[..|events| - 1] == Scores(events[..|events| - 1]);
      TotalsAreLedger(events[..|events| - 1], rounds, c);
    }
  }

  /**
   * A new publication makes the published winner's athlete the winner of the fixture, and keeps the bracket in order.
   */
  lemma {:induction false} PublishedWinnerAdvances(t: Tie, key: string, now: M.Time)
    requires BracketOK(t.b) && Linked(t) && t.b.fixtures[t.f].status == MatchPrepared && t.m.outcome.None?
    requires Cmd.PublishResult(t.m, key, now).Success?
    ensures Publish(t, key, now).Success?
    ensures var after := Publish(t, key, now).value;
            && Linked(after) && BracketOK(after.b) && SameGraph(t.b, after.b)
            && after.m.status == M.Finished && after.m.outcome.Some?
            && after.b.fixtures[t.f].winner == t.b.fixtures[t.f].Slot(after.m.outcome.value.winner).resolved
            && after.b.fixtures[t.f].status == Completed
  {
    var m := Cmd.PublishResult(t.m, key, now).value;
    var winner := m.outcome.value.winner;
    FinishNames(t.b, t.f, Scores(m.events), Some(winner));
    FinishKeepsInvariant(t.b, t.f, Scores(m.events), Some(winner));
    FinishLinks(t.b, t.f, Scores(m.events), Some(winner));
    assert InOrder(Finish(t.b, t.f, Scores(m.events), Some(winner)).value, t.f);
  }

  lemma {:induction false} FinishLinks(b: Bracket, f: nat, events: seq<ScoreEvent>, published: Option<Color>)
    requires BracketOK(b) && f < |b.fixtures| && b.fixtures[f].matchRow.Some?
    requires Finish(b, f, events, published).Success?
    ensures var after := Finish(b, f, events, published).value;
            f < |after.fixtures| && after.fixtures[f].matchRow.Some? && after.fixtures[f].matchRow.value.finished
  {
    NotItsOwnSource(b, f);
  }

  lemma {:induction false} ResetGoes(m: M.Match, entire: bool, now: M.Time)
    requires RowFits(m) && m.status == M.Finished && Cmd.SelectedRounds(m, entire) != {}
    ensures Cmd.CancelResults(m, entire, true, now)
            == Success(Cmd.Cancelled(m, Cmd.SelectedRounds(m, entire), entire, now))
    ensures Cmd.Cancelled(m, Cmd.SelectedRounds(m, entire), entire, now).status != M.Finished
  {}

  /** A finished match is reset exactly when nothing it fed has been prepared, and then both sides go back together. */
  lemma {:induction false} ResetFollowsBracket(t: Tie, entire: bool, now: M.Time)
    requires BracketOK(t.b) && Linked(t) && RowFits(t.m)
    requires t.m.status == M.Finished && Cmd.SelectedRounds(t.m, entire) != {}
    ensures Reset(t, entire, now).Success? <==> Reopen(t.b, t.f).Success?
    ensures Reopen(t.b, t.f).Success? <==> !HasOutcome(t.b.fixtures[t.f]) || !DownstreamPrepared(t.b.fixtures, t.f)
    ensures Reset(t, entire, now).Success? ==> Linked(Reset(t, entire, now).value)
    ensures Reset(t, entire, now).Success? && !DownstreamDecided(t.b.fixtures, t.f) ==>
              BracketOK(Reset(t, entire, now).value.b)
                  && Reset(t, entire, now).value.b.fixtures[t.f].status == MatchPrepared
  {
    ResetGoes(t.m, entire, now);
    if Reopen(t.b, t.f).Success? {
      ReopenLinks(t.b, t.f);
      if !DownstreamDecided(t.b.fixtures, t.f) { ReopenKeepsInvariant(t.b, t.f); }
    }
  }

  lemma {:induction false} ReopenLinks(b: Bracket, f: nat)
    requires Reopen(b, f).Success?
    ensures var after := Reopen(b, f).value;
            f < |after.fixtures| && after.fixtures[f].matchRow.Some? && !after.fixtures[f].matchRow.value.finished
  {}

  /**
   * A published match that is reset and brought back at once has its fixture settled from the score events. It
   * gets the published winner back exactly when the events give that colour the higher total.
   */
  lemma {:induction false} UndoneResetAgreesExactly(t: Tie, o: nat, c: Color)
    requires BracketOK(t.b) && Linked(t) && t.b.fixtures[t.f].status == MatchPrepared
    requires Cmd.UndoAllowed(t.m, o) && t.m.operations[o].previousStatus == M.Finished
    requires t.m.outcome.Some? && t.m.outcome.value.winner == c
    ensures UndoReset(t, o).Success? && Linked(UndoReset(t, o).value) && BracketOK(UndoReset(t, o).value.b)
    ensures var after := UndoReset(t, o).value;
            after.b.fixtures[t.f].winner == t.b.fixtures[t.f].Slot(c).resolved
            <==> DetermineWinner(Total(Scores(after.m.events), RED), Total(Scores(after.m.events), BLUE)) == Some(c)
  {
    var events := Scores(Cmd.Undone(t.m, o).events);
    FinishNames(t.b, t.f, events, None);
    FinishKeepsInvariant(t.b, t.f, events, None);
    FinishLinks(t.b, t.f, events, None);
    assert InOrder(t.b, t.f);
    ParticipantsDiffer(t.b, t.f);
  }

  // ---------------------------------------------------------------- a winner that is forgotten

  lemma {:induction false} ProcessDecides(b: Bracket, f: nat, events: seq<ScoreEvent>, c: Color)
    requires BracketOK(b) && f < |b.fixtures| && b.fixtures[f].status == MatchPrepared
    ensures b.fixtures[f].matchRow.Some? && b.fixtures[f].Slot(c).resolved.Some?
    ensures Decidable(b.fixtures[f], b.fixtures[f].Slot(c).resolved.value)
    ensures Finish(b, f, events, Some(c))
            == Decide(SetFinished(b, f, true), f, b.fixtures[f].Slot(c).resolved.value, Rules)
  {
    assert InOrder(b, f);
    ParticipantsDiffer(b, f);
  }

  /** Publishing a result and resetting it leaves the bracket as it was. */
  lemma {:induction false} ResetUndoesPublication(b: Bracket, f: nat, events: seq<ScoreEvent>, c: Color)
    requires BracketOK(b) && f < |b.fixtures| && b.fixtures[f].status == MatchPrepared
    requires b.fixtures[f].matchRow.Some? && !b.fixtures[f].matchRow.value.finished
    ensures Finish(b, f, events, Some(c)).Success? && Reopen(Finish(b, f, events, Some(c)).value, f) == Success(b)
  {
    ProcessDecides(b, f, events, c);
    SetFinishedKeepsInvariant(b, f, true);
    RetractUndoesDecide(SetFinished(b, f, true), f, b.fixtures[f].Slot(c).resolved.value, Rules);
    FinishLinks(b, f, events, Some(c));
    assert SetFinished(SetFinished(b, f, true), f, false) == b by {
      assert b.fixtures[f := b.fixtures[f]] == b.fixtures;
    }
  }

  lemma {:induction false} PublishIs(t: Tie, key: string, now: M.Time, after: M.Match, b: Bracket)
    requires Cmd.PublishResult(t.m, key, now) == Success(after) && t.m.outcome.None? && after.outcome.Some?
    requires Finish(t.b, t.f, Scores(after.events), Some(after.outcome.value.winner)) == Success(b)
    ensures Publish(t, key, now) == Success(Tie(after, b, t.f))
  {}

  lemma {:induction false} ResetIs(t: Tie, entire: bool, now: M.Time, after: M.Match, b: Bracket)
    requires Cmd.SelectedRounds(t.m, entire) != {} && t.m.status == M.Finished && Reopen(t.b, t.f) == Success(b)
    requires Cmd.CancelResults(t.m, entire, true, now) == Success(after)
    ensures Reset(t, entire, now) == Success(Tie(after, b, t.f))
  {}

  lemma {:induction false} UndoIs(t: Tie, o: nat, after: M.Match, b: Bracket)
    requires Cmd.UndoCancellation(t.m, o) == Success(after) && after.status == M.Finished
    requires Finish(t.b, t.f, Scores(after.events), None) == Success(b)
    ensures UndoReset(t, o) == Success(Tie(after, b, t.f))
  {}

  /** The fixture after the publication, and after the reset was undone. */
  predicate Forgotten(b: Bracket, f: nat, published: Bracket, back: Bracket) {
    && f < |b.fixtures| && f < |published.fixtures| && f < |back.fixtures|
    && published.fixtures[f].winner == b.fixtures[f].red.resolved && published.fixtures[f].winner.Some?
    && back.fixtures[f].winner.None? && back.fixtures[f].status == AwaitingWinner
  }

  /** The bracket's side: RED's athlete goes on, is taken back, and nobody has scored. */
  lemma {:induction false} BonusIsForgotten(b: Bracket, f: nat, events: seq<ScoreEvent>)
    returns (published: Bracket, back: Bracket)
    requires BracketOK(b) && f < |b.fixtures| && b.fixtures[f].status == MatchPrepared
    requires b.fixtures[f].matchRow.Some? && !b.fixtures[f].matchRow.value.finished
    ensures Finish(b, f, events, Some(RED)) == Success(published) && Reopen(published, f) == Success(b)
    ensures Finish(b, f, [], None) == Success(back) && Forgotten(b, f, published, back)
  {
    FinishNames(b, f, events, Some(RED));
    FinishKeepsInvariant(b, f, events, Some(RED));
    published := Finish(b, f, events, Some(RED)).value;
    ResetUndoesPublication(b, f, events, RED);
    FinishNames(b, f, [], None);
    FinishKeepsInvariant(b, f, [], None);
    back := Finish(b, f, [], None).value;
  }

  /** Both sides: the match is finished and names RED, the fixture names nobody. */
  lemma {:induction false} ForgetsWinner(b: Bracket, f: nat, r: Returns, key: string, now: M.Time)
    returns (published: Tie, reset: Tie, back: Tie)
    requires BracketOK(b) && f < |b.fixtures| && b.fixtures[f].status == MatchPrepared && ComesBack(r, key, now)
    requires b.fixtures[f].matchRow.Some? && !b.fixtures[f].matchRow.value.finished
    ensures Publish(Tie(r.ready, b, f), key, now) == Success(published)
    ensures Reset(published, true, now) == Success(reset) && UndoReset(reset, 0) == Success(back)
    ensures Forgotten(b, f, published.b, back.b) && back.f == f && back.m == r.back
  {
    var after, settled := BonusIsForgotten(b, f, Scores(r.published.events));
    published, reset, back := Tie(r.published, after, f), Tie(r.reset, b, f), Tie(r.back, settled, f);
    PublishIs(Tie(r.ready, b, f), key, now, r.published, after);
    ResetIs(published, true, now, r.reset, b);
    assert Scores(r.back.events) == [];
    UndoIs(reset, 0, r.back, settled);
  }

  /**
   * For any prepared fixture: RED wins on a bonus and the result is published, so that RED's athlete goes on. Then
   * everything is reset and the reset undone. The match is finished and its outcome still names RED, but the fixture
   * has no winner and waits for one.
   */
  lemma {:induction false} UndoneResetForgetsWinner(b: Bracket, f: nat, key: string)
    returns (m: M.Match, script: seq<Cmd.Timed>, now: M.Time, published: Tie, reset: Tie, back: Tie)
    requires BracketOK(b) && f < |b.fixtures| && b.fixtures[f].status == MatchPrepared
    requires b.fixtures[f].matchRow.Some? && !b.fixtures[f].matchRow.value.finished
    ensures m == M.NewMatch(M.FaultAppealOvertimeV2, 3, 1, 0) && TimedRun(m, script, 0) && LastTime(script, 0) == now
    ensures Publish(Tie(Cmd.Run(m, script), b, f), key, now) == Success(published)
    ensures Reset(published, true, now) == Success(reset) && UndoReset(reset, 0) == Success(back)
    ensures back.m.status == M.Finished && back.m.outcome.Some? && back.m.outcome.value.winner == RED
    ensures back.f == f && Forgotten(b, f, published.b, back.b)
  {
    var r;
    m := M.NewMatch(M.FaultAppealOvertimeV2, 3, 1, 0);
    script, r, now := BonusWinComesBack(key);
    published, reset, back := ForgetsWinner(b, f, r, key, now);
  }
}
