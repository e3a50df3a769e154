/** The live bracket as rows updated in place, one transaction per method. */
module LiveBracket {
  import opened Prelude
  import opened SportRules
  import opened BracketOutcome
  import opened BracketRuns

  /** What a manual decision asks for, apart from its idempotency key. */
  datatype Request = Request(fixture: nat, entrant: nat, reason: string, decision: DecisionType)

  /** The result and new state of a transaction: a failed one changes nothing. */
  ghost predicate Committed(before: Bracket, after: Bracket, outcome: Result<Bracket, OutcomeError>,
                            error: Option<OutcomeError>) {
    match outcome
    case Success(expected) => error.None? && after == expected
    case Failure(e) => error == Some(e) && after == before
  }

  // ---------------------------------------------------------------- the loops over downstream slots

  predicate AllResolved(row: FixtureRow) {
    row.red.resolved.Some? && row.blue.resolved.Some?
  }

  /** Writes e into one slot of a downstream fixture and makes the fixture READY once full. */
  method FillSlot(row: FixtureRow, c: Color, e: nat) returns (result: Result<FixtureRow, OutcomeError>)
    ensures result.Failure? <==> row.Slot(c).resolved.Some? && row.Slot(c).resolved != Some(e)
    ensures result.Failure? ==> result.error == DecisionConflict
    ensures result.Success? ==>
              var filled := row.Slot(c).(resolved := Some(e));
              var placed := if c == RED then row.(red := filled) else row.(blue := filled);
              result.value == placed.(
                status := if AllResolved(placed) && row.status == PendingParticipants then Ready else row.status)
  {
    var slot := row.Slot(c);
    if slot.resolved.Some? && slot.resolved != Some(e) { return Failure(DecisionConflict); }
    var updated := row;
    if slot.resolved.None? {
      updated := if c == RED then row.(red := slot.(resolved := Some(e))) else row.(blue := slot.(resolved := Some(e)));
    }
    if AllResolved(updated) && updated.status == PendingParticipants { updated := updated.(status := Ready); }
    result := Success(updated);
  }

  /** All slots of one row that f feeds. */
  method AdvanceRow(row: FixtureRow, f: nat, e: nat) returns (result: Result<FixtureRow, OutcomeError>)
    ensures result.Failure? <==> Differs(row.red, f, e) || Differs(row.blue, f, e)
    ensures result.Failure? ==> result.error == DecisionConflict
    ensures result.Success? ==> result.value == AdvancedRow(row, f, e)
  {
    var updated := row;
    if row.red.source == WinnerOf(f) {
      var filled := FillSlot(updated, RED, e);
      if filled.Failure? { return filled; }
      updated := filled.value;
    }
    if row.blue.source == WinnerOf(f) {
      var filled := FillSlot(updated, BLUE, e);
      if filled.Failure? { return filled; }
      updated := filled.value;
    }
    result := Success(updated);
  }

  method AdvanceAll(decided: seq<FixtureRow>, f: nat, e: nat) returns (result: Result<seq<FixtureRow>, OutcomeError>)
    ensures result == if Conflicting(decided, f, e) then Failure(DecisionConflict) else Success(Advanced(decided, f, e))
  {
    var rows := decided;
    for g := 0 to |decided|
      invariant |rows| == |decided|
      invariant forall h :: 0 <= h < g ==> rows[h] == AdvancedRow(decided[h], f, e)
      invariant forall h :: g <= h < |rows| ==> rows[h] == decided[h]
      invariant forall h :: 0 <= h < g ==> !Differs(decided[h].red, f, e) && !Differs(decided[h].blue, f, e)
    {
      var row := AdvanceRow(rows[g], f, e);
      if row.Failure? { return Failure(row.error); }
      rows := rows[g := row.value];
    }
    assert rows == Advanced(decided, f, e);
    result := Success(rows);
  }

  method WithdrawAll(cleared: seq<FixtureRow>, f: nat) returns (rows: seq<FixtureRow>)
    ensures rows == Withdrawn(cleared, f)
  {
    rows := cleared;
    for g := 0 to |cleared|
      invariant |rows| == |cleared|
      invariant forall h :: 0 <= h < g ==> rows[h] == WithdrawnRow(cleared[h], f)
      invariant forall h :: g <= h < |rows| ==> rows[h] == cleared[h]
    {
      var row := rows[g];
      if row.red.source == WinnerOf(f) {
        row := row.(red := row.red.(resolved := None));
        if !AllResolved(row) { row := row.(status := PendingParticipants); }
      }
      if row.blue.source == WinnerOf(f) {
        row := row.(blue := row.blue.(resolved := None));
        if !AllResolved(row) { row := row.(status := PendingParticipants); }
      }
      rows := rows[g := row];
    }
    assert rows == Withdrawn(cleared, f);
  }

  method SumTotals(events: seq<ScoreEvent>) returns (red: int, blue: int)
    ensures red == Total(events, RED) && blue == Total(events, BLUE)
  {
    red, blue := 0, 0;
    for i := 0 to |events|
      invariant red == Total(events[..i], RED) && blue == Total(events[..i], BLUE)
    {
      assert events[..i + 1][..i] == events[..i];
      if !events[i].reverted {
        if events[i].color == RED { red := red + events[i].value; } else { blue := blue + events[i].value; }
      }
    }
    assert events[..|events|] == events;
  }

  // ---------------------------------------------------------------- the bracket

  class Board {
    const roundCount: nat
    const entrants: seq<AthleteId>
    var fixtures: seq<FixtureRow>
    var status: BracketStatus
    var champion: Option<nat>
    var idempotency: map<string, Request>

    constructor (confirmed: Bracket)
      ensures Model() == confirmed && idempotency == map[]
    {
      roundCount, entrants := confirmed.roundCount, confirmed.entrants;
      fixtures, status, champion := confirmed.fixtures, confirmed.status, confirmed.champion;
      idempotency := map[];
    }

    function Model(): Bracket
      reads this
    {
      Bracket(roundCount, entrants, fixtures, status, champion)
    }

    ghost predicate Valid()
      reads this
    {
      BracketOK(Model())
    }

    /** Inside a transaction: works on the rows it is given and commits them only when every slot agreed. */
    method Decide(rows: seq<FixtureRow>, f: nat, e: nat, d: DecisionType) returns (error: Option<OutcomeError>)
      requires f < |rows|
      modifies this`fixtures, this`status, this`champion
      ensures match BracketOutcome.Decide(old(Model()).(fixtures := rows), f, e, d)
              case Success(after) => error.None? && Model() == after
              case Failure(reason) => error == Some(reason) && Model() == old(Model())
    {
      var fixture := rows[f];
      if fixture.winner.Some? {
        if fixture.winner != Some(e) { return Some(DecisionConflict); }
        fixtures := rows;
        return None;
      }
      var advanced := AdvanceAll(rows[f := fixture.(winner := Some(e), status := Completed, decision := Some(d))], f,
                                 e);
      if advanced.Failure? { return Some(advanced.error); }
      fixtures := advanced.value;
      if fixture.roundNumber == roundCount { status, champion := Finished, Some(e); }
      error := None;
    }

    method PrepareMatch(f: nat) returns (error: Option<OutcomeError>)
      modifies this`fixtures
      ensures Committed(old(Model()), Model(), Prepare(old(Model()), f), error)
      ensures old(Valid()) ==> Valid()
    {
      if old(Valid()) { PrepareKeepsInvariant(Model(), f); }
      if f >= |fixtures| || status != Active { return Some(BracketNotActive); }
      var fixture := fixtures[f];
      if fixture.matchRow.Some? { return Some(AlreadyPrepared); }
      if fixture.status != Ready { return Some(NotReady); }
      if fixture.red.resolved.None? || fixture.red.resolved.value >= |entrants| { return Some(ParticipantsUnresolved); }
      if fixture.blue.resolved.None? || fixture.blue.resolved.value >= |entrants| {
        return Some(ParticipantsUnresolved);
      }
      var red, blue := entrants[fixture.red.resolved.value], entrants[fixture.blue.resolved.value];
      if red == blue { return Some(DuplicateAthlete); }
      fixtures := fixtures[f := fixture.(status := MatchPrepared, matchRow := Some(MatchRow(red, blue, false)))];
      error := None;
    }

    /** Inside a transaction: evaluates a finished match of the rows it is given. */
    method ProcessFinishedMatch(rows: seq<FixtureRow>, f: nat, events: seq<ScoreEvent>, published: Option<Color>)
      returns (error: Option<OutcomeError>)
      requires f < |rows|
      modifies this`fixtures, this`status, this`champion
      ensures match ProcessFinished(old(Model()).(fixtures := rows), f, events, published)
              case Success(after) => error.None? && Model() == after
              case Failure(reason) => error == Some(reason) && Model() == old(Model())
    {
      var fixture := rows[f];
      var red, blue := SumTotals(events);
      var winnerColor := if published.Some? then published else DetermineWinner(red, blue);
      if fixture.matchRow.None? || !fixture.matchRow.value.finished || HasOutcome(fixture) {
        fixtures := rows;
        return None;
      }
      if winnerColor.None? {
        fixtures := rows[f := fixture.(status := AwaitingWinner, decision := Some(RulesTie))];
        return None;
      }
      var winner := ParticipantNamed(Model().(fixtures := rows), fixture,
                                     AthleteIn(fixture.matchRow.value, winnerColor.value));
      if winner.None? { return Some(NotAParticipant); }
      error := Decide(rows, f, winner.value, Rules);
    }

    /** The match of f becomes FINISHED, and its outcome is recorded and propagated. */
    method FinishMatch(f: nat, events: seq<ScoreEvent>, published: Option<Color>) returns (error: Option<OutcomeError>)
      modifies this`fixtures, this`status, this`champion
      ensures Committed(old(Model()), Model(), Finish(old(Model()), f, events, published), error)
      ensures old(Valid()) ==> Valid()
    {
      if old(Valid()) { FinishKeepsInvariant(Model(), f, events, published); }
      if f >= |fixtures| || fixtures[f].matchRow.None? { return Some(NotReady); }
      var rows := fixtures[f := fixtures[f].(matchRow := Some(fixtures[f].matchRow.value.(finished := true)))];
      error := ProcessFinishedMatch(rows, f, events, published);
    }

    /** A finished match is reset: nothing it fed may have been prepared. */
    method ReopenMatch(f: nat) returns (error: Option<OutcomeError>)
      modifies this`fixtures, this`status, this`champion
      ensures Committed(old(Model()), Model(), Reopen(old(Model()), f), error)
      ensures old(Valid()) && !DownstreamDecided(old(fixtures), f) ==> Valid()
    {
      if old(Valid()) && Reopen(Model(), f).Success? && !DownstreamDecided(fixtures, f) {
        ReopenKeepsInvariant(Model(), f);
      }
      if f >= |fixtures| || fixtures[f].matchRow.None? || !fixtures[f].matchRow.value.finished {
        return Some(NotFinished);
      }
      var fixture := fixtures[f];
      var rows := fixtures;
      if HasOutcome(fixture) {
        if DownstreamPrepared(fixtures, f) { return Some(ProgressionLocked); }
        rows := WithdrawAll(fixtures[f := fixture.(winner := None, decision := None, status := MatchPrepared)], f);
        if fixture.roundNumber == roundCount { status, champion := Active, None; }
      }
      fixtures := rows[f := rows[f].(matchRow := Some(fixture.matchRow.value.(finished := false)))];
      error := None;
    }

    /** A repeated request with the same key is answered without deciding anything again. */
    method ManuallyDecide(f: nat, e: nat, reason: string, key: string, d: DecisionType)
      returns (error: Option<OutcomeError>)
      modifies this
      ensures key in old(idempotency) ==>
                && Model() == old(Model()) && idempotency == old(idempotency)
                && error == (if old(idempotency)[key] == Request(f, e, reason, d) then None else Some(KeyReused))
      ensures key !in old(idempotency) ==>
                && Committed(old(Model()), Model(), DecideManually(old(Model()), f, e, d), error)
                && idempotency == (if error.None? then old(idempotency)[key := Request(f, e, reason, d)]
                                   else old(idempotency))
      ensures old(Valid()) ==> Valid()
    {
      if old(Valid()) { ManualKeepsInvariant(Model(), f, e, d); }
      var request := Request(f, e, reason, d);
      if key in idempotency { return if idempotency[key] == request then None else Some(KeyReused); }
      if f >= |fixtures| { return Some(Ineligible); }
      var fixture := fixtures[f];
      var matchFinished := fixture.matchRow.Some? && fixture.matchRow.value.finished;
      var isTieDecision := d == AdminTiebreak && matchFinished && fixture.status == AwaitingWinner;
      var isWithdrawalDecision := d == WithdrawalOrInjury && fixture.matchRow.None? && fixture.status == Ready;
      if !isTieDecision && !isWithdrawalDecision { return Some(Ineligible); }
      if !fixture.Resolved() || fixture.red.resolved == fixture.blue.resolved { return Some(ParticipantsUnresolved); }
      if Some(e) != fixture.red.resolved && Some(e) != fixture.blue.resolved { return Some(NotAParticipant); }
      error := Decide(fixtures, f, e, d);
      if error.None? { idempotency := idempotency[key := request]; }
    }
  }
}
