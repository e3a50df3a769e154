/** The live bracket: preparing fixtures, deciding, tying, propagating and retracting. */
module BracketOutcome {
  import opened Prelude
  import opened SportRules
  import BracketGraph

  type AthleteId = BracketGraph.AthleteId

  datatype FixtureStatus = PendingParticipants | Ready | MatchPrepared | AwaitingWinner | Completed
  datatype BracketStatus = Active | Finished
  datatype DecisionType = Rules | RulesTie | AdminTiebreak | WithdrawalOrInjury

  /** Rows are named by their position: entrants and fixtures are never deleted. */
  datatype SlotSource = Direct(entrant: nat) | WinnerOf(fixture: nat)
  datatype SlotRow = SlotRow(source: SlotSource, resolved: Option<nat>)
  datatype MatchRow = MatchRow(redAthlete: AthleteId, blueAthlete: AthleteId, finished: bool)
  datatype FixtureRow = FixtureRow(
    roundNumber: nat, position: nat, red: SlotRow, blue: SlotRow,
    status: FixtureStatus, winner: Option<nat>, decision: Option<DecisionType>, matchRow: Option<MatchRow>)
  {
    function Slot(c: Color): SlotRow { if c == RED then red else blue }

    predicate Resolved() { red.resolved.Some? && blue.resolved.Some? }
  }

  datatype Bracket = Bracket(
    roundCount: nat, entrants: seq<AthleteId>, fixtures: seq<FixtureRow>,
    status: BracketStatus, champion: Option<nat>)

  datatype ScoreEvent = ScoreEvent(color: Color, value: int, reverted: bool)

  datatype OutcomeError =
    | DecisionConflict | NotAParticipant | Ineligible | ParticipantsUnresolved
    | ProgressionLocked | BracketNotActive | AlreadyPrepared | NotReady | DuplicateAthlete | NotFinished
    | KeyReused

  // ---------------------------------------------------------------- what the commands mean

  /** Row g as it stands once the winner of f has been written into the slots it feeds. */
  function AdvancedRow(row: FixtureRow, f: nat, e: nat): FixtureRow {
    var red :=
      if row.red.source == WinnerOf(f) && row.red.resolved.None? then row.red.(resolved := Some(e)) else row.red;
    var blue :=
      if row.blue.source == WinnerOf(f) && row.blue.resolved.None? then row.blue.(resolved := Some(e)) else row.blue;
    var fed := row.red.source == WinnerOf(f) || row.blue.source == WinnerOf(f);
    row.(red := red, blue := blue,
         status := if fed && red.resolved.Some? && blue.resolved.Some? && row.status == PendingParticipants
                   then Ready else row.status)
  }

  function Advanced(fixtures: seq<FixtureRow>, f: nat, e: nat): (after: seq<FixtureRow>)
    ensures |after| == |fixtures|
  {
    seq(|fixtures|, g requires 0 <= g < |fixtures| => AdvancedRow(fixtures[g], f, e))
  }

  /** Row g once what f had supplied is withdrawn. */
  function WithdrawnRow(row: FixtureRow, f: nat): FixtureRow {
    row.(red := if row.red.source == WinnerOf(f) then row.red.(resolved := None) else row.red,
         blue := if row.blue.source == WinnerOf(f) then row.blue.(resolved := None) else row.blue,
         status := if row.red.source == WinnerOf(f) || row.blue.source == WinnerOf(f)
                   then PendingParticipants else row.status)
  }

  function Withdrawn(fixtures: seq<FixtureRow>, f: nat): (after: seq<FixtureRow>)
    ensures |after| == |fixtures|
  {
    seq(|fixtures|, g requires 0 <= g < |fixtures| => WithdrawnRow(fixtures[g], f))
  }

  predicate Feeds(row: FixtureRow, f: nat) {
    row.red.source == WinnerOf(f) || row.blue.source == WinnerOf(f)
  }

  predicate Differs(s: SlotRow, f: nat, e: nat) {
    s.source == WinnerOf(f) && s.resolved.Some? && s.resolved != Some(e)
  }

  /** Some slot fed by f already holds somebody else. */
  predicate Conflicting(fixtures: seq<FixtureRow>, f: nat, e: nat) {
    exists g :: 0 <= g < |fixtures| && (Differs(fixtures[g].red, f, e) || Differs(fixtures[g].blue, f, e))
  }

  function Decide(b: Bracket, f: nat, e: nat, d: DecisionType): Result<Bracket, OutcomeError>
    requires f < |b.fixtures|
  {
    var fixture := b.fixtures[f];
    if fixture.winner.Some? then
      if fixture.winner != Some(e) then Failure(DecisionConflict) else Success(b)
    else
      var decided := b.fixtures[f := fixture.(winner := Some(e), status := Completed, decision := Some(d))];
      if Conflicting(decided, f, e) then Failure(DecisionConflict)
      else
        var advanced := b.(fixtures := Advanced(decided, f, e));
        Success(if fixture.roundNumber == b.roundCount
                then advanced.(status := Finished, champion := Some(e)) else advanced)
  }

  predicate HasOutcome(row: FixtureRow) {
    row.winner.Some? || row.status == AwaitingWinner
  }

  /** A fixture fed by f already has an operational match. */
  predicate DownstreamPrepared(fixtures: seq<FixtureRow>, f: nat) {
    exists g :: 0 <= g < |fixtures| && Feeds(fixtures[g], f) && fixtures[g].matchRow.Some?
  }

  function Retract(b: Bracket, f: nat): Result<Bracket, OutcomeError>
    requires f < |b.fixtures|
  {
    var fixture := b.fixtures[f];
    if !HasOutcome(fixture) then Success(b)
    else if DownstreamPrepared(b.fixtures, f) then Failure(ProgressionLocked)
    else
      var cleared := b.fixtures[f := fixture.(winner := None, decision := None, status := MatchPrepared)];
      var withdrawn := b.(fixtures := Withdrawn(cleared, f));
      Success(if fixture.roundNumber == b.roundCount
              then withdrawn.(status := Active, champion := None) else withdrawn)
  }

  function Total(events: seq<ScoreEvent>, c: Color): int {
    if events == [] then 0
    else var last := events[|events| - 1];
         Total(events[..|events| - 1], c) + (if last.color == c && !last.reverted then last.value else 0)
  }

  function OutcomeColor(events: seq<ScoreEvent>, published: Option<Color>): Option<Color> {
    if published.Some? then published else DetermineWinner(Total(events, RED), Total(events, BLUE))
  }

  function AthleteIn(m: MatchRow, c: Color): AthleteId {
    if c == RED then m.redAthlete else m.blueAthlete
  }

  /** The entrant in a slot of the fixture who is athlete a. */
  function ParticipantNamed(b: Bracket, row: FixtureRow, a: AthleteId): Option<nat> {
    if row.red.resolved.Some? && row.red.resolved.value < |b.entrants| && b.entrants[row.red.resolved.value] == a
    then row.red.resolved
    else if row.blue.resolved.Some? && row.blue.resolved.value < |b.entrants|
        && b.entrants[row.blue.resolved.value] == a
    then row.blue.resolved
    else None
  }

  function ProcessFinished(b: Bracket, f: nat, events: seq<ScoreEvent>, published: Option<Color>)
    : Result<Bracket, OutcomeError>
    requires f < |b.fixtures|
  {
    var fixture := b.fixtures[f];
    if fixture.matchRow.None? || !fixture.matchRow.value.finished || HasOutcome(fixture) then Success(b)
    else match OutcomeColor(events, published)
      case None =>
        Success(b.(fixtures := b.fixtures[f := fixture.(status := AwaitingWinner, decision := Some(RulesTie))]))
      case Some(c) =>
        match ParticipantNamed(b, fixture, AthleteIn(fixture.matchRow.value, c))
        case None => Failure(NotAParticipant)
        case Some(e) => Decide(b, f, e, Rules)
  }

  function SetFinished(b: Bracket, f: nat, finished: bool): Bracket
    requires f < |b.fixtures| && b.fixtures[f].matchRow.Some?
  {
    var row := b.fixtures[f];
    b.(fixtures := b.fixtures[f := row.(matchRow := Some(row.matchRow.value.(finished := finished)))])
  }

  /** The match of fixture f is finished and its outcome processed, in one transaction. */
  function Finish(b: Bracket, f: nat, events: seq<ScoreEvent>, published: Option<Color>):
      Result<Bracket, OutcomeError> {
    if f >= |b.fixtures| || b.fixtures[f].matchRow.None? then Failure(NotReady)
    else ProcessFinished(SetFinished(b, f, true), f, events, published)
  }

  /** A finished match is reset: its outcome is retracted and the match reopened, in one transaction. */
  function Reopen(b: Bracket, f: nat): Result<Bracket, OutcomeError> {
    if f >= |b.fixtures| || b.fixtures[f].matchRow.None?
        || !b.fixtures[f].matchRow.value.finished then Failure(NotFinished)
    else
      match Retract(b, f)
      case Failure(e) => Failure(e)
      case Success(after) => Success(SetFinished(after, f, false))
  }

  function Prepare(b: Bracket, f: nat): Result<Bracket, OutcomeError> {
    if f >= |b.fixtures| || b.status != Active then Failure(BracketNotActive)
    else
      var fixture := b.fixtures[f];
      if fixture.matchRow.Some? then Failure(AlreadyPrepared)
      else if fixture.status != Ready then Failure(NotReady)
      else if !fixture.Resolved() || fixture.red.resolved.value >= |b.entrants|
          || fixture.blue.resolved.value >= |b.entrants|
      then Failure(ParticipantsUnresolved)
      else
        var red, blue := b.entrants[fixture.red.resolved.value], b.entrants[fixture.blue.resolved.value];
        if red == blue then Failure(DuplicateAthlete)
        else Success(b.(fixtures := b.fixtures[f :=
               fixture.(status := MatchPrepared, matchRow := Some(MatchRow(red, blue, false)))]))
  }

  function DecideManually(b: Bracket, f: nat, e: nat, d: DecisionType): Result<Bracket, OutcomeError> {
    if f >= |b.fixtures| then Failure(Ineligible)
    else
      var fixture := b.fixtures[f];
      var isTieDecision := d == AdminTiebreak && fixture.matchRow.Some? && fixture.matchRow.value.finished &&
                           fixture.status == AwaitingWinner;
      var isWithdrawalDecision := d == WithdrawalOrInjury && fixture.matchRow.None? && fixture.status == Ready;
      if !isTieDecision && !isWithdrawalDecision then Failure(Ineligible)
      else if !fixture.Resolved() || fixture.red.resolved == fixture.blue.resolved then Failure(ParticipantsUnresolved)
      else if e != fixture.red.resolved.value && e != fixture.blue.resolved.value then Failure(NotAParticipant)
      else Decide(b, f, e, d)
  }

  datatype Command =
    | PrepareMatch(fixture: nat)
    | FinishMatch(fixture: nat, events: seq<ScoreEvent>, published: Option<Color>)
    | ReopenMatch(fixture: nat)
    | ManualDecision(fixture: nat, entrant: nat, decision: DecisionType)

  function Apply(b: Bracket, command: Command): Result<Bracket, OutcomeError> {
    match command
    case PrepareMatch(f) => Prepare(b, f)
    case FinishMatch(f, events, published) => Finish(b, f, events, published)
    case ReopenMatch(f) => Reopen(b, f)
    case ManualDecision(f, e, d) => DecideManually(b, f, e, d)
  }

  /** A command that throws leaves the bracket as it was. */
  function Step(b: Bracket, command: Command): Bracket {
    match Apply(b, command)
    case Success(after) => after
    case Failure(_) => b
  }

  // ---------------------------------------------------------------- the graph and the invariant

  function SourceAt(b: Bracket, g: nat, c: Color): SlotSource
    requires g < |b.fixtures|
  {
    b.fixtures[g].Slot(c).source
  }

  predicate ComesBefore(b: Bracket, s: SlotSource, g: nat) {
    match s
    case Direct(e) => e < |b.entrants|
    case WinnerOf(f) => f < g
  }

  ghost predicate SourcesFirst(b: Bracket) {
    forall g, c :: 0 <= g < |b.fixtures| ==> ComesBefore(b, SourceAt(b, g, c), g)
  }

  /** Two slots with the same source are the same slot. */
  predicate OneUse(b: Bracket, g: nat, c: Color, g': nat, c': Color)
    requires g < |b.fixtures| && g' < |b.fixtures|
  {
    SourceAt(b, g, c) == SourceAt(b, g', c') ==> g == g' && c == c'
  }

  ghost predicate UsedOnce(b: Bracket) {
    forall g, c, g', c' :: 0 <= g < |b.fixtures| && 0 <= g' < |b.fixtures| ==> OneUse(b, g, c, g', c')
  }

  ghost predicate HasConsumer(b: Bracket, f: nat) {
    exists g, c :: 0 <= g < |b.fixtures| && SourceAt(b, g, c) == WinnerOf(f)
  }

  ghost predicate LastIsFinal(b: Bracket) {
    && |b.fixtures| >= 1
    && forall f :: 0 <= f < |b.fixtures| ==> (b.fixtures[f].roundNumber == b.roundCount <==> f == |b.fixtures| - 1)
  }

  ghost predicate DistinctEntrants(b: Bracket) {
    forall i, j :: 0 <= i < j < |b.entrants| ==> b.entrants[i] != b.entrants[j]
  }

  /**
   * A single-elimination tree: sources first, every winner but the last used once, every entrant placed at most once.
   */
  ghost predicate GraphOK(b: Bracket) {
    && LastIsFinal(b)
    && DistinctEntrants(b)
    && SourcesFirst(b)
    && UsedOnce(b)
    && (forall f: nat :: f < |b.fixtures| - 1 ==> HasConsumer(b, f))
  }

  ghost function Winners(fixtures: seq<FixtureRow>): (winners: seq<Option<nat>>)
    ensures |winners| == |fixtures|
  {
    seq(|fixtures|, f requires 0 <= f < |fixtures| => fixtures[f].winner)
  }

  /** A slot holds its entrant, or exactly what its source fixture has decided. */
  ghost predicate SlotOK(s: SlotRow, winners: seq<Option<nat>>) {
    match s.source
    case Direct(e) => s.resolved == Some(e)
    case WinnerOf(f) => f < |winners| && s.resolved == winners[f]
  }

  ghost predicate ParticipantsOK(row: FixtureRow) {
    row.winner.Some? ==> row.Resolved() && (row.winner == row.red.resolved || row.winner == row.blue.resolved)
  }

  ghost predicate StatusOK(row: FixtureRow) {
    && (row.status == PendingParticipants <==> !row.Resolved())
    && (row.status == Completed <==> row.winner.Some?)
    && match row.status
       case PendingParticipants => row.matchRow.None? && row.decision.None?
       case Ready => row.matchRow.None? && row.decision.None?
       case MatchPrepared => row.matchRow.Some? && row.decision.None?
       case AwaitingWinner => row.matchRow.Some? && row.matchRow.value.finished && row.decision == Some(RulesTie)
       case Completed => row.decision.Some?
  }

  /** The operational match is between the two entrants the slots hold. */
  ghost predicate MatchOK(row: FixtureRow, entrants: seq<AthleteId>) {
    row.matchRow.Some? ==>
      && row.Resolved() && row.red.resolved.value < |entrants| && row.blue.resolved.value < |entrants|
      && row.matchRow.value.redAthlete == entrants[row.red.resolved.value]
      && row.matchRow.value.blueAthlete == entrants[row.blue.resolved.value]
  }

  ghost predicate RowOK(row: FixtureRow, winners: seq<Option<nat>>, entrants: seq<AthleteId>) {
    SlotOK(row.red, winners) && SlotOK(row.blue, winners) && ParticipantsOK(row) && StatusOK(row)
        && MatchOK(row, entrants)
  }

  ghost predicate InOrder(b: Bracket, f: nat)
    requires f < |b.fixtures|
  {
    RowOK(b.fixtures[f], Winners(b.fixtures), b.entrants)
  }

  ghost predicate RowsOK(b: Bracket) {
    forall f :: 0 <= f < |b.fixtures| ==> InOrder(b, f)
  }

  ghost predicate ChampionOK(b: Bracket)
    requires |b.fixtures| >= 1
  {
    && b.champion == b.fixtures[|b.fixtures| - 1].winner
    && (b.status == Finished <==> b.champion.Some?)
  }

  ghost predicate BracketOK(b: Bracket) {
    GraphOK(b) && RowsOK(b) && ChampionOK(b)
  }

  ghost predicate SameSources(row: FixtureRow, row': FixtureRow) {
    row'.roundNumber == row.roundNumber && row'.position == row.position &&
    row'.red.source == row.red.source && row'.blue.source == row.blue.source
  }

  /** Only the outcome columns differ. */
  ghost predicate SameGraph(b: Bracket, b': Bracket) {
    && b'.roundCount == b.roundCount && b'.entrants == b.entrants && |b'.fixtures| == |b.fixtures|
    && forall g :: 0 <= g < |b.fixtures| ==> SameSources(b.fixtures[g], b'.fixtures[g])
  }

  /** Some fixture fed by f has been decided: possible without a match, by withdrawal. */
  predicate DownstreamDecided(fixtures: seq<FixtureRow>, f: nat) {
    exists g :: 0 <= g < |fixtures| && Feeds(fixtures[g], f) && fixtures[g].winner.Some?
  }
}
