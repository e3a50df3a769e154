/** Confirming a previewed draw: the rows of the live bracket, made from the fixture graph. */
module BracketConfirmation {
  import opened Prelude
  import opened BracketSummary
  import opened BracketGraph
  import opened BracketShape
  import Live = BracketOutcome

  datatype EntrantRow = EntrantRow(
    athleteId: AthleteId, initialRoundNumber: nat, initialFixturePosition: nat, initialSide: Side, receivedBye: bool)
  datatype Confirmed = Confirmed(entrants: seq<EntrantRow>, bracket: Live.Bracket)
  datatype ConfirmError = GraphInvalid | LookupMissed

  // ---------------------------------------------------------------- what confirmation must produce

  /** The opening row of an entrant points at the one slot the entrant fills, and a bye means starting in round 2. */
  ghost predicate OpensAt(fixtures: seq<Fixture>, row: EntrantRow) {
    exists i :: 0 <= i < |fixtures| && OpensIn(fixtures[i], row)
  }

  predicate OpensIn(f: Fixture, row: EntrantRow) {
    && f.roundNumber == row.initialRoundNumber && f.position == row.initialFixturePosition
    && SlotOf(f, row.initialSide).source == Entrant(row.athleteId)
  }

  predicate ByeMeansRoundTwo(row: EntrantRow) {
    row.initialRoundNumber == (if row.receivedBye then 2 else 1)
  }

  ghost predicate EntrantsListed(draw: Draw, fixtures: seq<Fixture>, rows: seq<EntrantRow>) {
    && |rows| == |Athletes(draw)|
    && forall e :: 0 <= e < |rows| ==>
         rows[e].athleteId == Athletes(draw)[e] && OpensAt(fixtures, rows[e]) && ByeMeansRoundTwo(rows[e])
  }

  /** A slot row takes the same competitor as the slot of the graph. */
  predicate SameSource(athletes: seq<AthleteId>, fixtures: seq<Fixture>, source: Source, row: Live.SlotRow) {
    match source
    case Entrant(a) =>
      row.source.Direct? && row.source.entrant < |athletes| && athletes[row.source.entrant] == a &&
      row.resolved == Some(row.source.entrant)
    case FixtureWinner(id) =>
      row.source.WinnerOf? && row.source.fixture < |fixtures| && fixtures[row.source.fixture].id == id &&
      row.resolved == None
  }

  predicate RowOf(athletes: seq<AthleteId>, fixtures: seq<Fixture>, f: Fixture, row: Live.FixtureRow) {
    && row.roundNumber == f.roundNumber && row.position == f.position
    && SameSource(athletes, fixtures, f.red.source, row.red)
    && SameSource(athletes, fixtures, f.blue.source, row.blue)
    && row.status == (if row.Resolved() then Live.Ready else Live.PendingParticipants)
    && row.winner.None? && row.decision.None? && row.matchRow.None?
  }

  /** b is the fresh live bracket of the draw. */
  ghost predicate Materialises(draw: Draw, b: Live.Bracket)
    requires ValidDraw(draw)
  {
    && b.roundCount == Rounds(draw) && b.entrants == Athletes(draw) && |b.fixtures| == |FixturesOf(draw)|
    && b.status == Live.Active && b.champion.None?
    && forall i :: 0 <= i < |b.fixtures| ==> RowAt(draw, b, i)
  }

  ghost predicate RowAt(draw: Draw, b: Live.Bracket, i: nat)
    requires ValidDraw(draw) && i < |b.fixtures| == |FixturesOf(draw)|
  {
    RowOf(b.entrants, FixturesOf(draw), FixturesOf(draw)[i], b.fixtures[i])
  }

  // ---------------------------------------------------------------- opening fixtures by athlete

  predicate Enters(f: Fixture, a: AthleteId) {
    f.red.source == Entrant(a) || f.blue.source == Entrant(a)
  }

  ghost predicate OpeningsUpTo(fixtures: seq<Fixture>, n: nat, openings: map<AthleteId, nat>)
    requires n <= |fixtures|
  {
    && (forall a :: a in openings ==> openings[a] < n && Enters(fixtures[openings[a]], a))
    && (forall i, a :: 0 <= i < n && Enters(fixtures[i], a) ==> a in openings)
  }

  method OpeningByAthleteId(fixtures: seq<Fixture>) returns (openings: map<AthleteId, nat>)
    ensures OpeningsUpTo(fixtures, |fixtures|, openings)
  {
    openings := map[];
    for i := 0 to |fixtures|
      invariant OpeningsUpTo(fixtures, i, openings)
    {
      if fixtures[i].red.source.Entrant? { openings := openings[fixtures[i].red.source.entrantId := i]; }
      if fixtures[i].blue.source.Entrant? { openings := openings[fixtures[i].blue.source.entrantId := i]; }
    }
  }

  // ---------------------------------------------------------------- entrants

  /** The athlete at place k enters where, and only where, its pair says. */
  lemma OpeningOfPlace(draw: Draw, openings: map<AthleteId, nat>, k: nat)
    requires ValidDraw(draw) && OpeningsUpTo(FixturesOf(draw), |FixturesOf(draw)|, openings)
    requires k < |draw| && draw[k].Some?
    ensures |draw| % 2 == 0
    ensures draw[k].value in openings && openings[draw[k].value] < |FixturesOf(draw)|
    ensures Enters(FixturesOf(draw)[openings[draw[k].value]], draw[k].value)
    ensures FixturesOf(draw)[openings[draw[k].value]].roundNumber == OpeningRound(draw, k)
  {
    var a := draw[k].value;
    var i, side := EachEntrantFillsOneSlot(draw, k);
    assert Enters(FixturesOf(draw)[i], a);
    var j := openings[a];
    var other := if FixturesOf(draw)[j].red.source == Entrant(a) then Red else Blue;
    assert Fills(FixturesOf(draw), a, j, other);
  }

  method MakeEntrant(placements: seq<Placement>, fixtures: seq<Fixture>, openings: map<AthleteId, nat>, k: nat,
                     a: AthleteId)
    returns (result: Result<EntrantRow, ConfirmError>)
    requires Accepted(placements) && fixtures == FixturesOf(Entries(placements))
    requires OpeningsUpTo(fixtures, |fixtures|, openings)
    requires k < |placements| && placements[k].athleteId == Some(a)
    ensures result.Success? && result.value.athleteId == a
    ensures OpensAt(fixtures, result.value) && ByeMeansRoundTwo(result.value)
  {
    OpeningOfPlace(Entries(placements), openings, k);
    if a !in openings { assert false; return Failure(LookupMissed); }
    var at := fixtures[openings[a]];
    var drawPosition := placements[k].drawPosition;
    assert drawPosition == k + 1;
    var index := if drawPosition % 2 == 0 then drawPosition - 2 else drawPosition;
    var receivedBye := 0 <= index < |placements| && placements[index].athleteId == None;
    var side := if at.red.source == Entrant(a) then Red else Blue;
    result := Success(EntrantRow(a, at.roundNumber, at.position, side, receivedBye));
    assert OpensIn(fixtures[openings[a]], result.value);
  }

  ghost predicate EntrantIdsOf(athletes: seq<AthleteId>, ids: map<AthleteId, nat>) {
    && (forall a :: a in ids ==> ids[a] < |athletes| && athletes[ids[a]] == a)
    && (forall a :: a in athletes ==> a in ids)
  }

  method CreateEntrants(placements: seq<Placement>, fixtures: seq<Fixture>, openings: map<AthleteId, nat>)
    returns (result: Result<(seq<EntrantRow>, map<AthleteId, nat>), ConfirmError>)
    requires Accepted(placements) && fixtures == FixturesOf(Entries(placements))
    requires OpeningsUpTo(fixtures, |fixtures|, openings)
    ensures result.Success? && EntrantsListed(Entries(placements), fixtures, result.value.0)
    ensures EntrantIdsOf(Athletes(Entries(placements)), result.value.1)
  {
    var rows: seq<EntrantRow>, ids: map<AthleteId, nat> := [], map[];
    ghost var draw := Entries(placements);
    assert draw[..0] == [];
    for k := 0 to |placements|
      invariant EntrantsListed(draw[..k], fixtures, rows)
      invariant EntrantIdsOf(Athletes(draw[..k]), ids)
    {
      assert draw[..k + 1][..k] == draw[..k];
      if placements[k].athleteId.Some? {
        var row := MakeEntrant(placements, fixtures, openings, k, placements[k].athleteId.value);
        if row.Failure? { assert false; return Failure(LookupMissed); }
        ids := ids[row.value.athleteId := |rows|];
        rows := rows + [row.value];
      }
    }
    assert draw[..|placements|] == draw;
    result := Success((rows, ids));
  }

  // ---------------------------------------------------------------- fixtures, sources first

  ghost predicate FixtureIdsUpTo(fixtures: seq<Fixture>, n: nat, ids: map<FixtureId, nat>)
    requires n <= |fixtures|
  {
    && (forall id :: id in ids ==> ids[id] < n && fixtures[ids[id]].id == id)
    && (forall i :: 0 <= i < n ==> fixtures[i].id in ids)
  }

  /** What a slot takes has already been given a row: an entrant, or a fixture earlier on the list. */
  ghost predicate SourceKnown(athletes: seq<AthleteId>, fixtures: seq<Fixture>, n: nat, source: Source)
    requires n <= |fixtures|
  {
    match source
    case Entrant(a) => a in athletes
    case FixtureWinner(id) => exists i :: 0 <= i < n && fixtures[i].id == id
  }

  method MakeSlot(ghost athletes: seq<AthleteId>, ghost fixtures: seq<Fixture>, ghost n: nat, slot: Slot,
                  entrantIds: map<AthleteId, nat>, fixtureIds: map<FixtureId, nat>)
    returns (result: Result<Live.SlotRow, ConfirmError>)
    requires n <= |fixtures| && EntrantIdsOf(athletes, entrantIds) && FixtureIdsUpTo(fixtures, n, fixtureIds)
    requires SourceKnown(athletes, fixtures, n, slot.source)
    ensures result.Success? && SameSource(athletes, fixtures, slot.source, result.value)
  {
    match slot.source
    case Entrant(a) =>
      if a !in entrantIds { assert false; return Failure(LookupMissed); }
      return Success(Live.SlotRow(Live.Direct(entrantIds[a]), Some(entrantIds[a])));
    case FixtureWinner(id) =>
      if id !in fixtureIds { assert false; return Failure(LookupMissed); }
      return Success(Live.SlotRow(Live.WinnerOf(fixtureIds[id]), None));
  }

  lemma EntrantSourceIsAthlete(draw: Draw, f: Fixture, side: Side)
    requires ValidDraw(draw) && Described(draw, Rounds(draw), f)
    ensures SlotOf(f, side).source.Entrant? ==> SlotOf(f, side).source.entrantId in Athletes(draw)
  {
    SlotEnters(draw, Rounds(draw), f, side);
    AthletesArePlaced(draw);
  }

  /** Every source precedes the fixture it feeds. */
  lemma SourceComesFirst(draw: Draw, i: nat, side: Side)
    requires ValidDraw(draw) && i < |FixturesOf(draw)|
    ensures SourceKnown(Athletes(draw), FixturesOf(draw), i, SlotOf(FixturesOf(draw)[i], side).source)
  {
    var rounds := Rounds(draw);
    var fs := FixturesThrough(draw, rounds, rounds);
    FixturesShape(draw, rounds, rounds);
    EntrantSourceIsAthlete(draw, fs[i], side);
    var source := SlotOf(fs[i], side).source;
    SourceIsListed(draw, fs[i], source);
    if source.FixtureWinner? {
      var j :| 0 <= j < |fs| && fs[j].id == source.fixtureId;
      assert Earlier(fs[j], fs[i]);
      assert !Earlier(fs[i], fs[j]);
      assert FixturesOf(draw)[j].id == source.fixtureId;
    }
  }

  method MakeFixture(ghost draw: Draw, ghost fixtures: seq<Fixture>, ghost n: nat, f: Fixture,
                     entrantIds: map<AthleteId, nat>, fixtureIds: map<FixtureId, nat>)
    returns (result: Result<Live.FixtureRow, ConfirmError>)
    requires ValidDraw(draw) && fixtures == FixturesOf(draw) && n < |fixtures| && f == fixtures[n]
    requires EntrantIdsOf(Athletes(draw), entrantIds) && FixtureIdsUpTo(fixtures, n, fixtureIds)
    ensures result.Success? && RowOf(Athletes(draw), fixtures, f, result.value)
  {
    SourceComesFirst(draw, n, Red);
    SourceComesFirst(draw, n, Blue);
    var red := MakeSlot(Athletes(draw), fixtures, n, f.red, entrantIds, fixtureIds);
    if red.Failure? { assert false; return Failure(LookupMissed); }
    var blue := MakeSlot(Athletes(draw), fixtures, n, f.blue, entrantIds, fixtureIds);
    if blue.Failure? { assert false; return Failure(LookupMissed); }
    var ready := red.value.resolved.Some? && blue.value.resolved.Some?;
    result := Success(Live.FixtureRow(f.roundNumber, f.position, red.value, blue.value,
                                      if ready then Live.Ready else Live.PendingParticipants, None, None, None));
  }

  ghost predicate RowsUpTo(athletes: seq<AthleteId>, fixtures: seq<Fixture>, rows: seq<Live.FixtureRow>) {
    |rows| <= |fixtures| && forall i :: 0 <= i < |rows| ==> RowOf(athletes, fixtures, fixtures[i], rows[i])
  }

  lemma OneMoreRow(athletes: seq<AthleteId>, fixtures: seq<Fixture>, rows: seq<Live.FixtureRow>, row: Live.FixtureRow)
    requires |rows| < |fixtures| && RowsUpTo(athletes, fixtures, rows)
    requires RowOf(athletes, fixtures, fixtures[|rows|], row)
    ensures RowsUpTo(athletes, fixtures, rows + [row])
  {}

  lemma OneMoreId(fixtures: seq<Fixture>, n: nat, ids: map<FixtureId, nat>)
    requires n < |fixtures| && FixtureIdsUpTo(fixtures, n, ids)
    ensures FixtureIdsUpTo(fixtures, n + 1, ids[fixtures[n].id := n])
  {}

  method CreateFixtures(ghost draw: Draw, fixtures: seq<Fixture>, entrantIds: map<AthleteId, nat>)
    returns (result: Result<seq<Live.FixtureRow>, ConfirmError>)
    requires ValidDraw(draw) && fixtures == FixturesOf(draw) && EntrantIdsOf(Athletes(draw), entrantIds)
    ensures result.Success? && |result.value| == |fixtures|
    ensures RowsUpTo(Athletes(draw), fixtures, result.value)
  {
    var rows: seq<Live.FixtureRow>, fixtureIds: map<FixtureId, nat> := [], map[];
    for n := 0 to |fixtures|
      invariant |rows| == n && RowsUpTo(Athletes(draw), fixtures, rows)
      invariant FixtureIdsUpTo(fixtures, n, fixtureIds)
    {
      var row := MakeFixture(draw, fixtures, n, fixtures[n], entrantIds, fixtureIds);
      if row.Failure? { assert false; return Failure(LookupMissed); }
      OneMoreId(fixtures, n, fixtureIds);
      OneMoreRow(Athletes(draw), fixtures, rows, row.value);
      rows := rows + [row.value];
      fixtureIds := fixtureIds[fixtures[n].id := n];
    }
    result := Success(rows);
  }

  // ---------------------------------------------------------------- confirm

  method RebuildGraph(placements: seq<Placement>, eligible: set<AthleteId>)
    returns (result: Result<BracketGraph.Bracket, ConfirmError>)
    ensures result.Success? <==> Accepted(placements) && eligible == Elements(Athletes(Entries(placements)))
    ensures result.Success? ==> result.value == BracketOf(placements)
    ensures result.Failure? ==> result.error == GraphInvalid
  {
    var ids := Athletes(Entries(placements));
    SetSizeTellsDistinct(ids);
    if |placements| >= 1 { BitTestIsPowerOfTwo(|placements|); }
    if Accepted(placements) { AtLeastTwoPlaces(Entries(placements)); }
    if |placements| < 2 || BitAnd(|placements|, |placements| - 1) != 0 ||
       |ids| != |eligible| || |Elements(ids)| != |ids| || !(Elements(ids) <= eligible)
    {
      return Failure(GraphInvalid);
    }
    SameSizeSubset(Elements(ids), eligible);
    var built := BuildSingleEliminationBracket(placements);
    if built.Failure? { return Failure(GraphInvalid); }
    result := Success(built.value);
  }

  lemma {:induction false} SameSizeSubset<T>(a: set<T>, b: set<T>)
    requires a <= b && |a| == |b|
    ensures a == b
  {
    if a != {} {
      var x :| x in a;
      SameSizeSubset(a - {x}, b - {x});
    }
  }

  /** No lookup is ever missed: confirmation fails only on a roster or graph it must refuse. */
  method Confirm(placements: seq<Placement>, eligible: set<AthleteId>) returns (result: Result<Confirmed, ConfirmError>)
    ensures result.Success? <==> Accepted(placements) && eligible == Elements(Athletes(Entries(placements)))
    ensures result.Success? ==>
              && EntrantsListed(Entries(placements), FixturesOf(Entries(placements)), result.value.entrants)
              && Materialises(Entries(placements), result.value.bracket)
    ensures result.Failure? ==> result.error == GraphInvalid
  {
    var graph := RebuildGraph(placements, eligible);
    if graph.Failure? { return Failure(graph.error); }
    var draw := Entries(placements);
    var fixtures := graph.value.fixtures;
    var openings := OpeningByAthleteId(fixtures);
    var entrants := CreateEntrants(placements, fixtures, openings);
    if entrants.Failure? { assert false; return Failure(LookupMissed); }
    var rows := CreateFixtures(draw, fixtures, entrants.value.1);
    if rows.Failure? { assert false; return Failure(LookupMissed); }
    SummaryFits(|Athletes(draw)|);
    result := Success(Confirmed(entrants.value.0,
                                Live.Bracket(graph.value.summary.roundCount, Athletes(draw), rows.value, Live.Active,
                                             None)));
  }
}
