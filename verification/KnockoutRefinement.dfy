/** From the draw to the champion: the confirmed bracket plays out as a recursive knockout of the draw. */
module KnockoutRefinement {
  import opened Prelude
  import opened SportRules
  import opened BracketSummary
  import opened BracketGraph
  import opened BracketShape
  import opened BracketConfirmation
  import Live = BracketOutcome
  import Play = BracketKnockout

  // ---------------------------------------------------------------- the reference meaning

  /**
   * Who survives the 2^r places starting at q * 2^r, given the pairings RED wins. A side without an opponent
   * goes through.
   */
  function Knockout(draw: Draw, r: nat, q: nat, redWins: set<FixtureId>): Option<AthleteId> {
    if r == 0 then if q < |draw| then draw[q] else None
    else
      var red, blue := Knockout(draw, r - 1, 2 * q, redWins), Knockout(draw, r - 1, 2 * q + 1, redWins);
      if red.None? then blue
      else if blue.None? then red
      else if FixtureId(r, q + 1) in redWins then red else blue
  }

  /** The knockout of the whole draw. */
  function DrawWinner(draw: Draw, redWins: set<FixtureId>): Option<AthleteId> {
    Knockout(draw, Rounds(draw), 0, redWins)
  }

  // ---------------------------------------------------------------- a confirmed bracket is in order

  function SideOf(c: Color): Side {
    if c == RED then Red else Blue
  }

  lemma SourceOfSlot(draw: Draw, b: Live.Bracket, i: nat, c: Color)
    requires ValidDraw(draw) && Materialises(draw, b) && i < |b.fixtures|
    ensures SameSource(b.entrants, FixturesOf(draw), SlotOf(FixturesOf(draw)[i], SideOf(c)).source,
                       b.fixtures[i].Slot(c))
  {
    assert RowAt(draw, b, i);
  }

  lemma ConfirmedSourcesFirst(draw: Draw, b: Live.Bracket)
    requires ValidDraw(draw) && Materialises(draw, b)
    ensures Live.SourcesFirst(b)
  {
    WinnersGoUp(draw);
    forall i, c | 0 <= i < |b.fixtures| ensures Live.ComesBefore(b, Live.SourceAt(b, i, c), i) {
      SourceOfSlot(draw, b, i, c);
      SourceComesFirst(draw, i, SideOf(c));
      var source := SlotOf(FixturesOf(draw)[i], SideOf(c)).source;
      if source.FixtureWinner? {
        var j :| 0 <= j < i && FixturesOf(draw)[j].id == source.fixtureId;
        SameIdSameFixture(draw, j, b.fixtures[i].Slot(c).source.fixture);
      }
    }
  }

  lemma SameIdSameFixture(draw: Draw, i: nat, j: nat)
    requires ValidDraw(draw) && i < |FixturesOf(draw)| && j < |FixturesOf(draw)|
    requires FixturesOf(draw)[i].id == FixturesOf(draw)[j].id
    ensures i == j
  {
    WinnersGoUp(draw);
    assert !Earlier(FixturesOf(draw)[i], FixturesOf(draw)[j]) && !Earlier(FixturesOf(draw)[j], FixturesOf(draw)[i]);
  }

  lemma ConfirmedUsedOnce(draw: Draw, b: Live.Bracket)
    requires ValidDraw(draw) && Materialises(draw, b)
    ensures Live.UsedOnce(b)
  {
    forall g: nat, c, g': nat, c' | g < |b.fixtures| && g' < |b.fixtures| ensures Live.OneUse(b, g, c, g', c') {
      if Live.SourceAt(b, g, c) == Live.SourceAt(b, g', c') { SameSourceSamePlace(draw, b, g, c, g', c'); }
    }
  }

  lemma SameSourceSamePlace(draw: Draw, b: Live.Bracket, g: nat, c: Color, g': nat, c': Color)
    requires ValidDraw(draw) && Materialises(draw, b)
    requires g < |b.fixtures| && g' < |b.fixtures| && Live.SourceAt(b, g, c) == Live.SourceAt(b, g', c')
    ensures g == g' && c == c'
  {
    var fs := FixturesOf(draw);
    SourceOfSlot(draw, b, g, c);
    SourceOfSlot(draw, b, g', c');
    match Live.SourceAt(b, g, c)
    case Direct(e) =>
      AthletesArePlaced(draw);
      var k :| 0 <= k < |draw| && draw[k] == Some(b.entrants[e]);
      var i, side := EachEntrantFillsOneSlot(draw, k);
      assert Fills(fs, draw[k].value, g, SideOf(c)) && Fills(fs, draw[k].value, g', SideOf(c'));
    case WinnerOf(f) =>
      LinksAgree(draw, g, f, SideOf(c));
      LinksAgree(draw, g', f, SideOf(c'));
      SameIdSameFixture(draw, g, g');
  }

  lemma ConsumerListed(draw: Draw, f: nat) returns (g: nat, c: Color)
    requires ValidDraw(draw) && f < |FixturesOf(draw)| - 1
    ensures g < |FixturesOf(draw)|
    ensures SlotOf(FixturesOf(draw)[g], SideOf(c)).source == FixtureWinner(FixturesOf(draw)[f].id)
  {
    var rounds := Rounds(draw);
    WinnersGoUp(draw);
    FixturesShape(draw, rounds, rounds);
    var r, p := FixturesOf(draw)[f].roundNumber, FixturesOf(draw)[f].position - 1;
    ParentWaits(draw, rounds, r, p);
    g := FindFixture(draw, rounds, rounds, r + 1, p / 2);
    c := if p % 2 == 0 then RED else BLUE;
    LinksAgree(draw, g, f, SideOf(c));
  }

  /** Everyone but the champion goes on: every fixture but the last feeds a slot. */
  lemma ConfirmedHasConsumer(draw: Draw, b: Live.Bracket, f: nat)
    requires ValidDraw(draw) && Materialises(draw, b) && f < |b.fixtures| - 1
    ensures Live.HasConsumer(b, f)
  {
    var g, c := ConsumerListed(draw, f);
    SourceOfSlot(draw, b, g, c);
    SameIdSameFixture(draw, f, b.fixtures[g].Slot(c).source.fixture);
    assert Live.SourceAt(b, g, c) == Live.WinnerOf(f);
  }

  lemma ConfirmedGraphOK(draw: Draw, b: Live.Bracket)
    requires ValidDraw(draw) && Materialises(draw, b)
    ensures Live.GraphOK(b)
  {
    ConfirmedSourcesFirst(draw, b);
    ConfirmedUsedOnce(draw, b);
    ConfirmedLastIsFinal(draw, b);
    forall f: nat | f < |b.fixtures| - 1 ensures Live.HasConsumer(b, f) {
      ConfirmedHasConsumer(draw, b, f);
    }
  }

  lemma ConfirmedLastIsFinal(draw: Draw, b: Live.Bracket)
    requires ValidDraw(draw) && Materialises(draw, b)
    ensures Live.LastIsFinal(b)
  {
    FixtureCounts(draw);
    WinnersGoUp(draw);
    forall f | 0 <= f < |b.fixtures| ensures b.fixtures[f].roundNumber == b.roundCount <==> f == |b.fixtures| - 1 {
      assert RowAt(draw, b, f);
    }
  }

  /** A freshly confirmed bracket satisfies the bracket invariant, with nothing decided. */
  lemma ConfirmedBracketOK(draw: Draw, b: Live.Bracket)
    requires ValidDraw(draw) && Materialises(draw, b)
    ensures Live.BracketOK(b) && |b.fixtures| == |Athletes(draw)| - 1
    ensures forall f :: 0 <= f < |b.fixtures| ==> b.fixtures[f].winner.None?
  {
    ConfirmedGraphOK(draw, b);
    FixtureCounts(draw);
    forall f | 0 <= f < |b.fixtures|
      ensures Live.InOrder(b, f) && b.fixtures[f].winner.None?
    {
      ConfirmedRowOK(draw, b, f);
    }
  }

  lemma ConfirmedRowOK(draw: Draw, b: Live.Bracket, f: nat)
    requires ValidDraw(draw) && Materialises(draw, b) && f < |b.fixtures|
    ensures Live.InOrder(b, f) && b.fixtures[f].winner.None?
  {
    forall g | 0 <= g < |b.fixtures| ensures b.fixtures[g].winner.None? {
      assert RowAt(draw, b, g);
    }
    assert RowAt(draw, b, f);
  }

  // ---------------------------------------------------------------- the champion is the knockout of the draw

  /** The pairings RED wins, in the order the fixtures are listed. */
  ghost function PicksFor(draw: Draw, redWins: set<FixtureId>): (picks: Play.Picks)
    requires ValidDraw(draw)
    ensures |picks| == |FixturesOf(draw)|
  {
    seq(|FixturesOf(draw)|, i requires 0 <= i < |FixturesOf(draw)| => FixturesOf(draw)[i].id in redWins)
  }

  lemma HalvesInRange(rounds: nat, r: nat, q: nat)
    requires 1 <= r <= rounds && q < Pow2(rounds - r)
    ensures 2 * q + 1 < Pow2(rounds - (r - 1))
  {}

  /** What enters a branch of round r without playing is the survivor of everything below it. */
  lemma EntrantIsSurvivor(draw: Draw, r: nat, q: nat, redWins: set<FixtureId>)
    requires 1 <= r && (r == 1 ==> q < |draw|) && (r == 2 ==> 2 * q + 1 < |draw|)
    requires Entering(draw, r, q).Some? && Entering(draw, r, q).value.Entrant?
    ensures Knockout(draw, r - 1, q, redWins) == Some(Entering(draw, r, q).value.entrantId)
  {
    if r == 2 {
      assert Knockout(draw, 0, 2 * q, redWins) == draw[2 * q]
             && Knockout(draw, 0, 2 * q + 1, redWins) == draw[2 * q + 1];
    }
  }

  /** Branches of round 2 and later always have a survivor. */
  lemma {:induction false} SomebodySurvives(draw: Draw, rounds: nat, r: nat, q: nat, redWins: set<FixtureId>)
    requires |draw| == Pow2(rounds) && NoDoubleBye(draw) && 1 <= r <= rounds && q < Pow2(rounds - r)
    ensures Knockout(draw, r, q, redWins).Some?
    decreases r
  {
    HalvesInRange(rounds, r, q);
    if r == 1 {
      assert draw[2 * q].Some? || draw[2 * q + 1].Some?;
      assert Knockout(draw, 0, 2 * q, redWins) == draw[2 * q]
             && Knockout(draw, 0, 2 * q + 1, redWins) == draw[2 * q + 1];
    } else {
      SomebodySurvives(draw, rounds, r - 1, 2 * q, redWins);
      SomebodySurvives(draw, rounds, r - 1, 2 * q + 1, redWins);
    }
  }

  /** Both sides of a listed fixture have survivors, so the pick decides it. */
  lemma BothSurvive(draw: Draw, rounds: nat, f: Fixture, redWins: set<FixtureId>)
    requires |draw| == Pow2(rounds) && NoDoubleBye(draw) && Described(draw, rounds, f)
    ensures 1 <= f.roundNumber
    ensures Knockout(draw, f.roundNumber, f.position - 1, redWins)
            == Knockout(draw, f.roundNumber - 1, 2 * (f.position - 1) + (if f.id in redWins then 0 else 1), redWins)
  {
    var r, p := f.roundNumber, f.position - 1;
    HalvesInRange(rounds, r, p);
    if r >= 2 {
      SomebodySurvives(draw, rounds, r - 1, 2 * p, redWins);
      SomebodySurvives(draw, rounds, r - 1, 2 * p + 1, redWins);
    } else {
      assert Knockout(draw, 0, 2 * p, redWins) == draw[2 * p]
             && Knockout(draw, 0, 2 * p + 1, redWins) == draw[2 * p + 1];
    }
  }

  function SurvivorAt(draw: Draw, id: FixtureId, redWins: set<FixtureId>): Option<AthleteId> {
    if id.position == 0 then None else Knockout(draw, id.roundNumber, id.position - 1, redWins)
  }

  function SurvivorFrom(draw: Draw, source: Source, redWins: set<FixtureId>): Option<AthleteId> {
    match source
    case Entrant(a) => Some(a)
    case FixtureWinner(id) => SurvivorAt(draw, id, redWins)
  }

  function PickFor(id: FixtureId, redWins: set<FixtureId>): Color {
    if id in redWins then RED else BLUE
  }

  /** The survivor of a fixture is whoever its picked slot takes, an entrant or another fixture's survivor. */
  lemma SurvivorTakesThePickedSlot(draw: Draw, rounds: nat, f: Fixture, redWins: set<FixtureId>)
    requires |draw| == Pow2(rounds) && NoDoubleBye(draw) && Described(draw, rounds, f)
    ensures SurvivorAt(draw, f.id, redWins) == SurvivorFrom(draw, SlotOf(f, SideOf(PickFor(f.id, redWins))).source,
                                                            redWins)
  {
    var side := SideOf(PickFor(f.id, redWins));
    BothSurvive(draw, rounds, f, redWins);
    SlotEnters(draw, rounds, f, side);
    if SlotOf(f, side).source.Entrant? { EntrantIsSurvivor(draw, f.roundNumber, SlotIndex(f, side), redWins); }
  }

  lemma SurvivorStep(draw: Draw, b: Live.Bracket, redWins: set<FixtureId>, i: nat)
    requires ValidDraw(draw) && Materialises(draw, b) && i < |b.fixtures|
    ensures var id := FixturesOf(draw)[i].id;
            match Live.SourceAt(b, i, PickFor(id, redWins))
            case Direct(e) => e < |b.entrants| && SurvivorAt(draw, id, redWins) == Some(b.entrants[e])
            case WinnerOf(g) =>
              && g < |b.fixtures|
              && SurvivorAt(draw, id, redWins) == SurvivorAt(draw, FixturesOf(draw)[g].id, redWins)
  {
    var rounds := Rounds(draw);
    FixturesShape(draw, rounds, rounds);
    SurvivorTakesThePickedSlot(draw, rounds, FixturesThrough(draw, rounds, rounds)[i], redWins);
    SourceOfSlot(draw, b, i, PickFor(FixturesOf(draw)[i].id, redWins));
  }

  predicate Names(b: Live.Bracket, e: nat, who: Option<AthleteId>) {
    e < |b.entrants| && who == Some(b.entrants[e])
  }

  /** The winner of a fixture, followed down the live bracket, is the survivor of its part of the draw. */
  lemma {:induction false} ChampionIsSurvivor(draw: Draw, b: Live.Bracket, redWins: set<FixtureId>, i: nat)
    requires ValidDraw(draw) && Materialises(draw, b) && i < |b.fixtures| && Live.SourcesFirst(b)
    ensures Names(b, Play.Champion(b, PicksFor(draw, redWins), i), SurvivorAt(draw, FixturesOf(draw)[i].id, redWins))
    decreases i
  {
    var c := Play.PickedSide(PicksFor(draw, redWins), i);
    SurvivorStep(draw, b, redWins, i);
    assert Live.ComesBefore(b, Live.SourceAt(b, i, c), i);
    match Live.SourceAt(b, i, c)
    case Direct(_) =>
    case WinnerOf(g) => ChampionIsSurvivor(draw, b, redWins, g);
  }

  lemma PlayOut(draw: Draw, b: Live.Bracket, redWins: set<FixtureId>, order: seq<Play.Ruling>)
    requires ValidDraw(draw) && Materialises(draw, b)
    requires Play.LegalOrder(b, PicksFor(draw, redWins), order)
    requires Play.NothingOpen(Play.RuleAll(b, PicksFor(draw, redWins), order))
    ensures |order| == |b.fixtures| == |Athletes(draw)| - 1 && Live.SourcesFirst(b)
    ensures var after := Play.RuleAll(b, PicksFor(draw, redWins), order);
            && |after.fixtures| == |b.fixtures|
            && (forall f :: 0 <= f < |after.fixtures| ==> after.fixtures[f].status == Live.Completed)
            && after.status == Live.Finished
            && after.champion == Some(Play.Champion(b, PicksFor(draw, redWins), |b.fixtures| - 1))
  {
    ConfirmedBracketOK(draw, b);
    Play.CompleteRunCrownsTheKnockout(b, PicksFor(draw, redWins), order);
  }

  lemma FinalIsWholeDraw(draw: Draw)
    requires ValidDraw(draw)
    ensures |FixturesOf(draw)| >= 1 && FixturesOf(draw)[|FixturesOf(draw)| - 1].id == FixtureId(Rounds(draw), 1)
  {
    FixtureCounts(draw);
    WinnersGoUp(draw);
    FixturesShape(draw, Rounds(draw), Rounds(draw));
    assert Pow2(0) == 1;
  }

  lemma FinalSurvivor(draw: Draw, redWins: set<FixtureId>)
    requires ValidDraw(draw)
    ensures |FixturesOf(draw)| >= 1
    ensures SurvivorAt(draw, FixturesOf(draw)[|FixturesOf(draw)| - 1].id, redWins) == DrawWinner(draw, redWins)
  {
    FinalIsWholeDraw(draw);
  }

  lemma FinalChampion(draw: Draw, b: Live.Bracket, redWins: set<FixtureId>)
    requires ValidDraw(draw) && Materialises(draw, b) && Live.SourcesFirst(b)
    ensures |b.fixtures| >= 1
    ensures Names(b, Play.Champion(b, PicksFor(draw, redWins), |b.fixtures| - 1), DrawWinner(draw, redWins))
  {
    FinalSurvivor(draw, redWins);
    ChampionIsSurvivor(draw, b, redWins, |b.fixtures| - 1);
  }

  /**
   * The headline: confirm any accepted draw, choose a winner for every pairing, and decide the fixtures in any
   * order the bracket allows until none is open. All n - 1 fixtures are then COMPLETED by one ruling each, the
   * bracket is finished and its champion is the recursive knockout of the draw.
   */
  lemma BracketRefinesKnockout(draw: Draw, b: Live.Bracket, redWins: set<FixtureId>, order: seq<Play.Ruling>)
    requires ValidDraw(draw) && Materialises(draw, b)
    requires Play.LegalOrder(b, PicksFor(draw, redWins), order)
    requires Play.NothingOpen(Play.RuleAll(b, PicksFor(draw, redWins), order))
    ensures |order| == |Athletes(draw)| - 1
    ensures var after := Play.RuleAll(b, PicksFor(draw, redWins), order);
            && |after.fixtures| == |Athletes(draw)| - 1
            && (forall f :: 0 <= f < |after.fixtures| ==> after.fixtures[f].status == Live.Completed)
            && after.status == Live.Finished
            && after.champion.Some? && Names(b, after.champion.value, DrawWinner(draw, redWins))
  {
    PlayOut(draw, b, redWins, order);
    FinalChampion(draw, b, redWins);
  }
}
