/** Exchanging two entrants of a previewed draw. */
module BracketPreview {
  import opened Prelude
  import opened BracketSummary
  import opened BracketGraph
  import opened BracketShape

  datatype SwapError = SameAthlete | IneligibleAthlete | InvalidGraph

  /** The first place held by athlete a; |placements| if none. */
  function PlaceOf(placements: seq<Placement>, a: AthleteId): (k: nat)
    ensures k <= |placements|
    ensures k < |placements| ==> placements[k].athleteId == Some(a)
    ensures forall j :: 0 <= j < k ==> placements[j].athleteId != Some(a)
  {
    if placements == [] || placements[0].athleteId == Some(a) then 0 else 1 + PlaceOf(placements[1..], a)
  }

  function Renamed(x: AthleteId, a: AthleteId, b: AthleteId): AthleteId {
    if x == a then b else if x == b then a else x
  }

  function RenamedEntry(entry: Option<AthleteId>, a: AthleteId, b: AthleteId): Option<AthleteId> {
    if entry.Some? then Some(Renamed(entry.value, a, b)) else None
  }

  /** The draw with a and b trading names wherever they occur. */
  function RenamedDraw(draw: Draw, a: AthleteId, b: AthleteId): (renamed: Draw)
    ensures |renamed| == |draw|
  {
    seq(|draw|, k requires 0 <= k < |draw| => RenamedEntry(draw[k], a, b))
  }

  function RenamedPlacements(placements: seq<Placement>, a: AthleteId, b: AthleteId): (renamed: seq<Placement>)
    ensures |renamed| == |placements|
  {
    seq(|placements|, k requires 0 <= k < |placements| =>
      placements[k].(athleteId := RenamedEntry(placements[k].athleteId, a, b)))
  }

  function RenamedSlot(s: Slot, a: AthleteId, b: AthleteId): Slot {
    s.(source := if s.source.Entrant? then Entrant(Renamed(s.source.entrantId, a, b)) else s.source,
       resolvedEntrantId := RenamedEntry(s.resolvedEntrantId, a, b))
  }

  function RenamedFixture(f: Fixture, a: AthleteId, b: AthleteId): Fixture {
    f.(red := RenamedSlot(f.red, a, b), blue := RenamedSlot(f.blue, a, b))
  }

  function RenamedFixtures(fs: seq<Fixture>, a: AthleteId, b: AthleteId): (renamed: seq<Fixture>)
    ensures |renamed| == |fs|
  {
    seq(|fs|, i requires 0 <= i < |fs| => RenamedFixture(fs[i], a, b))
  }

  method Swap(claimed: seq<Placement>, eligible: set<AthleteId>, athleteId: AthleteId, swapWithAthleteId: AthleteId)
    returns (r: Result<Bracket, SwapError>)
    ensures r == Failure(SameAthlete) <==> athleteId == swapWithAthleteId
    ensures r == Failure(IneligibleAthlete) <==>
              athleteId != swapWithAthleteId &&
              (athleteId !in eligible || swapWithAthleteId !in eligible ||
               PlaceOf(claimed, athleteId) == |claimed| || PlaceOf(claimed, swapWithAthleteId) == |claimed|)
    ensures Accepted(claimed) && r.Success? ==>
              Accepted(RenamedPlacements(claimed, athleteId, swapWithAthleteId)) &&
              r.value == BracketOf(RenamedPlacements(claimed, athleteId, swapWithAthleteId))
    ensures Accepted(claimed) && r.Failure? ==> r == Failure(SameAthlete) || r == Failure(IneligibleAthlete)
  {
    if athleteId == swapWithAthleteId { return Failure(SameAthlete); }
    var placements := new Placement[|claimed|](i requires 0 <= i < |claimed| => claimed[i]);
    var first := PlaceOf(claimed, athleteId);
    var second := PlaceOf(claimed, swapWithAthleteId);
    if first == |claimed| || second == |claimed| || athleteId !in eligible || swapWithAthleteId !in eligible {
      return Failure(IneligibleAthlete);
    }
    assert first != second;
    placements[first], placements[second] :=
      placements[first].(athleteId := placements[second].athleteId),
      placements[second].(athleteId := placements[first].athleteId);
    assert placements[..] == claimed[first := claimed[first].(athleteId := Some(swapWithAthleteId))]
                                    [second := claimed[second].(athleteId := Some(athleteId))];
    if Accepted(claimed) {
      ExchangeIsRenaming(claimed, athleteId, swapWithAthleteId, placements[..]);
      RenamedAccepted(claimed, athleteId, swapWithAthleteId);
    }
    var generated := BuildSingleEliminationBracket(placements[..]);
    if generated.Failure? { return Failure(InvalidGraph); }
    r := Success(generated.value);
  }

  lemma RenamedAccepted(placements: seq<Placement>, a: AthleteId, b: AthleteId)
    requires Accepted(placements)
    ensures Entries(RenamedPlacements(placements, a, b)) == RenamedDraw(Entries(placements), a, b)
    ensures Accepted(RenamedPlacements(placements, a, b))
  {
    assert Entries(RenamedPlacements(placements, a, b)) == RenamedDraw(Entries(placements), a, b);
    RenamingKeepsDraw(Entries(placements), a, b);
    RenamedAthletes(Entries(placements), a, b);
  }

  /** With distinct entrants, exchanging two places is the same as trading two names. */
  lemma ExchangeIsRenaming(claimed: seq<Placement>, a: AthleteId, b: AthleteId, exchanged: seq<Placement>)
    requires Distinct(Athletes(Entries(claimed)))
    requires a != b && PlaceOf(claimed, a) < |claimed| && PlaceOf(claimed, b) < |claimed|
    requires var i, j := PlaceOf(claimed, a), PlaceOf(claimed, b);
             exchanged == claimed[i := claimed[i].(athleteId := Some(b))][j := claimed[j].(athleteId := Some(a))]
    ensures exchanged == RenamedPlacements(claimed, a, b)
  {
    var draw := Entries(claimed);
    var i, j := PlaceOf(claimed, a), PlaceOf(claimed, b);
    forall k | 0 <= k < |claimed| ensures exchanged[k] == RenamedPlacements(claimed, a, b)[k] {
      if k != i { PlaceDiffers(draw, k, i); assert draw[k] != Some(a); }
      if k != j { PlaceDiffers(draw, k, j); assert draw[k] != Some(b); }
    }
  }

  // ---------------------------------------------------------------- what the exchange keeps

  lemma {:induction false} RenamedAthletes(draw: Draw, a: AthleteId, b: AthleteId)
    ensures |Athletes(RenamedDraw(draw, a, b))| == |Athletes(draw)|
    ensures forall i :: 0 <= i < |Athletes(draw)| ==>
              Athletes(RenamedDraw(draw, a, b))[i] == Renamed(Athletes(draw)[i], a, b)
  {
    if draw != [] {
      var renamed := RenamedDraw(draw, a, b);
      RenamedAthletes(draw[..|draw| - 1], a, b);
      assert renamed[..|renamed| - 1] == RenamedDraw(draw[..|draw| - 1], a, b);
    }
  }

  lemma RenamingKeepsDraw(draw: Draw, a: AthleteId, b: AthleteId)
    requires ValidDraw(draw)
    ensures ValidDraw(RenamedDraw(draw, a, b)) && Rounds(RenamedDraw(draw, a, b)) == Rounds(draw)
  {
    var renamed := RenamedDraw(draw, a, b);
    RenamedAthletes(draw, a, b);
    forall p | 0 <= p < |renamed| / 2 ensures renamed[2 * p].Some? || renamed[2 * p + 1].Some? {
      assert draw[2 * p].Some? || draw[2 * p + 1].Some?;
    }
  }

  lemma RenamedTwice(placements: seq<Placement>, a: AthleteId, b: AthleteId)
    ensures RenamedPlacements(RenamedPlacements(placements, a, b), a, b) == placements
  {
  }

  /** Both names are still placed after they have been traded. */
  lemma RenamedHolds(placements: seq<Placement>, a: AthleteId, b: AthleteId)
    requires PlaceOf(placements, a) < |placements|
    ensures PlaceOf(RenamedPlacements(placements, a, b), b) < |placements|
  {
    assert RenamedPlacements(placements, a, b)[PlaceOf(placements, a)].athleteId == Some(b);
  }

  /** Asking for the same exchange again, on the preview the first request answered with, restores the first preview. */
  method SwapTwiceRestores(claimed: seq<Placement>, eligible: set<AthleteId>, a: AthleteId, b: AthleteId)
    returns (once: Result<Bracket, SwapError>, again: Result<Bracket, SwapError>)
    requires Accepted(claimed)
    ensures once.Success? <==>
              && a != b && a in eligible && b in eligible
              && Some(a) in Entries(claimed) && Some(b) in Entries(claimed)
    ensures once.Success? ==> again == Success(BracketOf(claimed))
    ensures once.Failure? ==> again == once
  {
    PlacedIsEntry(claimed, a);
    PlacedIsEntry(claimed, b);
    once := Swap(claimed, eligible, a, b);
    if once.Failure? { return once, once; }
    RenamedTwice(claimed, a, b);
    RenamedHolds(claimed, a, b);
    RenamedMeets(claimed, a, b);
    RenamedHolds(claimed, b, a);
    again := Swap(once.value.initialEntrants, eligible, a, b);
  }

  lemma RenamedMeets(placements: seq<Placement>, a: AthleteId, b: AthleteId)
    ensures RenamedPlacements(placements, a, b) == RenamedPlacements(placements, b, a)
  {
  }

  lemma PlacedIsEntry(placements: seq<Placement>, a: AthleteId)
    ensures PlaceOf(placements, a) < |placements| <==> Some(a) in Entries(placements)
  {
    var k := PlaceOf(placements, a);
    if k < |placements| {
      assert Entries(placements)[k] == Some(a);
    } else {
      forall j | 0 <= j < |placements| ensures Entries(placements)[j] != Some(a) {
        assert placements[j].athleteId != Some(a);
      }
    }
  }

  lemma EnteringRenamed(draw: Draw, a: AthleteId, b: AthleteId, r: nat, q: nat)
    requires r >= 1 && (r == 1 ==> q < |draw|) && (r == 2 ==> 2 * q + 1 < |draw|)
    ensures var before, after := Entering(draw, r, q), Entering(RenamedDraw(draw, a, b), r, q);
            && (after.Some? <==> before.Some?)
            && (after.Some? ==> SlotFor(Red, after.value) == RenamedSlot(SlotFor(Red, before.value), a, b))
            && (after.Some? ==> SlotFor(Blue, after.value) == RenamedSlot(SlotFor(Blue, before.value), a, b))
  {
  }

  function LastOf(draw: Draw, rounds: nat, r: nat, count: nat): seq<Fixture>
    requires |draw| == Pow2(rounds) && 1 <= r <= rounds && 0 < count <= Pow2(rounds - r)
  {
    if HasFixture(draw, rounds, r, count - 1) then [Unlinked(draw, rounds, r, count - 1)] else []
  }

  lemma RenamedAppend(fs: seq<Fixture>, gs: seq<Fixture>, a: AthleteId, b: AthleteId)
    ensures RenamedFixtures(fs + gs, a, b) == RenamedFixtures(fs, a, b) + RenamedFixtures(gs, a, b)
  {
  }

  lemma LastRenamed(draw: Draw, rounds: nat, a: AthleteId, b: AthleteId, r: nat, count: nat)
    requires |draw| == Pow2(rounds) && 1 <= r <= rounds && 0 < count <= Pow2(rounds - r)
    ensures LastOf(RenamedDraw(draw, a, b), rounds, r, count) == RenamedFixtures(LastOf(draw, rounds, r, count), a, b)
  {
    FeedersInRange(rounds, r, count - 1);
    EnteringRenamed(draw, a, b, r, 2 * (count - 1));
    EnteringRenamed(draw, a, b, r, 2 * (count - 1) + 1);
  }

  lemma {:induction false} RoundRenamed(draw: Draw, rounds: nat, a: AthleteId, b: AthleteId, r: nat, count: nat)
    requires |draw| == Pow2(rounds) && 1 <= r <= rounds && count <= Pow2(rounds - r)
    ensures RoundFixtures(RenamedDraw(draw, a, b), rounds, r, count) ==
            RenamedFixtures(RoundFixtures(draw, rounds, r, count), a, b)
  {
    if count > 0 {
      RoundRenamed(draw, rounds, a, b, r, count - 1);
      LastRenamed(draw, rounds, a, b, r, count);
      RenamedAppend(RoundFixtures(draw, rounds, r, count - 1), LastOf(draw, rounds, r, count), a, b);
    }
  }

  lemma {:induction false} FixturesRenamed(draw: Draw, rounds: nat, a: AthleteId, b: AthleteId, r: nat)
    requires |draw| == Pow2(rounds) && r <= rounds
    ensures FixturesThrough(RenamedDraw(draw, a, b), rounds, r) ==
            RenamedFixtures(FixturesThrough(draw, rounds, r), a, b)
  {
    if r > 0 {
      FixturesRenamed(draw, rounds, a, b, r - 1);
      RoundRenamed(draw, rounds, a, b, r, Pow2(rounds - r));
      RenamedAppend(FixturesThrough(draw, rounds, r - 1), RoundFixtures(draw, rounds, r, Pow2(rounds - r)), a, b);
    }
  }

  /**
   * The bracket of the exchanged draw is the old bracket with the two names traded in every slot:
   * ids, positions, sources of winners and downstream links are untouched.
   */
  lemma SwapRenamesBracket(draw: Draw, a: AthleteId, b: AthleteId)
    requires ValidDraw(draw)
    ensures ValidDraw(RenamedDraw(draw, a, b))
    ensures FixturesOf(RenamedDraw(draw, a, b)) == RenamedFixtures(FixturesOf(draw), a, b)
  {
    RenamingKeepsDraw(draw, a, b);
    FixturesRenamed(draw, Rounds(draw), a, b, Rounds(draw));
  }

  // ---------------------------------------------------------------- the shape depends on the byes alone

  function Blank(s: Slot): Slot {
    if s.source.Entrant? then s.(source := Entrant(""), resolvedEntrantId := Some("")) else s
  }

  /** A fixture with its direct entrants' names erased. */
  function Skeleton(f: Fixture): Fixture {
    f.(red := Blank(f.red), blue := Blank(f.blue))
  }

  function Skeletons(fs: seq<Fixture>): (skeletons: seq<Fixture>)
    ensures |skeletons| == |fs|
  {
    seq(|fs|, i requires 0 <= i < |fs| => Skeleton(fs[i]))
  }

  predicate SameByes(draw: Draw, other: Draw) {
    |draw| == |other| && forall k :: 0 <= k < |draw| ==> (draw[k].None? <==> other[k].None?)
  }

  lemma EnteringSameShape(draw: Draw, other: Draw, r: nat, q: nat)
    requires SameByes(draw, other)
    requires r >= 1 && (r == 1 ==> q < |draw|) && (r == 2 ==> 2 * q + 1 < |draw|)
    ensures var x, y := Entering(draw, r, q), Entering(other, r, q);
            && (x.Some? <==> y.Some?)
            && (x.Some? ==> Blank(SlotFor(Red, x.value)) == Blank(SlotFor(Red, y.value)))
            && (x.Some? ==> Blank(SlotFor(Blue, x.value)) == Blank(SlotFor(Blue, y.value)))
  {
  }

  lemma {:induction false} RoundSameShape(draw: Draw, other: Draw, rounds: nat, r: nat, count: nat)
    requires SameByes(draw, other)
    requires |draw| == Pow2(rounds) && 1 <= r <= rounds && count <= Pow2(rounds - r)
    ensures Skeletons(RoundFixtures(draw, rounds, r, count)) == Skeletons(RoundFixtures(other, rounds, r, count))
  {
    if count > 0 {
      RoundSameShape(draw, other, rounds, r, count - 1);
      FeedersInRange(rounds, r, count - 1);
      EnteringSameShape(draw, other, r, 2 * (count - 1));
      EnteringSameShape(draw, other, r, 2 * (count - 1) + 1);
      SkeletonsAppend(RoundFixtures(draw, rounds, r, count - 1), LastOf(draw, rounds, r, count));
      SkeletonsAppend(RoundFixtures(other, rounds, r, count - 1), LastOf(other, rounds, r, count));
    }
  }

  lemma SkeletonsAppend(fs: seq<Fixture>, gs: seq<Fixture>)
    ensures Skeletons(fs + gs) == Skeletons(fs) + Skeletons(gs)
  {
  }

  lemma {:induction false} FixturesSameShape(draw: Draw, other: Draw, rounds: nat, r: nat)
    requires SameByes(draw, other) && |draw| == Pow2(rounds) && r <= rounds
    ensures Skeletons(FixturesThrough(draw, rounds, r)) == Skeletons(FixturesThrough(other, rounds, r))
  {
    if r > 0 {
      FixturesSameShape(draw, other, rounds, r - 1);
      RoundSameShape(draw, other, rounds, r, Pow2(rounds - r));
      SkeletonsAppend(FixturesThrough(draw, rounds, r - 1), RoundFixtures(draw, rounds, r, Pow2(rounds - r)));
      SkeletonsAppend(FixturesThrough(other, rounds, r - 1), RoundFixtures(other, rounds, r, Pow2(rounds - r)));
    }
  }

  /** Two draws with byes in the same places have the same bracket up to the entrants' names. */
  lemma ByesFixTheShape(draw: Draw, other: Draw)
    requires ValidDraw(draw) && ValidDraw(other) && SameByes(draw, other)
    ensures Skeletons(FixturesOf(draw)) == Skeletons(FixturesOf(other))
  {
    var rounds := Rounds(draw);
    if Rounds(other) < rounds { Pow2Strict(Rounds(other), rounds); Pow2Positive(Rounds(other)); }
    if rounds < Rounds(other) { Pow2Strict(rounds, Rounds(other)); Pow2Positive(rounds); }
    FixturesSameShape(draw, other, rounds, rounds);
    var fs, gs := FixturesThrough(draw, rounds, rounds), FixturesThrough(other, rounds, rounds);
    assert |Skeletons(fs)| == |Skeletons(gs)|;
    forall i | 0 <= i < |fs| ensures Skeleton(Link(rounds, fs[i])) == Skeleton(Link(rounds, gs[i])) {
      assert Skeletons(fs)[i] == Skeletons(gs)[i];
    }
  }
}
