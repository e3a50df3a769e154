/** What every accepted draw's bracket looks like. */
module BracketShape {
  import opened Prelude
  import opened BracketSummary
  import opened BracketGraph

  function SlotOf(f: Fixture, side: Side): Slot {
    if side == Red then f.red else f.blue
  }

  // ---------------------------------------------------------------- athletes and places

  lemma {:induction false} AthletesArePlaced(draw: Draw)
    ensures forall a :: a in Athletes(draw) <==> exists k :: 0 <= k < |draw| && draw[k] == Some(a)
  {
    if draw != [] {
      var init := draw[..|draw| - 1];
      AthletesArePlaced(init);
      forall a ensures a in Athletes(draw) <==> exists k :: 0 <= k < |draw| && draw[k] == Some(a) {
        if a in Athletes(init) {
          var k :| 0 <= k < |init| && init[k] == Some(a);
          assert draw[k] == Some(a);
        }
        if exists k :: 0 <= k < |draw| && draw[k] == Some(a) {
          var k :| 0 <= k < |draw| && draw[k] == Some(a);
          assert k < |init| ==> init[k] == Some(a);
        }
      }
    }
  }

  lemma {:induction false} PlacesAreDistinct(draw: Draw, i: nat, j: nat)
    requires Distinct(Athletes(draw))
    requires i < j < |draw| && draw[i].Some?
    ensures draw[i] != draw[j]
  {
    var init := draw[..|draw| - 1];
    var athletes := Athletes(draw);
    forall x, y | 0 <= x < y < |Athletes(init)| ensures Athletes(init)[x] != Athletes(init)[y] {
      assert athletes[x] == Athletes(init)[x] && athletes[y] == Athletes(init)[y];
    }
    if j < |init| {
      PlacesAreDistinct(init, i, j);
    } else if draw[j].Some? {
      AthletesArePlaced(init);
      assert init[i] == draw[i];
      var x :| 0 <= x < |Athletes(init)| && Athletes(init)[x] == draw[i].value;
      assert athletes[x] != athletes[|athletes| - 1];
    }
  }

  // ---------------------------------------------------------------- how many fixtures

  /** Each of the first p pairs holds one athlete, plus one more if the pair meets. */
  lemma {:induction false} OpeningFixtures(draw: Draw, rounds: nat, p: nat)
    requires rounds >= 1 && |draw| == Pow2(rounds) && NoDoubleBye(draw)
    requires p <= Pow2(rounds - 1)
    ensures 2 * p <= |draw|
    ensures |Athletes(draw[..2 * p])| == p + |RoundFixtures(draw, rounds, 1, p)|
  {
    assert |draw| == 2 * Pow2(rounds - 1);
    if p > 0 {
      OpeningFixtures(draw, rounds, p - 1);
      var pairs, odd, prior := draw[..2 * p], draw[..2 * p - 1], draw[..2 * p - 2];
      assert pairs[..|pairs| - 1] == odd && odd[..|odd| - 1] == prior;
      assert InRound(rounds, 1, p - 1);
      PairOutcome(draw, rounds, 1, p - 1);
      assert draw[2 * (p - 1)].Some? || draw[2 * (p - 1) + 1].Some?;
    }
  }

  lemma {:induction false} LaterRoundIsFull(draw: Draw, rounds: nat, r: nat, count: nat)
    requires |draw| == Pow2(rounds) && NoDoubleBye(draw) && 2 <= r <= rounds && count <= Pow2(rounds - r)
    ensures |RoundFixtures(draw, rounds, r, count)| == count
  {
    if count > 0 {
      LaterRoundIsFull(draw, rounds, r, count - 1);
      FeedersInRange(rounds, r, count - 1);
      LaterBranchesOccupied(draw, rounds, r, 2 * (count - 1));
      LaterBranchesOccupied(draw, rounds, r, 2 * (count - 1) + 1);
    }
  }

  lemma {:induction false} FixturesThroughCount(draw: Draw, rounds: nat, r: nat)
    requires |draw| == Pow2(rounds) && NoDoubleBye(draw) && 1 <= r <= rounds
    ensures |FixturesThrough(draw, rounds, r)| + Pow2(rounds - r)
         == |RoundFixtures(draw, rounds, 1, Pow2(rounds - 1))| + Pow2(rounds - 1)
  {
    if r == 1 {
      assert FixturesThrough(draw, rounds, 0) == [];
    } else {
      FixturesThroughCount(draw, rounds, r - 1);
      var width := Pow2(rounds - r);
      LaterRoundIsFull(draw, rounds, r, width);
      assert Pow2(rounds - (r - 1)) == 2 * width;
      assert FixturesThrough(draw, rounds, r) ==
             FixturesThrough(draw, rounds, r - 1) + RoundFixtures(draw, rounds, r, width);
    }
  }

  /** n athletes need n - 1 fixtures, n - size/2 of them in round 1. */
  lemma FixtureCounts(draw: Draw)
    requires ValidDraw(draw)
    ensures var n, rounds := |Athletes(draw)|, Rounds(draw);
            && rounds >= 1
            && |FixturesOf(draw)| == n - 1 == SummaryOf(n).totalFixtureCount
            && |RoundFixtures(draw, rounds, 1, Pow2(rounds - 1))| == n - |draw| / 2
                 == SummaryOf(n).firstRoundFixtureCount
  {
    var n, rounds := |Athletes(draw)|, Rounds(draw);
    SummaryFits(n);
    OpeningFixtures(draw, rounds, Pow2(rounds - 1));
    assert draw[..|draw|] == draw;
    FixturesThroughCount(draw, rounds, rounds);
  }

  // ---------------------------------------------------------------- where each entrant starts

  ghost predicate Fills(fixtures: seq<Fixture>, a: AthleteId, i: nat, side: Side) {
    i < |fixtures| && SlotOf(fixtures[i], side).source == Entrant(a)
  }

  /** The branch on which place k of the draw first meets someone: its pair, or the pair above after a bye. */
  function OpeningRound(draw: Draw, k: nat): nat
    requires k < |draw| && |draw| % 2 == 0
  {
    if draw[if k % 2 == 0 then k + 1 else k - 1].None? then 2 else 1
  }

  /** The branch a slot takes its competitor from, counted from 0 within its round. */
  function SlotIndex(f: Fixture, side: Side): int {
    2 * (f.position - 1) + (if side == Red then 0 else 1)
  }

  /** Whoever stands first, or second, in pair q enters the branch above it exactly when the partner is a bye. */
  lemma {:induction false} PairBranch(draw: Draw, q: nat)
    requires Distinct(Athletes(draw)) && 2 * q + 1 < |draw|
    ensures draw[2 * q].Some? ==>
              (Entering(draw, 2, q) == Some(Entrant(draw[2 * q].value)) <==> draw[2 * q + 1].None?)
    ensures draw[2 * q + 1].Some? ==>
              (Entering(draw, 2, q) == Some(Entrant(draw[2 * q + 1].value)) <==> draw[2 * q].None?)
  {
    if draw[2 * q].Some? { PlaceDiffers(draw, 2 * q + 1, 2 * q); }
  }

  lemma {:induction false} OtherBranch(draw: Draw, q: nat, k: nat)
    requires Distinct(Athletes(draw)) && 2 * q + 1 < |draw| && k < |draw| && draw[k].Some? && k != 2 * q
    requires k != 2 * q + 1
    ensures Entering(draw, 2, q) != Some(Entrant(draw[k].value))
  {
    PlaceDiffers(draw, 2 * q, k);
    PlaceDiffers(draw, 2 * q + 1, k);
  }

  lemma {:induction false} OpeningOf(draw: Draw, q: nat)
    requires 2 * q + 1 < |draw| && |draw| % 2 == 0
    ensures OpeningRound(draw, 2 * q) == (if draw[2 * q + 1].None? then 2 else 1)
    ensures OpeningRound(draw, 2 * q + 1) == (if draw[2 * q].None? then 2 else 1)
  {
    Halved(2 * q, q);
    Halved(2 * q + 1, q);
  }

  /** An athlete enters a branch of round 2 directly exactly when the branch is its pair's and its partner is a bye. */
  lemma {:induction false} ByeBranch(draw: Draw, q: nat, k: nat)
    requires Distinct(Athletes(draw)) && |draw| % 2 == 0
    requires k < |draw| && draw[k].Some? && 2 * q + 1 < |draw|
    ensures Entering(draw, 2, q) == Some(Entrant(draw[k].value)) <==> q == k / 2 && OpeningRound(draw, k) == 2
  {
    Halved(k, q);
    if k == 2 * q || k == 2 * q + 1 {
      PairBranch(draw, q);
      OpeningOf(draw, q);
    } else {
      OtherBranch(draw, q, k);
    }
  }

  lemma Halved(k: nat, q: nat)
    ensures k / 2 == q <==> k == 2 * q || k == 2 * q + 1
    ensures k == 2 * q ==> k % 2 == 0
    ensures k == 2 * q + 1 ==> k % 2 == 1
  {}

  /** Which branches an athlete enters directly: its own place in round 1, or its pair's after a bye. */
  lemma EntrantBranch(draw: Draw, r: nat, q: nat, k: nat)
    requires Distinct(Athletes(draw)) && |draw| % 2 == 0
    requires k < |draw| && draw[k].Some?
    requires 1 <= r && (r == 1 ==> q < |draw|) && (r == 2 ==> 2 * q + 1 < |draw|)
    ensures Entering(draw, r, q) == Some(Entrant(draw[k].value)) <==>
              (r == 1 && q == k) || (r == 2 && q == k / 2 && OpeningRound(draw, k) == 2)
  {
    if r == 1 && q != k { PlaceDiffers(draw, q, k); }
    if r == 2 { ByeBranch(draw, q, k); }
  }

  lemma PlaceDiffers(draw: Draw, j: nat, k: nat)
    requires Distinct(Athletes(draw)) && j < |draw| && k < |draw| && j != k && draw[k].Some?
    ensures draw[j] != draw[k]
  {
    if j > k { PlacesAreDistinct(draw, k, j); } else if draw[j].Some? { PlacesAreDistinct(draw, j, k); }
  }

  /** A slot takes what enters its branch. */
  lemma SlotEnters(draw: Draw, rounds: nat, f: Fixture, side: Side)
    requires |draw| == Pow2(rounds) && Described(draw, rounds, f)
    ensures var r, q := f.roundNumber, SlotIndex(f, side);
            && 1 <= r <= rounds && 0 <= q < Pow2(rounds - r + 1)
            && (r == 1 ==> q < |draw|) && (r == 2 ==> 2 * q + 1 < |draw|)
            && Entering(draw, r, q) == Some(SlotOf(f, side).source)
    ensures f.roundNumber == 1 ==> 2 * f.position - 1 < |draw| && draw[2 * f.position - 2].Some?
                                   && draw[2 * f.position - 1].Some?
  {
    FeedersInRange(rounds, f.roundNumber, f.position - 1);
  }

  /** Slots fed by an entrant sit exactly where the entrant's place and its partner's say. */
  lemma EntrantSlotPlace(draw: Draw, rounds: nat, f: Fixture, side: Side, k: nat)
    requires |draw| == Pow2(rounds) && Distinct(Athletes(draw)) && Described(draw, rounds, f)
    requires k < |draw| && draw[k].Some? && |draw| % 2 == 0
    ensures SlotOf(f, side).source == Entrant(draw[k].value) <==>
              (f.roundNumber == OpeningRound(draw, k) && SlotIndex(f, side) == k / f.roundNumber)
  {
    SlotEnters(draw, rounds, f, side);
    EntrantBranch(draw, f.roundNumber, SlotIndex(f, side), k);
  }

  /** Every athlete of the draw fills one slot of the bracket, and only one. */
  lemma EachEntrantFillsOneSlot(draw: Draw, k: nat) returns (i: nat, side: Side)
    requires ValidDraw(draw) && k < |draw| && draw[k].Some?
    ensures |draw| % 2 == 0
    ensures Fills(FixturesOf(draw), draw[k].value, i, side)
    ensures FixturesOf(draw)[i].roundNumber == OpeningRound(draw, k)
    ensures SlotIndex(FixturesOf(draw)[i], side) == k / OpeningRound(draw, k)
    ensures forall j: nat, other: Side :: Fills(FixturesOf(draw), draw[k].value, j, other) ==> j == i && other == side
  {
    var rounds := Rounds(draw);
    SummaryFits(|Athletes(draw)|);
    var fs := FixturesThrough(draw, rounds, rounds);
    FixturesShape(draw, rounds, rounds);
    OpeningPairMeets(draw, k);
    var q := k / OpeningRound(draw, k);
    i := FindFixture(draw, rounds, rounds, OpeningRound(draw, k), q / 2);
    side := if q % 2 == 0 then Red else Blue;
    EntrantSlotPlace(draw, rounds, fs[i], side, k);
    OnlyOneSlot(draw, k, i, side);
  }

  lemma OnlyOneSlot(draw: Draw, k: nat, i: nat, side: Side)
    requires ValidDraw(draw) && k < |draw| && draw[k].Some? && |draw| % 2 == 0
    requires Fills(FixturesOf(draw), draw[k].value, i, side)
    ensures forall j: nat, other: Side :: Fills(FixturesOf(draw), draw[k].value, j, other) ==> j == i && other == side
  {
    var rounds := Rounds(draw);
    var fs := FixturesThrough(draw, rounds, rounds);
    FixturesShape(draw, rounds, rounds);
    EntrantSlotPlace(draw, rounds, fs[i], side, k);
    forall j: nat, other: Side | Fills(FixturesOf(draw), draw[k].value, j, other) ensures j == i && other == side {
      EntrantSlotPlace(draw, rounds, fs[j], other, k);
      assert !Earlier(fs[i], fs[j]) && !Earlier(fs[j], fs[i]);
    }
  }

  lemma OpeningPairMeets(draw: Draw, k: nat)
    requires ValidDraw(draw) && k < |draw| && draw[k].Some? && |draw| % 2 == 0
    ensures var r := OpeningRound(draw, k);
            var p := k / r / 2;
            InRound(Rounds(draw), r, p) && HasFixture(draw, Rounds(draw), r, p)
  {
    var rounds, n := Rounds(draw), |Athletes(draw)|;
    SummaryFits(n);
    assert |draw| == 2 * Pow2(rounds - 1);
    if OpeningRound(draw, k) == 1 {
      PairOutcome(draw, rounds, 1, k / 2);
    } else {
      ByeNeedsTwoRounds(draw, k);
      assert Pow2(rounds - 1) == 2 * Pow2(rounds - 2);
      assert InRound(rounds, 2, k / 4);
      PairOutcome(draw, rounds, 2, k / 4);
    }
  }

  lemma ByeNeedsTwoRounds(draw: Draw, k: nat)
    requires ValidDraw(draw) && k < |draw| && draw[k].Some? && |draw| % 2 == 0 && OpeningRound(draw, k) == 2
    ensures Rounds(draw) >= 2
  {
    SummaryFits(|Athletes(draw)|);
    if Rounds(draw) == 1 {
      assert Pow2(1) == 2 * Pow2(0) == 2;
      OneBoutOneBye(draw, k);
    }
  }

  lemma OneBoutOneBye(draw: Draw, k: nat)
    requires |draw| == 2 && k < 2 && draw[1 - k].None?
    ensures |Athletes(draw)| <= 1
  {
    assert draw[..1][..0] == [];
    assert Athletes(draw[..1][..0]) == [];
    assert draw[..2] == draw;
  }

  // ---------------------------------------------------------------- where each winner goes

  /**
   * Fixture (r, p) feeds fixture (r + 1, ceil(p / 2)), on the red side iff p is odd; one fixture,
   * the only one of the last round, feeds nothing. Sources come before the fixtures they feed.
   */
  lemma WinnersGoUp(draw: Draw)
    requires ValidDraw(draw)
    ensures var fs, rounds := FixturesOf(draw), Rounds(draw);
            && UniqueIds(fs) && InOrder(fs)
            && (forall i :: 0 <= i < |fs| ==>
                  fs[i].id == FixtureId(fs[i].roundNumber, fs[i].position) && 1 <= fs[i].roundNumber <= rounds)
            && (forall i :: 0 <= i < |fs| ==> (fs[i].downstream.None? <==> fs[i].roundNumber == rounds))
            && (forall i :: 0 <= i < |fs| ==> (fs[i].roundNumber == rounds <==> i == |fs| - 1))
            && (forall i :: 0 <= i < |fs| - 1 ==>
                  fs[i].downstream == Some(Downstream(
                    FixtureId(fs[i].roundNumber + 1, (fs[i].position + 1) / 2),
                    if fs[i].position % 2 == 1 then Red else Blue)))
  {
    FixturesShape(draw, Rounds(draw), Rounds(draw));
    OnlyTheLastIsFinal(draw);
    var fs := FixturesThrough(draw, Rounds(draw), Rounds(draw));
    forall i | 0 <= i < |fs| - 1
      ensures Link(Rounds(draw), fs[i]).downstream == Some(Downstream(
                FixtureId(fs[i].roundNumber + 1, (fs[i].position + 1) / 2),
                if fs[i].position % 2 == 1 then Red else Blue))
    {
      assert fs[i].roundNumber < Rounds(draw);
    }
  }

  lemma OnlyTheLastIsFinal(draw: Draw)
    requires ValidDraw(draw)
    ensures var fs, rounds := FixturesThrough(draw, Rounds(draw), Rounds(draw)), Rounds(draw);
            forall i :: 0 <= i < |fs| ==> (fs[i].roundNumber == rounds <==> i == |fs| - 1)
  {
    var rounds := Rounds(draw);
    FinalMeets(draw);
    FixturesShape(draw, rounds, rounds - 1);
    RoundFixturesShape(draw, rounds, rounds, 1);
  }

  /** The last round holds exactly one fixture. */
  lemma FinalMeets(draw: Draw)
    requires ValidDraw(draw)
    ensures Rounds(draw) >= 1 && Pow2(0) == 1
    ensures |RoundFixtures(draw, Rounds(draw), Rounds(draw), 1)| == 1
  {
    var rounds := Rounds(draw);
    SummaryFits(|Athletes(draw)|);
    FixtureCounts(draw);
    if rounds >= 2 { LaterRoundIsFull(draw, rounds, rounds, 1); }
  }

  /** The two ends of a link agree: f waits on a side for g iff g names f and that side as its downstream slot. */
  lemma LinksAgree(draw: Draw, i: nat, j: nat, side: Side)
    requires ValidDraw(draw) && i < |FixturesOf(draw)| && j < |FixturesOf(draw)|
    ensures var f, g := FixturesOf(draw)[i], FixturesOf(draw)[j];
            SlotOf(f, side).source == FixtureWinner(g.id) <==> g.downstream == Some(Downstream(f.id, side))
  {
    var rounds := Rounds(draw);
    FixturesShape(draw, rounds, rounds);
    DescribedLinksAgree(draw, rounds, FixturesThrough(draw, rounds, rounds)[i],
                        FixturesThrough(draw, rounds, rounds)[j], side);
  }

  lemma DescribedWaits(draw: Draw, rounds: nat, f: Fixture, g: Fixture, side: Side)
    requires |draw| == Pow2(rounds) && NoDoubleBye(draw) && Described(draw, rounds, f) && Described(draw, rounds, g)
    requires SlotOf(f, side).source == FixtureWinner(g.id)
    ensures Link(rounds, g).downstream == Some(Downstream(f.id, side))
  {
    SlotEnters(draw, rounds, f, side);
    ReferencesGoUp(draw, rounds, f, g.roundNumber, g.position - 1);
  }

  lemma DescribedFeeds(draw: Draw, rounds: nat, f: Fixture, g: Fixture, side: Side)
    requires |draw| == Pow2(rounds) && NoDoubleBye(draw) && Described(draw, rounds, f) && Described(draw, rounds, g)
    requires Link(rounds, g).downstream == Some(Downstream(f.id, side))
    ensures SlotOf(f, side).source == FixtureWinner(g.id)
  {
    var r, p := g.roundNumber, g.position - 1;
    ParentWaits(draw, rounds, r, p);
    assert f == Unlinked(draw, rounds, r + 1, p / 2);
    ReferencesGoUp(draw, rounds, f, r, p);
  }

  lemma DescribedLinksAgree(draw: Draw, rounds: nat, f: Fixture, g: Fixture, side: Side)
    requires |draw| == Pow2(rounds) && NoDoubleBye(draw) && Described(draw, rounds, f) && Described(draw, rounds, g)
    ensures SlotOf(f, side).source == FixtureWinner(g.id) <==>
            Link(rounds, g).downstream == Some(Downstream(f.id, side))
  {
    if SlotOf(f, side).source == FixtureWinner(g.id) {
      DescribedWaits(draw, rounds, f, g, side);
    } else if Link(rounds, g).downstream == Some(Downstream(f.id, side)) {
      DescribedFeeds(draw, rounds, f, g, side);
    }
  }
}
