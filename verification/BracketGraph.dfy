/** Building the fixture tree of a single-elimination draw, bottom-up. */
module BracketGraph {
  import opened Prelude
  import opened BracketSummary

  type AthleteId = string

  datatype Side = Red | Blue
  datatype Placement = Placement(drawPosition: int, athleteId: Option<AthleteId>)
  /** Rendered by the source as r<round>-m<position>. */
  datatype FixtureId = FixtureId(roundNumber: nat, position: nat)
  /** What advances along a branch, and therefore what feeds a slot. */
  datatype Source = Entrant(entrantId: AthleteId) | FixtureWinner(fixtureId: FixtureId)
  datatype Slot = Slot(side: Side, source: Source, resolvedEntrantId: Option<AthleteId>)
  datatype Downstream = Downstream(fixtureId: FixtureId, side: Side)
  datatype Fixture = Fixture(
    id: FixtureId, roundNumber: nat, position: nat,
    red: Slot, blue: Slot, downstream: Option<Downstream>)
  datatype Bracket = Bracket(summary: Summary, initialEntrants: seq<Placement>, fixtures: seq<Fixture>)

  datatype GraphError =
    | InvalidPlacements | TooManyAthletesForBracket | InvalidSize | IncompletePair | DoubleBye | MissingSource

  /** The draw as the sequence of who stands where; None is a bye. */
  type Draw = seq<Option<AthleteId>>

  function Entries(placements: seq<Placement>): (draw: Draw)
    ensures |draw| == |placements|
  {
    seq(|placements|, i requires 0 <= i < |placements| => placements[i].athleteId)
  }

  function Athletes(draw: Draw): seq<AthleteId> {
    if draw == [] then []
    else
      var last := draw[|draw| - 1];
      Athletes(draw[..|draw| - 1]) + (if last.Some? then [last.value] else [])
  }

  function Elements<T>(s: seq<T>): set<T> {
    set x | x in s
  }

  /** The source compares the size of a Set with the length of the list. */
  lemma {:induction false} SetSizeTellsDistinct<T>(s: seq<T>)
    ensures |Elements(s)| <= |s|
    ensures |Elements(s)| == |s| <==> Distinct(s)
  {
    if s != [] {
      var init, last := s[..|s| - 1], s[|s| - 1];
      SetSizeTellsDistinct(init);
      assert s == init + [last];
      assert Elements(s) == Elements(init) + {last};
      if last in init {
        assert Elements(s) == Elements(init);
        var k :| 0 <= k < |init| && init[k] == last;
        assert s[k] == s[|s| - 1];
      } else {
        assert last !in Elements(init);
        assert |Elements(s)| == |Elements(init)| + 1;
        if Distinct(init) {
          forall i, j | 0 <= i < j < |s| ensures s[i] != s[j] {
            assert j < |init| ==> s[i] == init[i] && s[j] == init[j];
            assert j == |init| ==> s[i] == init[i] && s[i] in init;
          }
        } else {
          var i, j :| 0 <= i < j < |init| && init[i] == init[j];
          assert s[i] == s[j];
        }
      }
    }
  }

  // ---------------------------------------------------------------- power-of-two test

  /** Bitwise "and" of two naturals, digit by digit. */
  function BitAnd(a: nat, b: nat): nat {
    if a == 0 || b == 0 then 0
    else 2 * BitAnd(a / 2, b / 2) + (if a % 2 == 1 && b % 2 == 1 then 1 else 0)
  }

  lemma {:induction false} BitAndSelf(a: nat)
    ensures BitAnd(a, a) == a
  {
    if a > 0 { BitAndSelf(a / 2); }
  }

  /** n & (n - 1) vanishes exactly on the powers of two. */
  lemma {:induction false} BitTestIsPowerOfTwo(n: nat)
    requires n >= 1
    ensures BitAnd(n, n - 1) == 0 <==> exists k: nat :: n == Pow2(k)
  {
    if n == 1 {
      assert n == Pow2(0);
    } else if n % 2 == 1 {
      BitAndSelf(n / 2);
      assert (n - 1) / 2 == n / 2;
      forall k: nat ensures n != Pow2(k) { assert k > 0 ==> Pow2(k) == 2 * Pow2(k - 1); }
    } else {
      BitTestIsPowerOfTwo(n / 2);
      assert (n - 1) / 2 == n / 2 - 1;
      if BitAnd(n / 2, n / 2 - 1) == 0 {
        var k: nat :| n / 2 == Pow2(k);
        assert n == Pow2(k + 1);
      } else {
        forall k: nat ensures n != Pow2(k) {
          assert k == 0 || (n / 2 != Pow2(k - 1) && Pow2(k) == 2 * Pow2(k - 1));
        }
      }
    }
  }

  // ---------------------------------------------------------------- what a draw means

  function Rounds(draw: Draw): nat { Exponent(|Athletes(draw)|) }

  predicate NoDoubleBye(draw: Draw) {
    forall p :: 0 <= p < |draw| / 2 ==> draw[2 * p].Some? || draw[2 * p + 1].Some?
  }

  /** At least two distinct athletes on the smallest board that holds them, no empty pair. */
  ghost predicate ValidDraw(draw: Draw) {
    && |Athletes(draw)| >= 2
    && Distinct(Athletes(draw))
    && |draw| == Pow2(Rounds(draw))
    && NoDoubleBye(draw)
  }

  predicate PositionsInOrder(placements: seq<Placement>) {
    forall i :: 0 <= i < |placements| ==> placements[i].drawPosition == i + 1
  }

  ghost predicate Accepted(placements: seq<Placement>) {
    && PositionsInOrder(placements)
    && ValidDraw(Entries(placements))
    && |Athletes(Entries(placements))| <= MAX_BRACKET_ATHLETES
  }

  /** Who enters round r on branch q (both counted from the top of the draw; q from 0). */
  function Entering(draw: Draw, r: nat, q: nat): Option<Source>
    requires r >= 1
    requires r == 1 ==> q < |draw|
    requires r == 2 ==> 2 * q + 1 < |draw|
  {
    if r == 1 then
      if draw[q].Some? then Some(Entrant(draw[q].value)) else None
    else if r == 2 && draw[2 * q].None? then
      if draw[2 * q + 1].Some? then Some(Entrant(draw[2 * q + 1].value)) else None
    else if r == 2 && draw[2 * q + 1].None? then Some(Entrant(draw[2 * q].value))
    else Some(FixtureWinner(FixtureId(r - 1, q + 1)))
  }

  function SlotFor(side: Side, source: Source): Slot {
    Slot(side, source, if source.Entrant? then Some(source.entrantId) else None)
  }

  predicate InRound(rounds: nat, r: nat, p: nat) {
    1 <= r <= rounds && p < Pow2(rounds - r)
  }

  /** Branch bounds: the two feeders of (r, p) exist on a board of 2^rounds places. */
  lemma FeedersInRange(rounds: nat, r: nat, p: nat)
    requires InRound(rounds, r, p)
    ensures 2 * p + 1 < Pow2(rounds - r + 1)
    ensures r == 1 ==> 2 * p + 1 < Pow2(rounds)
    ensures r == 2 ==> 4 * p + 3 < Pow2(rounds)
    ensures r < rounds ==> InRound(rounds, r + 1, p / 2)
  {
    assert Pow2(rounds - r + 1) == 2 * Pow2(rounds - r);
    if r == 2 { assert Pow2(rounds) == 2 * Pow2(rounds - 1); }
    if r < rounds { assert Pow2(rounds - r) == 2 * Pow2(rounds - r - 1); }
  }

  /** A pair meets in round r iff both of its branches are occupied. */
  function HasFixture(draw: Draw, rounds: nat, r: nat, p: nat): bool
    requires |draw| == Pow2(rounds) && InRound(rounds, r, p)
  {
    FeedersInRange(rounds, r, p);
    Entering(draw, r, 2 * p).Some? && Entering(draw, r, 2 * p + 1).Some?
  }

  function Unlinked(draw: Draw, rounds: nat, r: nat, p: nat): Fixture
    requires |draw| == Pow2(rounds) && InRound(rounds, r, p) && HasFixture(draw, rounds, r, p)
  {
    FeedersInRange(rounds, r, p);
    Fixture(FixtureId(r, p + 1), r, p + 1,
            SlotFor(Red, Entering(draw, r, 2 * p).value),
            SlotFor(Blue, Entering(draw, r, 2 * p + 1).value),
            None)
  }

  function DownstreamOf(rounds: nat, r: nat, p: nat): Option<Downstream> {
    if r < rounds
    then Some(Downstream(FixtureId(r + 1, p / 2 + 1), if p % 2 == 0 then Red else Blue))
    else None
  }

  /** The fixtures of round r among its first `count` pairs, in draw order. */
  function RoundFixtures(draw: Draw, rounds: nat, r: nat, count: nat): seq<Fixture>
    requires |draw| == Pow2(rounds) && 1 <= r <= rounds && count <= Pow2(rounds - r)
  {
    if count == 0 then []
    else RoundFixtures(draw, rounds, r, count - 1) +
         (if HasFixture(draw, rounds, r, count - 1) then [Unlinked(draw, rounds, r, count - 1)] else [])
  }

  /** All fixtures of rounds 1..r, round by round. */
  function FixturesThrough(draw: Draw, rounds: nat, r: nat): seq<Fixture>
    requires |draw| == Pow2(rounds) && r <= rounds
  {
    if r == 0 then []
    else FixturesThrough(draw, rounds, r - 1) + RoundFixtures(draw, rounds, r, Pow2(rounds - r))
  }

  function Link(rounds: nat, f: Fixture): Fixture {
    f.(downstream := if f.position > 0 then DownstreamOf(rounds, f.roundNumber, f.position - 1) else None)
  }

  function LinkAll(rounds: nat, fixtures: seq<Fixture>): (linked: seq<Fixture>)
    ensures |linked| == |fixtures|
  {
    seq(|fixtures|, i requires 0 <= i < |fixtures| => Link(rounds, fixtures[i]))
  }

  /** The whole bracket a draw stands for, read off the draw without building it. */
  ghost function FixturesOf(draw: Draw): seq<Fixture>
    requires ValidDraw(draw)
  {
    LinkAll(Rounds(draw), FixturesThrough(draw, Rounds(draw), Rounds(draw)))
  }

  ghost function BracketOf(placements: seq<Placement>): Bracket
    requires ValidDraw(Entries(placements))
  {
    Bracket(SummaryOf(|Athletes(Entries(placements))|), placements, FixturesOf(Entries(placements)))
  }

  /** In a draw without double byes every branch of round 2 and later is occupied. */
  lemma LaterBranchesOccupied(draw: Draw, rounds: nat, r: nat, q: nat)
    requires |draw| == Pow2(rounds) && NoDoubleBye(draw)
    requires 2 <= r <= rounds + 1 && q < Pow2(rounds - r + 1)
    ensures r == 2 ==> 2 * q + 1 < |draw|
    ensures Entering(draw, r, q).Some?
  {
    if r == 2 { assert Pow2(rounds) == 2 * Pow2(rounds - 1); }
  }

  // ---------------------------------------------------------------- linking

  predicate UniqueIds(fixtures: seq<Fixture>) {
    forall i, j :: 0 <= i < j < |fixtures| ==> fixtures[i].id != fixtures[j].id
  }

  function ReferenceIn(f: Fixture, id: FixtureId): Option<Downstream> {
    if f.blue.source == FixtureWinner(id) then Some(Downstream(f.id, f.blue.side))
    else if f.red.source == FixtureWinner(id) then Some(Downstream(f.id, f.red.side))
    else None
  }

  /** The last slot among the first n fixtures that waits for the winner of `id`. */
  function LastReference(fixtures: seq<Fixture>, n: nat, id: FixtureId): Option<Downstream>
    requires n <= |fixtures|
  {
    if n == 0 then None
    else if ReferenceIn(fixtures[n - 1], id).Some? then ReferenceIn(fixtures[n - 1], id)
    else LastReference(fixtures, n - 1, id)
  }

  predicate Resolves(fixtures: seq<Fixture>, source: Source) {
    source.FixtureWinner? ==> exists k :: 0 <= k < |fixtures| && fixtures[k].id == source.fixtureId
  }

  /** The fixtures once the first n of them have told their sources where to send the winner. */
  function LinkedThrough(fixtures: seq<Fixture>, n: nat): (linked: seq<Fixture>)
    requires n <= |fixtures|
    ensures |linked| == |fixtures|
  {
    seq(|fixtures|, i requires 0 <= i < |fixtures| =>
      var d := LastReference(fixtures, n, fixtures[i].id);
      if d.Some? then fixtures[i].(downstream := d) else fixtures[i])
  }

  method LinkSlot(fixtures: seq<Fixture>, byId: map<FixtureId, nat>, linked: seq<Fixture>, fixture: Fixture, slot: Slot)
    returns (r: Result<seq<Fixture>, GraphError>)
    requires UniqueIds(fixtures) && |linked| == |fixtures|
    requires forall i :: 0 <= i < |fixtures| ==> fixtures[i].id in byId
    requires forall id <- byId :: byId[id] < |fixtures| && fixtures[byId[id]].id == id
    ensures r.Failure? ==> r.error == MissingSource
    ensures r.Success? <==> Resolves(fixtures, slot.source)
    ensures r.Success? ==> |r.value| == |fixtures| && forall i :: 0 <= i < |fixtures| ==>
              r.value[i] == if slot.source == FixtureWinner(fixtures[i].id)
                            then linked[i].(downstream := Some(Downstream(fixture.id, slot.side)))
                            else linked[i]
  {
    if !slot.source.FixtureWinner? { return Success(linked); }
    if slot.source.fixtureId !in byId { return Failure(MissingSource); }
    var upstream := byId[slot.source.fixtureId];
    assert fixtures[upstream].id == slot.source.fixtureId;
    r := Success(linked[upstream := linked[upstream].(downstream := Some(Downstream(fixture.id, slot.side)))]);
  }

  /** Where each fixture stands. */
  function ById(fixtures: seq<Fixture>): (byId: map<FixtureId, nat>)
    requires UniqueIds(fixtures)
    ensures forall i :: 0 <= i < |fixtures| ==> fixtures[i].id in byId
    ensures forall id <- byId :: byId[id] < |fixtures| && fixtures[byId[id]].id == id
  {
    map i: nat | i < |fixtures| :: fixtures[i].id := i
  }

  predicate BothResolve(fixtures: seq<Fixture>, f: Fixture) {
    Resolves(fixtures, f.red.source) && Resolves(fixtures, f.blue.source)
  }

  /** Fixture n tells the sources of its two slots. */
  method LinkFixture(fixtures: seq<Fixture>, byId: map<FixtureId, nat>, linked: seq<Fixture>, n: nat)
    returns (r: Result<seq<Fixture>, GraphError>)
    requires UniqueIds(fixtures) && n < |fixtures| && linked == LinkedThrough(fixtures, n)
    requires forall i :: 0 <= i < |fixtures| ==> fixtures[i].id in byId
    requires forall id <- byId :: byId[id] < |fixtures| && fixtures[byId[id]].id == id
    ensures r.Failure? ==> r.error == MissingSource
    ensures r.Success? <==> BothResolve(fixtures, fixtures[n])
    ensures r.Success? ==> r.value == LinkedThrough(fixtures, n + 1)
  {
    var fixture := fixtures[n];
    var afterRed := LinkSlot(fixtures, byId, linked, fixture, fixture.red);
    if afterRed.Failure? { return Failure(MissingSource); }
    r := LinkSlot(fixtures, byId, afterRed.value, fixture, fixture.blue);
    if r.Success? { assert r.value == LinkedThrough(fixtures, n + 1); }
  }

  method LinkDownstreamFixtures(fixtures: seq<Fixture>) returns (r: Result<seq<Fixture>, GraphError>)
    requires UniqueIds(fixtures)
    ensures r.Failure? ==> r.error == MissingSource
    ensures r.Success? <==> forall i :: 0 <= i < |fixtures| ==> BothResolve(fixtures, fixtures[i])
    ensures r.Success? ==> r.value == LinkedThrough(fixtures, |fixtures|)
  {
    var byId := ById(fixtures);
    var linked := fixtures;
    assert linked == LinkedThrough(fixtures, 0);
    for n := 0 to |fixtures|
      invariant forall i :: 0 <= i < n ==> BothResolve(fixtures, fixtures[i])
      invariant linked == LinkedThrough(fixtures, n)
    {
      var next := LinkFixture(fixtures, byId, linked, n);
      if next.Failure? { return Failure(MissingSource); }
      linked := next.value;
    }
    r := Success(linked);
  }

  // ---------------------------------------------------------------- shape of the fixture list

  /** Every listed fixture is the one its round and position call for. */
  ghost predicate Described(draw: Draw, rounds: nat, f: Fixture)
    requires |draw| == Pow2(rounds)
  {
    && f.position >= 1
    && InRound(rounds, f.roundNumber, f.position - 1)
    && HasFixture(draw, rounds, f.roundNumber, f.position - 1)
    && f == Unlinked(draw, rounds, f.roundNumber, f.position - 1)
  }

  predicate Earlier(f: Fixture, g: Fixture) {
    f.roundNumber < g.roundNumber || (f.roundNumber == g.roundNumber && f.position < g.position)
  }

  ghost predicate InOrder(fixtures: seq<Fixture>) {
    forall i, j :: 0 <= i < j < |fixtures| ==> Earlier(fixtures[i], fixtures[j])
  }

  lemma {:induction false} RoundFixturesShape(draw: Draw, rounds: nat, r: nat, count: nat)
    requires |draw| == Pow2(rounds) && 1 <= r <= rounds && count <= Pow2(rounds - r)
    ensures var fs := RoundFixtures(draw, rounds, r, count);
            && InOrder(fs)
            && forall i :: 0 <= i < |fs| ==>
                 Described(draw, rounds, fs[i]) && fs[i].roundNumber == r && fs[i].position <= count
  {
    if count > 0 { RoundFixturesShape(draw, rounds, r, count - 1); }
  }

  lemma {:induction false} FixturesShape(draw: Draw, rounds: nat, r: nat)
    requires |draw| == Pow2(rounds) && r <= rounds
    ensures var fs := FixturesThrough(draw, rounds, r);
            && InOrder(fs)
            && forall i :: 0 <= i < |fs| ==> Described(draw, rounds, fs[i]) && fs[i].roundNumber <= r
  {
    if r > 0 {
      FixturesShape(draw, rounds, r - 1);
      RoundFixturesShape(draw, rounds, r, Pow2(rounds - r));
    }
  }

  lemma {:induction false} FindInRound(draw: Draw, rounds: nat, r: nat, count: nat, p: nat) returns (i: nat)
    requires |draw| == Pow2(rounds) && 1 <= r <= rounds && p < count <= Pow2(rounds - r)
    requires HasFixture(draw, rounds, r, p)
    ensures i < |RoundFixtures(draw, rounds, r, count)|
    ensures RoundFixtures(draw, rounds, r, count)[i] == Unlinked(draw, rounds, r, p)
  {
    if p == count - 1 {
      i := |RoundFixtures(draw, rounds, r, count - 1)|;
    } else {
      i := FindInRound(draw, rounds, r, count - 1, p);
    }
  }

  /** Every pair that meets is listed. */
  lemma {:induction false} FindFixture(draw: Draw, rounds: nat, last: nat, r: nat, p: nat) returns (i: nat)
    requires |draw| == Pow2(rounds) && 1 <= r <= last <= rounds && InRound(rounds, r, p)
    requires HasFixture(draw, rounds, r, p)
    ensures i < |FixturesThrough(draw, rounds, last)|
    ensures FixturesThrough(draw, rounds, last)[i] == Unlinked(draw, rounds, r, p)
  {
    if r == last {
      var k := FindInRound(draw, rounds, r, Pow2(rounds - r), p);
      i := |FixturesThrough(draw, rounds, last - 1)| + k;
    } else {
      i := FindFixture(draw, rounds, last - 1, r, p);
    }
  }

  /** A slot waits for the winner of (r, p) only in the pair above it, on the side p's parity names. */
  lemma ReferencesGoUp(draw: Draw, rounds: nat, f: Fixture, r: nat, p: nat)
    requires |draw| == Pow2(rounds) && Described(draw, rounds, f)
    ensures ReferenceIn(f, FixtureId(r, p + 1)).Some? ==>
              f.roundNumber == r + 1 && f.position == p / 2 + 1 &&
              ReferenceIn(f, FixtureId(r, p + 1)) == DownstreamOf(rounds, r, p)
  {
    FeedersInRange(rounds, f.roundNumber, f.position - 1);
  }

  lemma ParentWaits(draw: Draw, rounds: nat, r: nat, p: nat)
    requires |draw| == Pow2(rounds) && NoDoubleBye(draw) && InRound(rounds, r, p) && r < rounds
    requires HasFixture(draw, rounds, r, p)
    ensures InRound(rounds, r + 1, p / 2) && HasFixture(draw, rounds, r + 1, p / 2)
    ensures ReferenceIn(Unlinked(draw, rounds, r + 1, p / 2), FixtureId(r, p + 1)).Some?
  {
    FeedersInRange(rounds, r, p);
    FeedersInRange(rounds, r + 1, p / 2);
    LaterBranchesOccupied(draw, rounds, r + 1, 2 * (p / 2));
    LaterBranchesOccupied(draw, rounds, r + 1, 2 * (p / 2) + 1);
    assert p == 2 * (p / 2) || p == 2 * (p / 2) + 1;
    assert Entering(draw, r + 1, p) == Some(FixtureWinner(FixtureId(r, p + 1)));
  }

  lemma {:induction false} LastReferenceIsParent(draw: Draw, rounds: nat, fs: seq<Fixture>, n: nat, r: nat, p: nat)
    requires |draw| == Pow2(rounds) && n <= |fs|
    requires forall i :: 0 <= i < |fs| ==> Described(draw, rounds, fs[i])
    ensures var d := LastReference(fs, n, FixtureId(r, p + 1));
            && (d.Some? ==> d == DownstreamOf(rounds, r, p) && r < rounds)
            && ((exists k :: 0 <= k < n && ReferenceIn(fs[k], FixtureId(r, p + 1)).Some?) ==> d.Some?)
  {
    if n > 0 {
      LastReferenceIsParent(draw, rounds, fs, n - 1, r, p);
      ReferencesGoUp(draw, rounds, fs[n - 1], r, p);
    }
  }

  /** Linking by search agrees with the parity rule, and no source is ever missing. */
  lemma SourcesResolve(draw: Draw, i: nat)
    requires ValidDraw(draw) && i < |FixturesThrough(draw, Rounds(draw), Rounds(draw))|
    ensures var fs := FixturesThrough(draw, Rounds(draw), Rounds(draw));
            Resolves(fs, fs[i].red.source) && Resolves(fs, fs[i].blue.source)
  {
    var rounds := Rounds(draw);
    var fs := FixturesThrough(draw, rounds, rounds);
    FixturesShape(draw, rounds, rounds);
    SourceIsListed(draw, fs[i], fs[i].red.source);
    SourceIsListed(draw, fs[i], fs[i].blue.source);
  }

  lemma LastReferenceIsLink(draw: Draw, i: nat)
    requires ValidDraw(draw) && i < |FixturesThrough(draw, Rounds(draw), Rounds(draw))|
    ensures var fs := FixturesThrough(draw, Rounds(draw), Rounds(draw));
            fs[i].downstream.None? && LastReference(fs, |fs|, fs[i].id) == Link(Rounds(draw), fs[i]).downstream
  {
    var rounds := Rounds(draw);
    var fs := FixturesThrough(draw, rounds, rounds);
    FixturesShape(draw, rounds, rounds);
    var r, p := fs[i].roundNumber, fs[i].position - 1;
    LastReferenceIsParent(draw, rounds, fs, |fs|, r, p);
    if r < rounds {
      ParentWaits(draw, rounds, r, p);
      var k := FindFixture(draw, rounds, rounds, r + 1, p / 2);
      assert ReferenceIn(fs[k], FixtureId(r, p + 1)).Some?;
    }
  }

  lemma LinkingIsParity(draw: Draw)
    requires ValidDraw(draw)
    ensures var fs := FixturesThrough(draw, Rounds(draw), Rounds(draw));
            && UniqueIds(fs)
            && (forall i :: 0 <= i < |fs| ==> Resolves(fs, fs[i].red.source) && Resolves(fs, fs[i].blue.source))
            && forall i :: 0 <= i < |fs| ==>
                 fs[i].downstream.None? &&
                 LastReference(fs, |fs|, fs[i].id) == Link(Rounds(draw), fs[i]).downstream
  {
    var fs := FixturesThrough(draw, Rounds(draw), Rounds(draw));
    FixturesShape(draw, Rounds(draw), Rounds(draw));
    forall i | 0 <= i < |fs|
      ensures Resolves(fs, fs[i].red.source) && Resolves(fs, fs[i].blue.source)
      ensures fs[i].downstream.None? && LastReference(fs, |fs|, fs[i].id) == Link(Rounds(draw), fs[i]).downstream
    {
      SourcesResolve(draw, i);
      LastReferenceIsLink(draw, i);
    }
  }

  /** A branch waiting for a winner has a pair below it that meets. */
  lemma BelowMeets(draw: Draw, rounds: nat, r: nat, q: nat)
    requires |draw| == Pow2(rounds) && NoDoubleBye(draw)
    requires 2 <= r <= rounds && q < Pow2(rounds - r + 1)
    requires r == 2 ==> 2 * q + 1 < |draw|
    requires Entering(draw, r, q) == Some(FixtureWinner(FixtureId(r - 1, q + 1)))
    ensures InRound(rounds, r - 1, q) && HasFixture(draw, rounds, r - 1, q)
  {
    FeedersInRange(rounds, r - 1, q);
    if r >= 3 {
      LaterBranchesOccupied(draw, rounds, r - 1, 2 * q);
      LaterBranchesOccupied(draw, rounds, r - 1, 2 * q + 1);
    }
  }

  /** A winner-fed slot names a fixture of the round below that is on the list. */
  lemma SourceIsListed(draw: Draw, f: Fixture, source: Source)
    requires ValidDraw(draw)
    requires Described(draw, Rounds(draw), f)
    requires source == f.red.source || source == f.blue.source
    ensures Resolves(FixturesThrough(draw, Rounds(draw), Rounds(draw)), source)
    ensures source.FixtureWinner? ==> source.fixtureId.roundNumber == f.roundNumber - 1
  {
    var rounds := Rounds(draw);
    var r, p := f.roundNumber, f.position - 1;
    FeedersInRange(rounds, r, p);
    if source.FixtureWinner? {
      var q := if source == f.red.source then 2 * p else 2 * p + 1;
      assert Entering(draw, r, q) == Some(source);
      BelowMeets(draw, rounds, r, q);
      var k := FindFixture(draw, rounds, rounds, r - 1, q);
      assert FixturesThrough(draw, rounds, rounds)[k].id == source.fixtureId;
    }
  }

  // ---------------------------------------------------------------- the build

  /** Advancements entering round r, one per branch. */
  ghost predicate Entrances(draw: Draw, rounds: nat, r: nat, advancements: seq<Option<Source>>)
    requires |draw| == Pow2(rounds) && 1 <= r <= rounds + 1
  {
    && |advancements| == Pow2(rounds - r + 1)
    && forall q :: 0 <= q < |advancements| ==>
         (r == 2 ==> 2 * q + 1 < |draw|) && advancements[q] == Entering(draw, r, q)
  }

  /** What pairing two branches yields, for the branch above and for the list of fixtures. */
  lemma PairOutcome(draw: Draw, rounds: nat, r: nat, p: nat)
    requires |draw| == Pow2(rounds) && InRound(rounds, r, p)
    requires r > 1 ==> NoDoubleBye(draw)
    ensures 2 * p + 1 < Pow2(rounds - r + 1) && (r == 1 ==> 2 * p + 1 < |draw|) && (r == 2 ==> 4 * p + 3 < |draw|)
    ensures var red, blue := Entering(draw, r, 2 * p), Entering(draw, r, 2 * p + 1);
            && HasFixture(draw, rounds, r, p) == (red.Some? && blue.Some?)
            && (red.None? && blue.None? <==> r == 1 && draw[2 * p].None? && draw[2 * p + 1].None?)
            && (red.Some? && blue.Some? ==> Entering(draw, r + 1, p) == Some(FixtureWinner(FixtureId(r, p + 1))))
            && (red.None? || blue.None? ==> Entering(draw, r + 1, p) == if red.Some? then red else blue)
  {
    FeedersInRange(rounds, r, p);
    if r >= 2 {
      LaterBranchesOccupied(draw, rounds, r, 2 * p);
      LaterBranchesOccupied(draw, rounds, r, 2 * p + 1);
    }
  }

  /** The inner loop after n pairs of round r. */
  ghost predicate PairedThrough(
    draw: Draw, rounds: nat, r: nat, n: nat, nextAdvancements: seq<Option<Source>>, fixtures: seq<Fixture>)
    requires |draw| == Pow2(rounds) && 1 <= r <= rounds && n <= Pow2(rounds - r)
  {
    && |nextAdvancements| == n
    && (r == 1 ==> 2 * n <= |draw| && forall p :: 0 <= p < n ==> draw[2 * p].Some? || draw[2 * p + 1].Some?)
    && (forall q :: 0 <= q < n ==> nextAdvancements[q] == Entering(draw, r + 1, q))
    && fixtures == RoundFixtures(draw, rounds, r, n)
  }

  lemma PairedStep(
    draw: Draw, rounds: nat, r: nat, p: nat, nextAdvancements: seq<Option<Source>>, fixtures: seq<Fixture>,
    advancing: Option<Source>, met: seq<Fixture>)
    requires |draw| == Pow2(rounds) && InRound(rounds, r, p)
    requires r > 1 ==> NoDoubleBye(draw)
    requires PairedThrough(draw, rounds, r, p, nextAdvancements, fixtures)
    requires r == 1 ==> 2 * p + 1 < |draw| && (draw[2 * p].Some? || draw[2 * p + 1].Some?)
    requires advancing == Entering(draw, r + 1, p)
    requires met == if HasFixture(draw, rounds, r, p) then [Unlinked(draw, rounds, r, p)] else []
    ensures PairedThrough(draw, rounds, r, p + 1, nextAdvancements + [advancing], fixtures + met)
  {
  }

  /** One pair of the inner loop: who advances, and the fixture if the two meet. */
  method PairUp(roundNumber: nat, index: nat, red: Option<Source>, blue: Option<Source>)
    returns (result: Result<(Option<Source>, seq<Fixture>), GraphError>)
    requires index % 2 == 0
    ensures red.None? && blue.None? ==> result == Failure(DoubleBye)
    ensures red.Some? != blue.Some? ==> result == Success((if red.Some? then red else blue, []))
    ensures red.Some? && blue.Some? ==>
              var id := FixtureId(roundNumber, index / 2 + 1);
              result == Success((Some(FixtureWinner(id)),
                                 [Fixture(id, roundNumber, index / 2 + 1,
                                          SlotFor(Red, red.value), SlotFor(Blue, blue.value), None)]))
  {
    if red.None? || blue.None? {
      var advancingEntrant := if red.Some? then red else blue;
      if advancingEntrant.None? { return Failure(DoubleBye); }
      return Success((advancingEntrant, []));
    }
    var position := index / 2 + 1;
    var fixture := Fixture(FixtureId(roundNumber, position), roundNumber, position,
                           SlotFor(Red, red.value), SlotFor(Blue, blue.value), None);
    result := Success((Some(FixtureWinner(fixture.id)), [fixture]));
  }

  /** One pass of the inner loop. */
  method PairNext(ghost draw: Draw, ghost rounds: nat, roundNumber: nat, advancements: seq<Option<Source>>, index: nat,
                  ghost p: nat,
                  nextAdvancements: seq<Option<Source>>, fixtures: seq<Fixture>)
    returns (result: Result<(seq<Option<Source>>, seq<Fixture>), GraphError>)
    requires |draw| == Pow2(rounds) && InRound(rounds, roundNumber, p) && index == 2 * p
    requires Entrances(draw, rounds, roundNumber, advancements) && (roundNumber > 1 ==> NoDoubleBye(draw))
    requires PairedThrough(draw, rounds, roundNumber, p, nextAdvancements, fixtures)
    ensures result.Failure? ==> result.error == DoubleBye && !NoDoubleBye(draw)
    ensures result.Success? ==> PairedThrough(draw, rounds, roundNumber, p + 1, result.value.0, result.value.1)
  {
    PairOutcome(draw, rounds, roundNumber, p);
    if index + 1 >= |advancements| { assert false; return Failure(IncompletePair); }
    var pair := PairUp(roundNumber, index, advancements[index], advancements[index + 1]);
    if pair.Failure? { return Failure(DoubleBye); }
    PairedStep(draw, rounds, roundNumber, p, nextAdvancements, fixtures, pair.value.0, pair.value.1);
    result := Success((nextAdvancements + [pair.value.0], fixtures + pair.value.1));
  }

  /** The inner loop over the pairs of a round. */
  method PairRound(ghost draw: Draw, ghost rounds: nat, roundNumber: nat, advancements: seq<Option<Source>>)
    returns (result: Result<(seq<Option<Source>>, seq<Fixture>), GraphError>)
    requires |draw| == Pow2(rounds) && 1 <= roundNumber <= rounds
    requires Entrances(draw, rounds, roundNumber, advancements)
    requires roundNumber > 1 ==> NoDoubleBye(draw)
    ensures result.Failure? ==> result.error == DoubleBye && !NoDoubleBye(draw)
    ensures result.Success? ==>
              PairedThrough(draw, rounds, roundNumber, Pow2(rounds - roundNumber), result.value.0, result.value.1)
  {
    var nextAdvancements: seq<Option<Source>> := [];
    var fixtures: seq<Fixture> := [];
    ghost var width := Pow2(rounds - roundNumber);
    assert |advancements| == 2 * width;
    var index := 0;
    ghost var p := 0;
    while index < |advancements|
      invariant 0 <= p <= width && index == 2 * p
      invariant PairedThrough(draw, rounds, roundNumber, p, nextAdvancements, fixtures)
    {
      var next := PairNext(draw, rounds, roundNumber, advancements, index, p, nextAdvancements, fixtures);
      if next.Failure? { return Failure(DoubleBye); }
      nextAdvancements, fixtures := next.value.0, next.value.1;
      index := index + 2;
      p := p + 1;
    }
    result := Success((nextAdvancements, fixtures));
  }

  /** One round of pairings: the body of the source's outer loop. */
  method BuildRound(ghost draw: Draw, ghost rounds: nat, roundNumber: nat, advancements: seq<Option<Source>>)
    returns (result: Result<(seq<Option<Source>>, seq<Fixture>), GraphError>)
    requires |draw| == Pow2(rounds) && 1 <= roundNumber <= rounds
    requires Entrances(draw, rounds, roundNumber, advancements)
    requires roundNumber > 1 ==> NoDoubleBye(draw)
    ensures result.Success? <==> NoDoubleBye(draw)
    ensures result.Failure? ==> result.error == DoubleBye
    ensures result.Success? ==>
              && Entrances(draw, rounds, roundNumber + 1, result.value.0)
              && result.value.1 == RoundFixtures(draw, rounds, roundNumber, Pow2(rounds - roundNumber))
  {
    result := PairRound(draw, rounds, roundNumber, advancements);
    if result.Success? { PairedAll(draw, rounds, roundNumber, result.value.0, result.value.1); }
  }

  lemma PairedAll(draw: Draw, rounds: nat, r: nat, nextAdvancements: seq<Option<Source>>, fixtures: seq<Fixture>)
    requires |draw| == Pow2(rounds) && 1 <= r <= rounds
    requires r > 1 ==> NoDoubleBye(draw)
    requires PairedThrough(draw, rounds, r, Pow2(rounds - r), nextAdvancements, fixtures)
    ensures NoDoubleBye(draw)
    ensures Entrances(draw, rounds, r + 1, nextAdvancements)
  {
    if r == 1 { assert |draw| == 2 * Pow2(rounds - 1); }
  }

  /** The guards in front of the build, in the order the source tests them. */
  method CheckPlacements(placements: seq<Placement>) returns (result: Result<Summary, GraphError>)
    ensures var draw := Entries(placements);
            && (Accepted(placements) <==> result.Success? && NoDoubleBye(draw))
            && (result.Success? ==>
                  PositionsInOrder(placements) && |draw| == Pow2(Rounds(draw)) && Rounds(draw) >= 1 &&
                  |Athletes(draw)| >= 2 && Distinct(Athletes(draw)) &&
                  result.value == SummaryOf(|Athletes(draw)|))
            && (result.Failure? ==> result.error in {InvalidPlacements, TooManyAthletesForBracket, InvalidSize})
            && (result == Failure(InvalidSize) ==> |placements| != Pow2(Rounds(draw)))
  {
    var athleteIds := Athletes(Entries(placements));
    SetSizeTellsDistinct(athleteIds);
    if Accepted(placements) { AtLeastTwoPlaces(Entries(placements)); }
    if |placements| >= 2 { BitTestIsPowerOfTwo(|placements|); }
    if |placements| < 2 || BitAnd(|placements|, |placements| - 1) != 0 || |athleteIds| < 2
       || |Elements(athleteIds)| != |athleteIds| || !PositionsInOrder(placements)
    {
      return Failure(InvalidPlacements);
    }
    var summary := SummarizeBracket(|athleteIds|);
    if summary.Failure? { return Failure(TooManyAthletesForBracket); }
    SummaryFits(|athleteIds|);
    if summary.value.bracketSize != |placements| { return Failure(InvalidSize); }
    result := Success(summary.value);
  }

  /** The source's outer loop. */
  method BuildRounds(draw: Draw, rounds: nat) returns (result: Result<seq<Fixture>, GraphError>)
    requires rounds >= 1 && |draw| == Pow2(rounds)
    ensures result.Success? <==> NoDoubleBye(draw)
    ensures result.Failure? ==> result.error == DoubleBye
    ensures result.Success? ==> result.value == FixturesThrough(draw, rounds, rounds)
  {
    var fixtures: seq<Fixture> := [];
    var advancements := seq(|draw|, i requires 0 <= i < |draw| => Entering(draw, 1, i));
    for roundNumber := 1 to rounds + 1
      invariant Entrances(draw, rounds, roundNumber, advancements)
      invariant roundNumber > 1 ==> NoDoubleBye(draw)
      invariant fixtures == FixturesThrough(draw, rounds, roundNumber - 1)
    {
      var round := BuildRound(draw, rounds, roundNumber, advancements);
      if round.Failure? { return Failure(DoubleBye); }
      advancements := round.value.0;
      fixtures := fixtures + round.value.1;
    }
    result := Success(fixtures);
  }

  method BuildSingleEliminationBracket(placements: seq<Placement>) returns (result: Result<Bracket, GraphError>)
    ensures result.Success? <==> Accepted(placements)
    ensures result.Success? ==> result.value == BracketOf(placements)
    ensures result.Failure? ==> result.error != IncompletePair && result.error != MissingSource
    ensures result == Failure(DoubleBye) ==> !NoDoubleBye(Entries(placements))
    ensures result == Failure(InvalidSize) ==> |placements| != Pow2(Rounds(Entries(placements)))
  {
    var checked := CheckPlacements(placements);
    if checked.Failure? { return Failure(checked.error); }
    var draw := Entries(placements);
    var fixtures := BuildRounds(draw, checked.value.roundCount);
    if fixtures.Failure? { return Failure(DoubleBye); }
    result := FinishBuild(draw, checked.value, placements, fixtures.value);
  }

  method FinishBuild(ghost draw: Draw, summary: Summary, placements: seq<Placement>, fixtures: seq<Fixture>)
    returns (result: Result<Bracket, GraphError>)
    requires draw == Entries(placements) && ValidDraw(draw) && summary == SummaryOf(|Athletes(draw)|)
    requires fixtures == FixturesThrough(draw, Rounds(draw), Rounds(draw))
    ensures result == Success(BracketOf(placements))
  {
    LinkingIsParity(draw);
    var linked := LinkDownstreamFixtures(fixtures);
    if linked.Failure? { assert false; return Failure(MissingSource); }
    assert linked.value == LinkAll(Rounds(draw), fixtures);
    result := Success(Bracket(summary, placements, linked.value));
  }

  lemma AtLeastTwoPlaces(draw: Draw)
    requires ValidDraw(draw)
    ensures |draw| >= 2
    ensures exists k: nat :: |draw| == Pow2(k)
  {
    ExponentIsLeast(|Athletes(draw)|);
  }
}
