/** Crews: taking, confirming and releasing the officials of a match. */
module Assignments {
  import opened Prelude
  import MatchModel

  type OfficialId = string
  type MatchId = nat

  datatype Role = Supervisor | Judge
  datatype ReleaseReason =
    | Replaced | SupervisorReleased | MatchFinished | ResetRequiresSetup
    | ExitCancelled | ExitKeepRound1 | ExitKeepRounds1And2

  /** Rows are kept for ever; an assignment ends by being given a reason. */
  datatype Assignment = Assignment(game: MatchId, official: OfficialId, role: Role, position: Option<nat>,
                                   released: Option<ReleaseReason>)
  datatype Official = Official(tournament: nat, role: Role, isActive: bool)
  /** A match as staffing sees it; open says that its tournament is neither archived nor deleted. */
  datatype Game = Game(tournament: nat, open: bool, lifecycle: MatchModel.Lifecycle, unstarted: bool,
                       requiredJudgeCount: nat)
  datatype Identity = Identity(official: OfficialId, tournament: nat)

  datatype Staff = Staff(roster: map<OfficialId, Official>, games: map<MatchId, Game>, rows: seq<Assignment>)

  datatype StaffError =
    | JudgeCountMismatch | LifecycleMismatch | AssignmentLocked | InspectorInactive | AlreadyClaimed | StaleSelection
    | SupervisorBusy | TournamentMismatch | JudgeNotAvailable | JudgeInactive | JudgeBusy | NotOwner

  // ---------------------------------------------------------------- reading the rows

  predicate Active(row: Assignment) {
    row.released.None?
  }

  predicate Serves(row: Assignment, g: MatchId) {
    Active(row) && row.game == g
  }

  predicate Busy(rows: seq<Assignment>, o: OfficialId) {
    exists i :: 0 <= i < |rows| && Active(rows[i]) && rows[i].official == o
  }

  predicate BusyElsewhere(rows: seq<Assignment>, o: OfficialId, g: MatchId) {
    exists i :: 0 <= i < |rows| && Active(rows[i]) && rows[i].official == o && rows[i].game != g
  }

  predicate Staffed(rows: seq<Assignment>, g: MatchId) {
    exists i :: 0 <= i < |rows| && Serves(rows[i], g)
  }

  predicate Owns(rows: seq<Assignment>, g: MatchId, o: OfficialId) {
    exists i :: 0 <= i < |rows| && Serves(rows[i], g) && rows[i].role == Supervisor && rows[i].official == o
  }

  predicate Claimed(rows: seq<Assignment>, g: MatchId) {
    exists i :: 0 <= i < |rows| && Serves(rows[i], g) && rows[i].role == Supervisor
  }

  predicate HoldsPosition(row: Assignment, g: MatchId, o: OfficialId, p: nat) {
    Serves(row, g) && row.role == Judge && row.official == o && row.position == Some(p)
  }

  predicate JudgesAt(rows: seq<Assignment>, g: MatchId, o: OfficialId, p: nat) {
    exists i :: 0 <= i < |rows| && HoldsPosition(rows[i], g, o, p)
  }

  function ServingJudges(rows: seq<Assignment>, g: MatchId): nat {
    if rows == [] then 0
    else
      var last := rows[|rows| - 1];
      ServingJudges(rows[..|rows| - 1], g) + (if Serves(last, g) && last.role == Judge then 1 else 0)
  }

  /** The judges serving are exactly these, in this order. */
  predicate SameJudges(rows: seq<Assignment>, g: MatchId, judges: seq<OfficialId>) {
    ServingJudges(rows, g) == |judges| && forall p :: 0 <= p < |judges| ==> JudgesAt(rows, g, judges[p], p + 1)
  }

  predicate ActiveInspector(s: Staff, who: Identity) {
    who.official in s.roster && s.roster[who.official] == Official(who.tournament, Supervisor, true)
  }

  predicate GameOf(s: Staff, g: MatchId, who: Identity) {
    g in s.games && s.games[g].tournament == who.tournament && s.games[g].open
  }

  /** Why these referees cannot be chosen, if they cannot; checked in this order. */
  function RosterFault(s: Staff, judges: seq<OfficialId>, tournament: nat): Option<StaffError> {
    if exists i :: 0 <= i < |judges| && (judges[i] !in s.roster || s.roster[judges[i]].tournament != tournament)
         then Some(TournamentMismatch)
    else if exists i :: 0 <= i < |judges| && judges[i] in s.roster
              && s.roster[judges[i]].role != Judge then Some(JudgeNotAvailable)
    else if exists i :: 0 <= i < |judges| && judges[i] in s.roster
              && !s.roster[judges[i]].isActive then Some(JudgeInactive)
    else None
  }

  // ---------------------------------------------------------------- what the commands mean

  function JudgeRow(g: MatchId, judges: seq<OfficialId>, p: nat): Assignment
    requires p < |judges|
  {
    Assignment(g, judges[p], Judge, Some(p + 1), None)
  }

  /** One row for each of the first n positions not in held. */
  function NewJudges(rows: seq<Assignment>, g: MatchId, judges: seq<OfficialId>, n: nat): seq<Assignment>
    requires n <= |judges|
  {
    if n == 0 then []
    else NewJudges(rows, g, judges, n - 1) +
         (if JudgesAt(rows, g, judges[n - 1], n) then [] else [JudgeRow(g, judges, n - 1)])
  }

  function Take(s: Staff, g: MatchId, judges: seq<OfficialId>, who: Identity): Result<Staff, StaffError> {
    if !Distinct(judges) then Failure(JudgeCountMismatch)
    else if !GameOf(s, g, who) || (s.games[g].lifecycle != MatchModel.NotStarted
                                   && s.games[g].lifecycle != MatchModel.Suspended)
    then Failure(LifecycleMismatch)
    else if !ActiveInspector(s, who) then Failure(InspectorInactive)
    else if |judges| != s.games[g].requiredJudgeCount then Failure(JudgeCountMismatch)
    else if Owns(s.rows, g, who.official) && SameJudges(s.rows, g, judges) then Success(s)
    else if Claimed(s.rows, g) then Failure(AlreadyClaimed)
    else if Staffed(s.rows, g) then Failure(StaleSelection)
    else if Busy(s.rows, who.official) then Failure(SupervisorBusy)
    else if RosterFault(s, judges, who.tournament).Some? then Failure(RosterFault(s, judges, who.tournament).value)
    else if exists p :: 0 <= p < |judges| && Busy(s.rows, judges[p]) then Failure(JudgeBusy)
    else Success(Crewed(s, g, judges, who.official))
  }

  /** A whole crew at once; a suspended match is on again. */
  function Crewed(s: Staff, g: MatchId, judges: seq<OfficialId>, inspector: OfficialId): Staff
    requires g in s.games
  {
    s.(rows := s.rows + [Assignment(g, inspector, Supervisor, None, None)] + NewJudges([], g, judges, |judges|),
       games := if s.games[g].lifecycle == MatchModel.Suspended
                then s.games[g := s.games[g].(lifecycle := MatchModel.InProgress)] else s.games)
  }

  /** A judge row whose official and position the new list repeats stays as it is. */
  predicate Retained(row: Assignment, judges: seq<OfficialId>) {
    exists p :: 0 <= p < |judges| && judges[p] == row.official && row.position == Some(p + 1)
  }

  function ReplaceRow(row: Assignment, g: MatchId, judges: seq<OfficialId>): Assignment {
    if Serves(row, g) && row.role == Judge && !Retained(row, judges) then row.(released := Some(Replaced)) else row
  }

  function Replacements(rows: seq<Assignment>, g: MatchId, judges: seq<OfficialId>): (after: seq<Assignment>)
    ensures |after| == |rows|
  {
    seq(|rows|, i requires 0 <= i < |rows| => ReplaceRow(rows[i], g, judges))
  }

  function Confirm(s: Staff, g: MatchId, judges: seq<OfficialId>, who: Identity): Result<Staff, StaffError> {
    if !Distinct(judges) then Failure(JudgeCountMismatch)
    else if !GameOf(s, g, who) || !s.games[g].unstarted then Failure(AssignmentLocked)
    else if !ActiveInspector(s, who) then Failure(InspectorInactive)
    else if |judges| != s.games[g].requiredJudgeCount then Failure(JudgeCountMismatch)
    else if !Owns(s.rows, g, who.official) then Failure(NotOwner)
    else if RosterFault(s, judges, who.tournament).Some? then Failure(RosterFault(s, judges, who.tournament).value)
    else if exists p :: 0 <= p < |judges| && BusyElsewhere(s.rows, judges[p], g) then Failure(JudgeBusy)
    else Success(s.(rows := Replacements(s.rows, g, judges) + NewJudges(s.rows, g, judges, |judges|)))
  }

  function Released(rows: seq<Assignment>, g: MatchId, reason: ReleaseReason): (after: seq<Assignment>)
    ensures |after| == |rows|
  {
    seq(|rows|, i requires 0 <= i < |rows| => if Serves(rows[i], g) then rows[i].(released := Some(reason))
        else rows[i])
  }

  function Release(s: Staff, g: MatchId, who: Identity): Result<Staff, StaffError> {
    if !GameOf(s, g, who) || !s.games[g].unstarted then Failure(AssignmentLocked)
    else if !ActiveInspector(s, who) then Failure(InspectorInactive)
    else if !Owns(s.rows, g, who.official) then Failure(NotOwner)
    else Success(s.(rows := Released(s.rows, g, SupervisorReleased)))
  }

  function TransitionReason(from: MatchModel.Status, to: MatchModel.Status): Option<ReleaseReason> {
    if to == MatchModel.Finished then Some(MatchFinished)
    else if from == MatchModel.Finished then Some(ResetRequiresSetup)
    else None
  }

  function Transitioned(
      s: Staff, g: MatchId, from: MatchModel.Status, to: MatchModel.Status, reason: Option<ReleaseReason>): Staff
  {
    var why := if reason.Some? then reason else TransitionReason(from, to);
    if why.None? then s else s.(rows := Released(s.rows, g, why.value))
  }

  // ---------------------------------------------------------------- the rule of the crew

  /** An official has at most one job at a time, across all matches. */
  ghost predicate OneJobEach(rows: seq<Assignment>) {
    forall i, j :: 0 <= i < j < |rows| && Active(rows[i]) && Active(rows[j]) ==> rows[i].official != rows[j].official
  }

  /** Serving rows are of known matches, in the official's own role, and a judge holds one of the positions. */
  predicate RowFits(s: Staff, row: Assignment) {
    && row.game in s.games && row.official in s.roster && s.roster[row.official].role == row.role
    && (if row.role == Supervisor then row.position.None?
        else row.position.Some? && 1 <= row.position.value <= s.games[row.game].requiredJudgeCount)
  }

  ghost predicate RowsFit(s: Staff) {
    forall i :: 0 <= i < |s.rows| && Active(s.rows[i]) ==> RowFits(s, s.rows[i])
  }

  /** No two serve a match in the same place: one supervisor, one judge a position. */
  ghost predicate PlacesDiffer(rows: seq<Assignment>) {
    forall i, j :: 0 <= i < j < |rows| && Active(rows[i]) && Active(rows[j]) && rows[i].game == rows[j].game ==>
      rows[i].role != rows[j].role || rows[i].position != rows[j].position
  }

  predicate Filled(rows: seq<Assignment>, g: MatchId, p: nat) {
    exists i :: 0 <= i < |rows| && Serves(rows[i], g) && rows[i].role == Judge && rows[i].position == Some(p)
  }

  /** Nobody, or a supervisor and a judge in every position. */
  ghost predicate WholeCrew(s: Staff, g: MatchId) {
    g in s.games && Staffed(s.rows, g) ==>
      Claimed(s.rows, g) && forall p :: 1 <= p <= s.games[g].requiredJudgeCount ==> Filled(s.rows, g, p)
  }

  ghost predicate StaffOK(s: Staff) {
    && OneJobEach(s.rows) && RowsFit(s) && PlacesDiffer(s.rows)
    && forall g :: WholeCrew(s, g)
  }

  // ---------------------------------------------------------------- new judge rows

  /** A row for one of the first n positions, which nobody held in the named way. */
  predicate IsNew(rows: seq<Assignment>, g: MatchId, judges: seq<OfficialId>, n: nat, row: Assignment)
    requires n <= |judges|
  {
    && row.position.Some? && 1 <= row.position.value <= n && row == JudgeRow(g, judges, row.position.value - 1)
    && !JudgesAt(rows, g, row.official, row.position.value)
  }

  ghost predicate AllNew(rows: seq<Assignment>, g: MatchId, judges: seq<OfficialId>, n: nat, added: seq<Assignment>)
    requires n <= |judges|
  {
    && (forall i :: 0 <= i < |added| ==> IsNew(rows, g, judges, n, added[i]))
    && (forall i, j :: 0 <= i < j < |added| ==> added[i].position != added[j].position)
  }

  lemma {:induction false} NewJudgesAreNew(rows: seq<Assignment>, g: MatchId, judges: seq<OfficialId>, n: nat)
    returns (added: seq<Assignment>)
    requires n <= |judges|
    ensures added == NewJudges(rows, g, judges, n) && AllNew(rows, g, judges, n, added)
  {
    added := [];
    if n > 0 {
      var earlier := NewJudgesAreNew(rows, g, judges, n - 1);
      added := NewJudges(rows, g, judges, n);
      forall i | 0 <= i < |earlier| ensures IsNew(rows, g, judges, n, earlier[i]) && earlier[i].position != Some(n) {
        assert IsNew(rows, g, judges, n - 1, earlier[i]);
      }
      assert added == earlier || added == earlier + [JudgeRow(g, judges, n - 1)];
    }
  }

  /** A position nobody held in the named way gets its row. */
  lemma {:induction false} NewJudgeIsSeated(rows: seq<Assignment>, g: MatchId, judges: seq<OfficialId>, n: nat, p: nat)
    returns (i: nat)
    requires p < n <= |judges| && !JudgesAt(rows, g, judges[p], p + 1)
    ensures i < |NewJudges(rows, g, judges, n)| && NewJudges(rows, g, judges, n)[i] == JudgeRow(g, judges, p)
  {
    if p == n - 1 {
      i := |NewJudges(rows, g, judges, n - 1)|;
    } else {
      i := NewJudgeIsSeated(rows, g, judges, n - 1, p);
    }
  }

  // ---------------------------------------------------------------- releasing keeps the rule

  lemma ReleasedKeeps(s: Staff, g: MatchId, reason: ReleaseReason)
    requires StaffOK(s)
    ensures StaffOK(s.(rows := Released(s.rows, g, reason)))
    ensures !Staffed(Released(s.rows, g, reason), g)
  {
    var after := s.(rows := Released(s.rows, g, reason));
    forall i | 0 <= i < |s.rows| && Active(after.rows[i]) ensures after.rows[i] == s.rows[i] && s.rows[i].game != g {}
    forall h ensures WholeCrew(after, h) {
      if h in s.games && Staffed(after.rows, h) { UntouchedCrew(s, after, h); }
    }
  }

  /** A match none of whose serving rows changed keeps its whole crew. */
  lemma UntouchedCrew(s: Staff, after: Staff, g: MatchId)
    requires WholeCrew(s, g) && g in s.games && g in after.games
    requires after.games[g].requiredJudgeCount == s.games[g].requiredJudgeCount
    requires |s.rows| <= |after.rows|
    requires forall i :: 0 <= i < |s.rows| && s.rows[i].game == g ==> after.rows[i] == s.rows[i]
    requires forall i :: |s.rows| <= i < |after.rows| ==> after.rows[i].game != g
    requires forall i :: 0 <= i < |s.rows| && s.rows[i].game != g ==> after.rows[i].game != g
    ensures WholeCrew(after, g)
  {
    if Staffed(after.rows, g) {
      var i :| 0 <= i < |after.rows| && Serves(after.rows[i], g);
      assert Serves(s.rows[i], g);
      var j :| 0 <= j < |s.rows| && Serves(s.rows[j], g) && s.rows[j].role == Supervisor;
      assert Serves(after.rows[j], g);
      forall p | 1 <= p <= s.games[g].requiredJudgeCount ensures Filled(after.rows, g, p) {
        assert Filled(s.rows, g, p);
        var k :| 0 <= k < |s.rows| && Serves(s.rows[k], g) && s.rows[k].role == Judge && s.rows[k].position == Some(p);
        assert Serves(after.rows[k], g);
      }
    }
  }

  // ---------------------------------------------------------------- taking a match

  lemma RosterIsSound(s: Staff, judges: seq<OfficialId>, tournament: nat, p: nat)
    requires RosterFault(s, judges, tournament).None? && p < |judges|
    ensures judges[p] in s.roster && s.roster[judges[p]] == Official(tournament, Judge, true)
  {}

  ghost predicate Takeable(s: Staff, g: MatchId, judges: seq<OfficialId>, who: Identity) {
    && Distinct(judges) && GameOf(s, g, who) && ActiveInspector(s, who) && |judges| == s.games[g].requiredJudgeCount
    && !Staffed(s.rows, g) && !Busy(s.rows, who.official)
    && RosterFault(s, judges, who.tournament).None?
    && forall p :: 0 <= p < |judges| ==> !Busy(s.rows, judges[p])
  }

  lemma NobodyAt(g: MatchId, o: OfficialId, p: nat)
    ensures !JudgesAt([], g, o, p)
  {}

  /** The rows a take adds: the inspector's, then the judges'. */
  lemma CrewedRow(s: Staff, g: MatchId, judges: seq<OfficialId>, who: Identity, i: nat)
    requires Takeable(s, g, judges, who) && |s.rows| <= i < |Crewed(s, g, judges, who.official).rows|
    ensures var after := Crewed(s, g, judges, who.official); var row := after.rows[i];
            && row.game == g && RowFits(after, row) && !Busy(s.rows, row.official)
            && (i == |s.rows| <==> row.role == Supervisor)
            && (row.role == Judge ==> row.position.Some? && 1 <= row.position.value <= |judges|
                                      && row == JudgeRow(g, judges, row.position.value - 1))
  {
    var after := Crewed(s, g, judges, who.official);
    if i > |s.rows| {
      var row := after.rows[i];
      var added := NewJudgesAreNew([], g, judges, |judges|);
      assert row == added[i - |s.rows| - 1];
      assert IsNew([], g, judges, |judges|, row);
      RosterIsSound(s, judges, who.tournament, row.position.value - 1);
    }
  }

  lemma CrewedOfficialsDiffer(s: Staff, g: MatchId, judges: seq<OfficialId>, who: Identity, i: nat, j: nat)
    requires StaffOK(s) && Takeable(s, g, judges, who) && i < j < |Crewed(s, g, judges, who.official).rows|
    requires var rows := Crewed(s, g, judges, who.official).rows; Active(rows[i]) && Active(rows[j])
    ensures var rows := Crewed(s, g, judges, who.official).rows;
            rows[i].official != rows[j].official &&
            (rows[i].game == rows[j].game ==> rows[i].role != rows[j].role || rows[i].position != rows[j].position)
  {
    var rows, n := Crewed(s, g, judges, who.official).rows, |s.rows|;
    if j >= n {
      CrewedRow(s, g, judges, who, j);
      if i >= n {
        CrewedRow(s, g, judges, who, i);
        if i > n {
          var added := NewJudgesAreNew([], g, judges, |judges|);
          assert rows[i] == added[i - n - 1] && rows[j] == added[j - n - 1];
        }
      } else {
        assert rows[i] == s.rows[i];
        assert !Serves(s.rows[i], g);
      }
    }
  }

  lemma CrewedRows(s: Staff, g: MatchId, judges: seq<OfficialId>, who: Identity)
    requires StaffOK(s) && Takeable(s, g, judges, who)
    ensures var after := Crewed(s, g, judges, who.official);
            OneJobEach(after.rows) && RowsFit(after) && PlacesDiffer(after.rows)
  {
    var after := Crewed(s, g, judges, who.official);
    forall i: nat, j: nat | i < j < |after.rows| && Active(after.rows[i]) && Active(after.rows[j])
      ensures after.rows[i].official != after.rows[j].official
      ensures after.rows[i].game == after.rows[j].game ==>
                after.rows[i].role != after.rows[j].role || after.rows[i].position != after.rows[j].position
    {
      CrewedOfficialsDiffer(s, g, judges, who, i, j);
    }
    forall i: nat | i < |after.rows| && Active(after.rows[i]) ensures RowFits(after, after.rows[i]) {
      if i < |s.rows| { assert RowFits(s, s.rows[i]); } else { CrewedRow(s, g, judges, who, i); }
    }
  }

  lemma CrewedPanel(s: Staff, g: MatchId, judges: seq<OfficialId>, who: Identity, p: nat)
    requires Takeable(s, g, judges, who) && p < |judges|
    ensures JudgesAt(Crewed(s, g, judges, who.official).rows, g, judges[p], p + 1)
    ensures Filled(Crewed(s, g, judges, who.official).rows, g, p + 1)
  {
    NobodyAt(g, judges[p], p + 1);
    var i := NewJudgeIsSeated([], g, judges, |judges|, p);
    var rows := Crewed(s, g, judges, who.official).rows;
    assert rows[|s.rows| + 1 + i] == NewJudges([], g, judges, |judges|)[i];
    assert HoldsPosition(rows[|s.rows| + 1 + i], g, judges[p], p + 1);
  }

  lemma CrewedWhole(s: Staff, g: MatchId, judges: seq<OfficialId>, who: Identity)
    requires StaffOK(s) && Takeable(s, g, judges, who)
    ensures forall h :: WholeCrew(Crewed(s, g, judges, who.official), h)
    ensures Owns(Crewed(s, g, judges, who.official).rows, g, who.official)
  {
    var after := Crewed(s, g, judges, who.official);
    assert Serves(after.rows[|s.rows|], g);
    forall h ensures WholeCrew(after, h) {
      if h == g {
        forall p | 1 <= p <= |judges| ensures Filled(after.rows, g, p) { CrewedPanel(s, g, judges, who, p - 1); }
      } else if h in s.games {
        forall i | |s.rows| <= i < |after.rows| ensures after.rows[i].game != h { CrewedRow(s, g, judges, who, i); }
        UntouchedCrew(s, after, h);
      }
    }
  }

  /**
   * Taking keeps the rule; afterwards exactly the named crew serves, and taking again with the same crew changes
   * nothing.
   */
  lemma TakeKeeps(s: Staff, g: MatchId, judges: seq<OfficialId>, who: Identity)
    requires StaffOK(s) && Take(s, g, judges, who).Success?
    ensures var after := Take(s, g, judges, who).value;
            && StaffOK(after) && Owns(after.rows, g, who.official)
            && (forall p :: 0 <= p < |judges| ==> JudgesAt(after.rows, g, judges[p], p + 1))
            && |s.rows| <= |after.rows| && after.rows[..|s.rows|] == s.rows
  {
    var after := Take(s, g, judges, who).value;
    if after != s {
      assert Takeable(s, g, judges, who);
      CrewedRows(s, g, judges, who);
      CrewedWhole(s, g, judges, who);
      forall p | 0 <= p < |judges| ensures JudgesAt(after.rows, g, judges[p], p + 1) {
        CrewedPanel(s, g, judges, who, p);
      }
    }
  }

  // ---------------------------------------------------------------- confirming another panel

  ghost predicate Confirmable(s: Staff, g: MatchId, judges: seq<OfficialId>, who: Identity) {
    && Distinct(judges) && GameOf(s, g, who) && |judges| == s.games[g].requiredJudgeCount
         && Owns(s.rows, g, who.official)
    && RosterFault(s, judges, who.tournament).None?
    && forall p :: 0 <= p < |judges| ==> !BusyElsewhere(s.rows, judges[p], g)
  }

  function Confirmed(s: Staff, g: MatchId, judges: seq<OfficialId>): Staff {
    s.(rows := Replacements(s.rows, g, judges) + NewJudges(s.rows, g, judges, |judges|))
  }

  /** Which rows serve afterwards: those of other matches, the supervisor, the retained judges and the added ones. */
  lemma ServingAfterConfirm(s: Staff, g: MatchId, judges: seq<OfficialId>, who: Identity, i: nat)
    requires StaffOK(s) && Confirmable(s, g, judges, who) && i < |Confirmed(s, g, judges).rows|
    requires Active(Confirmed(s, g, judges).rows[i])
    ensures var row := Confirmed(s, g, judges).rows[i];
            if i < |s.rows| then
              row == s.rows[i] && (row.game == g && row.role == Judge ==> Retained(row, judges))
            else
              && row.position.Some? && 1 <= row.position.value <= |judges|
              && row == JudgeRow(g, judges, row.position.value - 1)
              && !JudgesAt(s.rows, g, row.official, row.position.value)
  {
    if i >= |s.rows| {
      var added := NewJudgesAreNew(s.rows, g, judges, |judges|);
      assert IsNew(s.rows, g, judges, |judges|, added[i - |s.rows|]);
    }
  }

  lemma ConfirmedOfficialsDiffer(s: Staff, g: MatchId, judges: seq<OfficialId>, who: Identity, i: nat, j: nat)
    requires StaffOK(s) && Confirmable(s, g, judges, who) && i < j < |Confirmed(s, g, judges).rows|
    requires Active(Confirmed(s, g, judges).rows[i]) && Active(Confirmed(s, g, judges).rows[j])
    ensures var rows := Confirmed(s, g, judges).rows;
            rows[i].official != rows[j].official &&
            (rows[i].game == rows[j].game ==> rows[i].role != rows[j].role || rows[i].position != rows[j].position)
  {
    var rows := Confirmed(s, g, judges).rows;
    ServingAfterConfirm(s, g, judges, who, i);
    ServingAfterConfirm(s, g, judges, who, j);
    if j >= |s.rows| {
      RosterIsSound(s, judges, who.tournament, rows[j].position.value - 1);
      if i >= |s.rows| {
        var added := NewJudgesAreNew(s.rows, g, judges, |judges|);
        assert rows[i] == added[i - |s.rows|] && rows[j] == added[j - |s.rows|];
      } else {
        assert RowFits(s, s.rows[i]);
        assert !HoldsPosition(s.rows[i], g, rows[j].official, rows[j].position.value);
        assert !BusyElsewhere(s.rows, judges[rows[j].position.value - 1], g);
      }
    }
  }

  lemma ConfirmedRows(s: Staff, g: MatchId, judges: seq<OfficialId>, who: Identity)
    requires StaffOK(s) && Confirmable(s, g, judges, who)
    ensures var after := Confirmed(s, g, judges); OneJobEach(after.rows) && RowsFit(after) && PlacesDiffer(after.rows)
  {
    var after := Confirmed(s, g, judges);
    forall i: nat, j: nat | i < j < |after.rows| && Active(after.rows[i]) && Active(after.rows[j])
      ensures after.rows[i].official != after.rows[j].official
      ensures after.rows[i].game == after.rows[j].game ==>
                after.rows[i].role != after.rows[j].role || after.rows[i].position != after.rows[j].position
    {
      ConfirmedOfficialsDiffer(s, g, judges, who, i, j);
    }
    forall i: nat | i < |after.rows| && Active(after.rows[i]) ensures RowFits(after, after.rows[i]) {
      ServingAfterConfirm(s, g, judges, who, i);
      if i < |s.rows| {
        assert RowFits(s, s.rows[i]);
      } else {
        RosterIsSound(s, judges, who.tournament, after.rows[i].position.value - 1);
      }
    }
  }

  /** Every position of the new panel is held by the official it names. */
  lemma ConfirmedPanel(s: Staff, g: MatchId, judges: seq<OfficialId>, who: Identity, p: nat)
    requires StaffOK(s) && Confirmable(s, g, judges, who) && p < |judges|
    ensures JudgesAt(Confirmed(s, g, judges).rows, g, judges[p], p + 1)
  {
    var after := Confirmed(s, g, judges);
    if JudgesAt(s.rows, g, judges[p], p + 1) {
      var i :| 0 <= i < |s.rows| && HoldsPosition(s.rows[i], g, judges[p], p + 1);
      assert HoldsPosition(after.rows[i], g, judges[p], p + 1);
    } else {
      var i := NewJudgeIsSeated(s.rows, g, judges, |judges|, p);
      assert HoldsPosition(after.rows[|s.rows| + i], g, judges[p], p + 1);
    }
  }

  lemma ConfirmedWhole(s: Staff, g: MatchId, judges: seq<OfficialId>, who: Identity)
    requires StaffOK(s) && Confirmable(s, g, judges, who)
    ensures forall h :: WholeCrew(Confirmed(s, g, judges), h)
    ensures Owns(Confirmed(s, g, judges).rows, g, who.official)
  {
    var after := Confirmed(s, g, judges);
    var boss :| 0 <= boss < |s.rows| && Serves(s.rows[boss], g) && s.rows[boss].role == Supervisor
        && s.rows[boss].official == who.official;
    assert after.rows[boss] == s.rows[boss];
    forall h ensures WholeCrew(after, h) {
      if h == g {
        forall p | 1 <= p <= |judges| ensures Filled(after.rows, g, p) {
          ConfirmedPanel(s, g, judges, who, p - 1);
          var i :| 0 <= i < |after.rows| && HoldsPosition(after.rows[i], g, judges[p - 1], p);
        }
      } else if h in s.games {
        var added := NewJudgesAreNew(s.rows, g, judges, |judges|);
        forall i | |s.rows| <= i < |after.rows| ensures after.rows[i].game != h {
          assert IsNew(s.rows, g, judges, |judges|, added[i - |s.rows|]);
        }
        UntouchedCrew(s, after, h);
      }
    }
  }

  /**
   * Confirming keeps the rule and seats exactly the named panel. A judge named again for the position already held
   * keeps the very same row; every other judge of the match is released as replaced; nobody else is touched.
   */
  lemma ConfirmKeeps(s: Staff, g: MatchId, judges: seq<OfficialId>, who: Identity)
    requires StaffOK(s) && Confirm(s, g, judges, who).Success?
    ensures var after := Confirm(s, g, judges, who).value;
            && StaffOK(after) && Owns(after.rows, g, who.official)
            && (forall p :: 0 <= p < |judges| ==> JudgesAt(after.rows, g, judges[p], p + 1))
            && |s.rows| <= |after.rows|
            && (forall i :: 0 <= i < |s.rows| && Serves(s.rows[i], g) && s.rows[i].role == Judge ==>
                  after.rows[i] == if Retained(s.rows[i], judges) then s.rows[i]
                      else s.rows[i].(released := Some(Replaced)))
            && (forall i :: 0 <= i < |s.rows| && !(Serves(s.rows[i], g) && s.rows[i].role == Judge) ==>
                  after.rows[i] == s.rows[i])
  {
    assert Confirmable(s, g, judges, who);
    ConfirmedRows(s, g, judges, who);
    ConfirmedWhole(s, g, judges, who);
    forall p | 0 <= p < |judges| ensures JudgesAt(Confirmed(s, g, judges).rows, g, judges[p], p + 1) {
      ConfirmedPanel(s, g, judges, who, p);
    }
  }

  /** Releasing empties the match and keeps the rule everywhere. */
  lemma ReleaseKeeps(s: Staff, g: MatchId, who: Identity)
    requires StaffOK(s) && Release(s, g, who).Success?
    ensures StaffOK(Release(s, g, who).value) && !Staffed(Release(s, g, who).value.rows, g)
  {
    ReleasedKeeps(s, g, SupervisorReleased);
  }

  // ---------------------------------------------------------------- every run

  datatype Command =
    | TakeMatch(game: MatchId, judges: seq<OfficialId>, who: Identity)
    | ConfirmPanel(game: MatchId, judges: seq<OfficialId>, who: Identity)
    | ReleaseCrew(game: MatchId, who: Identity)
    | Transition(game: MatchId, from: MatchModel.Status, to: MatchModel.Status, reason: Option<ReleaseReason>)
    /** The match itself moved on: its lifecycle, and whether it has started. */
    | Progress(game: MatchId, lifecycle: MatchModel.Lifecycle, unstarted: bool)

  function Step(s: Staff, command: Command): Staff {
    match command
    case TakeMatch(g, judges, who) => if Take(s, g, judges, who).Success? then Take(s, g, judges, who).value else s
    case ConfirmPanel(g, judges, who) => if Confirm(s, g, judges, who).Success? then Confirm(s, g, judges, who).value
         else s
    case ReleaseCrew(g, who) => if Release(s, g, who).Success? then Release(s, g, who).value else s
    case Transition(g, from, to, reason) => Transitioned(s, g, from, to, reason)
    case Progress(g, lifecycle, unstarted) =>
      if g in s.games then s.(games := s.games[g := s.games[g].(lifecycle := lifecycle, unstarted := unstarted)]) else s
  }

  function Run(s: Staff, commands: seq<Command>): Staff
    decreases |commands|
  {
    if commands == [] then s else Run(Step(s, commands[0]), commands[1..])
  }

  lemma ProgressKeeps(s: Staff, g: MatchId, lifecycle: MatchModel.Lifecycle, unstarted: bool)
    requires StaffOK(s) && g in s.games
    ensures StaffOK(Step(s, Progress(g, lifecycle, unstarted)))
  {
    var after := Step(s, Progress(g, lifecycle, unstarted));
    forall i | 0 <= i < |s.rows| && Active(s.rows[i]) ensures RowFits(after, after.rows[i]) {
      assert RowFits(s, s.rows[i]);
    }
    forall h ensures WholeCrew(after, h) { assert WholeCrew(s, h); }
  }

  lemma StepKeeps(s: Staff, command: Command)
    requires StaffOK(s)
    ensures StaffOK(Step(s, command))
  {
    match command
    case TakeMatch(g, judges, who) => if Take(s, g, judges, who).Success? { TakeKeeps(s, g, judges, who); }
    case ConfirmPanel(g, judges, who) => if Confirm(s, g, judges, who).Success? { ConfirmKeeps(s, g, judges, who); }
    case ReleaseCrew(g, who) => if Release(s, g, who).Success? { ReleaseKeeps(s, g, who); }
    case Transition(g, from, to, reason) =>
      var why := if reason.Some? then reason else TransitionReason(from, to);
      if why.Some? { ReleasedKeeps(s, g, why.value); }
    case Progress(g, lifecycle, unstarted) => if g in s.games { ProgressKeeps(s, g, lifecycle, unstarted); }
  }

  /** Over any run: one job an official, and a whole crew or none for every match. */
  lemma {:induction false} RunKeeps(s: Staff, commands: seq<Command>)
    requires StaffOK(s)
    ensures StaffOK(Run(s, commands))
    decreases |commands|
  {
    if commands != [] {
      StepKeeps(s, commands[0]);
      RunKeeps(Step(s, commands[0]), commands[1..]);
    }
  }

  /** From the day nobody has been assigned. */
  lemma CrewsOfAnyRun(s: Staff, commands: seq<Command>)
    requires s.rows == []
    ensures StaffOK(Run(s, commands))
  {
    RunKeeps(s, commands);
  }

  // ---------------------------------------------------------------- the rows updated in place

  /** One bulk update: ends the serving assignments of one role. */
  function ReleasedRole(rows: seq<Assignment>, g: MatchId, role: Role, reason: ReleaseReason): (after: seq<Assignment>)
    ensures |after| == |rows|
  {
    seq(|rows|, i requires 0 <= i < |rows| =>
      if Serves(rows[i], g) && rows[i].role == role then rows[i].(released := Some(reason)) else rows[i])
  }

  class Desk {
    const roster: map<OfficialId, Official>
    var games: map<MatchId, Game>
    var rows: seq<Assignment>

    constructor (s: Staff)
      ensures Model() == s
    {
      roster, games, rows := s.roster, s.games, s.rows;
    }

    function Model(): Staff
      reads this
    {
      Staff(roster, games, rows)
    }

    /** The rule of the crew holds. */
    ghost predicate Valid()
      reads this
    {
      StaffOK(Model())
    }

    /** What a transaction answers and leaves: a failed one leaves everything as it was. */
    ghost predicate Answers(before: Staff, attempted: Result<Staff, StaffError>, error: Option<StaffError>)
      reads this
    {
      match attempted
      case Success(expected) => error.None? && Model() == expected
      case Failure(e) => error == Some(e) && Model() == before
    }

    method TakeMatch(g: MatchId, judges: seq<OfficialId>, who: Identity) returns (error: Option<StaffError>)
      modifies this
      ensures Answers(old(Model()), Take(old(Model()), g, judges, who), error)
      ensures old(Valid()) ==> Valid()
    {
      if old(Valid()) && Take(Model(), g, judges, who).Success? { TakeKeeps(Model(), g, judges, who); }
      if !Distinct(judges) { return Some(JudgeCountMismatch); }
      if !GameOf(Model(), g, who) { return Some(LifecycleMismatch); }
      var lifecycle := games[g].lifecycle;
      if lifecycle != MatchModel.NotStarted && lifecycle != MatchModel.Suspended { return Some(LifecycleMismatch); }
      if !ActiveInspector(Model(), who) { return Some(InspectorInactive); }
      if |judges| != games[g].requiredJudgeCount { return Some(JudgeCountMismatch); }
      if Owns(rows, g, who.official) && SameJudges(rows, g, judges) { return None; }
      if Claimed(rows, g) { return Some(AlreadyClaimed); }
      if Staffed(rows, g) { return Some(StaleSelection); }
      if Busy(rows, who.official) { return Some(SupervisorBusy); }
      var fault := RosterFault(Model(), judges, who.tournament);
      if fault.Some? { return fault; }
      if exists p :: 0 <= p < |judges| && Busy(rows, judges[p]) { return Some(JudgeBusy); }
      rows := rows + [Assignment(g, who.official, Supervisor, None, None)];
      rows := rows + NewJudges([], g, judges, |judges|);
      if lifecycle == MatchModel.Suspended { games := games[g := games[g].(lifecycle := MatchModel.InProgress)]; }
      error := None;
    }

    method ConfirmPanel(g: MatchId, judges: seq<OfficialId>, who: Identity) returns (error: Option<StaffError>)
      modifies this`rows
      ensures Answers(old(Model()), Confirm(old(Model()), g, judges, who), error)
      ensures old(Valid()) ==> Valid()
    {
      if old(Valid()) && Confirm(Model(), g, judges, who).Success? { ConfirmKeeps(Model(), g, judges, who); }
      if !Distinct(judges) { return Some(JudgeCountMismatch); }
      if !GameOf(Model(), g, who) || !games[g].unstarted { return Some(AssignmentLocked); }
      if !ActiveInspector(Model(), who) { return Some(InspectorInactive); }
      if |judges| != games[g].requiredJudgeCount { return Some(JudgeCountMismatch); }
      if !Owns(rows, g, who.official) { return Some(NotOwner); }
      var fault := RosterFault(Model(), judges, who.tournament);
      if fault.Some? { return fault; }
      if exists p :: 0 <= p < |judges| && BusyElsewhere(rows, judges[p], g) { return Some(JudgeBusy); }
      var added := NewJudges(rows, g, judges, |judges|);
      rows := Replacements(rows, g, judges);
      rows := rows + added;
      error := None;
    }

    method ReleaseCrew(g: MatchId, who: Identity) returns (error: Option<StaffError>)
      modifies this`rows
      ensures Answers(old(Model()), Release(old(Model()), g, who), error)
      ensures old(Valid()) ==> Valid()
    {
      if old(Valid()) && Release(Model(), g, who).Success? { ReleaseKeeps(Model(), g, who); }
      if !GameOf(Model(), g, who) || !games[g].unstarted { return Some(AssignmentLocked); }
      if !ActiveInspector(Model(), who) { return Some(InspectorInactive); }
      if !Owns(rows, g, who.official) { return Some(NotOwner); }
      rows := Released(rows, g, SupervisorReleased);
      error := None;
    }

    /** Referees go before the inspector, so that no referee is left without one. */
    method ReleaseForTransition(g: MatchId, from: MatchModel.Status, to: MatchModel.Status,
                                reason: Option<ReleaseReason>)
      modifies this`rows
      ensures Model() == Transitioned(old(Model()), g, from, to, reason)
      ensures old(Valid()) ==> Valid()
    {
      var why := if reason.Some? then reason else TransitionReason(from, to);
      if why.None? { return; }
      if old(Valid()) { ReleasedKeeps(Model(), g, why.value); }
      rows := ReleasedRole(rows, g, Judge, why.value);
      rows := ReleasedRole(rows, g, Supervisor, why.value);
      assert rows == Released(old(rows), g, why.value);
    }
  }
}
