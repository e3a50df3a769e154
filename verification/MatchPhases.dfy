/** The phase of a match fixes which rounds are live, whatever has been cancelled and restored. */
module MatchPhases {
  import opened Prelude
  import opened MatchTables
  import opened MatchModel
  import opened MatchCommands
  import opened MatchHistory

  datatype Kind = Kind(stage: Stage, number: nat, ended: bool)

  const R1_OPEN := Kind(Regulation, 1, false)
  const R1_ENDED := Kind(Regulation, 1, true)
  const R2_OPEN := Kind(Regulation, 2, false)
  const R2_ENDED := Kind(Regulation, 2, true)
  const OT_OPEN := Kind(Overtime, 1, false)
  const OT_ENDED := Kind(Overtime, 1, true)

  function KindOf(r: Round): Kind {
    Kind(r.stage, r.number, r.endedAt.Some?)
  }

  function RoundTags(rounds: Table<Round>): (tags: seq<Tag<Kind>>)
    ensures |tags| == |rounds|
  {
    seq(|rounds|, i requires 0 <= i < |rounds| => (rounds[i].stamp, KindOf(rounds[i].val)))
  }

  /** How many rounds of a kind are live (no stamp), or were cancelled under a stamp. */
  function Held(rounds: Table<Round>, stamp: Option<nat>, kind: Kind): nat {
    Count(RoundTags(rounds), (stamp, kind))
  }

  // ---------------------------------------------------------------- the phase table

  function RegulationEnded(kind: Kind): nat {
    if kind == R1_ENDED || kind == R2_ENDED then 1 else 0
  }

  function Is(kind: Kind, k: Kind): nat {
    if kind == k then 1 else 0
  }

  /** The live rounds a phase calls for. Only a result to be published asks whether there was an overtime round. */
  function Expected(s: Status, current: Option<nat>, kind: Kind): nat {
    match s
    case Waiting => 0
    case Round1Running => Is(kind, R1_OPEN)
    case Round1Paused => Is(kind, R1_OPEN)
    case Break => Is(kind, R1_ENDED)
    case Round2Running => Is(kind, R1_ENDED) + Is(kind, R2_OPEN)
    case Round2Paused => Is(kind, R1_ENDED) + Is(kind, R2_OPEN)
    case AwaitingResultSave => RegulationEnded(kind)
    case RegulationAppeal => RegulationEnded(kind)
    case OvertimeReady => RegulationEnded(kind)
    case OvertimeRunning => RegulationEnded(kind) + Is(kind, OT_OPEN)
    case OvertimePaused => RegulationEnded(kind) + Is(kind, OT_OPEN)
    case OvertimeAppeal => RegulationEnded(kind) + Is(kind, OT_ENDED)
    case OvertimeTiebreakDecision => RegulationEnded(kind) + Is(kind, OT_ENDED)
    case ResultPublicationReady => RegulationEnded(kind) + (if current == Some(1) then Is(kind, OT_ENDED) else 0)
    case Finished => RegulationEnded(kind) + (if current == Some(1) then Is(kind, OT_ENDED) else 0)
  }

  predicate CurrentFits(s: Status, current: Option<nat>) {
    match s
    case Waiting => current.None?
    case Round1Running => current == Some(1)
    case Round1Paused => current == Some(1)
    case Break => current == Some(1)
    case Round2Running => current == Some(2)
    case Round2Paused => current == Some(2)
    case AwaitingResultSave => current == Some(2)
    case RegulationAppeal => current == Some(2)
    case OvertimeReady => current == Some(1) || current == Some(2)
    case ResultPublicationReady => current == Some(1) || current == Some(2)
    case Finished => current == Some(1) || current == Some(2)
    case _ => current == Some(1)
  }

  ghost predicate RoundsFit(rounds: Table<Round>, s: Status, current: Option<nat>) {
    forall kind :: Held(rounds, None, kind) == Expected(s, current, kind)
  }

  ghost predicate Fits(m: Match) {
    && CurrentFits(m.status, m.currentRound)
    && (m.status == Waiting <==> m.startedAt.None?)
    && RoundsFit(m.rounds, m.status, m.currentRound)
  }

  /** What an operation cancelled is what its earlier phase had over its resulting phase. */
  ghost predicate Balanced(rounds: Table<Round>, op: Operation) {
    forall kind ::
      Expected(op.resultingStatus, op.resultingCurrentRound, kind) + Held(rounds, Some(op.audit), kind)
      == Expected(op.previousStatus, op.previousCurrentRound, kind)
  }

  ghost predicate OperationFits(m: Match, op: Operation) {
    !op.undone ==>
      && CurrentFits(op.previousStatus, op.previousCurrentRound)
      && (op.previousStatus == Waiting <==> op.previousStartedAt.None?)
      && Balanced(m.rounds, op)
  }

  ghost predicate OperationsFit(m: Match, n: nat)
    requires n <= |m.operations|
  {
    forall o :: 0 <= o < n ==> OperationFits(m, m.operations[o])
  }

  /** Over the whole history, cancelled attempts included. */
  ghost predicate AttemptsIncrease(rounds: Table<Round>) {
    forall i, j :: 0 <= i < j < |rounds| && rounds[i].val.stage == Overtime && rounds[j].val.stage == Overtime ==>
      rounds[i].val.attempt < rounds[j].val.attempt
  }

  ghost predicate SourcesKnown(m: Match) {
    forall a :: 0 <= a < |m.appeals| ==> SourceKnown(m.rounds, m.appeals[a].val)
  }

  /** The source of an appeal is a round of its stage. */
  predicate SourceKnown(rounds: Table<Round>, a: Appeal) {
    a.source < |rounds| && rounds[a.source].val.stage == a.scope
  }

  ghost predicate PhaseOK(m: Match) {
    && StampsKnown(m) && AuditsOrdered(m)
    && Fits(m) && OperationsFit(m, |m.operations|)
    && AttemptsIncrease(m.rounds) && SourcesKnown(m)
  }

  // ---------------------------------------------------------------- counting rounds

  lemma HeldKept(rounds: Table<Round>, rounds': Table<Round>, k: nat, kind: Kind)
    requires Kept(rounds, rounds', k)
    ensures Held(rounds', Some(k), kind) == Held(rounds, Some(k), kind)
  {
    CountAgrees(RoundTags(rounds), RoundTags(rounds'), (Some(k), kind));
  }

  lemma HeldAppend(rounds: Table<Round>, r: Round, kind: Kind)
    ensures Held(Append(rounds, r), None, kind) == Held(rounds, None, kind) + Is(kind, KindOf(r))
  {
    assert RoundTags(Append(rounds, r))[..|rounds|] == RoundTags(rounds);
  }

  lemma HeldSet(rounds: Table<Round>, i: nat, r: Round, kind: Kind)
    requires Live(rounds, i)
    ensures Held(SetVal(rounds, i, r), None, kind) + Is(kind, KindOf(rounds[i].val))
            == Held(rounds, None, kind) + Is(kind, KindOf(r))
  {
    assert RoundTags(SetVal(rounds, i, r)) == RoundTags(rounds)[i := (None, KindOf(r))];
    CountUpdated(RoundTags(rounds), i, (None, KindOf(r)), (None, kind));
  }

  /** Stamping moves rounds from the live to the fresh stamp. */
  lemma HeldShifted(rounds: Table<Round>, ids: set<nat>, k: nat, kind: Kind)
    requires StampsBelow(rounds, k)
    ensures Held(Stamp(rounds, ids, k), None, kind) + Held(Stamp(rounds, ids, k), Some(k), kind)
            == Held(rounds, None, kind)
  {
    CountShifted(RoundTags(rounds), RoundTags(Stamp(rounds, ids, k)), k, kind);
  }

  lemma HeldCleared(rounds: Table<Round>, k: nat, kind: Kind)
    ensures Held(Clear(rounds, k), None, kind) == Held(rounds, None, kind) + Held(rounds, Some(k), kind)
  {
    CountRestored(RoundTags(rounds), RoundTags(Clear(rounds, k)), k, kind);
  }

  /** No live round of this kind is selected. */
  lemma HeldUntouched(rounds: Table<Round>, ids: set<nat>, k: nat, kind: Kind)
    requires forall i :: 0 <= i < |rounds| && i in ids && rounds[i].stamp.None? ==> KindOf(rounds[i].val) != kind
    ensures Held(Stamp(rounds, ids, k), None, kind) == Held(rounds, None, kind)
  {
    CountAgrees(RoundTags(rounds), RoundTags(Stamp(rounds, ids, k)), (None, kind));
  }

  /** Every live round of this kind is selected. */
  lemma HeldEmptied(rounds: Table<Round>, ids: set<nat>, k: nat, kind: Kind)
    requires forall i :: 0 <= i < |rounds| && rounds[i].stamp.None? && KindOf(rounds[i].val) == kind ==> i in ids
    ensures Held(Stamp(rounds, ids, k), None, kind) == 0
  {
    CountIsZero(RoundTags(Stamp(rounds, ids, k)), (None, kind));
  }

  lemma HeldOne(rounds: Table<Round>, i: nat, k: nat, kind: Kind)
    requires Live(rounds, i)
    ensures Held(Stamp(rounds, {i}, k), None, kind) + Is(kind, KindOf(rounds[i].val)) == Held(rounds, None, kind)
  {
    var tags := RoundTags(rounds);
    assert RoundTags(Stamp(rounds, {i}, k)) == tags[i := (Some(k), KindOf(rounds[i].val))];
    CountUpdated(tags, i, (Some(k), KindOf(rounds[i].val)), (None, kind));
  }

  /** A live round is of a kind its phase calls for. */
  lemma LiveKindExpected(m: Match, i: nat)
    requires Fits(m) && Live(m.rounds, i)
    ensures Expected(m.status, m.currentRound, KindOf(m.rounds[i].val)) >= 1
  {
    var kind := KindOf(m.rounds[i].val);
    CountIsZero(RoundTags(m.rounds), (None, kind));
    assert RoundTags(m.rounds)[i] == (None, kind);
    assert Held(m.rounds, None, kind) == Expected(m.status, m.currentRound, kind);
  }

  /** No two live rounds are of the same kind. */
  lemma LiveKindsDiffer(m: Match, i: nat, j: nat)
    requires Fits(m) && Live(m.rounds, i) && Live(m.rounds, j) && i < j
    ensures KindOf(m.rounds[i].val) != KindOf(m.rounds[j].val)
  {
    var kind := KindOf(m.rounds[i].val);
    assert Held(m.rounds, None, kind) == Expected(m.status, m.currentRound, kind);
    if KindOf(m.rounds[j].val) == kind {
      assert RoundTags(m.rounds)[i] == (None, kind) && RoundTags(m.rounds)[j] == (None, kind);
      CountIsOne(RoundTags(m.rounds), (None, kind), i, j);
    }
  }

  /** If the phase calls for a kind, a live round of that kind exists. */
  lemma ExpectedExists(m: Match, kind: Kind) returns (i: nat)
    requires Fits(m) && Expected(m.status, m.currentRound, kind) >= 1
    ensures Live(m.rounds, i) && KindOf(m.rounds[i].val) == kind
  {
    CountIsZero(RoundTags(m.rounds), (None, kind));
    assert Held(m.rounds, None, kind) == Expected(m.status, m.currentRound, kind);
    i :| 0 <= i < |m.rounds| && RoundTags(m.rounds)[i] == (None, kind);
  }

  /** At most one round is ever open, and exactly one while the match is running or paused. */
  lemma AtMostOneOpen(m: Match, i: nat, j: nat)
    requires Fits(m) && Live(m.rounds, i) && Live(m.rounds, j)
    requires m.rounds[i].val.endedAt.None? && m.rounds[j].val.endedAt.None?
    ensures i == j
    ensures RunningNumber(m.status).Some? || PausedNumber(m.status).Some?
  {
    LiveKindExpected(m, i);
    LiveKindExpected(m, j);
    if i < j { LiveKindsDiffer(m, i, j); } else if j < i { LiveKindsDiffer(m, j, i); }
  }
}
