/** Which appeals are in force in each phase, and what can be published from them. */
module MatchAppeals {
  import opened Prelude
  import opened SportRules
  import opened MatchTables
  import opened MatchModel
  import opened MatchCommands

  datatype Class = RegulationTied | RegulationDecisive | OvertimeUndecided | OvertimeDecided | OvertimeDecisive

  /** A manual decision was once made on the appeal. */
  ghost predicate HasDecision(m: Match, a: nat) {
    exists d :: 0 <= d < |m.decisions| && m.decisions[d].val.appeal == a
  }

  ghost function ClassOf(m: Match, a: nat): Class
    requires a < |m.appeals|
  {
    var appeal := m.appeals[a].val;
    if appeal.scope == Regulation then if appeal.Tied() then RegulationTied else RegulationDecisive
    else if !appeal.Tied() then OvertimeDecisive
    else if HasDecision(m, a) then OvertimeDecided else OvertimeUndecided
  }

  /** An appeal is in force, or was cancelled under a stamp together with its source round, or neither. */
  ghost function AppealTag(m: Match, a: nat): Tag<Option<Class>>
    requires a < |m.appeals|
  {
    var appeal := m.appeals[a];
    if ValidAppeal(m, a) then (None, Some(ClassOf(m, a)))
    else if appeal.stamp.Some? && appeal.val.source < |m.rounds| && m.rounds[appeal.val.source].stamp == appeal.stamp
    then (appeal.stamp, Some(ClassOf(m, a)))
    else (None, None)
  }

  ghost function AppealTags(m: Match): (tags: seq<Tag<Option<Class>>>)
    ensures |tags| == |m.appeals|
  {
    seq(|m.appeals|, a requires 0 <= a < |m.appeals| => AppealTag(m, a))
  }

  datatype Tally = Tally(regulationTied: nat, regulationDecisive: nat, undecided: nat, decided: nat, decisive: nat)

  function Nothing(): Tally { Tally(0, 0, 0, 0, 0) }

  function RegulationTiedOnly(): Tally { Tally(1, 0, 0, 0, 0) }

  function RegulationDecisiveOnly(): Tally { Tally(0, 1, 0, 0, 0) }

  function Plus(a: Tally, b: Tally): Tally {
    Tally(a.regulationTied + b.regulationTied, a.regulationDecisive + b.regulationDecisive,
          a.undecided + b.undecided, a.decided + b.decided, a.decisive + b.decisive)
  }

  /** One more appeal of the class. */
  function Bump(t: Tally, c: Class): Tally {
    match c
    case RegulationTied => t.(regulationTied := t.regulationTied + 1)
    case RegulationDecisive => t.(regulationDecisive := t.regulationDecisive + 1)
    case OvertimeUndecided => t.(undecided := t.undecided + 1)
    case OvertimeDecided => t.(decided := t.decided + 1)
    case OvertimeDecisive => t.(decisive := t.decisive + 1)
  }

  ghost function TallyTags(tags: seq<Tag<Option<Class>>>, key: Option<nat>): Tally {
    Tally(Count(tags, (key, Some(RegulationTied))), Count(tags, (key, Some(RegulationDecisive))),
          Count(tags, (key, Some(OvertimeUndecided))), Count(tags, (key, Some(OvertimeDecided))),
          Count(tags, (key, Some(OvertimeDecisive))))
  }

  /** The appeals in force (no key), or those a stamp took out of force together with their rounds. */
  ghost function TallyOf(m: Match, key: Option<nat>): Tally {
    TallyTags(AppealTags(m), key)
  }

  // ---------------------------------------------------------------- the phase table of appeals

  predicate AppealShape(s: Status, current: Option<nat>, t: Tally) {
    match s
    case AwaitingResultSave => t == Nothing() || t == RegulationTiedOnly() || t == RegulationDecisiveOnly()
    case OvertimeReady => t == RegulationTiedOnly()
    case OvertimeRunning => t == RegulationTiedOnly()
    case OvertimePaused => t == RegulationTiedOnly()
    case OvertimeAppeal => t == RegulationTiedOnly()
    case OvertimeTiebreakDecision => t == Tally(1, 0, 1, 0, 0)
    case ResultPublicationReady =>
      if current == Some(1) then t == Tally(1, 0, 0, 1, 0)
          || t == Tally(1, 0, 0, 0, 1) else t == RegulationDecisiveOnly()
    case Finished =>
      if current == Some(1) then t == Tally(1, 0, 0, 1, 0) || t == Tally(1, 0, 0, 0, 1)
      else t == Nothing() || t == RegulationTiedOnly() || t == RegulationDecisiveOnly()
    case _ => t == Nothing()
  }

  predicate IsReset(op: Operation) {
    op.kind != MatchExit
  }

  ghost predicate ResetAudit(m: Match, k: nat) {
    exists o :: 0 <= o < |m.operations| && m.operations[o].audit == k && IsReset(m.operations[o])
  }

  /** Whatever is in force in the resulting phase, giving back what the reset took fits the earlier phase. */
  ghost predicate ResetBalances(m: Match, op: Operation) {
    forall t :: AppealShape(op.resultingStatus, op.resultingCurrentRound, t) ==>
      AppealShape(op.previousStatus, op.previousCurrentRound, Plus(t, TallyOf(m, Some(op.audit))))
  }

  ghost predicate ResetsBalance(m: Match) {
    forall o :: 0 <= o < |m.operations| && IsReset(m.operations[o]) && !m.operations[o].undone ==>
        ResetBalances(m, m.operations[o])
  }

  // ---------------------------------------------------------------- what appeals and decisions refer to

  predicate AppealRefers(rounds: Table<Round>, a: Appeal) {
    && a.source < |rounds| && rounds[a.source].val.stage == a.scope
    && (a.scope == Regulation ==> rounds[a.source].val.number == 2)
    && (forall i :: i in a.sourceRounds ==> i < |rounds| && rounds[i].val.stage == a.scope)
    && a.source in a.sourceRounds
    && (a.scope == Overtime ==> a.sourceRounds == {a.source})
  }

  ghost predicate AppealsRefer(m: Match) {
    forall a :: 0 <= a < |m.appeals| ==> AppealRefers(m.rounds, m.appeals[a].val)
  }

  predicate DecisionRefers(appeals: Table<Appeal>, d: Decision) {
    && d.appeal < |appeals| && appeals[d.appeal].val.scope == Overtime && appeals[d.appeal].val.Tied()
    && d.overtimeRound == appeals[d.appeal].val.source
  }

  ghost predicate DecisionsRefer(m: Match) {
    forall d :: 0 <= d < |m.decisions| ==> DecisionRefers(m.appeals, m.decisions[d].val)
  }

  /** A live source has a live appeal; a reset takes an appeal with its source, under the same stamp. */
  ghost predicate AppealPaired(m: Match, a: nat)
    requires a < |m.appeals|
  {
    m.appeals[a].val.source < |m.rounds| &&
    match m.rounds[m.appeals[a].val.source].stamp
    case None => m.appeals[a].stamp.None?
    case Some(k) => ResetAudit(m, k) ==> m.appeals[a].stamp == Some(k)
  }

  ghost predicate AppealsPaired(m: Match) {
    forall a :: 0 <= a < |m.appeals| ==> AppealPaired(m, a)
  }

  /** A decision is live while its appeal is; a reset takes it with its appeal or finds it gone. */
  ghost predicate DecisionPaired(m: Match, d: nat)
    requires d < |m.decisions|
  {
    m.decisions[d].val.appeal < |m.appeals| &&
    match m.appeals[m.decisions[d].val.appeal].stamp
    case None => m.decisions[d].stamp.None?
    case Some(k) => ResetAudit(m, k) ==> m.decisions[d].stamp.None? || m.decisions[d].stamp == Some(k)
  }

  ghost predicate DecisionsPaired(m: Match) {
    forall d :: 0 <= d < |m.decisions| ==> DecisionPaired(m, d)
  }

  /** A regulation appeal is older than an overtime appeal that stands with it. */
  ghost predicate InOrder(m: Match, a: nat, b: nat)
    requires a < |m.appeals| && b < |m.appeals|
  {
    m.appeals[a].val.scope == Regulation && m.appeals[b].val.scope == Overtime ==>
      m.appeals[a].val.completedAt < m.appeals[b].val.completedAt
  }

  /** Both appeals are in force, or both went out of force under the same stamp. */
  ghost predicate Together(m: Match, a: nat, b: nat)
    requires a < |m.appeals| && b < |m.appeals|
  {
    AppealTag(m, a).1.Some? && AppealTag(m, b).1.Some? && AppealTag(m, a).0 == AppealTag(m, b).0
  }

  ghost predicate AppealsInOrder(m: Match) {
    forall a, b :: 0 <= a < |m.appeals| && 0 <= b < |m.appeals| && Together(m, a, b) ==> InOrder(m, a, b)
  }

  ghost predicate ReferencesOK(m: Match) {
    AppealsRefer(m) && DecisionsRefer(m) && AppealsPaired(m) && DecisionsPaired(m)
  }

  ghost predicate AppealsOK(m: Match) {
    && ReferencesOK(m)
    && AppealShape(m.status, m.currentRound, TallyOf(m, None))
    && ResetsBalance(m)
    && AppealsInOrder(m)
  }

  /** The appeals in force are earlier than now. */
  ghost predicate ClockMoved(m: Match, now: Time) {
    forall a :: 0 <= a < |m.appeals| && ValidAppeal(m, a) ==> m.appeals[a].val.completedAt < now
  }

  // ---------------------------------------------------------------- counting

  lemma TallyShifted(s: seq<Tag<Option<Class>>>, t: seq<Tag<Option<Class>>>, k: nat)
    requires |s| == |t|
    requires forall i :: 0 <= i < |s| ==> s[i].0 != Some(k)
    requires forall i :: 0 <= i < |s| ==> t[i] == s[i] || (s[i].0 == None && t[i] == (Some(k), s[i].1))
    ensures Plus(TallyTags(t, None), TallyTags(t, Some(k))) == TallyTags(s, None)
  {
    CountShifted(s, t, k, Some(RegulationTied));
    CountShifted(s, t, k, Some(RegulationDecisive));
    CountShifted(s, t, k, Some(OvertimeUndecided));
    CountShifted(s, t, k, Some(OvertimeDecided));
    CountShifted(s, t, k, Some(OvertimeDecisive));
  }

  lemma TallyRestored(s: seq<Tag<Option<Class>>>, t: seq<Tag<Option<Class>>>, k: nat)
    requires |s| == |t|
    requires forall i :: 0 <= i < |s| ==> t[i] == if s[i].0 == Some(k) then (None, s[i].1) else s[i]
    ensures TallyTags(t, None) == Plus(TallyTags(s, None), TallyTags(s, Some(k)))
  {
    CountRestored(s, t, k, Some(RegulationTied));
    CountRestored(s, t, k, Some(RegulationDecisive));
    CountRestored(s, t, k, Some(OvertimeUndecided));
    CountRestored(s, t, k, Some(OvertimeDecided));
    CountRestored(s, t, k, Some(OvertimeDecisive));
  }

  /** The same rows stand under the key, in the same classes. */
  ghost predicate SameUnder(s: seq<Tag<Option<Class>>>, t: seq<Tag<Option<Class>>>, key: Option<nat>) {
    && |s| <= |t|
    && (forall i, c :: 0 <= i < |s| ==> (s[i] == (key, Some(c)) <==> t[i] == (key, Some(c))))
    && (forall i, c :: |s| <= i < |t| ==> t[i] != (key, Some(c)))
  }

  lemma TallySame(s: seq<Tag<Option<Class>>>, t: seq<Tag<Option<Class>>>, key: Option<nat>)
    requires SameUnder(s, t, key)
    ensures TallyTags(t, key) == TallyTags(s, key)
  {
    CountAgrees(s, t, (key, Some(RegulationTied)));
    CountAgrees(s, t, (key, Some(RegulationDecisive)));
    CountAgrees(s, t, (key, Some(OvertimeUndecided)));
    CountAgrees(s, t, (key, Some(OvertimeDecided)));
    CountAgrees(s, t, (key, Some(OvertimeDecisive)));
  }

  lemma TallyAppended(s: seq<Tag<Option<Class>>>, c: Class)
    ensures TallyTags(s + [(None, Some(c))], None) == Bump(TallyTags(s, None), c)
  {
    assert (s + [(None, Some(c))])[..|s|] == s;
  }

  lemma TallyNone(s: seq<Tag<Option<Class>>>, key: Option<nat>)
    requires forall i :: 0 <= i < |s| ==> s[i].0 != key || s[i].1.None?
    ensures TallyTags(s, key) == Nothing()
  {
    CountIsZero(s, (key, Some(RegulationTied)));
    CountIsZero(s, (key, Some(RegulationDecisive)));
    CountIsZero(s, (key, Some(OvertimeUndecided)));
    CountIsZero(s, (key, Some(OvertimeDecided)));
    CountIsZero(s, (key, Some(OvertimeDecisive)));
  }

  function ClassCount(t: Tally, c: Class): nat {
    match c
    case RegulationTied => t.regulationTied
    case RegulationDecisive => t.regulationDecisive
    case OvertimeUndecided => t.undecided
    case OvertimeDecided => t.decided
    case OvertimeDecisive => t.decisive
  }

  /** An appeal in force is counted. */
  lemma ValidIsCounted(m: Match, a: nat)
    requires a < |m.appeals| && ValidAppeal(m, a)
    ensures ClassCount(TallyOf(m, None), ClassOf(m, a)) >= 1
  {
    assert AppealTags(m)[a] == (None, Some(ClassOf(m, a)));
    CountIsZero(AppealTags(m), (None, Some(ClassOf(m, a))));
  }

  /** A class that is counted has an appeal in force. */
  lemma CountedIsValid(m: Match, c: Class) returns (a: nat)
    requires ClassCount(TallyOf(m, None), c) >= 1
    ensures a < |m.appeals| && ValidAppeal(m, a) && ClassOf(m, a) == c
  {
    CountIsZero(AppealTags(m), (None, Some(c)));
    a :| 0 <= a < |m.appeals| && AppealTags(m)[a] == (None, Some(c));
  }

  /** A class counted once has one appeal in force. */
  lemma CountedOnce(m: Match, a: nat, b: nat)
    requires a < |m.appeals| && b < |m.appeals| && ValidAppeal(m, a) && ValidAppeal(m, b)
    requires ClassOf(m, a) == ClassOf(m, b) && ClassCount(TallyOf(m, None), ClassOf(m, a)) == 1
    ensures a == b
  {
    var tags := AppealTags(m);
    assert tags[a] == (None, Some(ClassOf(m, a))) && tags[b] == (None, Some(ClassOf(m, b)));
    if a < b { CountIsOne(tags, tags[a], a, b); } else if b < a { CountIsOne(tags, tags[a], b, a); }
  }

  // ---------------------------------------------------------------- publication

  /** On an appeal in force, a live decision is found exactly when one was made. */
  lemma DecisionIsFound(m: Match, a: nat)
    requires ReferencesOK(m) && a < |m.appeals| && ValidAppeal(m, a)
    ensures FindDecision(m.decisions, a).Some? <==> HasDecision(m, a)
  {
    if HasDecision(m, a) {
      var d :| 0 <= d < |m.decisions| && m.decisions[d].val.appeal == a;
      assert DecisionPaired(m, d);
    }
  }

  /** What can be read off an appeal in force. */
  lemma VerdictOf(m: Match, a: nat)
    requires ReferencesOK(m) && a < |m.appeals| && ValidAppeal(m, a)
    ensures Verdict(m, a).Some? <==> ClassOf(m, a) != RegulationTied && ClassOf(m, a) != OvertimeUndecided
  {
    DecisionIsFound(m, a);
    if FindDecision(m.decisions, a).Some? {
      assert DecisionRefers(m.appeals, m.decisions[FindDecision(m.decisions, a).value].val);
    }
  }

  /** The newest appeal in force always settles a result that is ready for publication. */
  lemma NewestSettles(m: Match)
    requires AppealsOK(m) && m.status == ResultPublicationReady
    ensures NewestValid(m, |m.appeals|).Some? && Verdict(m, NewestValid(m, |m.appeals|).value).Some?
  {
    var t := TallyOf(m, None);
    var c := if t.regulationDecisive == 1 then RegulationDecisive else if t.decided == 1 then OvertimeDecided
        else OvertimeDecisive;
    var b := CountedIsValid(m, c);
    var a := NewestValid(m, |m.appeals|).value;
    ValidIsCounted(m, a);
    VerdictOf(m, a);
    assert Together(m, a, b);
    assert InOrder(m, a, b);
  }

  /**
   * A result that is ready and in progress under the V2 rules and was never published can be published. The
   * winner strictly leads the newest appeal in force, or that appeal is a tied overtime appeal and a live
   * manual decision on it names the winner.
   */
  lemma PublicationSucceeds(m: Match, key: string, now: Time)
    requires AppealsOK(m) && m.status == ResultPublicationReady && m.lifecycle == InProgress
    requires m.rules == FaultAppealOvertimeV2 && m.outcome.None?
    ensures PublishResult(m, key, now).Success?
    ensures var outcome := PublishResult(m, key, now).value.outcome.value;
            && outcome.appeal < |m.appeals| && ValidAppeal(m, outcome.appeal)
            && (forall i: nat :: i < |m.appeals| && ValidAppeal(m, i) ==>
                  m.appeals[i].val.completedAt <= m.appeals[outcome.appeal].val.completedAt)
            && (Leads(m.appeals[outcome.appeal].val, outcome.winner) || DecidedFor(m, outcome.appeal, outcome.winner))
  {
    NewestSettles(m);
    var a := NewestValid(m, |m.appeals|).value;
    DecisionIsFound(m, a);
  }

  /** The request brings a key of its own. */
  predicate Unanswered(m: Match, key: string) {
    m.outcome.Some? ==> m.outcome.value.key != key
  }

  /** A ready result is published exactly when none was published before, be it reset since. */
  lemma PublicationIsOnce(m: Match, key: string, now: Time)
    requires AppealsOK(m) && m.status == ResultPublicationReady && m.lifecycle == InProgress
    requires m.rules == FaultAppealOvertimeV2 && Unanswered(m, key)
    ensures PublishResult(m, key, now).Success? <==> m.outcome.None?
    ensures m.outcome.Some? ==> PublishResult(m, key, now) == Failure(AlreadyCompleted)
  {
    NewestSettles(m);
  }

  predicate Leads(a: Appeal, winner: Color) {
    if winner == RED then a.red.final > a.blue.final else a.blue.final > a.red.final
  }

  ghost predicate DecidedFor(m: Match, a: nat, winner: Color)
    requires a < |m.appeals|
  {
    && m.appeals[a].val.scope == Overtime && m.appeals[a].val.Tied()
    && exists d :: 0 <= d < |m.decisions| && m.decisions[d].stamp.None? && m.decisions[d].val.appeal == a &&
                   m.decisions[d].val.winner == winner
  }

  /**
   * After overtime, everything hangs on the order of the two appeals in force: publication succeeds exactly when
   * the overtime appeal is the newer one.
   */
  lemma PublicationNeedsOrder(m: Match, key: string, now: Time, r: nat, o: nat)
    requires ReferencesOK(m) && AppealShape(m.status, m.currentRound, TallyOf(m, None))
    requires m.status == ResultPublicationReady && m.currentRound == Some(1) && m.lifecycle == InProgress
    requires m.rules == FaultAppealOvertimeV2 && m.outcome.None?
    requires r < |m.appeals| && o < |m.appeals| && ValidAppeal(m, r) && ValidAppeal(m, o)
    requires m.appeals[r].val.scope == Regulation && m.appeals[o].val.scope == Overtime
    requires m.appeals[r].val.completedAt != m.appeals[o].val.completedAt
    ensures PublishResult(m, key, now).Success? <==> m.appeals[r].val.completedAt < m.appeals[o].val.completedAt
  {
    var a := NewestValid(m, |m.appeals|).value;
    ValidIsCounted(m, a);
    ValidIsCounted(m, r);
    ValidIsCounted(m, o);
    VerdictOf(m, a);
    if ClassOf(m, a) == RegulationTied { CountedOnce(m, a, r); } else { CountedOnce(m, a, o); }
  }
}
