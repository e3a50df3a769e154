/** What becomes of a result that was published, reset, and replayed or brought back. */
module MatchReplays {
  import opened Prelude
  import opened SportRules
  import opened MatchModel
  import opened MatchCommands
  import opened MatchHistory
  import opened MatchStories
  import opened MatchStuckResults

  // ---------------------------------------------------------------- publishing, as a page

  function Published(p: Page, outcome: Outcome): Page {
    p.(status := Finished, finished := Some(outcome.publishedAt), outcome := Some(outcome))
  }

  /** The appeal nobody has cancelled stands alone, over a live round, and RED leads. */
  predicate OnlyWon(story: Story, p: Page, a: nat)
    requires Told(story, p)
  {
    && a < |p.appeals| && p.appeals[a].None? && p.rounds[story.appeals[a].source].None?
    && (forall b :: 0 <= b < |p.appeals| && b != a ==> p.appeals[b].Some?)
    && story.appeals[a].scope == Regulation && story.appeals[a].red.final > story.appeals[a].blue.final
  }

  lemma {:induction false} OnlyIsNewest(story: Story, p: Page, a: nat)
    requires Told(story, p) && OnlyWon(story, p, a)
    ensures var m := Scene(story, p);
            NewestValid(m, |m.appeals|) == Some(a) && Verdict(m, a) == Some((RED, RegulationScore))
  {
    var m := Scene(story, p);
    assert ValidAppeal(m, a);
    forall b: nat | b < |m.appeals| && ValidAppeal(m, b) ensures b == a {}
  }

  lemma {:induction false} PublishGoes(story: Story, p: Page, a: nat, key: string, t: Time)
    requires Told(story, p) && OnlyWon(story, p, a) && p.status == ResultPublicationReady && p.outcome.None?
    ensures var q := Published(p, Outcome(RED, RegulationScore, a, t, key));
            Told(story, q) && PublishResult(Scene(story, p), key, t) == Success(Scene(story, q))
  {
    OnlyIsNewest(story, p, a);
  }

  lemma {:induction false} Publishes(story: Story, script: seq<Timed>, p: Page, t: Time, a: nat, key: string)
    returns (longer: seq<Timed>, q: Page)
    requires On(story, script, p, t) && OnlyWon(story, p, a)
    requires p.status == ResultPublicationReady && p.outcome.None?
    ensures On(story, longer, q, t) && q == Published(p, Outcome(RED, RegulationScore, a, t, key))
    ensures PublishResult(Scene(story, p), key, t) == Success(Scene(story, q))
  {
    q := Published(p, Outcome(RED, RegulationScore, a, t, key));
    PublishGoes(story, p, a, key, t);
    longer := script + [Timed(Publish(key), t)];
    Then(FreshMatch(), script, Scene(story, p), t, Timed(Publish(key), t), Scene(story, q));
  }

  /** Two bouts, both won by RED. */
  predicate WonTwice(story: Story, two: nat) {
    && Twice(story, two)
    && story.appeals[0].red.final > story.appeals[0].blue.final
    && story.appeals[1].red.final > story.appeals[1].blue.final
  }

  lemma {:induction false} FirstPublished(story: Story, two: nat, key: string) returns (script: seq<Timed>, q: Page)
    requires WonTwice(story, two)
    ensures On(story, script, q, story.appeals[0].completedAt)
    ensures q.rounds == [None, None] && q.sums == [None, None] && q.appeals == [None] && q.ops == [] && q.audit == 0
    ensures q.status == Finished && q.current == Some(2) && q.started.Some?
    ensures q.outcome == Some(Outcome(RED, RegulationScore, 0, story.appeals[0].completedAt, key))
    ensures q.finished == Some(story.appeals[0].completedAt)
  {
    var earlier, p := FirstBoutWon(story, two, FirstPage());
    script, q := Publishes(story, earlier, p, story.appeals[0].completedAt, 0, key);
  }

  // ---------------------------------------------------------------- replayed

  /** The published bout is reset and another one won. */
  lemma {:induction false} SecondWon(story: Story, two: nat, key: string) returns (script: seq<Timed>, q: Page)
    requires WonTwice(story, two)
    ensures On(story, script, q, story.appeals[1].completedAt)
    ensures q.appeals == [Some(0), None] && q.rounds == [Some(0), Some(0), None, None]
    ensures q.status == ResultPublicationReady && q.outcome.Some? && q.outcome.value.key == key
  {
    var t := story.appeals[0].completedAt;
    var s1, p1 := FirstPublished(story, two, key);
    var s2, p2 := Resets(story, s1, p1, t, 0, t);
    assert p2.rounds == [Some(0), Some(0)] && p2.appeals == [Some(0)];
    var played;
    script, played, q := RegulationBout(story, s2, p2, t, two);
    assert played.rounds == [Some(0), Some(0), None, None];
    assert !exists a :: 0 <= a < |played.appeals| && Stale(story, played, a);
  }

  lemma {:induction false} RefusedTwice(story: Story, p: Page, key: string, now: Time)
    requires Told(story, p) && OnlyWon(story, p, 1) && p.status == ResultPublicationReady
    requires p.outcome.Some? && p.outcome.value.key != key
    ensures PublishResult(Scene(story, p), key, now) == Failure(AlreadyCompleted)
  {
    OnlyIsNewest(story, p, 1);
  }

  function TwoWins(): Story {
    Story([EndedRound(Regulation, 1, 0, 0), EndedRound(Regulation, 2, 0, 1), EndedRound(Regulation, 1, 0, 3),
           EndedRound(Regulation, 2, 0, 4)],
          [BonusAppeal(Regulation, 0, 1, {0, 1}, "first", 1, 2), BonusAppeal(Regulation, 0, 3, {2, 3}, "second", 1, 5)])
  }

  lemma {:induction false} TwoWinsFit(story: Story, two: nat)
    requires story == TwoWins() && two == 2
    ensures WonTwice(story, two)
  {}

  lemma {:induction false} TwoWinsTold() returns (story: Story, two: nat)
    ensures WonTwice(story, two)
  {
    story, two := TwoWins(), 2;
    TwoWinsFit(story, two);
  }

  /**
   * A result is published, everything reset and the bout fought again. The new result is ready and in progress, with an
   * appeal in force that RED leads, and is refused: an outcome stays on record for ever.
   */
  lemma {:induction false} ReplayedResultIsRefused(first: string, key: string, now: Time)
    returns (m: Match, script: seq<Timed>)
    requires key != first
    ensures m == NewMatch(FaultAppealOvertimeV2, 3, 1, 0) && TimedRun(m, script, 0)
    ensures var ready := Run(m, script);
            && ready.status == ResultPublicationReady && ready.lifecycle == InProgress
            && PublishResult(ready, key, now) == Failure(AlreadyCompleted)
  {
    var story, two := TwoWinsTold();
    m := FreshMatch();
    var p;
    script, p := SecondWon(story, two, first);
    RefusedTwice(story, p, key, now);
  }

  // ---------------------------------------------------------------- brought back

  /** The result of a bout without points, the same published, all of it reset, and the reset undone. */
  datatype Returns = Returns(ready: Match, published: Match, reset: Match, back: Match)

  ghost predicate ComesBack(r: Returns, key: string, t: Time) {
    && r.ready.outcome.None? && r.ready.status == ResultPublicationReady
    && PublishResult(r.ready, key, t) == Success(r.published)
    && r.published.outcome.Some? && r.published.outcome.value.winner == RED && r.published.status == Finished
    && SelectedRounds(r.published, true) != {} && CancelResults(r.published, true, true, t) == Success(r.reset)
    && r.reset.status != Finished && UndoCancellation(r.reset, 0) == Success(r.back)
    && r.back.outcome == r.published.outcome && r.back.status == Finished && r.back.events == []
  }

  lemma {:induction false} BackAgain(story: Story, two: nat, key: string, p2: Page, p3: Page, s3: seq<Timed>, t: Time)
    returns (longer: seq<Timed>, q: Page)
    requires WonTwice(story, two) && Told(story, p2) && On(story, s3, p3, t) && p3 == AllReset(p2, t)
    requires p2.rounds == [None, None] && p2.appeals == [None] && p2.ops == [] && t == story.appeals[0].completedAt
    requires p2.status == Finished && p2.outcome == Some(Outcome(RED, RegulationScore, 0, t, key)) && p2.audit == 0
    ensures On(story, longer, q, t) && UndoCancellation(Scene(story, p3), 0) == Success(Scene(story, q))
    ensures q.outcome == p2.outcome && q.status == Finished
  {
    assert p3.rounds == [Some(0), Some(0)] && p3.appeals == [Some(0)];
    assert Returned(p3, 0).appeals == [None];
    longer, q := TakesBack(story, s3, p3, t, 0, t);
    UndoGoes(story, p3, 0);
  }

  lemma {:induction false} PublishedComesBack(story: Story, two: nat, key: string)
    returns (script: seq<Timed>, r: Returns, t: Time)
    requires WonTwice(story, two)
    ensures Reaches(FreshMatch(), script, r.ready, t) && ComesBack(r, key, t)
  {
    t := story.appeals[0].completedAt;
    var p1;
    script, p1 := FirstBoutWon(story, two, FirstPage());
    var s2, p2 := Publishes(story, script, p1, t, 0, key);
    var s3, p3 := Resets(story, s2, p2, t, 0, t);
    ResetGoes(story, p2, 0, t);
    var s4, p4 := BackAgain(story, two, key, p2, p3, s3, t);
    r := Returns(Scene(story, p1), Scene(story, p2), Scene(story, p3), Scene(story, p4));
  }

  /** RED wins on a bonus alone: nothing is ever scored. */
  lemma {:induction false} BonusWinComesBack(key: string) returns (script: seq<Timed>, r: Returns, t: Time)
    ensures Reaches(NewMatch(FaultAppealOvertimeV2, 3, 1, 0), script, r.ready, t) && ComesBack(r, key, t)
  {
    var story, two := TwoWinsTold();
    script, r, t := PublishedComesBack(story, two, key);
  }
}
