# Tournament brackets, live matches and officials

A Dafny model of the three parts of the competition server that decide who wins a tournament.

- **The single-elimination bracket.** Lots are drawn, byes are placed, and the fixture tree is built bottom-up. A preview
  may exchange two entrants, a confirmation turns the graph into rows, and from then on winners are propagated, ties wait
  for a decision, officials decide by hand and a reset takes an outcome back.
- **The match.** A phase machine (rounds, pauses, appeals, overtime, tiebreak, publication) over append-only tables of
  rounds, one-second voting windows, votes, score events, captured summaries, appeals and decisions. Nothing is ever
  deleted: a cancellation stamps rows with the id of its audit entry, and undoing it lifts exactly those stamps.
- **Crews.** An inspector takes a match with a panel of referees, changes the panel, and releases everybody.

A transaction is one atomic step, and one that throws changes nothing. A run is any sequence of commands. Wake-ups may
come at any time, late, repeatedly or for any row. A command that would break a unique index or a check of the database
throws as well (`ConstraintViolated`), so every run shown here respects them. The client's session, token and connection checks come before all
of this and are not modelled.

Each part has three layers: functions on values that say what a command does (`BracketOutcome`, `MatchCommands`,
`Assignments`), classes that update their rows in place and are proved against those functions (`LiveBracket.Board`,
`LiveMatch.MatchRecord`, `Assignments.Desk`), and theorems about every run. Where the original loops, so do the
methods: the generator, the linking of fixtures, confirmation, propagation, withdrawal, totals, the projection of
scores, and the resolution of due windows.

`dafny verify dfyconfig.toml` checks everything.

## Reading guide

| files | what is in them |
|---|---|
| `BracketSummary`, `BracketGraph`, `BracketShape`, `BracketDraw`, `BracketPreview`, `BracketConfirmation` | from a list of athletes to the rows of a confirmed bracket |
| `BracketOutcome`, `BracketInvariant`, `BracketRuns`, `BracketKnockout`, `KnockoutRefinement`, `LiveBracket` | the live bracket, its invariant, and the champion as a recursive knockout of the draw |
| `MatchTables`, `MatchModel`, `MatchCommands`, `MatchHistory`, `MatchColumns`, `MatchClock` | the match, its commands, and what no command can touch |
| `MatchConstraints` | the unique indexes and checks of the database, over every run |
| `MatchPhases`, `MatchPhaseSteps` | the phase fixes the live rounds |
| `MatchLedger`, `MatchScores`, `MatchVoting`, `MatchBlockedVotes`, `MatchCaptures`, `RoundTiming` | votes, points, captured scores, competition time |
| `MatchAppeals`, `MatchAppealSteps`, `MatchAppealRuns`, `MatchExitUndo`, `MatchPublication` | which appeals are in force, and that a ready result can be published |
| `MatchExamples`, `MatchStories`, `MatchStuckResults`, `MatchStaleAppeals`, `MatchEqualTimes`, `MatchReplays` | runs of a new match that show why each hypothesis is needed |
| `LiveMatch`, `MatchInBracket` | the match row updated in place; a match and its fixture together |
| `Assignments`, `SportRules` | crews; majorities and winners |

## Hypotheses

The code relies on these without checking them. Each is the guard of the step that would go wrong, each comes with a
lemma saying that the step keeps the invariant exactly when it holds, and each with a run of a new match in which
it does not (see "Findings").

- `MatchHistory.Permitted`: a wake-up that ends a round and a vote that opens a window find a live round; the exits that
  keep regulation rounds are not taken over a live overtime round; a restart finds an appeal over a live round.
- `MatchPublication.Orderly`: an undo brings back appeals that fit with those in force (`ReturnsWell`); an overtime appeal
  is not committed in the same millisecond as a regulation appeal in force (`MatchAppeals.ClockMoved`, which
  `MatchClock.TickingClockMoves` derives when no two commands share a millisecond); a manual decision finds an appeal
  over a live round (`MatchHistory.DecidesInForce`).
- `MatchCaptures.AllDue`: when a round ends, all its windows are due.
- `BracketRuns.Permitted`: the match that is reset does not feed a fixture that was won by withdrawal.

Theorems that speak of time take runs in clock order (`MatchHistory.TimedRun`). `MatchVoting.VotingOfAnyRun` asks for
clock order alone, and `MatchConstraints.ConstraintsOfAnyRun` for nothing at all.

## Model

| member | source | states |
|---|---|---|
| `KnockoutRefinement.BracketRefinesKnockout` | apps/api/src/brackets/bracket-outcome.service.ts:317-415 | Confirm any valid draw, fix a winner for every pairing, and decide open fixtures in any order until none is open: exactly n - 1 rulings, every fixture COMPLETED, the bracket finished, and the champion is the recursive knockout of the draw. |
| `KnockoutRefinement.ConfirmedBracketOK` | apps/api/src/brackets/bracket-confirmation.service.ts:188-274 | A freshly confirmed bracket satisfies the bracket invariant with nothing decided and one fixture fewer than athletes. |
| `BracketKnockout.CompleteRunCrownsTheKnockout` | apps/api/src/brackets/bracket-outcome.service.ts:317-415 | The same for any bracket in order: one ruling a fixture, whatever the order, and the champion is the knockout of the picks. |
| `BracketKnockout.FinishedBracketIsKnockout` | apps/api/src/brackets/bracket-outcome.service.ts:27-109 | After any permitted run of prepare, finish, reset and manual decisions, a finished bracket's champion is the knockout of the bouts as they were decided. |
| `BracketRuns.RunKeepsInvariant` | apps/api/src/brackets/bracket-outcome.service.ts:140-383 | Over every permitted run: a winner-fed slot holds e iff its source was won by e, winners are participants, PENDING_PARTICIPANTS iff a slot is empty, and the champion is the final's winner. The graph never changes. |
| `BracketRuns.ParticipantsDiffer` | apps/api/src/brackets/bracket-outcome.service.ts:317-383 | In every such state the two participants of a fixture are two different athletes. |
| `BracketRuns.ProcessKeepsInvariant` | apps/api/src/brackets/bracket-outcome.service.ts:27-109 | Processing a finished match never fails and keeps the invariant; a drawn bout waits for a decision, any other goes to the slot of the winning colour. |
| `BracketRuns.ManualKeepsInvariant` | apps/api/src/brackets/bracket-outcome.service.ts:212-296 | A manual decision keeps the invariant and never fails on unresolved participants or a conflicting slot. |
| `BracketRuns.ReopenKeepsInvariant` | apps/api/src/realtime/match-lifecycle.service.ts:1060-1073 | Resetting a finished match takes its outcome back, returns its fixture to MATCH_PREPARED and keeps the invariant. |
| `BracketInvariant.RetractUndoesDecide` | apps/api/src/brackets/bracket-outcome.service.ts:116-210 | From a prepared fixture, deciding either participant and retracting restores the whole bracket, also for the final and for a downstream fixture that had become READY. |
| `BracketInvariant.RetractUndoesTie` | apps/api/src/brackets/bracket-outcome.service.ts:116-210 | The same for a recorded tie. |
| `BracketInvariant.RetractKeepsInvariantExactly` | apps/api/src/brackets/bracket-outcome.service.ts:140-192 | An accepted retraction keeps the invariant if and only if no fixture it feeds has a winner. |
| `BracketRuns.ResetBelowWithdrawalBreaks` | apps/api/src/brackets/bracket-outcome.service.ts:145-150 | Three entrants, all commands accepted: the final ends with a champion and an empty slot. |
| `BracketRuns.ReplayAgreesExactly` | apps/api/src/realtime/match-lifecycle.service.ts:1484-1493 | Settling a fixture again from the score events gives it the published winner if and only if the events give that colour the higher total. |
| `LiveBracket.Board.constructor` | apps/api/src/brackets/bracket-confirmation.service.ts:188-274 | A board holds exactly the rows of the bracket it is given, with no request answered yet. |
| `LiveBracket.Board.Decide` | apps/api/src/brackets/bracket-outcome.service.ts:317-415 | The loop over downstream slots commits exactly the specified bracket, or reports a conflict and leaves every row as it was. |
| `LiveBracket.Board.ProcessFinishedMatch` | apps/api/src/brackets/bracket-outcome.service.ts:27-109 | Adds the totals up in a loop, prefers a published winner, records a tie or decides; commits exactly the specified rows or none. |
| `LiveBracket.Board.PrepareMatch` | apps/api/src/admin-management/admin-management.service.ts:733-882 | Creates the match of a fixture that is READY in an active bracket, and refuses any other; the invariant is kept. |
| `LiveBracket.Board.FinishMatch` | apps/api/src/realtime/result-publication.service.ts:184-192 | Marks the match finished and settles its fixture in one transaction; the invariant is kept. |
| `LiveBracket.Board.ReopenMatch` | apps/api/src/brackets/bracket-outcome.service.ts:116-210 | Takes an outcome back slot by slot, refuses when a downstream match is prepared, and keeps the invariant when nothing downstream is decided. |
| `LiveBracket.Board.ManuallyDecide` | apps/api/src/brackets/bracket-outcome.service.ts:212-296 | A key that was used answers the same request with success and any other with an error, and changes nothing; a new key decides once. The invariant is kept. |
| `LiveBracket.AdvanceAll` | apps/api/src/brackets/bracket-outcome.service.ts:345-383 | The loop puts the winner into every slot fed by the fixture, and fails if and only if one of them already holds somebody else. |
| `LiveBracket.WithdrawAll` | apps/api/src/brackets/bracket-outcome.service.ts:162-192 | The loop empties exactly the slots fed by the fixture, and sends those fixtures back to PENDING_PARTICIPANTS. |
| `BracketDraw.GenerateSingleEliminationBracket` | apps/api/src/brackets/single-elimination-bracket.generator.ts:96-141 | With an in-range random source, generation succeeds if and only if the input passes the guards. The draw holds every athlete once, fills up with byes, never two in a pair, and gives every designated athlete one; the build never fails on it. |
| `BracketDraw.FisherYatesShuffle` | apps/api/src/brackets/single-elimination-bracket.generator.ts:257-270 | A permutation of the items; it fails only on an index out of range. |
| `BracketDraw.ChooseByePairPositions` | apps/api/src/brackets/single-elimination-bracket.generator.ts:283-294 | As many distinct pairs as there are byes, each in range. |
| `BracketDraw.CreateInitialEntrants` | apps/api/src/brackets/single-elimination-bracket.generator.ts:296-324 | The chosen pairs hold a recipient and a bye, in order; the others hold two contestants; nobody is lost or doubled. |
| `BracketGraph.BuildSingleEliminationBracket` | apps/api/src/brackets/single-elimination-bracket.generator.ts:157-228 | Succeeds if and only if positions, size, uniqueness and byes are right, and then builds exactly the tree of the draw; a missing source or an incomplete pair never occurs. |
| `BracketGraph.LinkDownstreamFixtures` | apps/api/src/brackets/single-elimination-bracket.generator.ts:375-387 | Fails if and only if some source is not among the fixtures; otherwise a fixture points to the last fixture and side that names it. |
| `BracketGraph.LinkingIsParity` | apps/api/src/brackets/single-elimination-bracket.generator.ts:375-387 | On the built tree every source resolves, and the last reference to (r, p) is (r + 1, ceil(p / 2)) on the side given by the parity of p. |
| `BracketGraph.BitTestIsPowerOfTwo` | apps/api/src/brackets/single-elimination-bracket.generator.ts:157-183 | The bit test n & (n - 1) accepts exactly the powers of two. |
| `BracketShape.WinnersGoUp` | apps/api/src/brackets/single-elimination-bracket.generator.ts:184-228 | Ids are unique, sources come first, one final; fixture (r, p) feeds exactly (r + 1, ceil(p / 2)), RED iff p is odd. |
| `BracketShape.LinksAgree` | apps/api/src/brackets/single-elimination-bracket.generator.ts:349-387 | A slot waits for a fixture if and only if that fixture names the slot as its downstream slot. |
| `BracketShape.EachEntrantFillsOneSlot` | apps/api/src/brackets/single-elimination-bracket.generator.ts:184-228 | Every athlete fills one slot and only one, in round 1, or in round 2 after a bye, at the place the draw position gives. |
| `BracketShape.FixtureCounts` | apps/api/src/brackets/single-elimination-bracket.generator.ts:184-228 | n athletes give n - 1 fixtures, n - size / 2 of them in round 1, as the summary announces. |
| `BracketSummary.NextPowerOfTwo` | apps/api/src/brackets/bracket-summary.ts:35-39 | The doubling loop ends at the least power of two not below the value (`ExponentIsLeast`). |
| `BracketSummary.SummarizeBracket` | apps/api/src/brackets/bracket-summary.ts:17-33 | Rejects fewer than 2 and more than 64 athletes; otherwise answers the summary of the draw's shape. |
| `BracketSummary.SummaryFits` | apps/api/src/brackets/bracket-summary.ts:17-33 | For every n >= 2, byes are fewer than pairs, byes and opening fixtures fill the first round, and the counts add up. |
| `BracketPreview.Swap` | apps/api/src/brackets/bracket-preview.service.ts:207-311 | Fails exactly on equal athletes, then exactly on one that is not eligible or not placed; otherwise an accepted draw is rebuilt as the draw with the two names traded. |
| `BracketPreview.SwapRenamesBracket` | apps/api/src/brackets/bracket-preview.service.ts:278-311 | The new bracket is the old one with the two names traded in every slot: ids, positions, sources and links are untouched. |
| `BracketPreview.SwapTwiceRestores` | apps/api/src/brackets/bracket-preview.service.ts:207-311 | Two requests: an exchange is granted if and only if both athletes are eligible, placed and different, and the same request on the preview it answered with is granted too and gives the first preview back. |
| `BracketPreview.ByesFixTheShape` | apps/api/src/brackets/single-elimination-bracket.generator.ts:184-215 | Two draws with byes in the same places have the same fixture graph up to names. |
| `BracketConfirmation.Confirm` | apps/api/src/brackets/bracket-confirmation.service.ts:188-274 | Succeeds if and only if the draw is accepted and its athletes are the eligible ones. Then every entrant is listed with its opening fixture, a bye means exactly an opening in round 2, and the rows materialise the graph; no id lookup is ever missed. |
| `BracketConfirmation.CreateFixtures` | apps/api/src/brackets/bracket-confirmation.service.ts:236-274 | The loop finds every source id among the rows it has already created, and its rows are the graph's, in order. |
| `MatchPhaseSteps.RunPhase` | apps/api/src/realtime/match-lifecycle.service.ts:211-1804 | After any permitted run the phase fixes the live rounds, attempt numbers increase over the whole history, and each operation that can still be undone holds exactly the rounds its earlier phase needs. |
| `MatchPhaseSteps.NewMatchPhase` | apps/api/src/realtime/match-lifecycle.service.ts:2014-2045 | A new match satisfies it. |
| `MatchPhases.AtMostOneOpen` | apps/api/src/realtime/match-lifecycle.service.ts:253-308 | At most one live round is open, and only in a running or paused phase. |
| `MatchPhaseSteps.StepAttempts` | apps/api/src/realtime/match-lifecycle.service.ts:2014-2045 | Every command keeps overtime attempts strictly increasing, cancelled ones included. |
| `MatchPhaseSteps.ExitKeepsPhaseExactly` | apps/api/src/realtime/match-lifecycle.service.ts:640-661 | An accepted exit that keeps regulation rounds keeps the phase table if and only if no overtime round is live. |
| `MatchPhaseSteps.ExpiryKeepsPhaseExactly` | apps/api/src/realtime/match-lifecycle.service.ts:1641-1698 | A wake-up that ends a round keeps the phase table if and only if that round is live. |
| `MatchPhaseSteps.RestartKeepsPhaseExactly` | apps/api/src/realtime/overtime.service.ts:243-337 | A restart keeps the phase table if and only if the appeal it finds is over a live round. |
| `MatchConstraints.ConstraintsOfAnyRun` | apps/api/prisma/migrations/20260921100000_fault_appeal_overtime_persistence/migration.sql:94 | After any commands in any order: no two live appeals of one scope and attempt, at most one unresolved window, at most one decision an appeal, and lifecycle, phase and times that fit one another. |
| `MatchConstraints.RunKeepsConstraints` | apps/api/prisma/migrations/20260922100000_result_publication_decisions/migration.sql:16 | The same from any state in which they hold. |
| `MatchConstraints.RowPassesChecks` | apps/api/prisma/migrations/20260920120000_match_lifecycle_phase_foundation/migration.sql:27-34 | So a completed match is finished and a match not started is waiting, as the checks ask. |
| `MatchConstraints.SuspendedStandsStill` | apps/api/prisma/migrations/20260920120000_match_lifecycle_phase_foundation/migration.sql:35-37 | A suspended match is not started, ended, reset, completed or published by any command, and an undo can only leave it suspended. |
| `MatchConstraints.LiveRoundsDiffer` | apps/api/prisma/migrations/20260921100000_fault_appeal_overtime_persistence/migration.sql:34-36 | Live rounds differ in stage, attempt or number in every state that satisfies the phase table, so the index on rounds never refuses one. |
| `MatchHistory.UndoRestoresExactly` | apps/api/src/realtime/match-lifecycle.service.ts:1338-1483 | Cancel, let anything permitted happen except undoing that cancellation, then undo it: phase, current round, start and finish times are as before, exactly the stamped rows come back unchanged, no other row moves, and only the intermission deadline is gone. |
| `MatchHistory.RunCarries` | apps/api/src/realtime/match-lifecycle.service.ts:1148-1285 | Over every run, nothing but its own undo touches a row a cancellation stamped, and recorded operations stay. |
| `MatchClock.CancelThenUndoOnAnyRun` | apps/api/src/realtime/match-lifecycle.service.ts:1338-1493 | After any permitted run of a new match in clock order, a cancellation that is accepted can be undone at once, and that is the identity on the match and its ledger except for the intermission deadline. |
| `MatchClock.RunWritten` | apps/api/src/realtime/match-lifecycle.service.ts:1358-1415 | Over every run in clock order no row bears a time later than the clock. |
| `MatchClock.TickingClockMoves` | apps/api/src/realtime/match-lifecycle.service.ts:1358-1415 | When the clock moves between two commands, no appeal in force is as late as a new one. |
| `MatchColumns.StepColumns` | apps/api/src/realtime/scoring.service.ts:559-594 | No command rewrites a written column: a window is resolved at most once and its colour stands, an ended round keeps its end, contents of votes, events, appeals and decisions never change. |
| `MatchScores.RunLedger` | apps/api/src/realtime/match-score-projection.ts:8-53 | Through resolution, cancellation, exit, restart and undo, the points of a set of rounds are the number of live windows won there. |
| `MatchScores.ProjectionOfAnyRun` | apps/api/src/realtime/match-score-projection.ts:24-52 | The same from a new match on. |
| `MatchScores.ProjectionCountsWindows` | apps/api/src/realtime/match-score-projection.ts:24-52 | A projected score over the live rounds counts the live windows resolved in that colour in live rounds. |
| `MatchScores.ScoreProjection` | apps/api/src/realtime/match-score-projection.ts:8-53 | The loop over the events leaves each colour's points over the valid rounds in the map, for exactly the two colours. |
| `MatchLedger.OpenFollowsExactly` | apps/api/src/realtime/scoring.service.ts:225-325 | A window opened by a vote is cancelled together with its round if and only if the round the vote found is live. |
| `MatchVoting.RunVoting` | apps/api/src/realtime/scoring.service.ts:261-402 | Over any commands in clock order: at most one unresolved window, cancelled or not, all windows disjoint half-open intervals, none resolved before its end, every vote inside its window, one vote a judge and window. |
| `MatchVoting.VotingOfAnyRun` | apps/api/src/realtime/scoring.service.ts:261-402 | The same from a new match on. |
| `MatchVoting.CrewDecidesWindow` | apps/api/src/realtime/scoring.service.ts:524-557 | When the votes of a window come from a crew of the required size, a colour is awarded if and only if it reaches the majority. |
| `MatchBlockedVotes.VoteOpensExactly` | apps/api/prisma/migrations/20260831020000_scoring_engine/migration.sql:6-8 | With no vote out, a vote in a running round opens a window if and only if no cancelled window is unresolved; otherwise the index on unresolved windows refuses it. |
| `MatchBlockedVotes.StaysBlocked` | apps/api/prisma/migrations/20260831020000_scoring_engine/migration.sql:6-8 | An unresolved window under a stamp stays there over every permitted run that does not undo that stamp, and all that time no window opens and every vote is refused. |
| `MatchBlockedVotes.CancelBlocksExactly` | apps/api/src/realtime/match-lifecycle.service.ts:1148-1285 | A cancellation blocks voting if and only if a vote is out in a round it takes. |
| `MatchBlockedVotes.ExitBlocksExactly` | apps/api/src/realtime/match-lifecycle.service.ts:640-782 | An exit does if and only if a vote is out under a round number it takes. |
| `MatchBlockedVotes.RestartBlocksExactly` | apps/api/src/realtime/overtime.service.ts:262-337 | A restart does if and only if a vote is out in the overtime it sets aside. |
| `MatchBlockedVotes.UndoUnblocksExactly` | apps/api/src/realtime/match-lifecycle.service.ts:1429-1464 | An undo ends the block if and only if it lifts the stamp of that window. |
| `MatchCaptures.RunCaptures` | apps/api/src/realtime/match-lifecycle.service.ts:1718-1756 | When all windows of a round are due at its end, what the round captured equals its points on the ledger for as long as the round is live. |
| `MatchCaptures.CapturesOfAnyRun` | apps/api/src/realtime/match-lifecycle.service.ts:1718-1756 | The same from a new match on. |
| `MatchCaptures.RegulationAppealCommitsPreview` | apps/api/src/realtime/regulation-appeal.service.ts:191-217 | The base and final scores a regulation appeal commits are those of the live preview over rounds 1 and 2. |
| `MatchCaptures.OvertimeAppealCommitsPreview` | apps/api/src/realtime/realtime-match-state.service.ts:430-502 | The same for an overtime appeal over its round. |
| `MatchCaptures.LateWindowMovesLedgerExactly` | apps/api/src/realtime/match-lifecycle.service.ts:1711-1756 | A window that outlives the capture keeps both equal if and only if it is not awarded to that colour. |
| `RoundTiming.ElapsedIsRunningTimeExactly` | apps/api/src/realtime/round-timing.ts:11-24 | After any run of a new match, the elapsed time of a running round is its running time plus the time a reset hid it unpaused, up to the duration: the running time if and only if nothing was hidden. |
| `RoundTiming.ElapsedIsRunningTime` | apps/api/src/realtime/match-lifecycle.service.ts:480-492 | Without an undo that gives a running round back, any number of pauses conserve competition time. |
| `RoundTiming.StepStops` | apps/api/src/realtime/match-lifecycle.service.ts:391-407 | Every permitted command keeps it that the open round's clock is stopped if and only if the phase is paused. |
| `RoundTiming.EndsAtItsDuration` | apps/api/src/realtime/match-lifecycle.service.ts:1666-1698 | The recorded end of a round is the instant its clock shows the duration, however late the wake-up. |
| `RoundTiming.WindowsOfAnyRun` | apps/api/src/realtime/scoring.service.ts:285-325 | Every window records less than its round's duration, and the windows of a round never go back in competition time. |
| `MatchPublication.ReadyResultIsPublishable` | apps/api/src/realtime/result-publication.service.ts:50-192 | After any orderly run of a new match, a ready result in progress is published under a new key if and only if no outcome is on record, and the winner strictly leads the appeal it rests on or a live manual decision on it names the winner. |
| `MatchAppeals.PublicationSucceeds` | apps/api/src/realtime/result-publication.service.ts:100-163 | That appeal is the newest in force. |
| `MatchAppeals.PublicationIsOnce` | apps/api/prisma/migrations/20260921100000_fault_appeal_overtime_persistence/migration.sql:123 | In every such state publication under a new key fails, with the error of the unique outcome, exactly when an outcome is on record. |
| `MatchPublication.RunAppeals` | apps/api/src/realtime/regulation-appeal.service.ts:85-260 | Over every orderly run the phase fixes which appeals and decisions are in force, and they refer to live rounds in time order. |
| `MatchAppeals.PublicationNeedsOrder` | apps/api/src/realtime/result-publication.service.ts:100-130 | After overtime, publication succeeds if and only if the overtime appeal is newer than the regulation appeal. |
| `MatchAppealRuns.UndoKeepsOrderExactly` | apps/api/src/realtime/match-lifecycle.service.ts:1429-1464 | Undoing a reset keeps appeals in time order if and only if those it brings back fit with those in force. |
| `MatchExitUndo.ExitUndoKeepsAppealsExactly` | apps/api/src/realtime/match-lifecycle.service.ts:1429-1464 | Undoing an exit keeps the appeals in order if and only if no appeal over a round it took has been cancelled since, those that return fit in time, and the phase that returns awaits the appeals in force. |
| `MatchPublication.UndoKeepsAppealsExactly` | apps/api/src/realtime/match-lifecycle.service.ts:1338-1483 | The two together: any undo keeps the appeals in order if and only if it returns well. |
| `MatchPublication.ChooseKeepsAppealsExactly` | apps/api/src/realtime/overtime.service.ts:339-423 | A manual decision keeps the appeals in order if and only if the appeal it finds is over a live round. |
| `MatchPublication.OvertimeKeepsAppealsExactly` | apps/api/src/realtime/overtime.service.ts:43-241 | A new overtime appeal keeps the appeals in order if and only if every appeal in force is earlier. |
| `MatchExamples.UndoCountsHiddenTime` | apps/api/src/realtime/match-lifecycle.service.ts:1467-1483 | Start at 0, reset at a, undo at b: the round ran for a and shows b. |
| `MatchExamples.WakeUpEndsCancelledRound` | apps/api/src/realtime/match-lifecycle.service.ts:1641-1664 | A reachable state in which the wake-up of a cancelled round spoils the phase table. |
| `MatchExamples.VoteFindsCancelledRound` | apps/api/src/realtime/scoring.service.ts:230-240 | A reachable state in which a vote opens a window in a cancelled round. |
| `MatchExamples.LateVoteIsNotCaptured` | apps/api/src/realtime/match-lifecycle.service.ts:1711-1756 | For a crew of any size: a bare majority votes in the last second, and the live round has captured 0 where its ledger says 1. |
| `MatchExamples.SuspendedResetIsRefused` | apps/api/prisma/migrations/20260920120000_match_lifecycle_phase_foundation/migration.sql:35-37 | A run to a suspended match with a round to reset, whose reset is refused by the check on the time of suspension. |
| `MatchExamples.ResetBlocksVoting` | apps/api/src/realtime/match-lifecycle.service.ts:1148-1285 | A run after which a live round runs and every vote in it is refused, because a reset took an unresolved window. |
| `MatchStaleAppeals.OvertimeSurvivesItsExit` | apps/api/src/realtime/match-lifecycle.service.ts:769-782 | A permitted run after which an exit that keeps rounds 1 and 2 leaves an overtime round live. |
| `MatchStaleAppeals.RestartFindsStaleAppeal` | apps/api/src/realtime/overtime.service.ts:262-310 | A permitted run, every step of it within the index on live appeals, after which a restart is accepted and sets the wrong overtime aside. |
| `MatchStaleAppeals.ChoiceFindsStaleAppeal` | apps/api/src/realtime/overtime.service.ts:365-398 | The same run: a manual decision is accepted on the stale appeal, and the tie in force stays open. |
| `MatchStuckResults.UndoneResultCannotBePublished` | apps/api/src/realtime/result-publication.service.ts:100-163 | A permitted run in clock order, undoing only resets, that ends with a ready result in progress that publication refuses. |
| `MatchStuckResults.SweptResultCannotBePublished` | apps/api/src/realtime/regulation-appeal.service.ts:85-116 | A permitted run in clock order, undoing an exit, that ends the same way with no appeal in force. |
| `MatchEqualTimes.EqualTimesCannotBePublished` | apps/api/src/realtime/result-publication.service.ts:100-112 | A permitted run in clock order whose last command commits an overtime appeal in the millisecond of the regulation appeal in force: the ready result is refused. |
| `MatchReplays.ReplayedResultIsRefused` | apps/api/src/realtime/result-publication.service.ts:164-192 | Published, reset and fought again: the new result is ready, RED leads, and publication fails because an outcome is on record. |
| `MatchInBracket.PublishedWinnerAdvances` | apps/api/src/realtime/result-publication.service.ts:184-192 | Publishing finishes the match and makes the published colour's athlete the winner of the fixture; match and fixture agree and the bracket stays in order. |
| `MatchInBracket.ResetFollowsBracket` | apps/api/src/realtime/match-lifecycle.service.ts:1060-1073 | A finished match with a round to reset is reset if and only if the bracket takes its outcome back, that is, nothing it fed has been prepared. |
| `MatchInBracket.ResetUndoesPublication` | apps/api/src/brackets/bracket-outcome.service.ts:116-210 | Publishing the result of a prepared fixture and resetting it leaves the whole bracket as it was. |
| `MatchInBracket.UndoneResetAgreesExactly` | apps/api/src/realtime/match-lifecycle.service.ts:1484-1493 | Undoing the reset of a published match gives its fixture the published winner back if and only if the score events give that colour the higher total. |
| `MatchInBracket.UndoneResetForgetsWinner` | apps/api/src/realtime/match-lifecycle.service.ts:1484-1493 | The run, for any prepared fixture: RED wins on a bonus, the result is published, everything is reset and the reset undone; the match is finished with RED on record, and its fixture waits for a winner. |
| `MatchInBracket.TotalsAreLedger` | apps/api/src/brackets/bracket-outcome.service.ts:50-75 | When every event belongs to the given rounds, the totals the bracket adds up are their live points on the ledger. |
| `LiveMatch.AttemptKeeps` | apps/api/src/realtime/match-lifecycle.service.ts:211-1804 | A permitted command that goes through keeps phase table, history and ledger in order. |
| `LiveMatch.MatchRecord.StartRound` | apps/api/src/realtime/match-lifecycle.service.ts:211-355 | Adds one round with its deadline and moves the row to the running phase, or refuses and changes nothing; the record stays valid. |
| `LiveMatch.MatchRecord.PauseRound` | apps/api/src/realtime/match-lifecycle.service.ts:357-443 | Stops the open round with its remaining time, or refuses and changes nothing; the record stays valid. |
| `LiveMatch.MatchRecord.ResumeRound` | apps/api/src/realtime/match-lifecycle.service.ts:445-534 | Moves the deadline by the remaining time, or refuses and changes nothing; the record stays valid. |
| `LiveMatch.MatchRecord.ResolveLockedWindow` | apps/api/src/realtime/scoring.service.ts:524-657 | Resolves one window, and adds the event of the awarded colour if there is one. |
| `LiveMatch.MatchRecord.ResolveDueWindowsLocked` | apps/api/src/realtime/scoring.service.ts:165-198 | The loop ends, and then nothing is due. |
| `LiveMatch.MatchRecord.ResolveIfDue` | apps/api/src/realtime/scoring.service.ts:467-522 | An early or repeated wake-up changes nothing. |
| `LiveMatch.MatchRecord.SubmitVote` | apps/api/src/realtime/scoring.service.ts:200-441 | Opens a window, joins the open one or resolves the due one first, with the source's refusals and that of the index on unresolved windows; one that throws leaves every row as it was. |
| `LiveMatch.MatchRecord.ExpireRound` | apps/api/src/realtime/match-lifecycle.service.ts:1620-1804 | Resolves what is due, ends the round at its deadline, captures both colours and moves the phase; an early wake-up changes nothing. |
| `LiveMatch.MatchRecord.CancelResults` | apps/api/src/realtime/match-lifecycle.service.ts:980-1316 | Stamps exactly the selected rounds and everything in them, and records what undo needs. |
| `LiveMatch.MatchRecord.UndoCancellation` | apps/api/src/realtime/match-lifecycle.service.ts:1327-1529 | Lifts one audit's stamps from every table, or refuses: also when two live appeals would share scope and attempt, or the lifecycle would contradict the time of suspension. |
| `LiveMatch.MatchRecord.ExitMatch` | apps/api/src/realtime/match-lifecycle.service.ts:550-853 | Stamps rounds by number, as the mode says, and suspends the match or sends it back to not started. |
| `LiveMatch.MatchRecord.Claim` | apps/api/src/match-official-assignments/match-official-assignments.service.ts:319-336 | A suspended match is in progress again once a crew takes it. |
| `LiveMatch.MatchRecord.CompleteMatch` | apps/api/src/realtime/match-lifecycle.service.ts:855-978 | Finishes a match whose two rounds have ended with no window open; a repeated request changes nothing. |
| `LiveMatch.MatchRecord.CommitReconciled` | apps/api/src/realtime/regulation-appeal.service.ts:117-288 | Replays a used key only for the same payload; otherwise commits base, adjustment and final score and moves to overtime on a tie. |
| `LiveMatch.MatchRecord.CommitRegulationAppeal` | apps/api/src/realtime/regulation-appeal.service.ts:57-288 | Sweeps stale appeals first, and takes the sweep back when the request is refused. |
| `LiveMatch.MatchRecord.CommitOvertimeAppeal` | apps/api/src/realtime/overtime.service.ts:43-241 | The same for overtime; a tie goes to the tiebreak decision. |
| `LiveMatch.MatchRecord.RestartOvertime` | apps/api/src/realtime/overtime.service.ts:243-337 | Stamps the round of the appeal it finds and everything in it. |
| `LiveMatch.MatchRecord.SelectWinner` | apps/api/src/realtime/overtime.service.ts:339-423 | Records a decision on the appeal it finds. |
| `LiveMatch.MatchRecord.ReadVerdict` | apps/api/src/realtime/result-publication.service.ts:118-163 | The winner of an appeal: the strict leader, or of a tied overtime appeal the colour of its decision in force; otherwise none. |
| `LiveMatch.MatchRecord.PublishResult` | apps/api/src/realtime/result-publication.service.ts:50-244 | Publishes the verdict on the newest appeal in force once; the same key is answered again without a change. |
| `LiveMatch.SumCaptured` | apps/api/src/realtime/result-calculations.ts:16-39 | The loop adds up exactly the live captured points of the rounds, colour by colour. |
| `Assignments.RunKeeps` | apps/api/src/match-official-assignments/match-official-assignments.service.ts:154-664 | Over any run of commands across all matches: one active job an official, and for every match nobody or one inspector with referees on positions 1 to the required number, once each. |
| `Assignments.CrewsOfAnyRun` | apps/api/src/match-official-assignments/match-official-assignments.service.ts:154-664 | The same from the day nobody was assigned. |
| `Assignments.TakeKeeps` | apps/api/src/match-official-assignments/match-official-assignments.service.ts:184-319 | Taking seats exactly the named crew, keeps the rule and rewrites no earlier row. |
| `Assignments.ConfirmKeeps` | apps/api/src/match-official-assignments/match-official-assignments.service.ts:500-567 | A referee named again for the same position keeps the very same row, every other referee of the match is released as replaced, nobody else is touched, and the rule is kept. |
| `Assignments.ReleaseKeeps` | apps/api/src/match-official-assignments/match-official-assignments.service.ts:606-648 | Releasing empties the match and keeps the rule everywhere. |
| `Assignments.Desk.TakeMatch` | apps/api/src/match-official-assignments/match-official-assignments.service.ts:154-341 | The guards in their order, a repeated request answered without a change, and the whole crew or nothing; the rule is kept. |
| `Assignments.Desk.ConfirmPanel` | apps/api/src/match-official-assignments/match-official-assignments.service.ts:413-604 | The same for changing the panel. |
| `Assignments.Desk.ReleaseCrew` | apps/api/src/match-official-assignments/match-official-assignments.service.ts:606-664 | The same for releasing. |
| `Assignments.Desk.ReleaseForTransition` | apps/api/src/match-official-assignments/match-official-assignment-lifecycle.service.ts:33-94 | Referees are released before the inspector with the reason of the transition, and the rule is kept. |
| `SportRules.AwardIsTheMajority` | apps/api/src/realtime/scoring.service.ts:546-557 | With at most one vote a judge, a colour is awarded if and only if it has a majority, and never both have. |
| `SportRules.AwardIgnoresOrder` | apps/api/src/realtime/scoring.service.ts:546-557 | The award does not depend on the order of the votes. |
| `SportRules.AwardIsColourBlind` | apps/api/src/sport-rules/sport-rules.definition.ts:33-44 | Exchanging the colours exchanges the award if and only if not both colours reach a majority, which needs more votes than judges. |

## Findings

What the code does not keep, each with an input and with the exact condition.

- **A ready result that can never be published, by undoing resets.** Undone out of their nesting, resets bring an
  overtime appeal back that is older than the regulation appeal in force; publication then reads the tied regulation
  appeal and refuses. Run: `MatchStuckResults.UndoneResultCannotBePublished`. Condition:
  `MatchAppeals.PublicationNeedsOrder`, `MatchAppealRuns.UndoKeepsOrderExactly`.
- **The same by undoing an exit.** The sweep before a new regulation appeal cancels the old one under an audit no
  operation owns, so undoing the exit brings the phase back without its appeal. Run:
  `MatchStuckResults.SweptResultCannotBePublished`. Condition: `MatchExitUndo.ExitUndoKeepsAppealsExactly`.
- **A reset below a fixture won by withdrawal.** Retraction asks whether the next fixture has a match, but a fixture won
  by withdrawal has none. Run: `BracketRuns.ResetBelowWithdrawalBreaks`. Condition:
  `BracketInvariant.RetractKeepsInvariantExactly`.
- **Two appeals in one millisecond.** Publication orders by the time of the appeals alone. An overtime that is started and
  reset in the millisecond of a regulation appeal lets undo bring an earlier overtime beside it; if its appeal is
  committed within that millisecond, the query may return the tied one (which of the two is left open; the model takes
  the row committed first). Run: `MatchEqualTimes.EqualTimesCannotBePublished`. Condition:
  `MatchPublication.OvertimeKeepsAppealsExactly`.
- **A published match that is reset can never be published again.** The outcome stays on record and is unique. Run:
  `MatchReplays.ReplayedResultIsRefused`. Condition: `MatchPublication.ReadyResultIsPublishable`.
- **Undoing the reset of a finished match may change the winner.** The comment there calls it the path used when the match
  finished, but it passes no published winner, so adjustments, appeals and manual decisions are forgotten. Run:
  `MatchInBracket.UndoneResetForgetsWinner`. Condition: `BracketRuns.ReplayAgreesExactly`,
  `MatchInBracket.UndoneResetAgreesExactly`.
- **Competition time goes on while a round is cancelled.** A reset has no guard on a running phase and undo does not move
  the deadline, so the time in between counts, although the timing helper promises to exclude what did not run. Run:
  `MatchExamples.UndoCountsHiddenTime`. Condition: `RoundTiming.ElapsedIsRunningTimeExactly`.
- **An exit that keeps regulation rounds goes by round number**, and a live overtime round has
  number 1, which they keep. Run: `MatchStaleAppeals.OvertimeSurvivesItsExit`. Condition:
  `MatchPhaseSteps.ExitKeepsPhaseExactly`.
- **A wake-up does not ask whether its round is cancelled.** Run: `MatchExamples.WakeUpEndsCancelledRound`. Condition:
  `MatchPhaseSteps.ExpiryKeepsPhaseExactly`.
- **The look-up of the running round does not either.** Run: `MatchExamples.VoteFindsCancelledRound`. Condition:
  `MatchLedger.OpenFollowsExactly`.
- **Restart and manual decision take the highest attempt among the appeals, not among those over live rounds.** Runs:
  `MatchStaleAppeals.RestartFindsStaleAppeal`, `MatchStaleAppeals.ChoiceFindsStaleAppeal`. Conditions:
  `MatchPhaseSteps.RestartKeepsPhaseExactly`, `MatchPublication.ChooseKeepsAppealsExactly`.
- **A window opened in the last second outlives the capture.** Run: `MatchExamples.LateVoteIsNotCaptured`. Condition:
  `MatchCaptures.LateWindowMovesLedgerExactly`.
- **A vote that is out when its round is cancelled blocks every later vote.** The window keeps its place in the index on
  unresolved windows, nothing resolves a cancelled window, and so no window can be opened in the match until that stamp
  is lifted. Run: `MatchExamples.ResetBlocksVoting`. Conditions: `MatchBlockedVotes.CancelBlocksExactly`,
  `MatchBlockedVotes.ExitBlocksExactly`, `MatchBlockedVotes.RestartBlocksExactly`,
  `MatchBlockedVotes.UndoUnblocksExactly`; that it lasts: `MatchBlockedVotes.StaysBlocked`.
- **A suspended match cannot be reset, nor its exit undone, before a crew takes it.** These updates, like a start and the
  wake-up that ends a round, write the lifecycle without the time of suspension; the check on the two refuses them,
  although the guards of the service let them through. Run: `MatchExamples.SuspendedResetIsRefused`. Proved for every
  such command: `MatchConstraints.SuspendedStandsStill`.

## Left out

- Faults and penalties of the earlier rules, and their share in totals.
- Triggers, foreign keys and the uniqueness of ids and keys. The indexes on unresolved windows, live appeals, live rounds, decisions and outcomes and the checks on the lifecycle are modelled.
- Sessions, tokens, passcodes, rate limits, and the check that everybody is connected before a round starts.
- Timers and the map of scheduled wake-ups: a wake-up may come at any time instead, so nothing says that it comes at all.
- The clock within a transaction: one value a step, which also stands for the creation time the database writes.
- The time of suspension (only that it is set exactly for a suspended match), completedAt, audit contents, display labels, traces and publication fingerprints.
- Idempotency fingerprints: a request is the same if key and payload are.
- Cancelling a bracket, staffing of rounds, and the check of the seeding strategy in a preview.
- Administration of the roster: which officials exist and are active is fixed during a run.
- Grouping the generated fixtures by round for display.
- Matches under the earlier rules have no appeals; publication theorems are about the current rules.
- LiveMatch.MatchRecord.StartRound: as in the other methods of the class, the columns of the match row are one field, written once a transaction like the update statement it stands for.
- MatchPublication.ReadyResultIsPublishable: for orderly runs only, because without the condition on undos it is false (see "Findings").
- MatchCaptures.RunCaptures: for runs whose rounds end with every window due, because otherwise it is false (see "Findings").
- BracketRuns.RunKeepsInvariant: for runs that reset nothing below a fixture won by withdrawal, because otherwise it is false (see "Findings").
