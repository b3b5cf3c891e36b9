/**
  The play screen's session: the shared card queue, ended by a summary for
  the result screen when the index reaches the session length.
 */
module PlayScreen {
  import opened Gesture
  import CardQueue

  /** The figures handed to the result screen; the duration is not modelled. */
  datatype Summary = Summary(success: nat, failed: nat, totalCards: nat)

  /** The values the swipe handler closed over when it fired. */
  datatype Captured = Captured(index: nat, success: nat, failed: nat)

  /** After an advance the session goes on, or has finished with a summary. */
  datatype Outcome = Playing(board: CardQueue.Board) | Finished(board: CardQueue.Board, summary: Summary)

  /** The handler's view of the board at the moment of the swipe. */
  function Capture(b: CardQueue.Board): Captured {
    Captured(b.index, b.success, b.failed)
  }

  /**
    The deferred advance: the queue advances past the captured index, and
    the session finishes exactly when that reaches the session length. The
    summary always states twenty cards, with the counters the handler
    captured, not the ones its own swipe produced.
   */
  function Advance(b: CardQueue.Board, c: Captured, freshId: real, freshDir: Direction): (r: Outcome)
    ensures r.board == CardQueue.Advance(b, c.index, freshId, freshDir)
    ensures r.Finished? <==> c.index + 1 >= CardQueue.MaxCards
    ensures r.Finished? ==> r.summary == Summary(c.success, c.failed, CardQueue.MaxCards)
  {
    var board := CardQueue.Advance(b, c.index, freshId, freshDir);
    if CardQueue.Completes(c.index) then
      Finished(board, Summary(c.success, c.failed, CardQueue.MaxCards))
    else
      Playing(board)
  }

  /**
    As written, the summary of a complete session leaves out the final
    swipe: after twenty counted swipes it reports nineteen.
   */
  lemma FinalSummaryOmitsLastSwipe(b: CardQueue.Board, dir: Direction, freshId: real, freshDir: Direction)
    requires CardQueue.Stocked(b) && CardQueue.Tallied(b) && b.index == CardQueue.MaxCards - 1
    ensures var resolved := CardQueue.Resolve(b, dir);
            var r := Advance(resolved, Capture(b), freshId, freshDir);
            && resolved.success + resolved.failed == CardQueue.MaxCards
            && r.Finished?
            && r.summary.success + r.summary.failed == CardQueue.MaxCards - 1
  {
    CardQueue.CardUnderIndex(b);
  }

  /** The same from the first card: a full session of twenty swipes reports nineteen. */
  lemma FullSessionReportsNineteen(draw: nat -> Direction, moves: seq<CardQueue.Move>, last: CardQueue.Move)
    requires |moves| == CardQueue.MaxCards - 1
    ensures var b := CardQueue.Run(CardQueue.Fresh(draw), moves);
            var r := Advance(CardQueue.Resolve(b, last.dir), Capture(b), last.freshId, last.freshDir);
            r.Finished? && r.summary.success + r.summary.failed == CardQueue.MaxCards - 1
  {
    CardQueue.FreshIsStockedAndTallied(draw);
    CardQueue.RunPreserves(CardQueue.Fresh(draw), moves);
    FinalSummaryOmitsLastSwipe(CardQueue.Run(CardQueue.Fresh(draw), moves), last.dir, last.freshId, last.freshDir);
  }

  /**
    The advance as evidently intended: the summary reports the counters as
    they stand when the advance runs, which include its own swipe.
   */
  function AdvanceReportingLatest(b: CardQueue.Board, captured: nat, freshId: real, freshDir: Direction): (r: Outcome)
    ensures r.board == CardQueue.Advance(b, captured, freshId, freshDir)
    ensures r.Finished? <==> captured + 1 >= CardQueue.MaxCards
    ensures r.Finished? ==> r.summary == Summary(b.success, b.failed, CardQueue.MaxCards)
  {
    var board := CardQueue.Advance(b, captured, freshId, freshDir);
    if CardQueue.Completes(captured) then
      Finished(board, Summary(b.success, b.failed, CardQueue.MaxCards))
    else
      Playing(board)
  }

  /**
    With the latest counters, a complete session's summary accounts for
    every card: correct plus incorrect is the total, and each figure is the
    number of cards with that status.
   */
  lemma LatestSummaryCountsEverySwipe(b: CardQueue.Board, dir: Direction, freshId: real, freshDir: Direction)
    requires CardQueue.Stocked(b) && CardQueue.Tallied(b) && b.index == CardQueue.MaxCards - 1
    ensures var resolved := CardQueue.Resolve(b, dir);
            var r := AdvanceReportingLatest(resolved, b.index, freshId, freshDir);
            && r.Finished?
            && r.summary.success + r.summary.failed == r.summary.totalCards
            && r.summary.success == CardQueue.CountStatus(r.board.cards, CardQueue.Correct)
            && r.summary.failed == CardQueue.CountStatus(r.board.cards, CardQueue.Incorrect)
  {
    CardQueue.RoundPreserves(b, dir, freshId, freshDir);
  }
}
