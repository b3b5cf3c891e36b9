/**
  The home screen's session: the shared card queue plus a lifecycle of
  not started, started and completed, with a restart that deals a fresh
  queue.
 */
module HomeScreen {
  import opened Gesture
  import CardQueue

  datatype Home = Home(board: CardQueue.Board, started: bool, completed: bool)

  /** A new session: ten pending cards, index 0, not started, not completed, counters 0. */
  function Restart(draw: nat -> Direction): (h: Home)
    ensures |h.board.cards| == CardQueue.InitialCards
    ensures forall i :: 0 <= i < |h.board.cards| ==>
              h.board.cards[i] == CardQueue.Card(i as real, draw(i), CardQueue.Pending)
    ensures h.board.index == 0 && h.board.success == 0 && h.board.failed == 0
    ensures !h.started && !h.completed
    ensures CardQueue.Stocked(h.board) && CardQueue.Tallied(h.board)
  {
    CardQueue.FreshIsStockedAndTallied(draw);
    Home(CardQueue.Fresh(draw), false, false)
  }

  /** Starting marks the session started and zeroes the counters; cards and index stay. */
  function StartGame(h: Home): (r: Home)
    ensures r.started && r.board.success == 0 && r.board.failed == 0
    ensures r.board.cards == h.board.cards && r.board.index == h.board.index
    ensures r.completed == h.completed
  {
    h.(started := true, board := h.board.(success := 0, failed := 0))
  }

  /**
    The deferred advance of a swipe captured at `captured`: the queue
    advances, and the session is completed exactly when the new index
    reaches the session length.
   */
  function Advance(h: Home, captured: nat, freshId: real, freshDir: Direction): (r: Home)
    ensures r.board == CardQueue.Advance(h.board, captured, freshId, freshDir)
    ensures r.completed <==> h.completed || captured + 1 >= CardQueue.MaxCards
    ensures r.started == h.started
  {
    var board := CardQueue.Advance(h.board, captured, freshId, freshDir);
    if CardQueue.Completes(captured) then h.(board := board, completed := true) else h.(board := board)
  }

  /** Swipeable cards are on screen only while the session is started and not completed. */
  predicate Playable(h: Home) {
    h.started && !h.completed
  }

  /** A swipe on the card under the index, followed by its own advance. */
  function Round(h: Home, m: CardQueue.Move): Home
    requires Playable(h)
  {
    Advance(h.(board := CardQueue.Resolve(h.board, m.dir)), h.board.index, m.freshId, m.freshDir)
  }

  /** Swipes applied one at a time; once no card is on screen, none can be swiped. */
  function Run(h: Home, moves: seq<CardQueue.Move>): Home
    decreases |moves|
  {
    if moves == [] || !Playable(h) then h else Run(Round(h, moves[0]), moves[1..])
  }

  /** The lifecycle flag tracks the index: completed exactly when all cards are passed. */
  predicate Consistent(h: Home) {
    && CardQueue.Stocked(h.board) && CardQueue.Tallied(h.board)
    && (h.completed <==> h.board.index == CardQueue.MaxCards)
  }

  lemma {:induction false} RunKeepsConsistent(h: Home, moves: seq<CardQueue.Move>)
    requires Consistent(h) && h.started && h.board.index + |moves| <= CardQueue.MaxCards
    ensures var r := Run(h, moves);
            && Consistent(r)
            && r.board.index == h.board.index + |moves|
            && r.started == h.started
    decreases |moves|
  {
    if moves != [] {
      var m := moves[0];
      CardQueue.RoundPreserves(h.board, m.dir, m.freshId, m.freshDir);
      assert Round(h, m).board == CardQueue.Round(h.board, m.dir, m.freshId, m.freshDir);
      RunKeepsConsistent(Round(h, m), moves[1..]);
    }
  }

  /**
    A started session played swipe by swipe: the queue never exceeds twenty
    cards, a card lies under the index until the session completes, every
    swipe is counted once, and the session completes exactly at the
    twentieth swipe.
   */
  lemma PlayedSession(draw: nat -> Direction, moves: seq<CardQueue.Move>)
    requires |moves| <= CardQueue.MaxCards
    ensures var r := Run(StartGame(Restart(draw)), moves);
            && |r.board.cards| <= CardQueue.MaxCards
            && r.board.index == |moves|
            && (|moves| < CardQueue.MaxCards ==> r.board.index < |r.board.cards|)
            && r.board.success + r.board.failed == |moves|
            && (r.completed <==> |moves| == CardQueue.MaxCards)
            && r.started
  {
    var h := StartGame(Restart(draw));
    assert h.board == Restart(draw).board;
    RunKeepsConsistent(h, moves);
  }
}
