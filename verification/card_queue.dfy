/**
  The simple-mode card queue shared by the home screen and the play screen:
  a growing list of cards, the index of the card on top, and the two swipe
  counters. A swipe is two events: the resolution, applied at once to the
  card under the index captured when the swipe fired, and the deferred
  advance, which moves the index past that captured position and tops the
  queue up.
 */
module CardQueue {
  import opened Gesture
  import Progress

  /** The session ends once the index reaches this many cards. */
  const MaxCards: nat := 20

  /** Cards dealt when a session is created or restarted. */
  const InitialCards: nat := 10

  /** A card is appended when fewer than this many remain from the new index on. */
  const RefillBelow: nat := 3

  /** Cards stacked on screen from the current one on. */
  const StackDepth: nat := 3

  datatype Status = Pending | Correct | Incorrect

  /** A card; its colour is cosmetic and not modelled. */
  datatype Card = Card(id: real, target: Direction, status: Status)

  datatype Board = Board(cards: seq<Card>, index: nat, success: nat, failed: nat)

  /** `count` pending cards numbered from 0, with directions drawn by `draw`. */
  function GenerateCards(count: nat, draw: nat -> Direction): (r: seq<Card>)
    ensures |r| == count
    ensures forall i :: 0 <= i < count ==> r[i].id == i as real && r[i].target == draw(i) && r[i].status == Pending
  {
    seq(count, i requires 0 <= i < count => Card(i as real, draw(i), Pending))
  }

  /** The board a session starts from. */
  function Fresh(draw: nat -> Direction): (b: Board)
    ensures |b.cards| == InitialCards && b.index == 0 && b.success == 0 && b.failed == 0
    ensures forall i :: 0 <= i < |b.cards| ==> b.cards[i].status == Pending && b.cards[i].target == draw(i)
  {
    Board(GenerateCards(InitialCards, draw), 0, 0, 0)
  }

  /**
    The immediate half of a swipe: the card under the index is marked by
    whether `dir` matches its target, and exactly one counter goes up. The
    card's earlier status is not consulted. Without a card under the index
    nothing changes.
   */
  function Resolve(b: Board, dir: Direction): (r: Board)
    ensures |r.cards| == |b.cards| && r.index == b.index
    ensures forall i :: 0 <= i < |b.cards| && i != b.index ==> r.cards[i] == b.cards[i]
    ensures b.index >= |b.cards| ==> r == b
    ensures b.index < |b.cards| ==>
              var c := b.cards[b.index];
              && r.cards[b.index].id == c.id
              && r.cards[b.index].target == c.target
              && (r.cards[b.index].status == Correct <==> c.target == dir)
              && (r.cards[b.index].status == Incorrect <==> c.target != dir)
              && r.success + r.failed == b.success + b.failed + 1
              && (r.success == b.success + 1 <==> c.target == dir)
              && (r.failed == b.failed + 1 <==> c.target != dir)
  {
    if b.index < |b.cards| then
      var card := b.cards[b.index];
      var correct := card.target == dir;
      b.(cards := b.cards[b.index := card.(status := if correct then Correct else Incorrect)],
         success := if correct then b.success + 1 else b.success,
         failed := if correct then b.failed else b.failed + 1)
    else
      b
  }

  /** Whether the advance scheduled for a swipe at `captured` ends the session. */
  predicate Completes(captured: nat) {
    captured + 1 >= MaxCards
  }

  /** Whether the queue needs one more card once the index is `next`. */
  predicate RunningLow(cards: seq<Card>, next: nat) {
    |cards| - next < RefillBelow && |cards| < MaxCards
  }

  /**
    The deferred half of a swipe: the index becomes one past the captured
    position. Unless that ends the session, one pending card with the drawn
    id and direction is appended when the queue is running low.
   */
  function Advance(b: Board, captured: nat, freshId: real, freshDir: Direction): (r: Board)
    ensures r.index == captured + 1 && r.success == b.success && r.failed == b.failed
    ensures |b.cards| <= |r.cards| <= |b.cards| + 1 && r.cards[..|b.cards|] == b.cards
    ensures |r.cards| == |b.cards| + 1 <==> !Completes(captured) && RunningLow(b.cards, captured + 1)
    ensures |r.cards| == |b.cards| + 1 ==> r.cards[|b.cards|] == Card(freshId, freshDir, Pending)
  {
    var next := captured + 1;
    if Completes(captured) then
      b.(index := next)
    else if RunningLow(b.cards, next) then
      b.(index := next, cards := b.cards + [Card(freshId, freshDir, Pending)])
    else
      b.(index := next)
  }

  function MarkOf(s: Status): (m: Progress.Mark)
    ensures m != Progress.Current
  {
    match s
    case Pending => Progress.Pending
    case Correct => Progress.Correct
    case Incorrect => Progress.Incorrect
  }

  /** What the screens hand to the progress strip: the current card is marked so. */
  function ProgressCards(cards: seq<Card>, index: int): (r: seq<Progress.ProgressCard>)
    ensures |r| == |cards|
    ensures forall i :: 0 <= i < |r| ==> r[i].id == Progress.Number(cards[i].id)
    ensures forall i :: 0 <= i < |r| ==> (r[i].mark == Progress.Current <==> i == index)
    ensures forall i :: 0 <= i < |r| && i != index ==> r[i].mark == MarkOf(cards[i].status)
  {
    seq(|cards|, i requires 0 <= i < |cards| =>
      Progress.ProgressCard(Progress.Number(cards[i].id), if i == index then Progress.Current else MarkOf(cards[i].status)))
  }

  /** The cards presented on screen: up to three, from the current one on. */
  function Stack(b: Board): (r: seq<Card>)
    ensures |r| == Progress.Min(StackDepth, Progress.Max(0, |b.cards| - b.index))
    ensures forall i :: 0 <= i < |r| ==> r[i] == b.cards[b.index + i]
  {
    if b.index >= |b.cards| then [] else b.cards[b.index .. Progress.Min(|b.cards|, b.index + StackDepth)]
  }

  /** Number of cards with status `s`. */
  function CountStatus(cards: seq<Card>, s: Status): nat
  {
    if cards == [] then 0 else (if cards[0].status == s then 1 else 0) + CountStatus(cards[1..], s)
  }

  lemma {:induction false} CountNone(cards: seq<Card>, s: Status)
    requires forall i :: 0 <= i < |cards| ==> cards[i].status != s
    ensures CountStatus(cards, s) == 0
  {
    if cards != [] {
      assert forall i :: 0 <= i < |cards[1..]| ==> cards[1..][i] == cards[i + 1];
      CountNone(cards[1..], s);
    }
  }

  lemma {:induction false} CountAppend(cards: seq<Card>, c: Card, s: Status)
    ensures CountStatus(cards + [c], s) == CountStatus(cards, s) + (if c.status == s then 1 else 0)
  {
    if cards != [] {
      assert (cards + [c])[1..] == cards[1..] + [c];
      CountAppend(cards[1..], c, s);
    }
  }

  lemma {:induction false} CountUpdate(cards: seq<Card>, i: nat, c: Card, s: Status)
    requires i < |cards|
    ensures CountStatus(cards[i := c], s) + (if cards[i].status == s then 1 else 0)
            == CountStatus(cards, s) + (if c.status == s then 1 else 0)
  {
    if i == 0 {
      assert cards[i := c][1..] == cards[1..];
    } else {
      assert cards[i := c][1..] == cards[1..][i - 1 := c];
      CountUpdate(cards[1..], i - 1, c, s);
    }
  }

  /**
    The queue is stocked: it never holds more than the session's cards, and
    while the session runs there are at least three cards from the index on,
    or all twenty have been dealt.
   */
  predicate Stocked(b: Board) {
    && |b.cards| <= MaxCards
    && b.index <= |b.cards|
    && (b.index < MaxCards ==> |b.cards| - b.index >= RefillBelow || |b.cards| == MaxCards)
  }

  /**
    The counters agree with the cards: exactly the cards before the index
    are resolved, and each counter counts the cards with its status.
   */
  predicate Tallied(b: Board) {
    && b.index <= |b.cards|
    && (forall i :: 0 <= i < |b.cards| ==> (b.cards[i].status == Pending <==> i >= b.index))
    && b.success == CountStatus(b.cards, Correct)
    && b.failed == CountStatus(b.cards, Incorrect)
    && b.success + b.failed == b.index
  }

  lemma FreshIsStockedAndTallied(draw: nat -> Direction)
    ensures Stocked(Fresh(draw)) && Tallied(Fresh(draw))
  {
    var b := Fresh(draw);
    CountNone(b.cards, Correct);
    CountNone(b.cards, Incorrect);
  }

  /** While the session runs on a stocked queue, a card lies under the index. */
  lemma CardUnderIndex(b: Board)
    requires Stocked(b) && b.index < MaxCards
    ensures b.index < |b.cards|
    ensures |Stack(b)| >= 1 && Stack(b)[0] == b.cards[b.index]
  {
  }

  /** One swipe followed by its own advance. */
  function Round(b: Board, dir: Direction, freshId: real, freshDir: Direction): Board {
    Advance(Resolve(b, dir), b.index, freshId, freshDir)
  }

  /** A swipe and its advance keep the queue stocked and the counters exact. */
  lemma RoundPreserves(b: Board, dir: Direction, freshId: real, freshDir: Direction)
    requires Stocked(b) && Tallied(b) && b.index < MaxCards
    ensures var r := Round(b, dir, freshId, freshDir);
            && Stocked(r) && Tallied(r)
            && r.index == b.index + 1
            && r.success + r.failed == b.success + b.failed + 1
  {
    var card := b.cards[b.index];
    var resolved := Resolve(b, dir);
    var updated := card.(status := if card.target == dir then Correct else Incorrect);
    assert resolved.cards == b.cards[b.index := updated];
    CountUpdate(b.cards, b.index, updated, Correct);
    CountUpdate(b.cards, b.index, updated, Incorrect);
    var r := Advance(resolved, b.index, freshId, freshDir);
    if |r.cards| == |resolved.cards| + 1 {
      assert r.cards == resolved.cards + [Card(freshId, freshDir, Pending)];
      CountAppend(resolved.cards, Card(freshId, freshDir, Pending), Correct);
      CountAppend(resolved.cards, Card(freshId, freshDir, Pending), Incorrect);
    } else {
      assert r.cards == resolved.cards;
    }
  }

  /**
    A second swipe before the advance resolves the same card again and
    counts again, so after the advance the counters exceed the cards passed.
   */
  lemma RepeatSwipeCountsTwice(b: Board, d1: Direction, d2: Direction, freshId: real, freshDir: Direction)
    requires Tallied(b) && b.index < |b.cards|
    ensures var twice := Resolve(Resolve(b, d1), d2);
            && twice.cards[b.index].status == (if b.cards[b.index].target == d2 then Correct else Incorrect)
            && twice.success + twice.failed == b.index + 2
            && Advance(twice, b.index, freshId, freshDir).index == b.index + 1
  {
  }

  /**
    The second advance of a doubled swipe writes the index the first one
    already wrote and, on a stocked queue, appends nothing: it is a no-op.
   */
  lemma StaleAdvanceIsNoOp(b: Board, captured: nat, freshId: real, freshDir: Direction)
    requires Stocked(b) && captured + 1 == b.index
    ensures Advance(b, captured, freshId, freshDir) == b
  {
  }

  /** A stale advance keeps the queue stocked, as a current one does. */
  lemma AdvanceKeepsStocked(b: Board, captured: nat, freshId: real, freshDir: Direction)
    requires Stocked(b) && captured < MaxCards && (captured == b.index || captured + 1 == b.index)
    ensures Stocked(Advance(b, captured, freshId, freshDir))
  {
  }

  /** One swipe as the player and the random draws supply it. */
  datatype Move = Move(dir: Direction, freshId: real, freshDir: Direction)

  /** Swipes applied one at a time, each followed by its own advance. */
  function Run(b: Board, moves: seq<Move>): Board
    decreases |moves|
  {
    if moves == [] then b else Run(Round(b, moves[0].dir, moves[0].freshId, moves[0].freshDir), moves[1..])
  }

  /** Any run that stays within the session keeps the queue stocked and the counters exact. */
  lemma {:induction false} RunPreserves(b: Board, moves: seq<Move>)
    requires Stocked(b) && Tallied(b) && b.index + |moves| <= MaxCards
    ensures var r := Run(b, moves);
            && Stocked(r) && Tallied(r)
            && r.index == b.index + |moves|
    decreases |moves|
  {
    if moves != [] {
      RoundPreserves(b, moves[0].dir, moves[0].freshId, moves[0].freshDir);
      RunPreserves(Round(b, moves[0].dir, moves[0].freshId, moves[0].freshDir), moves[1..]);
    }
  }

  /**
    The strip the screens render from this input shows the current card as
    current exactly at its own absolute position, and every other entry
    with the card's stored status.
   */
  lemma StripMarksCurrent(cards: seq<Card>, index: nat, i: nat)
    requires index < |cards|
    requires i < |Progress.VisibleCards(ProgressCards(cards, index), index, Progress.DefaultMaxVisible)|
    ensures var s := Progress.StartIndex(|cards|, index, Progress.DefaultMaxVisible);
            var strip := Progress.VisibleCards(ProgressCards(cards, index), index, Progress.DefaultMaxVisible);
            && (strip[i].status == Progress.Marked(Progress.Current) <==> s + i == index)
            && (s + i != index ==> strip[i].status == Progress.Marked(MarkOf(cards[s + i].status)))
            && strip[i].id == Progress.Number(cards[s + i].id)
  {
  }
}
