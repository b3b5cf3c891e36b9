/**
  The swipe classifier of a draggable card: when a pan gesture ends, its
  terminal sample (translation and velocity on both axes) is turned either
  into "no swipe" (the card springs back) or into one of four directions
  (the card leaves the screen and the game is told the direction).
 */
module Gesture {

  datatype Direction = Left | Right | Up | Down

  /** What the end of a drag amounts to. */
  datatype Verdict = NoSwipe | Swipe(direction: Direction)

  /** The committed end-of-drag values of one pan gesture. */
  datatype DragEnd = DragEnd(translationX: real, translationY: real, velocityX: real, velocityY: real)

  /** Distance, in logical pixels, a drag must exceed on some axis. */
  const SwipeThreshold: real := 100.0

  /** Speed, in pixels per second, a drag must exceed on some axis. */
  const VelocityThreshold: real := 500.0

  function Abs(x: real): (r: real)
    ensures r >= 0.0
    ensures r == x || r == -x
  {
    if x < 0.0 then -x else x
  }

  predicate IsHorizontal(d: Direction) {
    d == Left || d == Right
  }

  /**
    The end handler's decision. The gate is strict on all four values; the
    dominant axis is horizontal only when |dx| strictly exceeds |dy|, so an
    exact tie is classified vertically; a non-positive component on the
    dominant axis counts as the negative direction.
   */
  function Classify(e: DragEnd): (r: Verdict)
    ensures r == NoSwipe <==>
              && Abs(e.translationX) <= SwipeThreshold
              && Abs(e.translationY) <= SwipeThreshold
              && Abs(e.velocityX) <= VelocityThreshold
              && Abs(e.velocityY) <= VelocityThreshold
    ensures r.Swipe? ==> (IsHorizontal(r.direction) <==> Abs(e.translationX) > Abs(e.translationY))
    ensures r.Swipe? && IsHorizontal(r.direction) ==> (r.direction == Right <==> e.translationX > 0.0)
    ensures r.Swipe? && !IsHorizontal(r.direction) ==> (r.direction == Down <==> e.translationY > 0.0)
  {
    var absX := Abs(e.translationX);
    var absY := Abs(e.translationY);
    var absVelX := Abs(e.velocityX);
    var absVelY := Abs(e.velocityY);
    if absX > SwipeThreshold || absY > SwipeThreshold || absVelX > VelocityThreshold || absVelY > VelocityThreshold then
      if absX > absY then
        Swipe(if e.translationX > 0.0 then Right else Left)
      else
        Swipe(if e.translationY > 0.0 then Down else Up)
    else
      NoSwipe
  }

  /** The distance gate is strict: exactly 100 pixels is not enough, 101 is. */
  lemma DistanceThresholdIsStrict(dy: real, vx: real, vy: real)
    requires Abs(dy) <= SwipeThreshold && Abs(vx) <= VelocityThreshold && Abs(vy) <= VelocityThreshold
    ensures Classify(DragEnd(100.0, dy, vx, vy)) == NoSwipe
    ensures Classify(DragEnd(-100.0, dy, vx, vy)) == NoSwipe
    ensures Classify(DragEnd(101.0, dy, vx, vy)) == Swipe(Right)
    ensures Classify(DragEnd(-101.0, dy, vx, vy)) == Swipe(Left)
  {
  }

  /** The velocity gate is strict too: exactly 500 pixels per second is not enough. */
  lemma VelocityThresholdIsStrict(vy: real)
    requires Abs(vy) <= VelocityThreshold
    ensures Classify(DragEnd(0.0, 0.0, 500.0, vy)) == NoSwipe
    ensures Classify(DragEnd(0.0, 0.0, 501.0, vy)).Swipe?
  {
  }

  /** A swipe whose two translations have equal magnitude is always vertical. */
  lemma TieGoesVertical(e: DragEnd)
    requires Abs(e.translationX) == Abs(e.translationY)
    requires Classify(e).Swipe?
    ensures Classify(e) == Swipe(if e.translationY > 0.0 then Down else Up)
  {
  }

  /**
    Once a gesture passes the gate, its direction depends on the translation
    only: two swipes that moved the same way agree whatever their velocities.
   */
  lemma VelocityOnlyGates(e1: DragEnd, e2: DragEnd)
    requires e1.translationX == e2.translationX && e1.translationY == e2.translationY
    requires Classify(e1).Swipe? && Classify(e2).Swipe?
    ensures Classify(e1) == Classify(e2)
  {
  }

  /** A flick that moved nowhere but was fast enough is reported as Up. */
  lemma FlickWithoutTranslationIsUp(vx: real, vy: real)
    requires Abs(vx) > VelocityThreshold || Abs(vy) > VelocityThreshold
    ensures Classify(DragEnd(0.0, 0.0, vx, vy)) == Swipe(Up)
  {
  }
}
