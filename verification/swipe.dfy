/**
 * The direction decision of `hooks/useSwipe.ts`: at touch end, the movement since touch
 * start picks at most one of the four callbacks. Coordinates are integers here; the
 * listener bookkeeping on `document` is left out.
 */
module Swipe {
  import opened Strings

  datatype Direction = Left | Right | Up | Down

  /** Which of the four callbacks were given. */
  datatype Handlers = Handlers(left: bool, right: bool, up: bool, down: bool)

  const DefaultThreshold := 50

  function Abs(n: int): nat {
    if n < 0 then -n else n
  }

  function Has(h: Handlers, d: Direction): bool {
    match d
    case Left => h.left
    case Right => h.right
    case Up => h.up
    case Down => h.down
  }

  /**
   * `handleTouchEnd`: the callback fired for a movement of `dx`, `dy`, if any. The larger
   * movement picks the axis (a tie is vertical), it must be strictly beyond the threshold,
   * its sign picks the direction, and the direction's callback must be there.
   */
  function Fired(dx: int, dy: int, threshold: int, h: Handlers): (r: Option<Direction>)
    ensures r.Some? ==> Has(h, r.value)
    ensures r.Some? && (r.value == Left || r.value == Right) ==> Abs(dx) > Abs(dy) && Abs(dx) > threshold
    ensures r.Some? && (r.value == Up || r.value == Down) ==> Abs(dx) <= Abs(dy) && Abs(dy) > threshold
    ensures r == Some(Right) <==> Abs(dx) > Abs(dy) && Abs(dx) > threshold && dx > 0 && h.right
    ensures r == Some(Left) <==> Abs(dx) > Abs(dy) && Abs(dx) > threshold && dx < 0 && h.left
    ensures r == Some(Down) <==> Abs(dx) <= Abs(dy) && Abs(dy) > threshold && dy > 0 && h.down
    ensures r == Some(Up) <==> Abs(dx) <= Abs(dy) && Abs(dy) > threshold && dy < 0 && h.up
  {
    if Abs(dx) > Abs(dy) then
      if Abs(dx) > threshold then
        if dx > 0 && h.right then Some(Right)
        else if dx < 0 && h.left then Some(Left)
        else None
      else None
    else
      if Abs(dy) > threshold then
        if dy > 0 && h.down then Some(Down)
        else if dy < 0 && h.up then Some(Up)
        else None
      else None
  }

  /** A movement no larger than the threshold on both axes fires nothing. */
  lemma SmallMoveFiresNothing(dx: int, dy: int, threshold: int, h: Handlers)
    requires Abs(dx) <= threshold && Abs(dy) <= threshold
    ensures Fired(dx, dy, threshold, h).None?
  {
  }

  /** The direction seen in a mirror. */
  function MirrorX(d: Direction): Direction {
    match d
    case Left => Right
    case Right => Left
    case Up => Up
    case Down => Down
  }

  /** Left and right callbacks exchanged. */
  function MirrorHandlers(h: Handlers): Handlers {
    Handlers(h.right, h.left, h.up, h.down)
  }

  /** A gesture mirrored left to right, with the callbacks exchanged, fires the mirrored direction. */
  lemma FiredMirror(dx: int, dy: int, threshold: int, h: Handlers)
    ensures var r, r' := Fired(dx, dy, threshold, h), Fired(-dx, dy, threshold, MirrorHandlers(h));
      r'.Some? == r.Some? && (r.Some? ==> r'.value == MirrorX(r.value))
  {
  }

  /** The direction depends on the movement only: any callbacks that include it fire it as well. */
  lemma FiredMoreHandlers(dx: int, dy: int, threshold: int, h: Handlers, d: Direction)
    requires Fired(dx, dy, threshold, h) == Some(d)
    ensures forall h' :: Has(h', d) ==> Fired(dx, dy, threshold, h') == Some(d)
  {
  }
}
