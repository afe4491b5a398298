/**
  The paddle: a node the player drags sideways. Its horizontal position follows the
  pointer, kept so that the paddle stays inside the scene.
 */
module PlayerNode {
  import opened Geometry
  import opened Optional

  /**
    The branch `changePosition` takes for a pointer at `x`: the new horizontal position,
    or `None` when none of its three strict tests fires and the position is kept.
    In a scene at least as wide as the paddle, a pointer exactly on either limit is
    matched by no test.
   */
  function TargetX(x: real, halfWidth: real, sceneWidth: real): (r: Option<real>)
    ensures r.None? <==>
              halfWidth <= sceneWidth - halfWidth && (x == halfWidth || x == sceneWidth - halfWidth)
    ensures halfWidth < x < sceneWidth - halfWidth ==> r == Some(x)
    ensures x < halfWidth ==> r == Some(halfWidth)
    ensures halfWidth <= x && sceneWidth - halfWidth < x ==> r == Some(sceneWidth - halfWidth)
    ensures halfWidth <= sceneWidth - halfWidth && r.Some? ==> halfWidth <= r.value <= sceneWidth - halfWidth
  {
    if x > halfWidth && x < sceneWidth - halfWidth then Some(x)
    else if x < halfWidth then Some(halfWidth)
    else if x > sceneWidth - halfWidth then Some(sceneWidth - halfWidth)
    else None
  }

  /** The horizontal position after one call, from the position `current` before it. */
  function ResultingX(current: real, x: real, halfWidth: real, sceneWidth: real): (r: real)
    ensures r == x || r == current || r == halfWidth || r == sceneWidth - halfWidth
  {
    match TargetX(x, halfWidth, sceneWidth)
    case Some(newX) => newX
    case None => current
  }

  /** Moving towards the same pointer twice lands where moving once does. */
  lemma ResultingXIdempotent(current: real, x: real, halfWidth: real, sceneWidth: real)
    ensures ResultingX(ResultingX(current, x, halfWidth, sceneWidth), x, halfWidth, sceneWidth)
            == ResultingX(current, x, halfWidth, sceneWidth)
  {
  }

  /** In a scene at least as wide as the paddle, a paddle inside the scene stays inside. */
  lemma ResultingXStaysInside(current: real, x: real, halfWidth: real, sceneWidth: real)
    requires halfWidth <= sceneWidth - halfWidth
    requires halfWidth <= current <= sceneWidth - halfWidth
    ensures halfWidth <= ResultingX(current, x, halfWidth, sceneWidth) <= sceneWidth - halfWidth
  {
  }

  /**
    In a scene at least as wide as the paddle, a pointer exactly on a limit leaves the
    paddle where it was, wherever that is.
   */
  lemma PointerOnLimitKeepsPosition(current: real, x: real, halfWidth: real, sceneWidth: real)
    requires halfWidth <= sceneWidth - halfWidth
    requires x == halfWidth || x == sceneWidth - halfWidth
    ensures ResultingX(current, x, halfWidth, sceneWidth) == current
  {
  }

  /** A 400-wide scene and a 40-wide paddle: the pointer at 10, 390 and 200. */
  lemma ClampExamples(current: real)
    ensures ResultingX(current, 10.0, 20.0, 400.0) == 20.0
    ensures ResultingX(current, 390.0, 20.0, 400.0) == 380.0
    ensures ResultingX(current, 200.0, 20.0, 400.0) == 200.0
    ensures ResultingX(current, 20.0, 20.0, 400.0) == current
  {
  }

  /**
    In a scene narrower than the paddle the limits cross over: a pointer on the left
    limit takes the third branch, and a pointer on the right limit takes the second.
   */
  lemma NarrowSceneLimits(current: real)
    ensures TargetX(20.0, 20.0, 30.0) == Some(30.0 - 20.0)
    ensures ResultingX(current, 20.0, 20.0, 30.0) == 10.0
    ensures TargetX(10.0, 20.0, 30.0) == Some(20.0)
    ensures ResultingX(current, 10.0, 20.0, 30.0) == 20.0
  {
  }

  class Player {
    var size: Size
    var position: Point

    constructor (size: Size)
      ensures this.size == size && position == Origin
    {
      this.size := size;
      position := Origin;
    }

    /**
      Follows the pointer at `location`. `sceneWidth` is the width of the scene the
      paddle is in, `None` when it is in no scene; then nothing happens.
     */
    method ChangePosition(location: Point, sceneWidth: Option<real>)
      modifies this`position
      ensures size == old(size) && position.y == old(position.y)
      ensures sceneWidth.None? ==> position == old(position)
      ensures sceneWidth.Some? ==>
                position.x == ResultingX(old(position.x), location.x, size.width / 2.0, sceneWidth.value)
    {
      if sceneWidth.None? {
        return;
      }
      var x := location.x;
      match TargetX(x, size.width / 2.0, sceneWidth.value) {
        case Some(newX) => position := position.(x := newX);
        case None =>
      }
    }
  }
}
