/**
  The ball: a node that moves by its `movement` once per frame, leaves a trail of
  shrinking tail shapes behind it, and paints all its live shapes red while it moves
  faster than its default speed.
 */
module BallNode {
  import opened Geometry
  import opened Shadows

  function Abs(r: real): (a: real)
    ensures a >= 0.0 && (a == r || a == -r)
  {
    if r < 0.0 then -r else r
  }

  /** The test `update` makes: some component of the movement exceeds the baseline's. */
  predicate IsMovingFast(movement: Vector, baseline: Vector): (fast: bool)
    ensures movement == baseline && baseline.dx >= 0.0 && baseline.dy >= 0.0 ==> !fast
  {
    Abs(movement.dy) > baseline.dy || Abs(movement.dx) > baseline.dx
  }

  /** The ball is slow exactly when its movement lies in the box the baseline spans. */
  lemma SlowIffInsideBaseline(movement: Vector, baseline: Vector)
    ensures !IsMovingFast(movement, baseline) <==>
              -baseline.dx <= movement.dx <= baseline.dx && -baseline.dy <= movement.dy <= baseline.dy
  {
  }

  class Ball {
    /** The outer shapes: the head first, then one tail ball and one tail line per frame still alive. */
    var primaryShadows: seq<Shadow>
    /** The inner shapes, the i-th one drawn inside the i-th outer shape. */
    var secondaryShadows: seq<Shadow>

    const size: Size
    const radius: real

    var movement: Vector
    const defaultMovement: Vector := Vector(5.0, 5.0)

    const ballPrimaryColor: Colour := LightBlue
    const ballSecondaryColor: Colour := White
    const fastBallPrimaryColor: Colour := Red
    const fastBallSecondaryColor: Colour := White

    var isBallMovingMad: bool

    /** The ball node's own position in the scene. */
    var position: Point

    /** The identity the next shape node created will get. */
    var nextNodeId: nat
    /** Which inner shape each outer shape holds as its child. */
    ghost var childOf: map<nat, nat>

    /** The colours every live outer and inner shape must have for a given speed state. */
    function PrimaryColour(fast: bool): (c: Colour) {
      if fast then fastBallPrimaryColor else ballPrimaryColor
    }

    function SecondaryColour(fast: bool): (c: Colour) {
      if fast then fastBallSecondaryColor else ballSecondaryColor
    }

    /** The two outer shapes one call of `update` adds, the first of them getting identity `firstId`. */
    function TailPrimaries(firstId: nat, anchor: Point, step: Vector): (tail: seq<Shadow>) {
      [Shadow(firstId, ballPrimaryColor, anchor),
       Shadow(firstId + 2, ballPrimaryColor, Midpoint(anchor, Translate(anchor, step)))]
    }

    /** Their inner shapes, each at the origin of its parent. */
    function TailSecondaries(firstId: nat): (tail: seq<Shadow>) {
      [Shadow(firstId + 1, ballSecondaryColor, Origin), Shadow(firstId + 3, ballSecondaryColor, Origin)]
    }

    /**
      The bookkeeping invariant: the lists run in step, every outer shape has its own
      inner shape, identities are all older than the next one, and no node is listed twice.
     */
    ghost predicate Valid()
      reads this
    {
      Bookkeeping(primaryShadows, secondaryShadows, childOf, nextNodeId)
    }

    /** Every live shape shows the colour of the current speed state. */
    predicate NoStaleColour()
      reads this
    {
      AllColoured(primaryShadows, PrimaryColour(isBallMovingMad)) &&
      AllColoured(secondaryShadows, SecondaryColour(isBallMovingMad))
    }

    constructor (size: Size)
      ensures Valid() && NoStaleColour()
      ensures this.size == size && radius == size.width / 2.0
      ensures movement == defaultMovement == Vector(5.0, 5.0)
      ensures !isBallMovingMad && position == Origin
      ensures primaryShadows == [Shadow(0, LightBlue, Origin)]
      ensures secondaryShadows == [Shadow(1, White, Origin)]
      ensures nextNodeId == 2 && childOf == map[0 := 1]
    {
      this.size := size;
      radius := size.width / 2.0;
      movement := Vector(5.0, 5.0);
      isBallMovingMad := false;
      position := Origin;
      primaryShadows, secondaryShadows := [], [];
      nextNodeId := 0;
      childOf := map[];
      new;
      DrawHeadNode();
    }

    /** Creating a shape node: it gets a fresh identity. */
    method NewShape(colour: Colour, at: Point) returns (shape: Shadow)
      modifies this`nextNodeId
      ensures shape == Shadow(old(nextNodeId), colour, at)
      ensures nextNodeId == old(nextNodeId) + 1
    {
      shape := Shadow(nextNodeId, colour, at);
      nextNodeId := nextNodeId + 1;
    }

    /** The head: an outer circle with an inner circle, both at the ball's origin, in the slow colours. */
    method DrawHeadNode()
      requires Valid()
      modifies this
      ensures Valid()
      ensures primaryShadows == old(primaryShadows) + [Shadow(old(nextNodeId), ballPrimaryColor, Origin)]
      ensures secondaryShadows == old(secondaryShadows) + [Shadow(old(nextNodeId) + 1, ballSecondaryColor, Origin)]
      ensures nextNodeId == old(nextNodeId) + 2
      ensures childOf == old(childOf)[old(nextNodeId) := old(nextNodeId) + 1]
      ensures position == old(position) && movement == old(movement) && isBallMovingMad == old(isBallMovingMad)
    {
      var shape := NewShape(ballPrimaryColor, Origin);
      var secondaryShape := NewShape(ballSecondaryColor, Origin);
      AppendPairKeepsBookkeeping(primaryShadows, secondaryShadows, childOf, old(nextNodeId), shape, secondaryShape);
      primaryShadows := primaryShadows + [shape];
      secondaryShadows := secondaryShadows + [secondaryShape];
      childOf := childOf[shape.id := secondaryShape.id];
    }

    /**
      One frame's tail: a tail ball at the ball's position and a tail line centred
      halfway along this frame's step, each with its inner shape, all in the slow colours.
     */
    method DrawTailNode()
      requires Valid()
      modifies this`primaryShadows, this`secondaryShadows, this`nextNodeId, this`childOf
      ensures Valid()
      ensures primaryShadows == old(primaryShadows) + TailPrimaries(old(nextNodeId), position, movement)
      ensures secondaryShadows == old(secondaryShadows) + TailSecondaries(old(nextNodeId))
      ensures nextNodeId == old(nextNodeId) + 4
      ensures childOf == old(childOf)[old(nextNodeId) := old(nextNodeId) + 1][old(nextNodeId) + 2 := old(nextNodeId) + 3]
    {
      ghost var primary, secondary, children, first := primaryShadows, secondaryShadows, childOf, nextNodeId;
      var tailBall := NewShape(ballPrimaryColor, position);
      var tailSecondaryBall := NewShape(ballSecondaryColor, Origin);
      childOf := childOf[tailBall.id := tailSecondaryBall.id];

      var tailLineStartingPoint := position;
      var tailLineEndingPoint := Translate(position, movement);
      var tailLine := NewShape(ballPrimaryColor, Midpoint(tailLineStartingPoint, tailLineEndingPoint));
      var tailSecondaryLine := NewShape(ballSecondaryColor, Origin);
      childOf := childOf[tailLine.id := tailSecondaryLine.id];

      primaryShadows := primaryShadows + [tailBall];
      primaryShadows := primaryShadows + [tailLine];
      secondaryShadows := secondaryShadows + [tailSecondaryBall];
      secondaryShadows := secondaryShadows + [tailSecondaryLine];

      assert [tailBall, tailLine] == TailPrimaries(first, position, movement);
      assert [tailSecondaryBall, tailSecondaryLine] == TailSecondaries(first);
      assert primaryShadows == primary + [tailBall, tailLine];
      assert secondaryShadows == secondary + [tailSecondaryBall, tailSecondaryLine];
      AppendPairKeepsBookkeeping(primary, secondary, children, first, tailBall, tailSecondaryBall);
      AppendPairKeepsBookkeeping(primary + [tailBall], secondary + [tailSecondaryBall],
                                 children[first := first + 1], first + 2, tailLine, tailSecondaryLine);
    }

    /**
      Assigning `isBallMovingMad`, with its observer: every live outer shape, then every
      live inner shape, is repainted in the colour of the new state.
     */
    method SetMovingMad(fast: bool)
      requires Valid()
      modifies this`isBallMovingMad, this`primaryShadows, this`secondaryShadows
      ensures Valid() && NoStaleColour()
      ensures isBallMovingMad == fast
      ensures primaryShadows == Recolour(old(primaryShadows), PrimaryColour(fast))
      ensures secondaryShadows == Recolour(old(secondaryShadows), SecondaryColour(fast))
    {
      ghost var primary, secondary := primaryShadows, secondaryShadows;
      RecolourKeepsBookkeeping(primary, secondary, childOf, nextNodeId, PrimaryColour(fast), SecondaryColour(fast));
      isBallMovingMad := fast;
      var colour := PrimaryColour(fast);
      var i := 0;
      while i < |primaryShadows|
        invariant 0 <= i <= |primaryShadows| == |primary|
        invariant forall k :: 0 <= k < i ==> primaryShadows[k] == primary[k].(colour := colour)
        invariant forall k :: i <= k < |primaryShadows| ==> primaryShadows[k] == primary[k]
        invariant isBallMovingMad == fast && secondaryShadows == secondary
      {
        primaryShadows := primaryShadows[i := primaryShadows[i].(colour := colour)];
        i := i + 1;
      }
      assert primaryShadows == Recolour(primary, colour);
      colour := SecondaryColour(fast);
      i := 0;
      while i < |secondaryShadows|
        invariant 0 <= i <= |secondaryShadows| == |secondary|
        invariant forall k :: 0 <= k < i ==> secondaryShadows[k] == secondary[k].(colour := colour)
        invariant forall k :: i <= k < |secondaryShadows| ==> secondaryShadows[k] == secondary[k]
        invariant isBallMovingMad == fast && primaryShadows == Recolour(primary, PrimaryColour(fast))
      {
        secondaryShadows := secondaryShadows[i := secondaryShadows[i].(colour := colour)];
        i := i + 1;
      }
      assert secondaryShadows == Recolour(secondary, colour);
    }

    /**
      One frame: spawn this frame's tail, settle the speed state (repainting every live
      shape), then move by `movement`.
     */
    method Update()
      requires Valid()
      modifies this
      ensures Valid() && NoStaleColour()
      ensures movement == old(movement)
      ensures isBallMovingMad == IsMovingFast(movement, defaultMovement)
      ensures position == Translate(old(position), movement)
      ensures primaryShadows ==
                Recolour(old(primaryShadows) + TailPrimaries(old(nextNodeId), old(position), movement),
                         PrimaryColour(isBallMovingMad))
      ensures secondaryShadows ==
                Recolour(old(secondaryShadows) + TailSecondaries(old(nextNodeId)), SecondaryColour(isBallMovingMad))
      ensures primaryShadows[..|old(primaryShadows)|] == Recolour(old(primaryShadows), PrimaryColour(isBallMovingMad))
      ensures secondaryShadows[..|old(secondaryShadows)|] == Recolour(old(secondaryShadows), SecondaryColour(isBallMovingMad))
      ensures |primaryShadows| == |old(primaryShadows)| + 2 && |secondaryShadows| == |old(secondaryShadows)| + 2
      ensures nextNodeId == old(nextNodeId) + 4
      ensures childOf == old(childOf)[old(nextNodeId) := old(nextNodeId) + 1][old(nextNodeId) + 2 := old(nextNodeId) + 3]
    {
      ghost var primary, secondary := primaryShadows, secondaryShadows;
      ghost var tailPrimaries, tailSecondaries := TailPrimaries(nextNodeId, position, movement), TailSecondaries(nextNodeId);
      DrawTailNode();

      if Abs(movement.dy) > defaultMovement.dy || Abs(movement.dx) > defaultMovement.dx {
        SetMovingMad(true);
      } else {
        SetMovingMad(false);
      }
      assert isBallMovingMad == IsMovingFast(movement, defaultMovement);
      RecolourKeepsPrefix(primary, tailPrimaries, PrimaryColour(isBallMovingMad));
      RecolourKeepsPrefix(secondary, tailSecondaries, SecondaryColour(isBallMovingMad));

      position := Point(position.x + movement.dx, position.y + movement.dy);
    }

    /**
      The end of a tail shape's shrink animation: the outer shape and its inner shape
      leave both lists, compared by identity.
     */
    method CompleteTail(primaryId: nat, secondaryId: nat)
      requires Valid()
      requires primaryId in childOf && childOf[primaryId] == secondaryId
      modifies this
      ensures Valid()
      ensures primaryShadows == RemoveId(old(primaryShadows), primaryId)
      ensures secondaryShadows == RemoveId(old(secondaryShadows), secondaryId)
      ensures !HasId(old(primaryShadows), primaryId) ==> primaryShadows == old(primaryShadows)
      ensures !HasId(old(secondaryShadows), secondaryId) ==> secondaryShadows == old(secondaryShadows)
      ensures old(NoStaleColour()) ==> NoStaleColour()
      ensures position == old(position) && movement == old(movement) && isBallMovingMad == old(isBallMovingMad)
      ensures nextNodeId == old(nextNodeId) && childOf == old(childOf)
    {
      var primary, secondary := primaryShadows, secondaryShadows;
      RemovePairKeepsBookkeeping(primary, secondary, childOf, nextNodeId, primaryId, secondaryId);
      if !HasId(primary, primaryId) {
        RemoveAbsentId(primary, primaryId);
      }
      if !HasId(secondary, secondaryId) {
        RemoveAbsentId(secondary, secondaryId);
      }
      if NoStaleColour() {
        RemoveIdKeepsColour(primary, primaryId, PrimaryColour(isBallMovingMad));
        RemoveIdKeepsColour(secondary, secondaryId, SecondaryColour(isBallMovingMad));
      }
      primaryShadows := RemoveId(primary, primaryId);
      secondaryShadows := RemoveId(secondary, secondaryId);
    }
  }
}
