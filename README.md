# Bouncy: the ball's trail bookkeeping and the paddle's clamping, in Dafny

Bouncy is a small arcade game. The user drags a paddle (`Player`) sideways along the
bottom of the screen, and a ball (`Ball`) bounces around the scene. The ball leaves a
trail of shrinking shapes behind it and turns red while it moves faster than its
default speed. This project models the two pieces of game logic that can be stated
exactly, and proves their properties:

- **Ball** (`ball.dfy`, `shadows.dfy`): a class holding the ball's position and
  movement, its speed flag `isBallMovingMad`, and two lists of shape nodes ("shadows").
  `primaryShadows` holds the outer shapes: the head, then a tail ball and a tail line
  for every frame whose tail has not yet shrunk away. `secondaryShadows` holds the
  inner shape drawn inside each of them. A node is a record of a serial id (standing for
  the node's reference identity), its fill colour and its position in its parent. New
  ids come from a counter. A ghost map `childOf` records which inner shape belongs to
  which outer shape. Every inner shape is created right after its outer shape, so its
  id is the next one. The `isBallMovingMad` observer (`didSet`) is the method
  `SetMovingMad`, with the same two repainting loops. The end of a tail's shrink
  animation is the explicit event `CompleteTail(primaryId, secondaryId)`.
- **Player** (`player.dfy`): the choice of branch in `changePosition(towards:)` is the
  pure function `TargetX`, and the class method `ChangePosition` applies it to
  `position.x`. The scene's width is a parameter of type `Option<real>`. `None` stands
  for a paddle that is in no scene.
- `geometry.dfy` holds points, vectors and sizes over `real`. `optional.dfy` holds
  `Option`.

CGFloat is idealised as `real`. Only addition, subtraction, negation, halving and
comparison occur in the modelled code.

The code tests `>` and `<` strictly (Player.swift:42-47). So in a scene at least as
wide as the paddle, a pointer exactly on either limit matches none of the three branches,
and the paddle stays where it was. `PointerOnLimitKeepsPosition` and the `None` case of
`TargetX` state this behaviour. In a scene narrower than the paddle, a pointer on the
left limit takes the third branch (to `sceneWidth - halfWidth`) and a pointer on the
right limit takes the second (to `halfWidth`); `NarrowSceneLimits` states both.

## Model

| member | source | states |
|---|---|---|
| Shadows.Recolour | Bouncy/SpriteKit/Nodes/Ball.swift:29-35 | every node gets the given colour; each keeps its identity, its position and its place in the list |
| Shadows.RecolourAppend | Bouncy/SpriteKit/Nodes/Ball.swift:125-128 | repainting the extended list repaints the old entries in their order and the appended ones after them |
| Shadows.RemoveId | Bouncy/SpriteKit/Nodes/Ball.swift:138-139 | `removeAll { $0 == node }`: a record remains exactly when it was there and has another identity; the list never grows |
| Shadows.RemoveAbsentId | Bouncy/SpriteKit/Nodes/Ball.swift:136-146 | removing an identity that is not listed leaves the list unchanged |
| Shadows.RemoveIdIdempotent | Bouncy/SpriteKit/Nodes/Ball.swift:136-146 | repeating a removal changes nothing |
| Shadows.RemoveUniqueId | Bouncy/SpriteKit/Nodes/Ball.swift:138-139 | in a list without repeated nodes, removal drops exactly the one entry with that identity; all others keep their relative order |
| Shadows.RemoveIdKeepsNoDup | Bouncy/SpriteKit/Nodes/Ball.swift:136-146 | removal never makes a node appear twice |
| Shadows.RemoveIdKeepsColour | Bouncy/SpriteKit/Nodes/Ball.swift:136-146 | removal leaves no stale colour in a list that had none |
| Shadows.AppendPairKeepsBookkeeping | Bouncy/SpriteKit/Nodes/Ball.swift:125-128 | appending a freshly created outer shape and its inner shape, one to each list, keeps the lists in step, keeps every child the node created after its parent, and lists no node twice |
| Shadows.RemovePairKeepsBookkeeping | Bouncy/SpriteKit/Nodes/Ball.swift:136-146 | removing an outer shape from one list and its own inner shape from the other keeps the whole bookkeeping invariant |
| Shadows.RecolourKeepsBookkeeping | Bouncy/SpriteKit/Nodes/Ball.swift:27-36 | repainting both lists keeps the whole bookkeeping invariant |
| Shadows.RecolourKeepsPrefix | Bouncy/SpriteKit/Nodes/Ball.swift:154-162 | after the tail is appended and everything is repainted, the list is two longer and begins with the repainted old list |
| Shadows.RemovePairKeepsPairing | Bouncy/SpriteKit/Nodes/Ball.swift:136-146 | removing an outer shape from one list and its own inner shape from the other keeps the i-th inner shape the child of the i-th outer shape |
| BallNode.SlowIffInsideBaseline | Bouncy/SpriteKit/Nodes/Ball.swift:158-162 | the ball is slow exactly when both movement components lie within ± the baseline's; fast exactly when `abs(dy) > 5` or `abs(dx) > 5` for the default baseline |
| BallNode.IsMovingFast | Bouncy/SpriteKit/Nodes/Ball.swift:158 | the fast test of `update`: some component of the movement exceeds the baseline's in absolute value; a movement equal to a non-negative baseline is not fast |
| Geometry.Translate | Bouncy/SpriteKit/Nodes/Ball.swift:165-166 | the point reached by one step of the vector: its displacement from the start is exactly the vector (also the tail line's end point, line 103) |
| Geometry.Midpoint | Bouncy/SpriteKit/Nodes/Ball.swift:115 | the tail line's centre: equally far from both end points on each axis |
| BallNode.Ball.constructor | Bouncy/SpriteKit/Nodes/Ball.swift:40-49 | `radius == size.width / 2`; movement is the default (5,5); the flag is false; each list holds only the head shape, light blue outside and white inside; the identity counter stands at 2 with the inner head shape recorded as the child of the outer one; the invariants hold |
| BallNode.Ball.NewShape | Bouncy/SpriteKit/Nodes/Ball.swift:87-97 | a created shape node has a fresh identity and the given colour and position |
| BallNode.Ball.DrawHeadNode | Bouncy/SpriteKit/Nodes/Ball.swift:65-83 | appends the head's outer and inner shape at the origin in the slow colours, the inner one a child of the outer one |
| BallNode.Ball.DrawTailNode | Bouncy/SpriteKit/Nodes/Ball.swift:85-128 | appends a tail ball at the ball's position and a tail line centred at the midpoint of `position` and `position + movement` to the outer list, and their inner shapes to the inner list, in that order; earlier entries are untouched and the lists stay paired |
| BallNode.Ball.SetMovingMad | Bouncy/SpriteKit/Nodes/Ball.swift:27-37 | assigning the flag repaints every live outer shape red if set, else light blue, and every inner shape white; nothing else changes |
| BallNode.Ball.Update | Bouncy/SpriteKit/Nodes/Ball.swift:154-167 | two nodes are appended to each list and the old entries keep their order; afterwards no live shape has a stale colour; the flag equals the fast test on `movement`; `movement` is unchanged; the position advances by exactly `movement`; the two new outer shapes are recorded as parents of their inner shapes, and the counter advances by four |
| BallNode.Ball.CompleteTail | Bouncy/SpriteKit/Nodes/Ball.swift:136-146 | removes that outer shape and its inner shape from both lists by identity; a pair already removed leaves both lists unchanged; pairing and colour consistency are kept |
| PlayerNode.TargetX | Bouncy/SpriteKit/Nodes/Player.swift:42-48 | inside the open interval the pointer's x is taken; left of it, `halfWidth`; right of it (and not left), `sceneWidth - halfWidth`; no branch fires exactly when the pointer sits on a limit of a scene at least as wide as the paddle; the result then lies within the limits |
| PlayerNode.ResultingXIdempotent | Bouncy/SpriteKit/Nodes/Player.swift:42-47 | two moves towards the same pointer end where one does |
| PlayerNode.ResultingXStaysInside | Bouncy/SpriteKit/Nodes/Player.swift:42-47 | in a scene at least as wide as the paddle, a paddle within the limits stays within them after any move |
| PlayerNode.ResultingX | Bouncy/SpriteKit/Nodes/Player.swift:42-48 | the horizontal position after one call: the branch's value when a branch fires, else the position before the call; equal to `halfWidth` or `sceneWidth - halfWidth` whenever it is neither the pointer's x nor the old position |
| PlayerNode.PointerOnLimitKeepsPosition | Bouncy/SpriteKit/Nodes/Player.swift:42-47 | in a scene at least as wide as the paddle, a pointer exactly on a limit leaves the position as it was |
| PlayerNode.ClampExamples | Bouncy/SpriteKit/Nodes/Player.swift:42-47 | in a 400-wide scene with a 40-wide paddle, pointers at 10, 390 and 200 give 20, 380 and 200; a pointer at 20 changes nothing |
| PlayerNode.NarrowSceneLimits | Bouncy/SpriteKit/Nodes/Player.swift:42-47 | in a 30-wide scene with a 40-wide paddle, a pointer on the left limit (20) moves the paddle to the right clamp 10 through the third branch, and a pointer on the right limit (10) moves it to the left clamp 20 through the second branch |
| PlayerNode.Player.constructor | Bouncy/SpriteKit/Nodes/Player.swift:14-20 | the paddle keeps the given size and starts at the origin |
| PlayerNode.Player.ChangePosition | Bouncy/SpriteKit/Nodes/Player.swift:38-49 | with no scene nothing changes; otherwise only `position.x` may change, to the result of the branch decision; `position.y` and `size` never change |

## Left out

- CGFloat arithmetic is idealised as exact `real` arithmetic. The model does not capture rounding in `position += movement` or in the tail line's midpoint. Nor does it capture NaN coordinates: a NaN pointer fails every comparison, so the paddle would stay in place.
- Physics-body set-up (Ball.swift lines 56-63) and collision response: these belong to the game engine. Nothing in the modelled code changes `movement`, so it changes only where a caller assigns it.
- The 0.5-second linear shrink animations: wall-clock time is not modelled. `CompleteTail` is the event the animation's completion handler fires. The model does not bound when it fires.
- The tail line's length and rotation (`sqrt`, `pow`, `atan2`): floating-point transcendental math. Shape sizes, corner radius, line width and z-positions are also left out. They are rendering detail.
- Scene-graph changes (`addChild`, `removeFromParent`, `scene?.addChild`): only the inner/outer relation between the shapes is kept, as `childOf`. A tail is recorded in the lists even when the ball is in no scene, as the code does.
- `init?(coder:)` in both classes: it only stops the program.
- `movementIncreaseRate`: nothing in the modelled code uses it.
- `GameView.swift`: view hosting and scene sizing, with no game logic.
- BallNode.Ball.CompleteTail: accepts any recorded outer/inner pair, the head included. In the game, only a tail pair's completion handler ever calls it.
