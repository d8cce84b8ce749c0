# A verified model of the cski skiing game's core

cski is a browser game. A skier heads downhill through a field of trees,
rocks and jump ramps. Steering moves the skier one step through seven
direction codes. Hitting a ramp makes the skier jump, and hitting anything
else crashes it. After too long on the move, a rhino wakes, runs in from the
right and eats the skier.

This project models the game's state-holding objects in Dafny:

- **`Obstacles`** (`obstacle.dfy`): an obstacle's type index, its sprite
  rectangle and the 5-unit collision band at the base of the sprite.
- **`Skiers`** (`skier.dfy`): the direction machine, the per-frame move, the
  collision rectangle and the timed jump animation.
- **`Rhinos`** (`rhino.dfy`): the SLEEP → RUN → EAT → HAS_EATEN machine, the
  x-only step, and the run and eat animations.
- **`Field`** (`obstacle_handler.dfy`): the obstacle field. It covers:
  - rejection-sampled placement with an exclusion square, in bands chosen by
    the skier's direction;
  - the cull in the render pass;
  - the stable sort of the initial field by bottom edge;
  - the rectangle test and the collision query.
- **`Session`** (`game.dfy`): the per-session rules. It covers score, ski
  counter, pause, high score, the frame sequence, the keys and play-again.
- **`Assets`** (`assets.dfy`): the shared shapes, the sprite-size table, and
  the rounding of diagonal speeds.

Objects whose fields the game updates in place are classes with `modifies`
clauses: the skier, the rhino, the obstacle handler and the session. Their
methods state the whole new state. The one exception is the obstacles a
spawn adds: they are given by position and type (`Field.Placements`), not as
object identities. Each interval timer becomes explicit
state plus a `Tick` method; one call stands for one firing of the interval.

Every random draw becomes a parameter with the range the game draws it from:
- a coordinate is a fraction in [0, 1] of its range;
- an obstacle's type is an index in 0..4;
- the spawn gate is in 1..8;
- the density k is in 5..7;
- the rhino threshold is in 500..1000.

The obstacle field's invariant is that no two live obstacles lie within each
other's 50-unit exclusion square (`Field.Separated`). Every handler method
preserves it. Placement is specified by pure functions:
- `CalculateOpenPosition` takes the first open candidate;
- `Outcome` is what one placement adds;
- `Spawned` is what a run of placements adds, each seeing the ones before.

The methods are proved equal to these functions, and the lemmas state what
the functions guarantee.

Where the code and its documentation disagree, the model follows the code.
The rectangle test counts rectangles that only touch along an edge as
intersecting: all four of its comparisons are strict, so a shared edge never
separates two rectangles. `Field.TouchingEdgesIntersect` states this
(js/obstaclehandler.js:216-221).

## Model

| member | source | states |
|---|---|---|
| Assets.RoundDiagonal | js/skier.js:138 | The diagonal step is Math.round(v / 1.4142): the integer within one half of v / 1.4142, halves rounded up |
| Assets.DiagonalSteps | js/skier.js:138-139 | The diagonal step is 6 at the skier's speed 8 and 2 at the rhino's speed 3 |
| Assets.LerpBetween | js/obstaclehandler.js:165-166 | A coordinate drawn as a fraction in [0, 1] of a range lies between the range's two bounds, whichever is larger |
| Assets.CeilDiv | js/obstaclehandler.js:84 | Math.ceil(a / b) for b > 0: the r with (r - 1) * b < a <= r * b |
| Obstacles.Obstacle.constructor | js/obstacle.js:12-26 | A new obstacle has the drawn type and exactly the given position |
| Obstacles.Obstacle.Reset | js/obstacle.js:32-35 | Reset yields an obstacle at (0, 0) with the same type |
| Obstacles.Obstacle.Move | js/obstacle.js:38-39 | Moving an obstacle changes nothing |
| Obstacles.Obstacle.TypeName | js/obstacle.js:103-109 | The type index always names one of the five types: it is a valid index into the type table |
| Obstacles.Obstacle.IsJump | js/obstacle.js:47-50 | An obstacle is a jump exactly when its type name is 'jumpRamp' |
| Obstacles.Obstacle.ObstacleRect | js/obstacle.js:58-67 | The sprite rectangle sits at the obstacle's position with its sprite's width and height |
| Obstacles.Obstacle.ObstacleBounds | js/obstacle.js:75-84 | The collision band starts at the obstacle's x, is as wide as its sprite, ends on the sprite's bottom edge and is 5 high; it is well formed exactly when the sprite width is not negative |
| Obstacles.Obstacle.BandAtBase | js/obstacle.js:75-84 | The collision band spans the sprite rectangle's full width, ends on its bottom edge and is 5 high |
| Obstacles.Obstacle.BandInsideSprite | js/obstacle.js:75-84 | For a sprite at least 5 high, the band is well formed and lies inside the sprite rectangle |
| Skiers.Travel | js/skier.js:135-151 | One frame's travel at speed 8: (-6, +6) for LEFT_DOWN, (+6, +6) for RIGHT_DOWN, (0, +8) for DOWN and JUMP, none otherwise |
| Skiers.CollisionRect | js/skier.js:100-111 | The collision rectangle of a sprite at a position: as wide as the sprite, 5 high, offset by half the view, its bottom on the sprite's bottom; well formed exactly when the sprite width is not negative |
| Skiers.Skier.constructor | js/skier.js:11-17 | A new skier faces RIGHT at speed 8 at (0, 0) with jump frame 'skierJump1' and no jump timer |
| Skiers.Skier.Reset | js/skier.js:37-42 | Reset restores the constructor's direction, speed and position; the jump frame and a running jump timer are untouched |
| Skiers.Skier.JumpSkier | js/skier.js:48-53 | Jumping sets JUMP and starts the jump timer at frame 0; position and frame unchanged |
| Skiers.Skier.JumpTick | js/skier.js:53-64 | Each firing shows the next of the four jump frames; the firing after the last sets DOWN and stops the timer; with no timer nothing changes |
| Skiers.Skier.SkierAsset | js/skier.js:82-92 | The asset is always one of the ten sprites the skier loads (js/skier.js:19-30), never 'skierJump': a jump frame while jumping, else the direction's own asset. The class invariant keeps the jump frame one of the four |
| Skiers.Skier.IsJumping | js/skier.js:72-75 | A jumping skier does not count as moving downhill, yet travels 8 straight down each frame |
| Skiers.Skier.IsMoving | js/skier.js:219-223 | Moving downhill holds exactly for the directions other than JUMP whose frame travel goes down the slope |
| Skiers.Skier.SkierRect | js/skier.js:100-111 | The collision rectangle is as wide as the sprite and exactly 5 high; it is offset by half the view and its bottom is the sprite's bottom |
| Skiers.Skier.Move | js/skier.js:135-151 | The position advances by the direction's `Travel`: LEFT_DOWN by (-6, +6), RIGHT_DOWN by (+6, +6), DOWN and JUMP by 8 down, CRASHED, LEFT and RIGHT not at all; the direction and the jump state are kept |
| Skiers.Skier.ChangeDirectionLeft | js/skier.js:157-170 | From LEFT, strafe left by the speed; from CRASHED, turn to LEFT; otherwise one step left. y never changes; from any direction but JUMP the result is in LEFT..RIGHT |
| Skiers.Skier.ChangeDirectionRight | js/skier.js:176-184 | From RIGHT, strafe right by the speed; otherwise one step right. y never changes; the result is in LEFT..RIGHT |
| Skiers.Skier.ChangeDirectionDown | js/skier.js:190-193 | The direction becomes DOWN; the position is unchanged |
| Skiers.Skier.SkierCrashed | js/skier.js:199-202 | The direction becomes CRASHED; the position is unchanged |
| Skiers.MovingExcludesJumping | js/skier.js:219-223 | Moving downhill and jumping never hold together |
| Skiers.JumpSequence | js/skier.js:48-65 | A jump shows 'skierJump1' to 'skierJump4' in order on four firings; the fifth returns to DOWN, stops the timer and leaves the position unchanged |
| Rhinos.Step | js/rhino.js:152 | One rhino move is round(3 / 1.4142) = 2 |
| Rhinos.Rhino.constructor | js/rhino.js:12-37 | A new rhino sleeps at (W + 20, H / 2), showing the first run frame, with no timer running |
| Rhinos.Rhino.Reset | js/rhino.js:43-48 | Reset restores the constructor's mode, asset and position; timers are untouched |
| Rhinos.Rhino.RhinoRun | js/rhino.js:77-80 | Running sets RUN and starts the run timer; position and asset unchanged |
| Rhinos.Rhino.RunTick | js/rhino.js:80-96 | While right of the midpoint, each firing swaps the two run frames; at or left of it, the timer stops with nothing else changed |
| Rhinos.Rhino.RhinoEat | js/rhino.js:103-108 | Eating sets EAT and starts the eat timer at frame 0 |
| Rhinos.Rhino.EatTick | js/rhino.js:108-119 | Each firing shows the next of the seven eat frames; the firing after the last sets HAS_EATEN and stops the timer; the mode never goes back |
| Rhinos.Rhino.Move | js/rhino.js:151-153 | A move takes x down by 2 and changes nothing else |
| Rhinos.Rhino.IsRhinoEating | js/rhino.js:56-59 | Eating or done holds exactly for the modes from EAT on, and implies the rhino is awake |
| Rhinos.Rhino.IsRhinoActive | js/rhino.js:67-70 | Awake holds exactly for the modes from RUN on |
| Rhinos.Approach | js/rhino.js:151-153 | n successive moves leave the rhino at XAfterMoves of its start, with nothing but x changed |
| Rhinos.XAfterMovesClosed | js/rhino.js:151-153 | After n moves the rhino is at x0 - 2n |
| Rhinos.ReachesMidpoint | js/rhino.js:81 | From the start position the rhino is at or left of W / 2 after n moves exactly when n >= ceil((W / 2 + 20) / 2) |
| Rhinos.EatSequence | js/rhino.js:103-120 | A meal shows the seven eat frames in order, ending on 'rhinoDefault'; the eighth firing sets HAS_EATEN and stops the timer |
| Field.CalculateOpenPosition | js/obstaclehandler.js:164-181 | An accepted position lies in the area and is at least 50 away on some axis from every taken position (exactly 50 allowed) |
| Field.OpenPositionIsFirstOpen | js/obstaclehandler.js:164-181 | No position is found exactly when every candidate is blocked; a found position is a candidate all of whose predecessors are blocked |
| Field.OutcomeIsFirstOpen | js/obstaclehandler.js:148-153 | A placement adds nothing exactly when every candidate is blocked; otherwise exactly one obstacle of the drawn type, in the area, at the first open candidate |
| Field.SpawnedSeparated | js/obstaclehandler.js:106-137 | A run of placements adds at most one obstacle per band. Each lands in one of the bands and is 50 away on some axis from everything placed before and from each other |
| Field.SpawnAreas | js/obstaclehandler.js:112-136 | At most two bands, none exactly for CRASHED and JUMP; every band lies outside the view, left of it, right of it or below it |
| Field.SpawnBands | js/obstaclehandler.js:112-136 | LEFT, DOWN and RIGHT give one band and the diagonals two, else none. Each band is 50 wide beside the view over its full height, or 50 high below it over its full width |
| Field.InitialCountIsCeiling | js/obstaclehandler.js:84 | The initial count is the least n with n * 800 * 500 >= k * W * H when that product is positive, and 0 otherwise |
| Field.InitialCounts | js/obstaclehandler.js:84 | ceil(k * W/800 * H/500) is k at 800 x 500 and 4k at 1600 x 1000, for k in 5..7 |
| Field.Culled | js/obstaclehandler.js:62-76 | The cull never yields more obstacles than it was given; `CulledMembers`, `CulledConcat` and `CulledIdempotent` state which it keeps |
| Field.CulledMembers | js/obstaclehandler.js:62-74 | The cull keeps exactly the obstacles whose screen position lies in [-100, W + 50] x [-100, H + 50], bounds included |
| Field.CulledConcat | js/obstaclehandler.js:62-74 | The cull works element by element, so kept obstacles keep their order |
| Field.CulledIdempotent | js/obstaclehandler.js:57-77 | A second cull from the same skier position removes nothing more |
| Field.SortByBottom | js/obstaclehandler.js:95-98 | The sorted field holds the same obstacles, each as often |
| Field.SortByBottomSorted | js/obstaclehandler.js:95-98 | The sorted field is in non-decreasing order of bottom edge (y + height) |
| Field.SortByBottomStable | js/obstaclehandler.js:95-98 | The sort is stable: obstacles sharing a bottom edge keep their relative order |
| Field.IntersectRect | js/obstaclehandler.js:216-221 | The test holds exactly when the closed extents overlap on both axes, edges included |
| Field.IntersectSymmetric | js/obstaclehandler.js:216-221 | The rectangle test is symmetric |
| Field.IntersectIffCommonPoint | js/obstaclehandler.js:216-221 | For well-formed rectangles the test holds exactly when the closed rectangles share a point |
| Field.TouchingEdgesIntersect | js/obstaclehandler.js:216-221 | Rectangles that only touch along an edge count as intersecting |
| Field.FirstHit | js/obstaclehandler.js:190-194 | The search returns the first obstacle whose band meets the skier's rectangle; none before it does; the length of the field means none does |
| Field.SeparatedSubset | js/obstaclehandler.js:57-77 | Any obstacles taken from a separated field are separated: the cull keeps the invariant |
| Field.SeparatedPermutation | js/obstaclehandler.js:95-98 | Reordering a separated field keeps it separated: the sort keeps the invariant |
| Field.PushSeparated | js/obstaclehandler.js:152 | Appending an obstacle 50 away from all others keeps the field separated |
| Field.ObstacleHandler.constructor | js/obstaclehandler.js:13-20 | A new handler has an empty field, the given skier and the view's size |
| Field.ObstacleHandler.Reset | js/obstaclehandler.js:26-28 | Reset empties the field |
| Field.ObstacleHandler.PlaceRandomObstacle | js/obstaclehandler.js:148-153 | Earlier obstacles are untouched; the field grows by exactly the placement's outcome, a new obstacle at the first open candidate; the invariant holds |
| Field.ObstacleHandler.PlaceNewObstacle | js/obstaclehandler.js:106-137 | Nothing changes unless the gate draw is 8; then the field grows by the run of placements over the direction's bands, each seeing the ones before |
| Field.ObstacleHandler.CheckToPlaceObstacle | js/obstaclehandler.js:45-49 | Spawns only while the skier moves downhill, in the bands of its current direction; otherwise the field is unchanged |
| Field.ObstacleHandler.Draw | js/obstaclehandler.js:57-77 | The loop leaves exactly the cull of the field, in order, and keeps the invariant |
| Field.ObstacleHandler.PlaceInitialObstacles | js/obstaclehandler.js:83-99 | ceil(k * W/800 * H/500) attempts in the initial area add new obstacles as the run of placements gives them. The result is the old and new obstacles, sorted by bottom edge, with the invariant kept |
| Field.ObstacleHandler.CheckIfSkierHitObstacle | js/obstaclehandler.js:187-207 | A jumping skier or no hit changes nothing. Otherwise the first obstacle in order whose band meets the skier's rectangle decides: a ramp starts a jump, anything else crashes the skier |
| Session.ScoreGain | js/game.js:69-79 | A frame's gain is never negative: 10 while jumping, else 1 while moving downhill, else 0 |
| Session.Max | js/game.js:100-106 | The larger of two values: at least both and equal to one |
| Session.Game.constructor | js/game.js:16-48 | A session starts at score 0, ski counter 0, unpaused, with the stored high score. Its skier is new, faces RIGHT at (0, 0) with jump frame 'skierJump1' and no jump timer. Its field is empty. Its rhino is new and asleep at (W + 20, H / 2), showing the first run frame, with no timer running |
| Session.Game.IsInputAllowed | js/game.js:302-304 | Input is allowed exactly when the game is not paused and the skier is not jumping, so steering never meets a jumping skier |
| Session.Game.CanPause | js/game.js:132-150 | A game that can be paused has a skier that is not crashed and a rhino not eating; running, it also takes input |
| Session.Game.IsGameOver | js/game.js:172-200 | Game over means a crashed skier or an eating or fed rhino, and a finished game cannot be paused |
| Session.Game.CalculateScore | js/game.js:69-79 | The score grows by exactly the frame's gain; nothing else changes |
| Session.Game.CalculateSkiCounter | js/game.js:207-214 | The counter grows while moving downhill, returns to 0 when stopped with the rhino asleep, else is kept |
| Session.Game.TogglePause | js/game.js:132-150 | Pause flips only when the skier is neither crashed nor jumping and the rhino not eating; a frame is requested exactly when it un-pauses |
| Session.Game.SaveHighScore | js/game.js:100-106 | The high score becomes the maximum of itself and the score |
| Session.Game.CheckGameOver | js/game.js:172-200 | Game over holds exactly when the skier crashed or the rhino has eaten; only then is the high score saved |
| Session.Game.CheckDrawRhino | js/game.js:223-247 | The rhino is untouched below the threshold and while eating. Past it, a rhino at or left of W / 2 starts eating in place with its run timer as it was; else it moves 2 left and runs, its run timer started if it slept. Its y and asset never change, and its mode never goes back |
| Session.Game.GameLoop | js/game.js:253-293 | While the rhino eats the skier and score are frozen. Otherwise the skier travels by `Travel`, the field grows by the spawn run when moving and the gate is 8, and the first obstacle hit by the moved skier's rectangle starts a jump or crashes it. The score then grows by what the new direction earns. In every frame the field is culled around the skier. The ski counter follows the new direction and the rhino the new counter, as in `CheckDrawRhino`. A game over saves the high score. Another frame is requested exactly when the skier is not crashed, not paused and the rhino has not eaten |
| Session.Game.SkierStep | js/game.js:263-274 | The skier travels by `Travel` of its direction. The field keeps its obstacles and grows by the spawn run in that direction's bands when moving and the gate is 8. The first obstacle whose band meets the moved skier's rectangle starts a jump (a ramp) or crashes it, unless the skier was jumping. The score grows by the gain of the resulting direction |
| Session.Game.FinishFrame | js/game.js:276-292 | The field becomes its cull around the skier. The ski counter grows while moving and is reset when stopped with the rhino asleep. The rhino then acts on the new counter as in `CheckDrawRhino`. A game over saves the high score, and a frame is requested exactly when the game is not over and not paused |
| Session.Game.KeyLeft | js/game.js:317-327 | With input refused nothing changes. Otherwise, as `ChangeDirectionLeft`: from LEFT the skier strafes 8 left, from CRASHED it turns LEFT, else it turns one step left. y and the jump state are kept. Only a skier already facing LEFT spawns, in the left band, on a gate draw of 8 |
| Session.Game.KeyRight | js/game.js:328-337 | With input refused nothing changes. Otherwise, as `ChangeDirectionRight`: from RIGHT the skier strafes 8 right, else it turns one step right. y and the jump state are kept. Only a skier already facing RIGHT spawns, in the right band, on a gate draw of 8 |
| Session.Game.KeyDown | js/game.js:338-343 | With input allowed the skier turns DOWN in place, with its jump frame and timer kept; otherwise nothing changes |
| Session.Game.Reset | js/game.js:156-164 | Play again: score 0, skier and rhino back at their starts with their timers and jump frame as they were, the rhino showing the first run frame at (W + 20, H / 2). The field is emptied, then refilled with the sorted initial obstacles. Counter, pause and high score are kept |
| Session.Game.ClearSession | js/game.js:157-160 | The first half of play-again: score 0, an empty field, skier and rhino at their starts, timers and jump frame untouched |

## Left out

- Canvas drawing, retina scaling, the score text, the jQuery dialogs and `$(document).ready` are not modelled. Of `ObstacleHandler.draw` only the cull is modelled.
- Image loading (js/gameobject.js) is not modelled. The sprite sizes it produces, already halved at load time, are a given function from asset name to size. `getPlainObstacle` serves only to load obstacle sprites and is not modelled.
- localStorage is not modelled. The stored high score is a constructor parameter of `Session.Game`. `saveHighScore` writing back to storage and the page is not modelled.
- The key-code switch is not modelled. Each key's guarded action is a method; the space key is `TogglePause`.
- requestAnimationFrame is not modelled. It is the boolean `GameLoop` and `TogglePause` return.
- Each setInterval is one flag (with a counter where the animation has one) and one `Tick` method. A second interval started while one is running is not modelled as two timers.
- `_.random(minX, maxX)` on integer bounds returns an integer. Here a coordinate is any fraction of its range, so the model allows more positions than the game draws. Every property proved holds for all of them.
- Field.CalculateOpenPosition: the game redraws until a candidate is open, with no bound. Here it gets a finite list of candidates and finds nothing when all of them are blocked. A placement then adds nothing, so spawn and initial counts are at most one per attempt. `Field.OutcomeIsFirstOpen` states exactly when a placement adds one.
- Obstacles.Obstacle.Reset: returns a new obstacle at the origin instead of moving this one. Obstacle positions are constants here, because nothing in the game moves an obstacle once it exists.
- Field.ObstacleHandler.PlaceNewObstacle: does not state that the added obstacles are new objects, which `PlaceRandomObstacle` and `PlaceInitialObstacles` do state.
- Field.ObstacleHandler.CheckToPlaceObstacle: does not state that the added obstacles are new objects.
- Math.round on floating point is not modelled. Diagonal steps are computed exactly over the integers, and positions and sizes are exact reals, not doubles.
