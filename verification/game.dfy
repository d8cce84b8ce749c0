/**
 * The session: the score, the high score, the ski counter that wakes the
 * rhino, the pause flag, and the per-frame rules that sequence the skier, the
 * obstacle field and the rhino.
 *
 * Drawing, dialogs and key codes are not modelled; each key's guarded action
 * is a method. The frame scheduler is the boolean GameLoop and TogglePause
 * return: whether another frame is requested. The game's random draws (the
 * rhino threshold, the spawn gate, placement candidates and types, and the
 * initial density) are parameters.
 */
module Session {
  import opened Assets
  import Skiers
  import Rhinos
  import Field
  import Obstacles

  const SCORE_INCREMENT := 1
  const BONUS_SCORE_INCREMENT := 10

  /** What one frame adds to the score: 10 while jumping, else 1 while moving downhill. */
  function ScoreGain(jumping: bool, moving: bool): (g: int)
    ensures g >= 0
    ensures jumping ==> g == BONUS_SCORE_INCREMENT
    ensures !jumping && moving ==> g == SCORE_INCREMENT
    ensures !jumping && !moving ==> g == 0
  {
    if jumping then BONUS_SCORE_INCREMENT else if moving then SCORE_INCREMENT else 0
  }

  /** The larger of the two. */
  function Max(a: int, b: int): (m: int)
    ensures m >= a && m >= b && (m == a || m == b)
  {
    if a >= b then a else b
  }

  class Game {
    var score: int
    var highScore: int
    var skiCounter: int
    var paused: bool
    /** The ski-counter threshold past which the rhino runs, drawn once in 500..1000. */
    const rhinoCount: int
    const gameWidth: int
    const gameHeight: int
    const skier: Skiers.Skier
    const handler: Field.ObstacleHandler
    const rhino: Rhinos.Rhino

    ghost predicate Valid()
      reads this, skier, handler, rhino
    {
      skier.Valid() && handler.Valid() && rhino.Valid() &&
      handler.mainSkier == skier &&
      handler.gameWidth == gameWidth && handler.gameHeight == gameHeight &&
      rhino.gameWidth == gameWidth && rhino.gameHeight == gameHeight &&
      500 <= rhinoCount <= 1000 && score >= 0 && skiCounter >= 0
    }

    /**
     * A new session: score and ski counter at zero, not paused, the high
     * score as loaded from storage, and a fresh skier, obstacle field and
     * rhino for a gameWidth x gameHeight view.
     */
    constructor (gameWidth: int, gameHeight: int, rhinoCount: int, storedHighScore: int, sizes: SpriteSizes)
      requires 500 <= rhinoCount <= 1000
      ensures Valid()
      ensures score == 0 && skiCounter == 0 && !paused && highScore == storedHighScore
      ensures this.gameWidth == gameWidth && this.gameHeight == gameHeight && this.rhinoCount == rhinoCount
      ensures handler.obstacles == [] && handler.sizes == sizes
      ensures fresh(skier) && fresh(handler) && fresh(rhino)
      ensures skier.direction == Skiers.RIGHT && skier.x == 0.0 && skier.y == 0.0
      ensures skier.jumpAsset == Skiers.SkiJump[0] && !skier.jumpTimerOn && skier.jumpCounter == 0
      ensures rhino.mode == Rhinos.SLEEP && rhino.asset == Rhinos.AssetArray[0]
      ensures rhino.x == Rhinos.StartX(gameWidth) && rhino.y == gameHeight as real / 2.0
      ensures !rhino.runTimerOn && !rhino.eatTimerOn && rhino.eatCounter == 0
    {
      score := 0;
      highScore := storedHighScore;
      skiCounter := 0;
      paused := false;
      this.rhinoCount := rhinoCount;
      this.gameWidth := gameWidth;
      this.gameHeight := gameHeight;
      var s := new Skiers.Skier();
      skier := s;
      handler := new Field.ObstacleHandler(s, gameWidth, gameHeight, sizes);
      rhino := new Rhinos.Rhino(gameWidth, gameHeight);
    }

    /**
     * Input reaches the skier only when the game is not paused and the skier
     * is not jumping; so steering never meets a jumping skier.
     */
    predicate IsInputAllowed()
      reads this, skier
      ensures IsInputAllowed() ==> !paused && skier.direction != Skiers.JUMP
      ensures !paused && !skier.IsJumping() ==> IsInputAllowed()
    {
      !paused && !skier.IsJumping()
    }

    /** The score grows by 10 while jumping, else by 1 while moving downhill. */
    method CalculateScore()
      requires Valid()
      modifies this
      ensures Valid()
      ensures score == old(score) + ScoreGain(skier.IsJumping(), skier.IsMoving())
      ensures highScore == old(highScore) && skiCounter == old(skiCounter) && paused == old(paused)
    {
      if skier.IsJumping() {
        score := score + BONUS_SCORE_INCREMENT;
      } else if skier.IsMoving() {
        score := score + SCORE_INCREMENT;
      }
    }

    /**
     * Counts the frames spent moving downhill; a skier that stops before the
     * rhino woke starts the count again.
     */
    method CalculateSkiCounter()
      requires Valid()
      modifies this
      ensures Valid()
      ensures skier.IsMoving() ==> skiCounter == old(skiCounter) + 1
      ensures !skier.IsMoving() && !rhino.IsRhinoActive() ==> skiCounter == 0
      ensures !skier.IsMoving() && rhino.IsRhinoActive() ==> skiCounter == old(skiCounter)
      ensures score == old(score) && highScore == old(highScore) && paused == old(paused)
    {
      if skier.IsMoving() {
        skiCounter := skiCounter + 1;
      } else if !rhino.IsRhinoActive() {
        skiCounter := 0;
      }
    }

    /**
     * Pausing is possible only when the skier is neither crashed nor jumping
     * and the rhino is not eating; a running game that can be paused also
     * takes input.
     */
    predicate CanPause()
      reads this, skier, rhino
      ensures CanPause() && !paused ==> IsInputAllowed()
      ensures CanPause() ==> skier.direction != Skiers.CRASHED && !rhino.IsRhinoEating()
    {
      skier.direction != Skiers.CRASHED && !skier.IsJumping() && !rhino.IsRhinoEating()
    }

    /**
     * Flips the pause flag when pausing is possible, otherwise changes
     * nothing; `resume` says a frame is requested because the game was
     * un-paused.
     */
    method TogglePause() returns (resume: bool)
      requires Valid()
      modifies this
      ensures Valid()
      ensures CanPause() ==> paused == !old(paused)
      ensures !CanPause() ==> paused == old(paused)
      ensures resume <==> old(paused) && !paused
      ensures score == old(score) && highScore == old(highScore) && skiCounter == old(skiCounter)
    {
      resume := false;
      if skier.direction != Skiers.CRASHED && !skier.IsJumping() && !rhino.IsRhinoEating() {
        paused := !paused;
        if !paused {
          resume := true;
        }
      }
    }

    /** The high score becomes the larger of itself and the score. */
    method SaveHighScore()
      requires Valid()
      modifies this
      ensures Valid()
      ensures highScore == Max(old(highScore), score)
      ensures score == old(score) && skiCounter == old(skiCounter) && paused == old(paused)
    {
      if score > highScore {
        highScore := score;
      }
    }

    /** The session is over once the skier crashed or the rhino has eaten; a finished game cannot be paused. */
    predicate IsGameOver()
      reads this, skier, rhino
      ensures IsGameOver() ==> !CanPause()
      ensures IsGameOver() ==> skier.direction == Skiers.CRASHED || rhino.IsRhinoEating()
    {
      skier.direction == Skiers.CRASHED || rhino.mode == Rhinos.HAS_EATEN
    }

    /** At game over the high score is saved; `over` says the game-over dialog is shown. */
    method CheckGameOver() returns (over: bool)
      requires Valid()
      modifies this
      ensures Valid()
      ensures over <==> IsGameOver()
      ensures over ==> highScore == Max(old(highScore), score)
      ensures !over ==> highScore == old(highScore)
      ensures score == old(score) && skiCounter == old(skiCounter) && paused == old(paused)
    {
      over := skier.direction == Skiers.CRASHED || rhino.mode == Rhinos.HAS_EATEN;
      if over {
        SaveHighScore();
      }
    }

    /**
     * Past the threshold, a rhino that reached the midpoint starts eating
     * (once: not while eating or done), and otherwise a sleeping or running
     * rhino moves one step and is set running.
     */
    method CheckDrawRhino()
      requires Valid()
      modifies rhino
      ensures Valid()
      ensures rhino.mode >= old(rhino.mode)
      ensures skiCounter <= rhinoCount ==> unchanged(rhino)
      ensures skiCounter > rhinoCount && old(rhino.x) <= Rhinos.Midpoint(gameWidth) && !old(rhino.IsRhinoEating()) ==>
        rhino.mode == Rhinos.EAT && rhino.eatTimerOn && rhino.eatCounter == 0 &&
        rhino.x == old(rhino.x) && rhino.y == old(rhino.y) && rhino.asset == old(rhino.asset) &&
        rhino.runTimerOn == old(rhino.runTimerOn)
      ensures skiCounter > rhinoCount && old(rhino.x) > Rhinos.Midpoint(gameWidth) && !old(rhino.IsRhinoEating()) ==>
        rhino.mode == Rhinos.RUN && rhino.x == old(rhino.x) - Rhinos.Step() as real &&
        rhino.y == old(rhino.y) && rhino.asset == old(rhino.asset) &&
        (old(rhino.mode) == Rhinos.SLEEP ==> rhino.runTimerOn) &&
        (old(rhino.mode) == Rhinos.RUN ==> rhino.runTimerOn == old(rhino.runTimerOn)) &&
        rhino.eatTimerOn == old(rhino.eatTimerOn) && rhino.eatCounter == old(rhino.eatCounter)
      ensures old(rhino.IsRhinoEating()) ==> unchanged(rhino)
    {
      if skiCounter > rhinoCount {
        if rhino.x <= gameWidth as real / 2.0 && rhino.mode != Rhinos.EAT && rhino.mode != Rhinos.HAS_EATEN {
          rhino.RhinoEat();
        } else if rhino.mode == Rhinos.SLEEP || rhino.mode == Rhinos.RUN {
          rhino.Move();
          if rhino.mode != Rhinos.RUN {
            rhino.RhinoRun();
          }
        }
      }
    }

    /**
     * One frame. While the rhino is neither eating nor done, the skier
     * moves, may spawn obstacles (gate and draws are this frame's random
     * draws), collides and scores; `field` is the obstacle field at that
     * point. Then the field is culled around the skier, the ski counter and
     * the rhino are updated and game over is checked. `continues` says
     * whether the next frame is requested.
     */
    method GameLoop(gate: int, draws: seq<Field.PlacementDraw>) returns (continues: bool, ghost field: seq<Obstacles.Obstacle>)
      requires Valid() && 1 <= gate <= 8 && |draws| >= 2 && Field.ValidDraws(draws)
      modifies this, skier, handler, rhino
      ensures Valid()
      ensures continues <==> skier.direction != Skiers.CRASHED && !paused && rhino.mode != Rhinos.HAS_EATEN
      ensures continues ==> !IsGameOver()
      ensures paused == old(paused)
      // The skier's part of the frame, skipped while the rhino eats.
      ensures old(rhino.IsRhinoEating()) ==>
        unchanged(skier) && score == old(score) && field == old(handler.obstacles)
      ensures !old(rhino.IsRhinoEating()) ==>
        skier.x == old(skier.x) + Skiers.Travel(old(skier.direction)).dx &&
        skier.y == old(skier.y) + Skiers.Travel(old(skier.direction)).dy &&
        skier.jumpAsset == old(skier.jumpAsset)
      ensures !old(rhino.IsRhinoEating()) ==>
        |field| >= |old(handler.obstacles)| && field[..|old(handler.obstacles)|] == old(handler.obstacles)
      ensures !old(rhino.IsRhinoEating()) && old(skier.IsMoving()) && gate == 8 ==>
        Field.Placements(field) == old(Field.Placements(handler.obstacles)) +
          Field.Spawned(old(Field.Positions(handler.obstacles)),
                        Field.SpawnAreas(old(skier.direction), skier.x, skier.y, gameWidth, gameHeight), draws)
      ensures !old(rhino.IsRhinoEating()) && (!old(skier.IsMoving()) || gate != 8) ==>
        field == old(handler.obstacles)
      ensures !old(rhino.IsRhinoEating()) ==>
        var hit := Field.FirstHit(field, Skiers.CollisionRect(old(skier.SkierAsset()), skier.x, skier.y,
                                                              gameWidth, gameHeight, handler.sizes), handler.sizes);
        (hit == |field| || old(skier.IsJumping()) ==>
           skier.direction == old(skier.direction) &&
           skier.jumpTimerOn == old(skier.jumpTimerOn) && skier.jumpCounter == old(skier.jumpCounter)) &&
        (hit < |field| && !old(skier.IsJumping()) && field[hit].IsJump() ==>
           skier.direction == Skiers.JUMP && skier.jumpTimerOn && skier.jumpCounter == 0) &&
        (hit < |field| && !old(skier.IsJumping()) && !field[hit].IsJump() ==>
           skier.direction == Skiers.CRASHED &&
           skier.jumpTimerOn == old(skier.jumpTimerOn) && skier.jumpCounter == old(skier.jumpCounter))
      ensures !old(rhino.IsRhinoEating()) ==> score == old(score) + ScoreGain(skier.IsJumping(), skier.IsMoving())
      // The cull.
      ensures handler.obstacles == Field.Culled(field, skier.x, skier.y, gameWidth, gameHeight, handler.sizes)
      // The ski counter, from the skier's new direction and the rhino as it was.
      ensures skier.IsMoving() ==> skiCounter == old(skiCounter) + 1
      ensures !skier.IsMoving() && !old(rhino.IsRhinoActive()) ==> skiCounter == 0
      ensures !skier.IsMoving() && old(rhino.IsRhinoActive()) ==> skiCounter == old(skiCounter)
      // The rhino, from the new ski counter.
      ensures rhino.mode >= old(rhino.mode)
      ensures skiCounter <= rhinoCount || old(rhino.IsRhinoEating()) ==> unchanged(rhino)
      ensures skiCounter > rhinoCount && old(rhino.x) <= Rhinos.Midpoint(gameWidth) && !old(rhino.IsRhinoEating()) ==>
        rhino.mode == Rhinos.EAT && rhino.eatTimerOn && rhino.eatCounter == 0 &&
        rhino.x == old(rhino.x) && rhino.y == old(rhino.y) && rhino.asset == old(rhino.asset) &&
        rhino.runTimerOn == old(rhino.runTimerOn)
      ensures skiCounter > rhinoCount && old(rhino.x) > Rhinos.Midpoint(gameWidth) && !old(rhino.IsRhinoEating()) ==>
        rhino.mode == Rhinos.RUN && rhino.x == old(rhino.x) - Rhinos.Step() as real &&
        rhino.y == old(rhino.y) && rhino.asset == old(rhino.asset) &&
        (old(rhino.mode) == Rhinos.SLEEP ==> rhino.runTimerOn) &&
        (old(rhino.mode) == Rhinos.RUN ==> rhino.runTimerOn == old(rhino.runTimerOn)) &&
        rhino.eatTimerOn == old(rhino.eatTimerOn) && rhino.eatCounter == old(rhino.eatCounter)
      // Game over saves the high score.
      ensures IsGameOver() ==> highScore == Max(old(highScore), score)
      ensures !IsGameOver() ==> highScore == old(highScore)
    {
      if rhino.mode != Rhinos.EAT && rhino.mode != Rhinos.HAS_EATEN {
        SkierStep(gate, draws);
      }
      field := handler.obstacles;
      continues := FinishFrame();
    }

    /**
     * The part of a frame that runs whatever the rhino does: the field is
     * culled around the skier, the ski counter and the rhino are updated and
     * game over is checked. `continues` says whether the next frame is
     * requested.
     */
    method FinishFrame() returns (continues: bool)
      requires Valid()
      modifies this, handler, rhino
      ensures Valid()
      ensures continues <==> skier.direction != Skiers.CRASHED && !paused && rhino.mode != Rhinos.HAS_EATEN
      ensures score == old(score) && paused == old(paused)
      ensures handler.obstacles == Field.Culled(old(handler.obstacles), skier.x, skier.y, gameWidth, gameHeight, handler.sizes)
      ensures skier.IsMoving() ==> skiCounter == old(skiCounter) + 1
      ensures !skier.IsMoving() && !old(rhino.IsRhinoActive()) ==> skiCounter == 0
      ensures !skier.IsMoving() && old(rhino.IsRhinoActive()) ==> skiCounter == old(skiCounter)
      ensures rhino.mode >= old(rhino.mode)
      ensures skiCounter <= rhinoCount || old(rhino.IsRhinoEating()) ==> unchanged(rhino)
      ensures skiCounter > rhinoCount && old(rhino.x) <= Rhinos.Midpoint(gameWidth) && !old(rhino.IsRhinoEating()) ==>
        rhino.mode == Rhinos.EAT && rhino.eatTimerOn && rhino.eatCounter == 0 &&
        rhino.x == old(rhino.x) && rhino.y == old(rhino.y) && rhino.asset == old(rhino.asset) &&
        rhino.runTimerOn == old(rhino.runTimerOn)
      ensures skiCounter > rhinoCount && old(rhino.x) > Rhinos.Midpoint(gameWidth) && !old(rhino.IsRhinoEating()) ==>
        rhino.mode == Rhinos.RUN && rhino.x == old(rhino.x) - Rhinos.Step() as real &&
        rhino.y == old(rhino.y) && rhino.asset == old(rhino.asset) &&
        (old(rhino.mode) == Rhinos.SLEEP ==> rhino.runTimerOn) &&
        (old(rhino.mode) == Rhinos.RUN ==> rhino.runTimerOn == old(rhino.runTimerOn)) &&
        rhino.eatTimerOn == old(rhino.eatTimerOn) && rhino.eatCounter == old(rhino.eatCounter)
      ensures IsGameOver() ==> highScore == Max(old(highScore), score)
      ensures !IsGameOver() ==> highScore == old(highScore)
    {
      handler.Draw();
      CalculateSkiCounter();
      CheckDrawRhino();
      var over := CheckGameOver();
      continues := skier.direction != Skiers.CRASHED && !paused && rhino.mode != Rhinos.HAS_EATEN;
    }

    /**
     * The part of a frame that runs only while the rhino is neither eating
     * nor done: the skier moves, obstacles may spawn ahead of it, the
     * collision query runs on the moved skier's rectangle and the score grows
     * by what the skier's new direction earns.
     */
    method SkierStep(gate: int, draws: seq<Field.PlacementDraw>)
      requires Valid() && 1 <= gate <= 8 && |draws| >= 2 && Field.ValidDraws(draws)
      modifies this, skier, handler
      ensures Valid()
      ensures highScore == old(highScore) && skiCounter == old(skiCounter) && paused == old(paused)
      // The move.
      ensures skier.x == old(skier.x) + Skiers.Travel(old(skier.direction)).dx
      ensures skier.y == old(skier.y) + Skiers.Travel(old(skier.direction)).dy
      ensures skier.jumpAsset == old(skier.jumpAsset)
      // The spawn, in the bands of the direction the skier moved in.
      ensures |handler.obstacles| >= |old(handler.obstacles)|
      ensures handler.obstacles[..|old(handler.obstacles)|] == old(handler.obstacles)
      ensures old(skier.IsMoving()) && gate == 8 ==>
        Field.Placements(handler.obstacles) == old(Field.Placements(handler.obstacles)) +
          Field.Spawned(old(Field.Positions(handler.obstacles)),
                        Field.SpawnAreas(old(skier.direction), skier.x, skier.y, gameWidth, gameHeight), draws)
      ensures !old(skier.IsMoving()) || gate != 8 ==> handler.obstacles == old(handler.obstacles)
      // The collision, with the rectangle of the sprite shown before it.
      ensures var hit := Field.FirstHit(handler.obstacles, Skiers.CollisionRect(old(skier.SkierAsset()), skier.x, skier.y,
                                                                                gameWidth, gameHeight, handler.sizes), handler.sizes);
        (hit == |handler.obstacles| || old(skier.IsJumping()) ==>
           skier.direction == old(skier.direction) &&
           skier.jumpTimerOn == old(skier.jumpTimerOn) && skier.jumpCounter == old(skier.jumpCounter)) &&
        (hit < |handler.obstacles| && !old(skier.IsJumping()) && handler.obstacles[hit].IsJump() ==>
           skier.direction == Skiers.JUMP && skier.jumpTimerOn && skier.jumpCounter == 0) &&
        (hit < |handler.obstacles| && !old(skier.IsJumping()) && !handler.obstacles[hit].IsJump() ==>
           skier.direction == Skiers.CRASHED &&
           skier.jumpTimerOn == old(skier.jumpTimerOn) && skier.jumpCounter == old(skier.jumpCounter))
      // The score, from the direction the collision left.
      ensures score == old(score) + ScoreGain(skier.IsJumping(), skier.IsMoving())
    {
      skier.Move();
      handler.CheckToPlaceObstacle(gate, draws);
      handler.CheckIfSkierHitObstacle();
      CalculateScore();
    }

    /**
     * Left key: when input is allowed, steer left; a skier that was already
     * facing LEFT strafes and may spawn in the band on its left.
     */
    method KeyLeft(gate: int, draws: seq<Field.PlacementDraw>)
      requires Valid() && 1 <= gate <= 8 && |draws| >= 2 && Field.ValidDraws(draws)
      modifies skier, handler
      ensures Valid()
      ensures !old(IsInputAllowed()) ==> unchanged(skier) && unchanged(handler)
      ensures old(IsInputAllowed()) ==>
        skier.y == old(skier.y) && Skiers.LEFT <= skier.direction <= Skiers.RIGHT &&
        skier.jumpAsset == old(skier.jumpAsset) &&
        skier.jumpTimerOn == old(skier.jumpTimerOn) && skier.jumpCounter == old(skier.jumpCounter)
      ensures old(IsInputAllowed()) && old(skier.direction) == Skiers.LEFT ==>
        skier.direction == Skiers.LEFT && skier.x == old(skier.x) - Skiers.DefaultSpeed as real
      ensures old(IsInputAllowed()) && old(skier.direction) == Skiers.CRASHED ==>
        skier.direction == Skiers.LEFT && skier.x == old(skier.x)
      ensures old(IsInputAllowed()) && old(skier.direction) > Skiers.LEFT ==>
        skier.direction == old(skier.direction) - 1 && skier.x == old(skier.x)
      ensures |handler.obstacles| >= |old(handler.obstacles)|
      ensures handler.obstacles[..|old(handler.obstacles)|] == old(handler.obstacles)
      ensures old(IsInputAllowed()) && old(skier.direction) == Skiers.LEFT && gate == 8 ==>
        Field.Placements(handler.obstacles) == old(Field.Placements(handler.obstacles)) +
          Field.Spawned(old(Field.Positions(handler.obstacles)),
                        Field.SpawnAreas(Skiers.LEFT, skier.x, skier.y, gameWidth, gameHeight), draws)
      ensures old(skier.direction) != Skiers.LEFT || gate != 8 ==> handler.obstacles == old(handler.obstacles)
    {
      if !paused && !skier.IsJumping() {
        var skierDirection := skier.direction;
        skier.ChangeDirectionLeft();
        if skierDirection == Skiers.LEFT {
          handler.PlaceNewObstacle(skierDirection, gate, draws);
        }
      }
    }

    /**
     * Right key: when input is allowed, steer right; a skier that was
     * already facing RIGHT strafes and may spawn in the band on its right.
     */
    method KeyRight(gate: int, draws: seq<Field.PlacementDraw>)
      requires Valid() && 1 <= gate <= 8 && |draws| >= 2 && Field.ValidDraws(draws)
      modifies skier, handler
      ensures Valid()
      ensures !old(IsInputAllowed()) ==> unchanged(skier) && unchanged(handler)
      ensures old(IsInputAllowed()) ==>
        skier.y == old(skier.y) && Skiers.LEFT <= skier.direction <= Skiers.RIGHT &&
        skier.jumpAsset == old(skier.jumpAsset) &&
        skier.jumpTimerOn == old(skier.jumpTimerOn) && skier.jumpCounter == old(skier.jumpCounter)
      ensures old(IsInputAllowed()) && old(skier.direction) == Skiers.RIGHT ==>
        skier.direction == Skiers.RIGHT && skier.x == old(skier.x) + Skiers.DefaultSpeed as real
      ensures old(IsInputAllowed()) && old(skier.direction) != Skiers.RIGHT ==>
        skier.direction == old(skier.direction) + 1 && skier.x == old(skier.x)
      ensures |handler.obstacles| >= |old(handler.obstacles)|
      ensures handler.obstacles[..|old(handler.obstacles)|] == old(handler.obstacles)
      ensures old(IsInputAllowed()) && old(skier.direction) == Skiers.RIGHT && gate == 8 ==>
        Field.Placements(handler.obstacles) == old(Field.Placements(handler.obstacles)) +
          Field.Spawned(old(Field.Positions(handler.obstacles)),
                        Field.SpawnAreas(Skiers.RIGHT, skier.x, skier.y, gameWidth, gameHeight), draws)
      ensures old(skier.direction) != Skiers.RIGHT || gate != 8 ==> handler.obstacles == old(handler.obstacles)
    {
      if !paused && !skier.IsJumping() {
        var skierDirection := skier.direction;
        skier.ChangeDirectionRight();
        if skierDirection == Skiers.RIGHT {
          handler.PlaceNewObstacle(skierDirection, gate, draws);
        }
      }
    }

    /** Down key: when input is allowed, point straight downhill. */
    method KeyDown()
      requires Valid()
      modifies skier
      ensures Valid()
      ensures old(IsInputAllowed()) ==>
        skier.direction == Skiers.DOWN && skier.x == old(skier.x) && skier.y == old(skier.y) &&
        skier.jumpAsset == old(skier.jumpAsset) &&
        skier.jumpTimerOn == old(skier.jumpTimerOn) && skier.jumpCounter == old(skier.jumpCounter)
      ensures !old(IsInputAllowed()) ==> unchanged(skier)
    {
      if !paused && !skier.IsJumping() {
        skier.ChangeDirectionDown();
      }
    }

    /**
     * Play again: score to zero, an empty field, skier and rhino back at
     * their starts, then the initial obstacles (density k, attempt i using
     * draws[i]). The ski counter, pause flag and high score are kept.
     */
    method Reset(k: int, draws: seq<Field.PlacementDraw>) returns (ghost added: seq<Obstacles.Obstacle>)
      requires Valid() && 5 <= k <= 7
      requires |draws| >= Field.InitialCount(k, gameWidth, gameHeight) && Field.ValidDraws(draws)
      modifies this, skier, handler, rhino
      ensures Valid()
      ensures score == 0 && skiCounter == old(skiCounter) && paused == old(paused) && highScore == old(highScore)
      ensures skier.direction == Skiers.RIGHT && skier.x == 0.0 && skier.y == 0.0
      ensures skier.jumpAsset == old(skier.jumpAsset)
      ensures skier.jumpTimerOn == old(skier.jumpTimerOn) && skier.jumpCounter == old(skier.jumpCounter)
      ensures rhino.mode == Rhinos.SLEEP && rhino.asset == Rhinos.AssetArray[0]
      ensures rhino.x == Rhinos.StartX(gameWidth) && rhino.y == gameHeight as real / 2.0
      ensures rhino.runTimerOn == old(rhino.runTimerOn) && rhino.eatTimerOn == old(rhino.eatTimerOn)
      ensures rhino.eatCounter == old(rhino.eatCounter)
      ensures handler.obstacles == Field.SortByBottom(added, handler.sizes)
      ensures Field.Placements(added) ==
        Field.Spawned([], Field.Repeat(Field.InitialArea(gameWidth, gameHeight), Field.InitialCount(k, gameWidth, gameHeight)), draws)
    {
      ClearSession();
      ghost var empty := handler.obstacles;
      assert Field.Positions(empty) == [];
      added := handler.PlaceInitialObstacles(k, draws);
      assert handler.obstacles == Field.SortByBottom(empty + added, handler.sizes);
      assert [] + added == added;
    }

    /** The first half of play-again: score to zero, an empty field, skier and rhino back at their starts. */
    method ClearSession()
      requires Valid()
      modifies this, skier, handler, rhino
      ensures Valid()
      ensures score == 0 && skiCounter == old(skiCounter) && paused == old(paused) && highScore == old(highScore)
      ensures handler.obstacles == []
      ensures skier.direction == Skiers.RIGHT && skier.x == 0.0 && skier.y == 0.0
      ensures skier.jumpAsset == old(skier.jumpAsset)
      ensures skier.jumpTimerOn == old(skier.jumpTimerOn) && skier.jumpCounter == old(skier.jumpCounter)
      ensures rhino.mode == Rhinos.SLEEP && rhino.asset == Rhinos.AssetArray[0]
      ensures rhino.x == Rhinos.StartX(gameWidth) && rhino.y == gameHeight as real / 2.0
      ensures rhino.runTimerOn == old(rhino.runTimerOn) && rhino.eatTimerOn == old(rhino.eatTimerOn)
      ensures rhino.eatCounter == old(rhino.eatCounter)
    {
      score := 0;
      handler.Reset();
      skier.Reset();
      rhino.Reset();
    }
  }
}
