/**
 * The skier: a seven-state direction machine, a world position that the
 * direction advances every frame, and a timed jump animation.
 *
 * The jump animation runs on an interval timer in the game; here the timer is
 * the pair (jumpTimerOn, jumpCounter) and each firing of the interval is one
 * call of JumpTick.
 */
module Skiers {
  import opened Assets

  // The direction codes; steering changes them by one.
  const CRASHED := 0
  const LEFT := 1
  const LEFT_DOWN := 2
  const DOWN := 3
  const RIGHT_DOWN := 4
  const RIGHT := 5
  const JUMP := 6

  /** The skier's asset for each direction code. */
  const AssetArray: seq<string> :=
    ["skierCrash", "skierLeft", "skierLeftDown", "skierDown", "skierRightDown", "skierRight", "skierJump"]

  /** The jump animation frames, in order. */
  const SkiJump: seq<string> := ["skierJump1", "skierJump2", "skierJump3", "skierJump4"]

  /**
   * The sprites the skier loads: one per direction but JUMP, and the four
   * jump frames. AssetArray[JUMP] is not among them.
   */
  const LoadedAssets: set<string> :=
    {"skierCrash", "skierLeft", "skierLeftDown", "skierDown", "skierRightDown", "skierRight",
     "skierJump1", "skierJump2", "skierJump3", "skierJump4"}

  /** The skier's speed, set by the constructor and by reset. */
  const DefaultSpeed := 8

  /** Height of the skier's collision rectangle. */
  const RectHeight := 5.0

  /** The change of position over one frame of travel. */
  datatype Offset = Offset(dx: real, dy: real)

  /**
   * One frame of travel at the default speed 8 for a skier facing
   * `direction`: diagonally by round(8 / 1.4142) = 6 on each axis, straight
   * down by 8 (also while jumping), or not at all.
   */
  function Travel(direction: int): (d: Offset)
    ensures direction == LEFT_DOWN ==> d == Offset(-6.0, 6.0)
    ensures direction == RIGHT_DOWN ==> d == Offset(6.0, 6.0)
    ensures direction == DOWN || direction == JUMP ==> d == Offset(0.0, 8.0)
    ensures direction != LEFT_DOWN && direction != DOWN && direction != RIGHT_DOWN && direction != JUMP ==>
      d == Offset(0.0, 0.0)
  {
    DiagonalSteps();
    var diagonal := RoundDiagonal(DefaultSpeed) as real;
    if direction == LEFT_DOWN then Offset(-diagonal, diagonal)
    else if direction == RIGHT_DOWN then Offset(diagonal, diagonal)
    else if direction == DOWN || direction == JUMP then Offset(0.0, DefaultSpeed as real)
    else Offset(0.0, 0.0)
  }

  /**
   * The collision rectangle of a skier showing sprite `name` at (x, y): the
   * bottom five units of the sprite, with the skier drawn at the centre of a
   * gameWidth x gameHeight view.
   */
  function CollisionRect(name: string, x: real, y: real, gameWidth: int, gameHeight: int, sizes: SpriteSizes): (r: Bounds)
    ensures WellFormed(r) <==> sizes(name).width >= 0.0
    ensures r.right - r.left == sizes(name).width
    ensures r.bottom - r.top == RectHeight
    ensures r.left == x + gameWidth as real / 2.0
    ensures r.bottom == y + sizes(name).height + gameHeight as real / 2.0
  {
    var image := sizes(name);
    Bounds(x + gameWidth as real / 2.0,
           x + image.width + gameWidth as real / 2.0,
           y + image.height - RectHeight + gameHeight as real / 2.0,
           y + image.height + gameHeight as real / 2.0)
  }

  class Skier {
    var direction: int
    var speed: int
    var x: real
    var y: real
    var jumpAsset: string
    /** The jump interval is running. */
    var jumpTimerOn: bool
    /** How many frames the running jump interval has shown. */
    var jumpCounter: nat

    ghost predicate Valid()
      reads this
    {
      CRASHED <= direction <= JUMP && speed == DefaultSpeed && jumpCounter <= |SkiJump| &&
      jumpAsset in SkiJump
    }

    constructor ()
      ensures Valid()
      ensures direction == RIGHT && speed == DefaultSpeed && jumpAsset == SkiJump[0]
      ensures x == 0.0 && y == 0.0 && !jumpTimerOn && jumpCounter == 0
    {
      direction := RIGHT;
      speed := DefaultSpeed;
      jumpAsset := "skierJump1";
      x, y := 0.0, 0.0;
      jumpTimerOn, jumpCounter := false, 0;
    }

    /**
     * Back to the constructor's direction, speed and position. The jump frame
     * and a jump interval that is still running are left as they are.
     */
    method Reset()
      requires Valid()
      modifies this
      ensures Valid()
      ensures direction == RIGHT && speed == DefaultSpeed && x == 0.0 && y == 0.0
      ensures jumpAsset == old(jumpAsset) && jumpTimerOn == old(jumpTimerOn) && jumpCounter == old(jumpCounter)
    {
      direction := RIGHT;
      speed := DefaultSpeed;
      x := 0.0;
      y := 0.0;
    }

    /** Enters JUMP and starts the jump interval from its first frame. */
    method JumpSkier()
      requires Valid()
      modifies this
      ensures Valid()
      ensures direction == JUMP && jumpTimerOn && jumpCounter == 0
      ensures x == old(x) && y == old(y) && jumpAsset == old(jumpAsset)
    {
      direction := JUMP;
      jumpTimerOn, jumpCounter := true, 0;
    }

    /**
     * One firing of the jump interval: the next of the four frames, or, once
     * all four were shown, back to DOWN with the interval cleared.
     */
    method JumpTick()
      requires Valid()
      modifies this
      ensures Valid()
      ensures x == old(x) && y == old(y)
      ensures !old(jumpTimerOn) ==> unchanged(this)
      ensures old(jumpTimerOn) && old(jumpCounter) < |SkiJump| ==>
        jumpAsset == SkiJump[old(jumpCounter)] && jumpCounter == old(jumpCounter) + 1 &&
        jumpTimerOn && direction == old(direction)
      ensures old(jumpTimerOn) && old(jumpCounter) == |SkiJump| ==>
        direction == DOWN && !jumpTimerOn && jumpAsset == old(jumpAsset) && jumpCounter == old(jumpCounter)
    {
      if jumpTimerOn {
        if jumpCounter < |SkiJump| {
          jumpAsset := SkiJump[jumpCounter];
          jumpCounter := jumpCounter + 1;
        } else {
          direction := DOWN;
          jumpTimerOn := false;
        }
      }
    }

    /** Jumping: the skier travels as straight down, but does not count as moving downhill. */
    predicate IsJumping()
      reads this
      ensures IsJumping() ==> !IsMoving() && Travel(direction) == Offset(0.0, DefaultSpeed as real)
    {
      direction == JUMP
    }

    /**
     * Moving downhill: one of the three downhill directions, which are
     * exactly the directions but JUMP whose travel goes down the slope.
     */
    predicate IsMoving()
      reads this
      ensures IsMoving() <==> direction != JUMP && Travel(direction).dy > 0.0
    {
      direction == LEFT_DOWN || direction == DOWN || direction == RIGHT_DOWN
    }

    /**
     * The asset for the current direction; while jumping, the current jump
     * frame. It is always one of the sprites the skier loads.
     */
    function SkierAsset(): (name: string)
      requires Valid()
      reads this
      ensures name in LoadedAssets
      ensures IsJumping() ==> name == jumpAsset && name in SkiJump
      ensures !IsJumping() ==> name == AssetArray[direction] && name != AssetArray[JUMP]
    {
      if direction == JUMP then jumpAsset else AssetArray[direction]
    }

    /**
     * The skier's collision rectangle: the bottom five units of its sprite,
     * with the skier drawn at the centre of a gameWidth x gameHeight view.
     */
    function SkierRect(gameWidth: int, gameHeight: int, sizes: SpriteSizes): (r: Bounds)
      requires Valid()
      reads this
      ensures r.right - r.left == sizes(SkierAsset()).width
      ensures r.bottom - r.top == RectHeight
      ensures r.left == x + gameWidth as real / 2.0
      ensures r.bottom == y + sizes(SkierAsset()).height + gameHeight as real / 2.0
    {
      CollisionRect(SkierAsset(), x, y, gameWidth, gameHeight, sizes)
    }

    /**
     * One frame of travel: diagonally by round(speed / 1.4142) on each axis,
     * straight down by speed, or not at all.
     */
    method Move()
      requires Valid()
      modifies this
      ensures Valid()
      ensures direction == old(direction) && jumpAsset == old(jumpAsset)
      ensures jumpTimerOn == old(jumpTimerOn) && jumpCounter == old(jumpCounter)
      ensures x == old(x) + Travel(direction).dx && y == old(y) + Travel(direction).dy
      ensures direction == LEFT_DOWN ==> x == old(x) - 6.0 && y == old(y) + 6.0
      ensures direction == RIGHT_DOWN ==> x == old(x) + 6.0 && y == old(y) + 6.0
      ensures direction == DOWN || direction == JUMP ==> x == old(x) && y == old(y) + 8.0
      ensures direction == CRASHED || direction == LEFT || direction == RIGHT ==> x == old(x) && y == old(y)
    {
      DiagonalSteps();
      if direction == LEFT_DOWN {
        x := x - RoundDiagonal(speed) as real;
        y := y + RoundDiagonal(speed) as real;
      } else if direction == DOWN || direction == JUMP {
        y := y + speed as real;
      } else if direction == RIGHT_DOWN {
        x := x + RoundDiagonal(speed) as real;
        y := y + RoundDiagonal(speed) as real;
      }
    }

    /** Steer left: strafe when already LEFT, recover to LEFT when crashed, else one step left. */
    method ChangeDirectionLeft()
      requires Valid()
      modifies this
      ensures Valid()
      ensures y == old(y) && jumpAsset == old(jumpAsset)
      ensures jumpTimerOn == old(jumpTimerOn) && jumpCounter == old(jumpCounter)
      ensures old(direction) == LEFT ==> direction == LEFT && x == old(x) - speed as real
      ensures old(direction) == CRASHED ==> direction == LEFT && x == old(x)
      ensures old(direction) > LEFT ==> direction == old(direction) - 1 && x == old(x)
      ensures old(direction) < JUMP ==> LEFT <= direction <= RIGHT
    {
      if direction == LEFT {
        x := x - speed as real;
      } else if direction == CRASHED {
        direction := LEFT;
      } else {
        direction := direction - 1;
      }
    }

    /**
     * Steer right: strafe when already RIGHT, else one step right. The game
     * never steers a jumping skier (input is refused while jumping).
     */
    method ChangeDirectionRight()
      requires Valid() && direction != JUMP
      modifies this
      ensures Valid()
      ensures y == old(y) && jumpAsset == old(jumpAsset)
      ensures jumpTimerOn == old(jumpTimerOn) && jumpCounter == old(jumpCounter)
      ensures old(direction) == RIGHT ==> direction == RIGHT && x == old(x) + speed as real
      ensures old(direction) != RIGHT ==> direction == old(direction) + 1 && x == old(x)
      ensures LEFT <= direction <= RIGHT
    {
      if direction == RIGHT {
        x := x + speed as real;
      } else {
        direction := direction + 1;
      }
    }

    method ChangeDirectionDown()
      requires Valid()
      modifies this
      ensures Valid()
      ensures direction == DOWN
      ensures x == old(x) && y == old(y) && jumpAsset == old(jumpAsset)
      ensures jumpTimerOn == old(jumpTimerOn) && jumpCounter == old(jumpCounter)
    {
      direction := DOWN;
    }

    method SkierCrashed()
      requires Valid()
      modifies this
      ensures Valid()
      ensures direction == CRASHED
      ensures x == old(x) && y == old(y) && jumpAsset == old(jumpAsset)
      ensures jumpTimerOn == old(jumpTimerOn) && jumpCounter == old(jumpCounter)
    {
      direction := CRASHED;
    }
  }

  /** Moving downhill and jumping never hold together. */
  lemma MovingExcludesJumping(s: Skier)
    ensures !(s.IsMoving() && s.IsJumping())
  {
  }

  /**
   * The whole jump: JUMP, then the four frames in order, then DOWN on the
   * fifth firing of the interval, which stops.
   */
  method JumpSequence(s: Skier)
    requires s.Valid()
    modifies s
    ensures s.Valid()
    ensures s.direction == DOWN && !s.jumpTimerOn && s.jumpAsset == SkiJump[3]
    ensures s.x == old(s.x) && s.y == old(s.y)
  {
    s.JumpSkier();
    s.JumpTick();
    assert s.direction == JUMP && s.SkierAsset() == "skierJump1";
    s.JumpTick();
    assert s.direction == JUMP && s.SkierAsset() == "skierJump2";
    s.JumpTick();
    assert s.direction == JUMP && s.SkierAsset() == "skierJump3";
    s.JumpTick();
    assert s.direction == JUMP && s.SkierAsset() == "skierJump4";
    s.JumpTick();
  }
}
