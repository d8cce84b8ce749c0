/**
 * The rhino: a pursuer whose mode only runs forward, SLEEP -> RUN -> EAT ->
 * HAS_EATEN, until it is reset. It waits off screen to the right, closes in
 * along x only, and plays two timed animations: a two-frame run cycle and a
 * seven-frame eating sequence.
 *
 * Each animation is an interval timer in the game; here each timer is a flag
 * (and, for eating, a counter) and each firing is one call of RunTick or
 * EatTick.
 */
module Rhinos {
  import opened Assets

  // The mode codes.
  const SLEEP := 0
  const RUN := 1
  const EAT := 2
  const HAS_EATEN := 3

  /** The rhino's assets; the first two are the run cycle. */
  const AssetArray: seq<string> :=
    ["rhinoRunLeft", "rhinoRunLeft2", "rhinoLift", "rhinoLiftMouthOpen", "rhinoLiftEat1",
     "rhinoLiftEat2", "rhinoLiftEat3", "rhinoLiftEat4", "rhinoDefault"]

  /** The eating animation frames, in order. */
  const EatFrames: seq<string> :=
    ["rhinoLift", "rhinoLiftMouthOpen", "rhinoLiftEat1", "rhinoLiftEat2", "rhinoLiftEat3",
     "rhinoLiftEat4", "rhinoDefault"]

  /** The rhino's speed. */
  const RhinoSpeed := 3

  /** How far one move takes the rhino to the left: round(3 / 1.4142). */
  function Step(): (d: int)
    ensures d == 2
  {
    DiagonalSteps();
    RoundDiagonal(RhinoSpeed)
  }

  /** The start position: just off the right edge of the view, half way down. */
  function StartX(gameWidth: int): real {
    gameWidth as real + 20.0
  }

  /** The midpoint of the view, where the rhino catches the skier. */
  function Midpoint(gameWidth: int): real {
    gameWidth as real / 2.0
  }

  class Rhino {
    var mode: int
    const gameWidth: int
    const gameHeight: int
    var asset: string
    var x: real
    var y: real
    /** The run interval is running. */
    var runTimerOn: bool
    /** The eat interval is running. */
    var eatTimerOn: bool
    /** How many frames the running eat interval has shown. */
    var eatCounter: nat

    ghost predicate Valid()
      reads this
    {
      SLEEP <= mode <= HAS_EATEN && eatCounter <= |EatFrames|
    }

    /** Asleep, at the start position, showing the first run frame, no timer running. */
    constructor (gameWidth: int, gameHeight: int)
      ensures Valid()
      ensures this.gameWidth == gameWidth && this.gameHeight == gameHeight
      ensures mode == SLEEP && asset == AssetArray[0]
      ensures x == StartX(gameWidth) && y == gameHeight as real / 2.0
      ensures !runTimerOn && !eatTimerOn && eatCounter == 0
    {
      this.gameWidth := gameWidth;
      this.gameHeight := gameHeight;
      mode := SLEEP;
      asset := AssetArray[0];
      y := gameHeight as real / 2.0;
      x := gameWidth as real + 20.0;
      runTimerOn, eatTimerOn, eatCounter := false, false, 0;
    }

    /** Back to the constructor's mode, asset and position; running timers are not stopped. */
    method Reset()
      requires Valid()
      modifies this
      ensures Valid()
      ensures mode == SLEEP && asset == AssetArray[0]
      ensures x == StartX(gameWidth) && y == gameHeight as real / 2.0
      ensures runTimerOn == old(runTimerOn) && eatTimerOn == old(eatTimerOn) && eatCounter == old(eatCounter)
    {
      y := gameHeight as real / 2.0;
      x := gameWidth as real + 20.0;
      asset := AssetArray[0];
      mode := SLEEP;
    }

    /** Eating, or done eating: the modes from EAT on, all of them awake. */
    predicate IsRhinoEating()
      reads this
      ensures IsRhinoEating() ==> IsRhinoActive()
      ensures Valid() ==> (IsRhinoEating() <==> mode >= EAT)
    {
      mode == EAT || mode == HAS_EATEN
    }

    /** Awake: any mode but SLEEP, that is, any mode from RUN on. */
    predicate IsRhinoActive()
      reads this
      ensures Valid() ==> (IsRhinoActive() <==> mode >= RUN)
    {
      mode != SLEEP
    }

    /** Enters RUN and starts the run interval. */
    method RhinoRun()
      requires Valid()
      modifies this
      ensures Valid()
      ensures mode == RUN && runTimerOn
      ensures x == old(x) && y == old(y) && asset == old(asset)
      ensures eatTimerOn == old(eatTimerOn) && eatCounter == old(eatCounter)
    {
      mode := RUN;
      runTimerOn := true;
    }

    /**
     * One firing of the run interval: swap between the two run frames while
     * the rhino is right of the midpoint; once it is not, clear the interval.
     */
    method RunTick()
      requires Valid()
      modifies this
      ensures Valid()
      ensures mode == old(mode) && x == old(x) && y == old(y)
      ensures eatTimerOn == old(eatTimerOn) && eatCounter == old(eatCounter)
      ensures !old(runTimerOn) ==> unchanged(this)
      ensures old(runTimerOn) && old(x) <= Midpoint(gameWidth) ==> !runTimerOn && asset == old(asset)
      ensures old(runTimerOn) && old(x) > Midpoint(gameWidth) ==>
        runTimerOn && asset == (if old(asset) == AssetArray[0] then AssetArray[1] else AssetArray[0])
    {
      if runTimerOn {
        if x <= gameWidth as real / 2.0 {
          runTimerOn := false;
        } else if asset == AssetArray[0] {
          asset := AssetArray[1];
        } else {
          asset := AssetArray[0];
        }
      }
    }

    /** Enters EAT and starts the eat interval from its first frame. */
    method RhinoEat()
      requires Valid()
      modifies this
      ensures Valid()
      ensures mode == EAT && eatTimerOn && eatCounter == 0
      ensures x == old(x) && y == old(y) && asset == old(asset) && runTimerOn == old(runTimerOn)
    {
      eatCounter := 0;
      mode := EAT;
      eatTimerOn := true;
    }

    /**
     * One firing of the eat interval: the next of the seven frames, or, once
     * all seven were shown, HAS_EATEN with the interval cleared.
     */
    method EatTick()
      requires Valid()
      modifies this
      ensures Valid()
      ensures x == old(x) && y == old(y) && runTimerOn == old(runTimerOn)
      ensures mode >= old(mode)
      ensures !old(eatTimerOn) ==> unchanged(this)
      ensures old(eatTimerOn) && old(eatCounter) < |EatFrames| ==>
        asset == EatFrames[old(eatCounter)] && eatCounter == old(eatCounter) + 1 &&
        eatTimerOn && mode == old(mode)
      ensures old(eatTimerOn) && old(eatCounter) == |EatFrames| ==>
        mode == HAS_EATEN && !eatTimerOn && asset == old(asset) && eatCounter == old(eatCounter)
    {
      if eatTimerOn {
        if eatCounter < |EatFrames| {
          asset := EatFrames[eatCounter];
          eatCounter := eatCounter + 1;
        } else {
          mode := HAS_EATEN;
          eatTimerOn := false;
        }
      }
    }

    /** One step towards the skier: x only, by round(speed / 1.4142). */
    method Move()
      requires Valid()
      modifies this
      ensures Valid()
      ensures x == old(x) - Step() as real
      ensures y == old(y) && mode == old(mode) && asset == old(asset)
      ensures runTimerOn == old(runTimerOn) && eatTimerOn == old(eatTimerOn) && eatCounter == old(eatCounter)
    {
      x := x - RoundDiagonal(RhinoSpeed) as real;
    }
  }

  /** Where n moves take the rhino from x0. */
  function XAfterMoves(x0: real, n: nat): real {
    if n == 0 then x0 else XAfterMoves(x0, n - 1) - Step() as real
  }

  /** Every move takes the rhino two units to the left. */
  lemma {:induction false} XAfterMovesClosed(x0: real, n: nat)
    ensures XAfterMoves(x0, n) == x0 - 2.0 * n as real
  {
    if n > 0 {
      XAfterMovesClosed(x0, n - 1);
    }
  }

  /**
   * n frames of the chase, each moving the rhino one step: the rhino ends
   * where XAfterMoves says, with nothing but x changed.
   */
  method Approach(r: Rhino, n: nat)
    requires r.Valid()
    modifies r
    ensures r.Valid()
    ensures r.x == XAfterMoves(old(r.x), n)
    ensures r.y == old(r.y) && r.mode == old(r.mode) && r.asset == old(r.asset)
    ensures r.runTimerOn == old(r.runTimerOn) && r.eatTimerOn == old(r.eatTimerOn) && r.eatCounter == old(r.eatCounter)
  {
    var i := 0;
    while i < n
      invariant 0 <= i <= n && r.Valid()
      invariant r.x == XAfterMoves(old(r.x), i)
      invariant r.y == old(r.y) && r.mode == old(r.mode) && r.asset == old(r.asset)
      invariant r.runTimerOn == old(r.runTimerOn) && r.eatTimerOn == old(r.eatTimerOn) && r.eatCounter == old(r.eatCounter)
    {
      r.Move();
      i := i + 1;
    }
  }

  /** The fewest moves that bring the rhino from its start to the midpoint: ceil((W/2 + 20) / 2). */
  function MovesToMidpoint(gameWidth: int): int {
    CeilDiv(gameWidth + 40, 4)
  }

  /**
   * From the start position, the rhino is at or left of the midpoint after n
   * moves exactly when n is at least MovesToMidpoint.
   */
  lemma ReachesMidpoint(gameWidth: int, n: nat)
    ensures XAfterMoves(StartX(gameWidth), n) <= Midpoint(gameWidth) <==> n >= MovesToMidpoint(gameWidth)
  {
    XAfterMovesClosed(StartX(gameWidth), n);
    var m := MovesToMidpoint(gameWidth);
    assert (m - 1) * 4 < gameWidth + 40 <= m * 4;
  }

  /** The whole meal: EAT, the seven frames in order, then HAS_EATEN on the eighth firing. */
  method EatSequence(r: Rhino)
    requires r.Valid()
    modifies r
    ensures r.Valid()
    ensures r.mode == HAS_EATEN && !r.eatTimerOn && r.asset == "rhinoDefault"
    ensures r.x == old(r.x) && r.y == old(r.y)
  {
    r.RhinoEat();
    r.EatTick();
    assert r.mode == EAT && r.asset == "rhinoLift";
    r.EatTick();
    assert r.mode == EAT && r.asset == "rhinoLiftMouthOpen";
    r.EatTick();
    assert r.mode == EAT && r.asset == "rhinoLiftEat1";
    r.EatTick();
    assert r.mode == EAT && r.asset == "rhinoLiftEat2";
    r.EatTick();
    assert r.mode == EAT && r.asset == "rhinoLiftEat3";
    r.EatTick();
    assert r.mode == EAT && r.asset == "rhinoLiftEat4";
    r.EatTick();
    assert r.mode == EAT && r.asset == "rhinoDefault";
    r.EatTick();
  }
}
