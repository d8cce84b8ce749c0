/**
 * An obstacle on the slope: a tree, a tree cluster, one of two rocks, or a
 * jump ramp. Its type is drawn once, when it is created, and never changes;
 * obstacles do not move, and nothing in the game changes an obstacle's
 * position after it is created, so position and type are constants.
 */
module Obstacles {
  import opened Assets

  /** The obstacle types, in index order; the index is what an obstacle stores. */
  const ObstacleTypes: seq<string> := ["tree", "treeCluster", "rock1", "rock2", "jumpRamp"]

  /** The index of the jump ramp in ObstacleTypes. */
  const JumpType := 4

  /** A valid index into ObstacleTypes: the range the type is drawn from. */
  type TypeIndex = i: int | 0 <= i < 5

  /** Height of the collision band at the base of an obstacle's sprite. */
  const BandHeight := 5.0

  class Obstacle {
    const obstacleType: TypeIndex
    const x: real
    const y: real

    /**
     * Creates an obstacle at `position`; `kind` is the random draw of its
     * type, in 0..|ObstacleTypes| - 1.
     */
    constructor (position: Point, kind: TypeIndex)
      ensures obstacleType == kind
      ensures x == position.x && y == position.y
    {
      obstacleType := kind;
      x := position.x;
      y := position.y;
    }

    /**
     * The obstacle as a reset leaves it: at the origin, with the same type.
     * Positions are constants here, so the reset obstacle is a new object.
     */
    method Reset() returns (r: Obstacle)
      ensures fresh(r)
      ensures r.x == 0.0 && r.y == 0.0 && r.obstacleType == obstacleType
    {
      r := new Obstacle(Point(0.0, 0.0), obstacleType);
    }

    /** Obstacles are stationary: moving one changes nothing. */
    method Move()
      ensures unchanged(this)
    {
    }

    /** The name of this obstacle's type, which is also the name of its sprite. */
    function TypeName(): (name: string)
      ensures name in ObstacleTypes
    {
      ObstacleTypes[obstacleType]
    }

    /** The obstacle is a jump ramp. */
    predicate IsJump()
      ensures IsJump() <==> TypeName() == "jumpRamp"
    {
      obstacleType == JumpType
    }

    /** The full sprite rectangle, anchored at the obstacle's position. */
    function ObstacleRect(sizes: SpriteSizes): (r: Box)
      ensures r.x == x && r.y == y
      ensures r.width == sizes(TypeName()).width && r.height == sizes(TypeName()).height
    {
      var image := sizes(ObstacleTypes[obstacleType]);
      Box(x, y, image.width, image.height)
    }

    /** The collision band: the bottom five units of the sprite, full width. */
    function ObstacleBounds(sizes: SpriteSizes): (b: Bounds)
      ensures b.left == x && b.right - b.left == sizes(TypeName()).width
      ensures b.bottom == y + sizes(TypeName()).height && b.bottom - b.top == BandHeight
      ensures WellFormed(b) <==> sizes(TypeName()).width >= 0.0
    {
      var image := sizes(ObstacleTypes[obstacleType]);
      Bounds(x, x + image.width, y + image.height - BandHeight, y + image.height)
    }

    /** The band is as wide as the sprite rectangle and sits on its bottom edge. */
    lemma BandAtBase(sizes: SpriteSizes)
      ensures var r, b := ObstacleRect(sizes), ObstacleBounds(sizes);
        b.left == r.x && b.right == r.x + r.width &&
        b.bottom == r.y + r.height && b.bottom - b.top == BandHeight
    {
    }

    /** A sprite at least five units high contains its whole collision band. */
    lemma BandInsideSprite(sizes: SpriteSizes)
      requires sizes(TypeName()).width >= 0.0 && sizes(TypeName()).height >= BandHeight
      ensures var r, b := ObstacleRect(sizes), ObstacleBounds(sizes);
        WellFormed(b) && r.y <= b.top && b.bottom <= r.y + r.height &&
        r.x <= b.left && b.right <= r.x + r.width
    {
    }
  }
}
