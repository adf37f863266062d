/**
 * The game engine's arcade sprite, as far as the movement states use it:
 * its position, the "touching down" contact flag of its physics body, its
 * horizontal velocity and the last animation it was asked to play.
 * Every call the movement states make on it is also appended to `effects`,
 * so that contracts can say how many calls were made and in which order.
 */
module PlayerSprite {

  /** One call on the sprite: `setVelocityX(velocity)` or `anims.play(key, flag)`. */
  datatype Effect = VelocitySet(velocity: int) | AnimationPlayed(key: string, flag: bool)

  class Player {
    var velocityX: int
    var animKey: string
    var animFlag: bool
    var x: int
    var y: int
    var touchingDown: bool
    var effects: seq<Effect>

    /** A sprite at (x, y) that has not been moved or animated yet. */
    constructor (x: int, y: int, touchingDown: bool)
      ensures this.x == x && this.y == y && this.touchingDown == touchingDown
      ensures velocityX == 0 && animKey == "" && !animFlag && effects == []
    {
      this.x, this.y, this.touchingDown := x, y, touchingDown;
      velocityX, animKey, animFlag, effects := 0, "", false, [];
    }

    /** `setVelocityX(v)`: the horizontal velocity becomes `v`. */
    method SetVelocityX(v: int)
      modifies this`velocityX, this`effects
      ensures velocityX == v
      ensures effects == old(effects) + [VelocitySet(v)]
    {
      velocityX := v;
      effects := effects + [VelocitySet(v)];
    }

    /** `anims.play(key, flag)`: records the requested clip and the flag passed with it. */
    method PlayAnimation(key: string, flag: bool)
      modifies this`animKey, this`animFlag, this`effects
      ensures animKey == key && animFlag == flag
      ensures effects == old(effects) + [AnimationPlayed(key, flag)]
    {
      animKey, animFlag := key, flag;
      effects := effects + [AnimationPlayed(key, flag)];
    }
  }
}
