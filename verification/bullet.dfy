/** entities/bullet.py: an enemy projectile moving in a straight line. Its
    unit direction is given at creation; drawing is not modelled. */
module Bullets {

  const BULLET_SPEED: real := 8.0
  const BULLET_RADIUS: int := 5
  /** How far past the screen edge a bullet may travel before it is dropped. */
  const OFFSCREEN_MARGIN: real := 50.0

  class EnemyBullet {
    var x: real
    var y: real
    const dx: real
    const dy: real
    const radius: int
    const speed: real

    constructor (x: real, y: real, dx: real, dy: real)
      ensures this.x == x && this.y == y && this.dx == dx && this.dy == dy
      ensures radius == BULLET_RADIUS && speed == BULLET_SPEED
    {
      this.x := x;
      this.y := y;
      this.dx := dx;
      this.dy := dy;
      radius := BULLET_RADIUS;
      speed := BULLET_SPEED;
    }

    /** The position one step along the direction from (x0, y0). */
    ghost predicate AdvancedFrom(x0: real, y0: real)
      reads this
    {
      x == x0 + dx * speed && y == y0 + dy * speed
    }

    /** One tick: the bullet advances by speed along its direction. */
    method Update()
      modifies this`x, this`y
      ensures AdvancedFrom(old(x), old(y))
    {
      x := x + dx * speed;
      y := y + dy * speed;
    }

    /** Outside the screen grown by the margin on every side: a bullet on
        the screen or within the margin of it is kept, and one beyond the
        margin of any edge is dropped. */
    predicate IsOffScreen(width: int, height: int): (off: bool)
      reads this
      ensures 0.0 <= x <= width as real && 0.0 <= y <= height as real ==> !off
      ensures x < -OFFSCREEN_MARGIN || x > width as real + OFFSCREEN_MARGIN ==> off
      ensures y < -OFFSCREEN_MARGIN || y > height as real + OFFSCREEN_MARGIN ==> off
      ensures off ==> x < 0.0 || x > width as real || y < 0.0 || y > height as real
    {
      x < -OFFSCREEN_MARGIN || x > width as real + OFFSCREEN_MARGIN ||
      y < -OFFSCREEN_MARGIN || y > height as real + OFFSCREEN_MARGIN
    }

    function GetPos(): (real, real)
      reads this
    {
      (x, y)
    }
  }
}
