/** The camera: a viewport that follows a target and is clamped to the world. */
module Viewport {

  /** The offset that puts `target` in the middle of a screen of size `screen`
      (the half is rounded down). */
  function Centred(target: real, screen: int): real {
    target - (screen / 2) as real
  }

  /** One axis of the camera offset: centre on the target, then raise a negative
      offset to 0, then lower an offset that would show past the far edge of the
      world to `world - screen`. The second clamp wins, so a world narrower than
      the screen gives the negative offset `world - screen`. */
  function Offset(target: real, screen: int, world: int): (r: real)
    ensures world >= screen ==> 0.0 <= r <= (world - screen) as real
    ensures world < screen ==> r == (world - screen) as real
    ensures 0.0 <= Centred(target, screen) <= (world - screen) as real ==> r == Centred(target, screen)
    ensures Centred(target, screen) <= 0.0 ==> r == if world < screen then (world - screen) as real else 0.0
    ensures Centred(target, screen) >= (world - screen) as real ==> r == (world - screen) as real
  {
    var c := Centred(target, screen);
    var low := if c < 0.0 then 0.0 else c;
    if low + screen as real > world as real then (world - screen) as real else low
  }

  /** Moving the target forward never moves the camera back. */
  lemma OffsetMonotone(t1: real, t2: real, screen: int, world: int)
    requires t1 <= t2
    ensures Offset(t1, screen, world) <= Offset(t2, screen, world)
  {
  }

  class Camera {
    const screenWidth: int
    const screenHeight: int
    const worldWidth: int
    const worldHeight: int
    var x: real
    var y: real

    constructor (screenWidth: int, screenHeight: int, worldWidth: int, worldHeight: int)
      ensures this.screenWidth == screenWidth && this.screenHeight == screenHeight
      ensures this.worldWidth == worldWidth && this.worldHeight == worldHeight
      ensures x == 0.0 && y == 0.0
    {
      this.screenWidth := screenWidth;
      this.screenHeight := screenHeight;
      this.worldWidth := worldWidth;
      this.worldHeight := worldHeight;
      x := 0.0;
      y := 0.0;
    }

    /** Follow the target. The new offset depends on the target and the sizes only,
        not on the previous offset, and each axis only on its own coordinate. */
    method Update(targetX: real, targetY: real)
      modifies this`x, this`y
      ensures x == Offset(targetX, screenWidth, worldWidth)
      ensures y == Offset(targetY, screenHeight, worldHeight)
    {
      x := targetX - (screenWidth / 2) as real;
      y := targetY - (screenHeight / 2) as real;

      if x < 0.0 {
        x := 0.0;
      }
      if x + screenWidth as real > worldWidth as real {
        x := (worldWidth - screenWidth) as real;
      }

      if y < 0.0 {
        y := 0.0;
      }
      if y + screenHeight as real > worldHeight as real {
        y := (worldHeight - screenHeight) as real;
      }
    }

    /** World to screen coordinates; adding the offset back gives the world point. */
    function Apply(worldX: real, worldY: real): (r: (real, real))
      reads this
      ensures r.0 + x == worldX && r.1 + y == worldY
    {
      (worldX - x, worldY - y)
    }
  }
}
