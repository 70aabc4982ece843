/** The stand-alone demo: a circle moving under gravity inside the screen. */
module Demo {
  import opened Geometry

  /** The demo circle's state as a value; (x, y) is its centre. */
  datatype CircleState = CircleState(
    x: real, y: real, radius: real,
    speed: real, jumpSpeed: real, gravity: real,
    xVel: real, yVel: real)

  /** The bottom of the circle is within one unit of the bottom of the screen. */
  predicate OnGround(c: CircleState, screenHeight: int) {
    Abs(c.y + c.radius - screenHeight as real) < 1.0
  }

  /** One frame: gravity, then both moves with the new velocity, then the left, right,
      top and bottom clamps, in that order. A side clamp moves the centre only; a top
      or bottom clamp also stops vertical motion. */
  function Step(c: CircleState, screenWidth: int, screenHeight: int): (r: CircleState)
    ensures r.(x := c.x, y := c.y, yVel := c.yVel) == c
    ensures var w := screenWidth as real; var x := c.x + c.xVel;
      (w >= 2.0 * c.radius ==> c.radius <= r.x <= w - c.radius) &&
      (c.radius <= x <= w - c.radius ==> r.x == x) &&
      (x - c.radius < 0.0 && w >= 2.0 * c.radius ==> r.x == c.radius) &&
      (x + c.radius > w ==> r.x == w - c.radius) &&
      (w < 2.0 * c.radius ==> r.x == w - c.radius)
    ensures var h := screenHeight as real; var y := c.y + c.yVel + c.gravity;
      (h >= 2.0 * c.radius ==> c.radius <= r.y <= h - c.radius) &&
      (c.radius <= y <= h - c.radius ==> r.y == y && r.yVel == c.yVel + c.gravity) &&
      (y - c.radius < 0.0 && h >= 2.0 * c.radius ==> r.y == c.radius && r.yVel == 0.0) &&
      (y + c.radius > h ==> r.y == h - c.radius && r.yVel == 0.0 && OnGround(r, screenHeight)) &&
      (h < 2.0 * c.radius ==> r.y == h - c.radius && r.yVel == 0.0 && OnGround(r, screenHeight))
  {
    var w, h := screenWidth as real, screenHeight as real;
    var yVel := c.yVel + c.gravity;
    var x, y := c.x + c.xVel, c.y + yVel;
    var x1 := if x - c.radius < 0.0 then c.radius else x;
    var x2 := if x1 + c.radius > w then w - c.radius else x1;
    var y1, v1 := if y - c.radius < 0.0 then c.radius else y, if y - c.radius < 0.0 then 0.0 else yVel;
    var y2, v2 := if y1 + c.radius > h then h - c.radius else y1, if y1 + c.radius > h then 0.0 else v1;
    c.(x := x2, y := y2, yVel := v2)
  }

  class Circle {
    var x: real
    var y: real
    const radius: real
    const speed: real
    const jumpSpeed: real
    const gravity: real
    var xVel: real
    var yVel: real

    /** The circle's fields as a value. */
    function State(): CircleState
      reads this
    {
      CircleState(x, y, radius, speed, jumpSpeed, gravity, xVel, yVel)
    }

    constructor (x: real, y: real, radius: real,
                 speed: real := 5.0, jumpSpeed: real := 15.0, gravity: real := 0.5)
      ensures State() == CircleState(x, y, radius, speed, jumpSpeed, gravity, 0.0, 0.0)
    {
      this.x := x;
      this.y := y;
      this.radius := radius;
      this.speed := speed;
      this.jumpSpeed := jumpSpeed;
      this.gravity := gravity;
      xVel := 0.0;
      yVel := 0.0;
    }

    method Update(screenWidth: int, screenHeight: int)
      modifies this`x, this`y, this`yVel
      ensures State() == Step(old(State()), screenWidth, screenHeight)
    {
      yVel := yVel + gravity;

      x := x + xVel;
      y := y + yVel;

      if x - radius < 0.0 {
        x := radius;
      }
      if x + radius > screenWidth as real {
        x := screenWidth as real - radius;
      }

      if y - radius < 0.0 {
        y := radius;
        yVel := 0.0;
      }
      if y + radius > screenHeight as real {
        y := screenHeight as real - radius;
        yVel := 0.0;
      }
    }

    /** Whether the circle rests on (or within one unit of) the bottom of the screen. */
    function IsOnGround(screenHeight: int): (r: bool)
      reads this
      ensures r <==> screenHeight as real - 1.0 < y + radius < screenHeight as real + 1.0
    {
      OnGround(State(), screenHeight)
    }

    method MoveLeft()
      modifies this`xVel
      ensures State() == old(State()).(xVel := -speed)
    {
      xVel := -speed;
    }

    method MoveRight()
      modifies this`xVel
      ensures State() == old(State()).(xVel := speed)
    {
      xVel := speed;
    }

    method StopHorizontalMovement()
      modifies this`xVel
      ensures State() == old(State()).(xVel := 0.0)
    {
      xVel := 0.0;
    }

    /** Start a jump unconditionally; checking for the ground is the caller's job. */
    method Jump()
      modifies this`yVel
      ensures State() == old(State()).(yVel := -jumpSpeed)
    {
      yVel := -jumpSpeed;
    }
  }
}
