/** The player: a circle drawn inside the square collision box of an Object. */
module Player {
  import opened Geometry
  import opened Structures
  import opened Objects

  /** The jump gate: the vertical velocity is within 0.01 of zero. It looks at the
      velocity only, never at the grounded flag. */
  predicate CanJump(yVel: real) {
    Abs(yVel) < 0.01
  }

  /** A circle-shaped player. `body` is the Object part of the player (its box,
      velocity, gravity and grounded flag); per-frame physics is `body.Update`. */
  class Circle {
    const body: Object
    const radius: real
    const moveSpeed: real
    const jumpSpeed: real

    /** The box is the square of side 2*radius around the centre. */
    predicate Valid() {
      body.width == 2.0 * radius && body.height == 2.0 * radius
    }

    /** Build a player centred on (x, y): the box's corner is one radius up and left. */
    constructor (x: real, y: real, radius: real, gravity: real := 0.5)
      ensures Valid() && fresh(body)
      ensures body.State() == Body(x - radius, y - radius, 2.0 * radius, 2.0 * radius, 0.0, 0.0, gravity, false)
      ensures this.radius == radius && moveSpeed == 5.0 && jumpSpeed == 12.0
      ensures Centre() == (x, y)
    {
      body := new Object(x - radius, y - radius, 2.0 * radius, 2.0 * radius, gravity);
      this.radius := radius;
      moveSpeed := 5.0;
      jumpSpeed := 12.0;
    }

    /** The point the circle is drawn around: the centre of its box. */
    function Centre(): (c: (real, real))
      reads body
      requires Valid()
      ensures c == (body.x + body.width / 2.0, body.y + body.height / 2.0)
    {
      (body.x + radius, body.y + radius)
    }

    method MoveLeft()
      modifies body`xVel
      ensures body.State() == old(body.State()).(xVel := -moveSpeed)
    {
      body.xVel := -moveSpeed;
    }

    method MoveRight()
      modifies body`xVel
      ensures body.State() == old(body.State()).(xVel := moveSpeed)
    {
      body.xVel := moveSpeed;
    }

    method StopHorizontal()
      modifies body`xVel
      ensures body.State() == old(body.State()).(xVel := 0.0)
    {
      body.xVel := 0.0;
    }

    /** Start a jump when the vertical velocity is (nearly) zero; otherwise nothing happens. */
    method Jump()
      modifies body`yVel
      ensures CanJump(old(body.yVel)) ==> body.yVel == -jumpSpeed
      ensures !CanJump(old(body.yVel)) ==> body.yVel == old(body.yVel)
      ensures body.State().(yVel := old(body.yVel)) == old(body.State())
    {
      if CanJump(body.yVel) {
        body.yVel := -jumpSpeed;
      }
    }
  }

  /** A frame that ends grounded always leaves the jump gate open. */
  lemma LandingOpensJump(b: Body, ss: seq<Structure>)
    requires Advance(b, ss).onGround
    ensures CanJump(Advance(b, ss).yVel)
  {
    AdvanceGrounded(b, ss);
  }

  /** The gate is not a ground check: a body whose upward speed equals the gravity step
      reaches zero vertical velocity in mid-air, ending the frame not grounded (whatever
      the structures) yet with the jump gate open. */
  lemma ApexOpensJump(b: Body, ss: seq<Structure>)
    requires b.yVel + b.gravity == 0.0
    ensures !Advance(b, ss).onGround && CanJump(Advance(b, ss).yVel)
  {
    ResolveYIdle(BeforeResolveY(b, ss), ss);
  }
}
