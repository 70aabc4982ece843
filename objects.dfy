/** The collision engine: a dynamic body under gravity that moves axis by axis
    and is pushed out of static structures, one structure at a time, in list order. */
module Objects {
  import opened Geometry
  import opened Structures

  /** The whole state of a dynamic object, as a value. */
  datatype Body = Body(
    x: real, y: real, width: real, height: real,
    xVel: real, yVel: real, gravity: real, onGround: bool)

  /** The body's collision box. */
  function BodyRect(b: Body): (r: Box)
    ensures r.left == b.x && r.top == b.y && r.Right() == b.x + b.width && r.Bottom() == b.y + b.height
  {
    Box(b.x, b.y, b.width, b.height)
  }

  // ---------------------------------------------------------------------------
  // Horizontal resolution

  /** One iteration of the horizontal pass against structure `s`: on overlap, a body
      moving right is pushed back to the structure's left edge, one moving left to its
      right edge, and the horizontal velocity is zeroed in every case. */
  function HitX(b: Body, s: Structure): Body {
    if Overlaps(BodyRect(b), s.GetRect()) then
      b.(x := if b.xVel > 0.0 then s.GetRect().left - b.width
              else if b.xVel < 0.0 then s.GetRect().Right()
              else b.x,
         xVel := 0.0)
    else b
  }

  /** The horizontal pass over all structures, in list order. Only `x` and `xVel` can change. */
  function ResolveX(b: Body, ss: seq<Structure>): (r: Body)
    ensures r.(x := b.x, xVel := b.xVel) == b
    decreases |ss|
  {
    if ss == [] then b else ResolveX(HitX(b, ss[0]), ss[1..])
  }

  lemma {:induction false} ResolveXSnoc(b: Body, p: seq<Structure>, s: Structure)
    ensures ResolveX(b, p + [s]) == HitX(ResolveX(b, p), s)
    decreases |p|
  {
    if p != [] {
      assert (p + [s])[1..] == p[1..] + [s];
      ResolveXSnoc(HitX(b, p[0]), p[1..], s);
    }
  }

  /** Once the horizontal velocity is zero, no structure moves the body any more. */
  lemma {:induction false} ResolveXIdle(b: Body, ss: seq<Structure>)
    requires b.xVel == 0.0
    ensures ResolveX(b, ss) == b
    decreases |ss|
  {
    if ss != [] {
      assert HitX(b, ss[0]) == b;
      ResolveXIdle(b, ss[1..]);
    }
  }

  /** A horizontal pass whose starting box overlaps no structure changes nothing. */
  lemma {:induction false} ResolveXNoHit(b: Body, ss: seq<Structure>)
    requires forall j | 0 <= j < |ss| :: !Overlaps(BodyRect(b), ss[j].GetRect())
    ensures ResolveX(b, ss) == b
    decreases |ss|
  {
    if ss != [] {
      assert !Overlaps(BodyRect(b), ss[0].GetRect());
      ResolveXNoHit(b, ss[1..]);
    }
  }

  /** Only the first structure the starting box overlaps decides the outcome of the
      horizontal pass: the body is snapped against it once and never moved again. */
  lemma {:induction false} ResolveXFirstHit(b: Body, ss: seq<Structure>, k: nat)
    requires k < |ss|
    requires Overlaps(BodyRect(b), ss[k].GetRect())
    requires forall j | 0 <= j < k :: !Overlaps(BodyRect(b), ss[j].GetRect())
    ensures ResolveX(b, ss) == HitX(b, ss[k])
    ensures ResolveX(b, ss).xVel == 0.0
    ensures b.xVel > 0.0 ==> ResolveX(b, ss).x + b.width == ss[k].x
    ensures b.xVel < 0.0 ==> ResolveX(b, ss).x == ss[k].x + ss[k].width
    ensures b.xVel == 0.0 ==> ResolveX(b, ss).x == b.x
    decreases k
  {
    if k == 0 {
      ResolveXIdle(HitX(b, ss[0]), ss[1..]);
    } else {
      assert !Overlaps(BodyRect(b), ss[0].GetRect());
      assert forall j | 0 <= j < k - 1 :: ss[1..][j] == ss[j + 1];
      ResolveXFirstHit(b, ss[1..], k - 1);
    }
  }

  // ---------------------------------------------------------------------------
  // Vertical resolution

  /** One iteration of the vertical pass against structure `s`: on overlap, a falling
      body lands on the structure's top and becomes grounded, a rising one is pushed
      below its bottom; the vertical velocity is zeroed only in those two cases. */
  function HitY(b: Body, s: Structure): Body {
    if Overlaps(BodyRect(b), s.GetRect()) then
      if b.yVel > 0.0 then b.(y := s.GetRect().top - b.height, yVel := 0.0, onGround := true)
      else if b.yVel < 0.0 then b.(y := s.GetRect().Bottom(), yVel := 0.0)
      else b
    else b
  }

  /** The vertical pass over all structures, in list order. Only `y`, `yVel` and
      `onGround` can change, and `onGround` can only be raised, never cleared. */
  function ResolveY(b: Body, ss: seq<Structure>): (r: Body)
    ensures r.(y := b.y, yVel := b.yVel, onGround := b.onGround) == b
    ensures b.onGround ==> r.onGround
    decreases |ss|
  {
    if ss == [] then b else ResolveY(HitY(b, ss[0]), ss[1..])
  }

  lemma {:induction false} ResolveYSnoc(b: Body, p: seq<Structure>, s: Structure)
    ensures ResolveY(b, p + [s]) == HitY(ResolveY(b, p), s)
    decreases |p|
  {
    if p != [] {
      assert (p + [s])[1..] == p[1..] + [s];
      ResolveYSnoc(HitY(b, p[0]), p[1..], s);
    }
  }

  /** Once the vertical velocity is zero, no structure moves the body any more. */
  lemma {:induction false} ResolveYIdle(b: Body, ss: seq<Structure>)
    requires b.yVel == 0.0
    ensures ResolveY(b, ss) == b
    decreases |ss|
  {
    if ss != [] {
      assert HitY(b, ss[0]) == b;
      ResolveYIdle(b, ss[1..]);
    }
  }

  /** A vertical pass whose starting box overlaps no structure changes nothing. */
  lemma {:induction false} ResolveYNoHit(b: Body, ss: seq<Structure>)
    requires forall j | 0 <= j < |ss| :: !Overlaps(BodyRect(b), ss[j].GetRect())
    ensures ResolveY(b, ss) == b
    decreases |ss|
  {
    if ss != [] {
      assert !Overlaps(BodyRect(b), ss[0].GetRect());
      ResolveYNoHit(b, ss[1..]);
    }
  }

  /** Only the first structure the starting box overlaps decides the outcome of the
      vertical pass: landing on its top (grounded), or hitting its bottom (grounded
      flag untouched), or nothing at all when the body was not moving vertically. */
  lemma {:induction false} ResolveYFirstHit(b: Body, ss: seq<Structure>, k: nat)
    requires k < |ss|
    requires Overlaps(BodyRect(b), ss[k].GetRect())
    requires forall j | 0 <= j < k :: !Overlaps(BodyRect(b), ss[j].GetRect())
    ensures ResolveY(b, ss) == HitY(b, ss[k])
    ensures ResolveY(b, ss).yVel == 0.0
    ensures b.yVel > 0.0 ==> ResolveY(b, ss).y + b.height == ss[k].y && ResolveY(b, ss).onGround
    ensures b.yVel < 0.0 ==> ResolveY(b, ss).y == ss[k].y + ss[k].height && ResolveY(b, ss).onGround == b.onGround
    ensures b.yVel == 0.0 ==> ResolveY(b, ss) == b
    decreases k
  {
    if k == 0 {
      ResolveYIdle(HitY(b, ss[0]), ss[1..]);
    } else {
      assert !Overlaps(BodyRect(b), ss[0].GetRect());
      assert forall j | 0 <= j < k - 1 :: ss[1..][j] == ss[j + 1];
      ResolveYFirstHit(b, ss[1..], k - 1);
    }
  }

  /** Some structure overlaps the box. */
  predicate HitsAny(box: Box, ss: seq<Structure>) {
    exists k | 0 <= k < |ss| :: Overlaps(box, ss[k].GetRect())
  }

  /** The vertical pass raises the grounded flag exactly when the body was falling and
      its box overlapped some structure, and then it rests on that structure's top. */
  lemma {:induction false} ResolveYGrounds(b: Body, ss: seq<Structure>)
    ensures ResolveY(b, ss).onGround <==> b.onGround || (b.yVel > 0.0 && HitsAny(BodyRect(b), ss))
    ensures !b.onGround && ResolveY(b, ss).onGround ==>
      ResolveY(b, ss).yVel == 0.0 &&
      exists k | 0 <= k < |ss| :: Overlaps(BodyRect(b), ss[k].GetRect()) && ResolveY(b, ss).y + b.height == ss[k].y
    decreases |ss|
  {
    if ss != [] {
      var r := ResolveY(b, ss);
      if Overlaps(BodyRect(b), ss[0].GetRect()) {
        ResolveYFirstHit(b, ss, 0);
        assert HitsAny(BodyRect(b), ss);
      } else {
        ResolveYGrounds(b, ss[1..]);
        if HitsAny(BodyRect(b), ss) {
          var k :| 0 <= k < |ss| && Overlaps(BodyRect(b), ss[k].GetRect());
          assert ss[1..][k - 1] == ss[k];
        }
        if HitsAny(BodyRect(b), ss[1..]) {
          var k :| 0 <= k < |ss[1..]| && Overlaps(BodyRect(b), ss[1..][k].GetRect());
          assert ss[k + 1] == ss[1..][k];
        }
        if !b.onGround && r.onGround {
          var k :| 0 <= k < |ss[1..]| && Overlaps(BodyRect(b), ss[1..][k].GetRect()) && r.y + b.height == ss[1..][k].y;
          assert ss[k + 1] == ss[1..][k];
        }
      }
    }
  }

  // ---------------------------------------------------------------------------
  // One frame

  /** The state just before the horizontal pass: grounded flag cleared, gravity
      added to the vertical velocity, and the body moved horizontally. */
  function BeforeResolveX(b: Body): Body {
    var fallen := b.(onGround := false, yVel := b.yVel + b.gravity);
    fallen.(x := fallen.x + fallen.xVel)
  }

  /** The state just before the vertical pass: the horizontal pass done, then the
      body moved vertically. */
  function BeforeResolveY(b: Body, ss: seq<Structure>): Body {
    var moved := ResolveX(BeforeResolveX(b), ss);
    moved.(y := moved.y + moved.yVel)
  }

  /** One frame of the object: gravity, horizontal move and pass, vertical move and pass. */
  function Advance(b: Body, ss: seq<Structure>): (r: Body)
    ensures r.width == b.width && r.height == b.height && r.gravity == b.gravity
  {
    ResolveY(BeforeResolveY(b, ss), ss)
  }

  /** With no structures a frame is plain free fall: gravity first, then both moves. */
  lemma FreeFall(b: Body)
    ensures Advance(b, []) ==
      b.(onGround := false, yVel := b.yVel + b.gravity,
         x := b.x + b.xVel, y := b.y + b.yVel + b.gravity)
  {
  }

  /** After a frame the object is grounded exactly when the vertical pass performed a
      downward landing snap in that same frame; it then rests on the top of a structure
      it overlapped, with zero vertical velocity. */
  lemma AdvanceGrounded(b: Body, ss: seq<Structure>)
    ensures var m := BeforeResolveY(b, ss);
      Advance(b, ss).onGround <==> m.yVel > 0.0 && HitsAny(BodyRect(m), ss)
    ensures var m := BeforeResolveY(b, ss); var r := Advance(b, ss);
      r.onGround ==>
        r.yVel == 0.0 &&
        exists k | 0 <= k < |ss| :: Overlaps(BodyRect(m), ss[k].GetRect()) && r.y + r.height == ss[k].y
  {
    var m := BeforeResolveY(b, ss);
    assert !m.onGround;
    ResolveYGrounds(m, ss);
  }

  /** A body resting exactly on top of a structure, horizontally inside it and not moving,
      is pulled into the structure by gravity and snapped back each frame: it stays where
      it is, with zero vertical velocity, and is grounded. */
  lemma RestingStaysGrounded(b: Body, s: Structure)
    requires b.width > 0.0 && b.height > 0.0 && s.width > 0.0 && s.height > 0.0
    requires b.x < s.x + s.width && b.x + b.width > s.x
    requires b.y + b.height == s.y
    requires b.xVel == 0.0 && b.yVel == 0.0
    requires 0.0 < b.gravity < b.height + s.height
    ensures Advance(b, [s]) == b.(onGround := true)
  {
    var m0 := BeforeResolveX(b);
    TouchingDoesNotOverlap(BodyRect(m0), s.GetRect());
    ResolveXIdle(m0, [s]);
    var m := BeforeResolveY(b, [s]);
    ResolveYFirstHit(m, [s], 0);
  }

  // ---------------------------------------------------------------------------
  // The object as the program holds it

  /** A dynamic object: position and size of its box, velocity, gravity, and whether
      it landed on a structure during the last frame. */
  class Object {
    var x: real
    var y: real
    const width: real
    const height: real
    var xVel: real
    var yVel: real
    const gravity: real
    var onGround: bool

    /** The object's fields as a value. */
    function State(): Body
      reads this
    {
      Body(x, y, width, height, xVel, yVel, gravity, onGround)
    }

    constructor (x: real, y: real, width: real, height: real, gravity: real := 0.5)
      ensures State() == Body(x, y, width, height, 0.0, 0.0, gravity, false)
    {
      this.x := x;
      this.y := y;
      this.width := width;
      this.height := height;
      this.xVel := 0.0;
      this.yVel := 0.0;
      this.gravity := gravity;
      this.onGround := false;
    }

    /** The object's current collision box. */
    function GetRect(): (r: Box)
      reads this
      ensures r.left == x && r.top == y && r.width == width && r.height == height
    {
      BodyRect(State())
    }

    /** One frame: clear the grounded flag, apply gravity, move and resolve on x, then on y. */
    method Update(structures: seq<Structure>)
      modifies this`x, this`y, this`xVel, this`yVel, this`onGround
      ensures State() == Advance(old(State()), structures)
    {
      onGround := false;
      yVel := yVel + gravity;
      x := x + xVel;
      ResolveCollisionsX(structures);
      y := y + yVel;
      ResolveCollisionsY(structures);
    }

    /** Push the object out of each overlapping structure along x, in list order. */
    method ResolveCollisionsX(structures: seq<Structure>)
      modifies this`x, this`xVel
      ensures State() == ResolveX(old(State()), structures)
    {
      var rect := GetRect();
      for i := 0 to |structures|
        invariant rect == GetRect()
        invariant State() == ResolveX(old(State()), structures[..i])
      {
        var s := structures[i];
        ResolveXSnoc(old(State()), structures[..i], s);
        if Overlaps(rect, s.GetRect()) {
          if xVel > 0.0 {
            x := s.GetRect().left - width;
          } else if xVel < 0.0 {
            x := s.GetRect().Right();
          }
          xVel := 0.0;
          rect := GetRect();
        }
        assert structures[..i + 1] == structures[..i] + [s];
      }
      assert structures[..|structures|] == structures;
    }

    /** Push the object out of each overlapping structure along y, in list order,
        raising the grounded flag on a downward landing. */
    method ResolveCollisionsY(structures: seq<Structure>)
      modifies this`y, this`yVel, this`onGround
      ensures State() == ResolveY(old(State()), structures)
    {
      var rect := GetRect();
      for i := 0 to |structures|
        invariant rect == GetRect()
        invariant State() == ResolveY(old(State()), structures[..i])
      {
        var s := structures[i];
        ResolveYSnoc(old(State()), structures[..i], s);
        if Overlaps(rect, s.GetRect()) {
          if yVel > 0.0 {
            y := s.GetRect().top - height;
            yVel := 0.0;
            onGround := true;
          } else if yVel < 0.0 {
            y := s.GetRect().Bottom();
            yVel := 0.0;
          }
          rect := GetRect();
        }
        assert structures[..i + 1] == structures[..i] + [s];
      }
      assert structures[..|structures|] == structures;
    }
  }
}
