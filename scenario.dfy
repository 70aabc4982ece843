/** A worked frame-by-frame run of the collision engine: a 50x50 body dropped from rest
    above a 200x20 platform. */
module Scenario {
  import opened Structures
  import opened Objects

  /** The state after `n` frames against the same structure list. */
  function Run(b: Body, ss: seq<Structure>, n: nat): Body
    decreases n
  {
    if n == 0 then b else Advance(Run(b, ss, n - 1), ss)
  }

  function Start(): Body { Body(100.0, 100.0, 50.0, 50.0, 0.0, 0.0, 0.5, false) }
  function Platform(): Structure { Structure(90.0, 200.0, 200.0, 20.0) }

  /** A frame from rest-like motion above the platform whose vertical move does not reach
      the platform's top changes only the height and the vertical velocity. */
  lemma FreeFrame(p: Body)
    requires p == Start().(y := p.y, yVel := p.yVel)
    requires p.y + p.yVel + 0.5 + 50.0 <= 200.0
    ensures Advance(p, [Platform()]) == p.(y := p.y + p.yVel + 0.5, yVel := p.yVel + 0.5)
  {
    ResolveXIdle(BeforeResolveX(p), [Platform()]);
    ResolveYNoHit(BeforeResolveY(p, [Platform()]), [Platform()]);
  }

  /** Dropped distance after n frames is n(n+1)/4; it stays under 50 for n <= 13. */
  lemma FallArithmetic(n: nat)
    requires 1 <= n <= 13
    ensures 100.0 + ((n - 1) * n) as real / 4.0 + (n - 1) as real / 2.0 + 0.5 == 100.0 + (n * (n + 1)) as real / 4.0
    ensures 100.0 + (n * (n + 1)) as real / 4.0 + 50.0 <= 200.0
  {
    assert (n - 1) * n + 2 * n == n * (n + 1);
    assert n * (n + 1) <= 182;
  }

  /** For the first 13 frames the body falls freely: after n frames its vertical velocity
      is n/2 and it has dropped by n(n+1)/4, never yet reaching the platform. */
  lemma {:induction false} FallingPhase(n: nat)
    requires n <= 13
    ensures Run(Start(), [Platform()], n) ==
      Start().(y := 100.0 + (n * (n + 1)) as real / 4.0, yVel := n as real / 2.0)
  {
    if n > 0 {
      FallingPhase(n - 1);
      FallArithmetic(n);
      FreeFrame(Run(Start(), [Platform()], n - 1));
    }
  }

  /** On frame 14 the body reaches the platform and lands on it: its bottom edge
      is on the platform's top, it is stopped, and it is grounded. */
  lemma LandsOnFrame14()
    ensures Run(Start(), [Platform()], 13).onGround == false
    ensures Run(Start(), [Platform()], 14) == Start().(y := 150.0, yVel := 0.0, onGround := true)
  {
    FallingPhase(13);
    var p := Run(Start(), [Platform()], 13);
    assert p == Start().(y := 145.5, yVel := 6.5);
    ResolveXIdle(BeforeResolveX(p), [Platform()]);
    var m := BeforeResolveY(p, [Platform()]);
    assert m == Start().(y := 152.5, yVel := 7.0);
    ResolveYFirstHit(m, [Platform()], 0);
  }
}
