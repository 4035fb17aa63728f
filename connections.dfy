/** The pair test that decides whether two particles are joined by a line, and the line's
    opacity (src/components/AnimatedBackground.tsx, lines 74-92). */
module Connections {
  import opened ParticleStore

  /** Particles closer than this are joined. */
  const Reach: real := 150.0

  /** The squared form of Reach that the code compares against. */
  const ReachSq: real := 22500.0

  function DistSq(p: Particle, q: Particle): real {
    (p.x - q.x) * (p.x - q.x) + (p.y - q.y) * (p.y - q.y)
  }

  /** The test of lines 76-85: reject on |dx| > 150, then on |dy| > 150, and only then compare
      the squared distance. */
  predicate Connects(p: Particle, q: Particle) {
    var dx := p.x - q.x;
    && !(dx > Reach || dx < -Reach)
    && var dy := p.y - q.y;
       && !(dy > Reach || dy < -Reach)
       && dx * dx + dy * dy < ReachSq
  }

  lemma SquareNonNegative(d: real)
    ensures d * d >= 0.0
  {
    if d < 0.0 {
      assert d * d == (-d) * (-d);
    }
  }

  /** A coordinate difference beyond Reach already puts the squared distance beyond ReachSq. */
  lemma SquareBeyondReach(d: real)
    requires d > Reach || d < -Reach
    ensures d * d > ReachSq
  {
    var a := if d < 0.0 then -d else d;
    assert a > Reach;
    assert a * a > Reach * a > Reach * Reach;
    assert d * d == a * a;
  }

  lemma DistSqNonNegative(p: Particle, q: Particle)
    ensures DistSq(p, q) >= 0.0
  {
    SquareNonNegative(p.x - q.x);
    SquareNonNegative(p.y - q.y);
  }

  /** The axis rejections never discard a pair that the squared-distance test would accept, so
      the test is exactly "closer than Reach". */
  lemma AxisChecksRedundant(p: Particle, q: Particle)
    ensures Connects(p, q) <==> DistSq(p, q) < ReachSq
  {
    var dx, dy := p.x - q.x, p.y - q.y;
    assert DistSq(p, q) == dx * dx + dy * dy;
    SquareNonNegative(dx);
    SquareNonNegative(dy);
    if dx > Reach || dx < -Reach {
      SquareBeyondReach(dx);
      assert !Connects(p, q);
    } else if dy > Reach || dy < -Reach {
      SquareBeyondReach(dy);
      assert !Connects(p, q);
    } else {
      assert Connects(p, q) == (dx * dx + dy * dy < ReachSq);
    }
  }

  /** The opacity of a line between particles dist apart: 0.1 * (1 - dist / 150). It fades
      from 0.1 for coincident particles to 0 at Reach. */
  function LineAlpha(dist: real): (a: real)
    ensures 0.0 <= dist < Reach ==> 0.0 < a <= 0.1
    ensures a == 0.1 <==> dist == 0.0
    ensures a == 0.0 <==> dist == Reach
  {
    0.1 * (1.0 - dist / Reach)
  }

  /** What `Math.sqrt` returns on the non-negative reals. */
  ghost predicate IsSqrt(sqrt: real -> real) {
    forall d: real :: 0.0 <= d ==> 0.0 <= sqrt(d) && sqrt(d) * sqrt(d) == d
  }

  /** A root whose square is below ReachSq is below Reach. */
  lemma RootBelowReach(dist: real, distSq: real)
    requires 0.0 <= dist && dist * dist == distSq && distSq < ReachSq
    ensures dist < Reach
  {
    assert (dist - Reach) * (dist + Reach) == distSq - ReachSq;
  }

  /** Every line that is drawn is visible and no brighter than 0.1. */
  lemma ConnectedAlpha(p: Particle, q: Particle, sqrt: real -> real)
    requires IsSqrt(sqrt)
    requires Connects(p, q)
    ensures 0.0 < LineAlpha(sqrt(DistSq(p, q))) <= 0.1
  {
    AxisChecksRedundant(p, q);
    DistSqNonNegative(p, q);
    var d := DistSq(p, q);
    RootBelowReach(sqrt(d), d);
  }
}
