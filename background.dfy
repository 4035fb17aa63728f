/** The animated background's state and its effect body (src/components/AnimatedBackground.tsx,
    lines 7-107): the canvas size, the particle array the closures share, and what has been
    drawn onto the canvas since it was last cleared. */
module Background {
  import opened ParticleStore
  import opened Motion
  import opened Connections
  import opened Render

  /** The segment of the particle array that a pass has not reached yet is what it was. */
  lemma LinksStart(ps: seq<Particle>, sqrt: real -> real, i: nat, p: Particle)
    ensures Links(ps, sqrt, i, p, i + 1) == []
  {
  }

  /** One more pass of the inner loop appends the pair test of particle i against particle j. */
  lemma LinksStep(ps: seq<Particle>, sqrt: real -> real, i: nat, p: Particle, j: nat)
    requires i < j < |ps|
    ensures Links(ps, sqrt, i, p, j + 1) == Links(ps, sqrt, i, p, j) + LinkTo(i, p, j, ps[j], sqrt)
  {
    assert LinkAt(ps, sqrt, i, p)(j) == LinkTo(i, p, j, ps[j], sqrt);
  }

  /** The body of the inner loop, lines 75-93: reject the pair (i, j) when the moved particle
      p and the particle q are more than 150 apart on either axis, and otherwise draw the line
      from p to q when their squared distance is below 22500, with opacity
      0.1 * (1 - dist / 150). */
  method PairTest(i: nat, p: Particle, j: nat, q: Particle, sqrt: real -> real) returns (line: seq<Shape>)
    ensures line == LinkTo(i, p, j, q, sqrt)
  {
    var dx := p.x - q.x;
    if dx > 150.0 || dx < -150.0 {
      return [];
    }
    var dy := p.y - q.y;
    if dy > 150.0 || dy < -150.0 {
      return [];
    }
    var distSq := dx * dx + dy * dy;
    assert distSq == DistSq(p, q);
    assert Connects(p, q) <==> distSq < 22500.0;
    line := [];
    if distSq < 22500.0 {
      var dist := sqrt(distSq);
      line := [Line(i, j, p.x, p.y, q.x, q.y, p.color, 0.1 * (1.0 - dist / 150.0))];
    }
  }

  class ParticleField {
    /** The canvas size in pixels. */
    var width: nat
    var height: nat
    /** The particles, updated in place by every frame. */
    var particles: array<Particle>
    /** The circles and lines drawn since the canvas was last cleared, in drawing order. */
    var drawn: seq<Shape>

    /** Between callbacks the array holds the population of the current canvas size, and every
        particle is roaming. */
    ghost predicate Valid()
      reads this, particles
    {
      && particles.Length == ParticleCount(width, height)
      && forall k :: 0 <= k < particles.Length ==> Roaming(particles[k], width, height)
    }

    /** The effect body of lines 7-102: size the canvas to the window, populate it and draw the
        first frame. */
    constructor Mount(innerWidth: nat, innerHeight: nat, rand: nat -> real, sqrt: real -> real)
      requires IsRandomStream(rand)
      ensures width == innerWidth && height == innerHeight
      ensures fresh(particles)
      ensures particles[..] == StepAll(Population(innerWidth, innerHeight, rand), innerWidth, innerHeight)
      ensures drawn == FrameOutput(Population(innerWidth, innerHeight, rand), innerWidth, innerHeight, sqrt)
      ensures Valid()
    {
      width, height := 0, 0;
      particles := new Particle[0];
      drawn := [];
      new;
      ResizeCanvas(innerWidth, innerHeight);
      CreateParticles(rand);
      DrawParticles(sqrt);
    }

    /** Lines 25-28. Setting a canvas's width or height clears its bitmap, so nothing remains
        drawn. */
    method ResizeCanvas(innerWidth: nat, innerHeight: nat)
      modifies this`width, this`height, this`drawn
      ensures width == innerWidth && height == innerHeight
      ensures drawn == []
    {
      width := innerWidth;
      height := innerHeight;
      drawn := [];
    }

    /** Lines 36-52: replace the particles by ParticleCount(width, height) new ones, particle k
        built from the draws 7k to 7k + 6 of rand. */
    method CreateParticles(rand: nat -> real)
      requires IsRandomStream(rand)
      modifies this`particles
      ensures fresh(particles)
      ensures particles[..] == Population(width, height, rand)
      ensures Valid()
    {
      var count := width * height / AreaPerParticle;
      var a := new Particle[count];
      var k := 0;
      while k < count
        invariant 0 <= k <= count
        invariant forall m :: 0 <= m < k ==> a[m] == Spawn(DrawsAt(rand, m), width, height)
      {
        a[k] := Spawn(DrawsAt(rand, k), width, height);
        k := k + 1;
      }
      particles := a;
      assert particles[..] == Population(width, height, rand);
      forall m | 0 <= m < particles.Length
        ensures Roaming(particles[m], width, height)
      {
        NewbornRoams(particles[m], width, height);
      }
    }

    /** Lines 54-95, one frame: clear the canvas; then for each particle i in turn, move it,
        reflect it off the edges, draw its circle, and draw a line to each later particle j that
        passes the pair test. Particle j has not moved yet when i is tested against it. */
    method DrawParticles(sqrt: real -> real)
      modifies this`drawn, particles
      ensures particles[..] == StepAll(old(particles[..]), width, height)
      ensures drawn == FrameOutput(old(particles[..]), width, height, sqrt)
      ensures old(Valid()) ==> Valid()
    {
      ghost var ps := particles[..];
      drawn := [];
      var n := particles.Length;
      for i := 0 to n
        invariant forall k :: 0 <= k < i ==> particles[k] == Step(ps[k], width, height)
        invariant forall k :: i <= k < n ==> particles[k] == ps[k]
        invariant drawn == Output(ps, width, height, sqrt, i)
      {
        VisitParticle(i, ps, sqrt);
        OutputStep(ps, width, height, sqrt, i);
      }
      assert particles[..] == StepAll(ps, width, height);
      if old(Valid()) {
        FrameKeepsRoaming(ps, width, height);
      }
    }

    /** Lines 60-94, one pass of the outer loop: move particle i, draw its circle, then its
        lines to the later particles. */
    method VisitParticle(i: nat, ghost ps: seq<Particle>, sqrt: real -> real)
      requires i < |ps| == particles.Length
      requires forall k :: i <= k < |ps| ==> particles[k] == ps[k]
      modifies this`drawn, particles
      ensures particles[i] == Step(ps[i], width, height)
      ensures forall k :: 0 <= k < particles.Length && k != i ==> particles[k] == old(particles[k])
      ensures drawn == old(drawn) + Visit(ps, width, height, sqrt, i)
    {
      MoveParticle(i);
      var p := particles[i];
      drawn := drawn + [Circle(i, p.x, p.y, p.size, p.color, p.alpha)];
      DrawLinks(i, p, ps, sqrt);
    }

    /** Lines 60-65: move particle i by its velocity, then flip each velocity component whose
        new coordinate is off the canvas. */
    method MoveParticle(i: nat)
      requires i < particles.Length
      modifies particles
      ensures particles[i] == Step(old(particles[i]), width, height)
      ensures forall k :: 0 <= k < particles.Length && k != i ==> particles[k] == old(particles[k])
    {
      particles[i] := particles[i].(x := particles[i].x + particles[i].vx);
      particles[i] := particles[i].(y := particles[i].y + particles[i].vy);
      if particles[i].x < 0.0 || particles[i].x > width as real {
        particles[i] := particles[i].(vx := -particles[i].vx);
      }
      if particles[i].y < 0.0 || particles[i].y > height as real {
        particles[i] := particles[i].(vy := -particles[i].vy);
      }
    }

    /** Lines 74-94: test particle i, now at p, against every later particle, none of which has
        moved yet in this frame, and draw the lines that pass. */
    method DrawLinks(i: nat, p: Particle, ghost ps: seq<Particle>, sqrt: real -> real)
      requires i < |ps| == particles.Length
      requires forall k :: i < k < |ps| ==> particles[k] == ps[k]
      modifies this`drawn
      ensures drawn == old(drawn) + Links(ps, sqrt, i, p, |ps|)
    {
      LinksStart(ps, sqrt, i, p);
      for j := i + 1 to particles.Length
        invariant drawn == old(drawn) + Links(ps, sqrt, i, p, j)
      {
        LinksStep(ps, sqrt, i, p, j);
        var line := PairTest(i, p, j, particles[j], sqrt);
        drawn := drawn + line;
      }
    }

    /** The resize listener of lines 104-107: resize the canvas to the window, then repopulate
        it for the new size. */
    method OnResize(innerWidth: nat, innerHeight: nat, rand: nat -> real)
      requires IsRandomStream(rand)
      modifies this`width, this`height, this`drawn, this`particles
      ensures width == innerWidth && height == innerHeight
      ensures fresh(particles)
      ensures particles[..] == Population(innerWidth, innerHeight, rand)
      ensures drawn == []
      ensures Valid()
    {
      ResizeCanvas(innerWidth, innerHeight);
      CreateParticles(rand);
    }
  }
}
