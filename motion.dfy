/** The per-particle part of a frame: move by the velocity, then reflect each velocity
    component whose updated coordinate left the canvas (src/components/AnimatedBackground.tsx,
    lines 61-65). */
module Motion {
  import opened ParticleStore

  function Abs(v: real): real {
    if v < 0.0 then -v else v
  }

  /** A coordinate outside [0, bound], the reflection test of lines 64-65. */
  predicate Outside(c: real, bound: nat) {
    c < 0.0 || c > bound as real
  }

  /** One particle's update within a frame on a width x height canvas. */
  function Step(p: Particle, width: nat, height: nat): (q: Particle)
    ensures q.x == p.x + p.vx && q.y == p.y + p.vy
    ensures (q.vx == p.vx || q.vx == -p.vx) && (q.vy == p.vy || q.vy == -p.vy)
    ensures Abs(q.vx) == Abs(p.vx) && Abs(q.vy) == Abs(p.vy)
    ensures q.vx != p.vx <==> p.vx != 0.0 && Outside(q.x, width)
    ensures q.vy != p.vy <==> p.vy != 0.0 && Outside(q.y, height)
    ensures q.size == p.size && q.color == p.color && q.alpha == p.alpha
  {
    var x := p.x + p.vx;
    var y := p.y + p.vy;
    p.(x := x, y := y,
       vx := if Outside(x, width) then -p.vx else p.vx,
       vy := if Outside(y, height) then -p.vy else p.vy)
  }

  /** The particle after k frames on a canvas whose size does not change. */
  function Frames(p: Particle, width: nat, height: nat, k: nat): Particle
    decreases k
  {
    if k == 0 then p else Step(Frames(p, width, height, k - 1), width, height)
  }

  /** Where reflection without clamping keeps one coordinate c moving with velocity v: at most
      one step beyond either edge, and when beyond an edge, heading back. */
  predicate InBand(c: real, v: real, bound: nat) {
    && -Abs(v) <= c <= bound as real + Abs(v)
    && (c < 0.0 ==> v > 0.0)
    && (c > bound as real ==> v < 0.0)
  }

  /** What stays true of a live particle from frame to frame. */
  predicate Roaming(p: Particle, width: nat, height: nat) {
    && InBand(p.x, p.vx, width)
    && InBand(p.y, p.vy, height)
    && Abs(p.vx) <= 0.15 && Abs(p.vy) <= 0.15
    && 1.0 <= p.size < 3.0
    && 0.2 <= p.alpha < 0.7
    && p.color in Palette
  }

  /** Moving and reflecting one coordinate keeps it in its band. */
  lemma ReflectKeepsBand(c: real, v: real, bound: nat)
    requires InBand(c, v, bound)
    ensures var c' := c + v;
            InBand(c', if Outside(c', bound) then -v else v, bound)
  {
    var c' := c + v;
    if c < 0.0 {
      assert 0.0 <= c' < v;
    } else if c > bound as real {
      assert bound as real - Abs(v) < c' <= bound as real;
    }
  }

  /** A particle inside the canvas is in its band on both axes. */
  lemma InsideIsInBand(c: real, v: real, bound: nat)
    requires 0.0 <= c <= bound as real
    ensures InBand(c, v, bound)
  {
  }

  /** A frame keeps every particle roaming. */
  lemma StepKeepsRoaming(p: Particle, width: nat, height: nat)
    requires Roaming(p, width, height)
    ensures Roaming(Step(p, width, height), width, height)
  {
    ReflectKeepsBand(p.x, p.vx, width);
    ReflectKeepsBand(p.y, p.vy, height);
  }

  /** A freshly created particle is roaming. */
  lemma NewbornRoams(p: Particle, width: nat, height: nat)
    requires Newborn(p, width, height)
    ensures Roaming(p, width, height)
  {
    InsideIsInBand(p.x, p.vx, width);
    InsideIsInBand(p.y, p.vy, height);
  }

  /** Velocities only change sign: after any number of frames the speeds on each axis, the size,
      the colour and the opacity are what they were. */
  lemma {:induction false} FramesKeepSpeed(p: Particle, width: nat, height: nat, k: nat)
    ensures var q := Frames(p, width, height, k);
            Abs(q.vx) == Abs(p.vx) && Abs(q.vy) == Abs(p.vy) &&
            q.size == p.size && q.color == p.color && q.alpha == p.alpha
    decreases k
  {
    if k > 0 {
      FramesKeepSpeed(p, width, height, k - 1);
    }
  }

  /** Any number of frames keeps a particle roaming. */
  lemma {:induction false} FramesKeepRoaming(p: Particle, width: nat, height: nat, k: nat)
    requires Roaming(p, width, height)
    ensures Roaming(Frames(p, width, height, k), width, height)
    decreases k
  {
    if k > 0 {
      FramesKeepRoaming(p, width, height, k - 1);
      StepKeepsRoaming(Frames(p, width, height, k - 1), width, height);
    }
  }

  /** Without clamping a particle may overshoot an edge, but never by more than its speed: one
      that starts inside the canvas stays within [-|vx|, width + |vx|] x [-|vy|, height + |vy|]. */
  lemma {:induction false} NearCanvasForever(p: Particle, width: nat, height: nat, k: nat)
    requires 0.0 <= p.x <= width as real && 0.0 <= p.y <= height as real
    ensures var q := Frames(p, width, height, k);
            -Abs(p.vx) <= q.x <= width as real + Abs(p.vx) &&
            -Abs(p.vy) <= q.y <= height as real + Abs(p.vy)
    decreases k
  {
    FramesKeepSpeed(p, width, height, k);
    InsideIsInBand(p.x, p.vx, width);
    InsideIsInBand(p.y, p.vy, height);
    BandForever(p, width, height, k);
  }

  /** The band on both axes is kept by any number of frames. */
  lemma {:induction false} BandForever(p: Particle, width: nat, height: nat, k: nat)
    requires InBand(p.x, p.vx, width) && InBand(p.y, p.vy, height)
    ensures var q := Frames(p, width, height, k);
            InBand(q.x, q.vx, width) && InBand(q.y, q.vy, height)
    decreases k
  {
    if k > 0 {
      BandForever(p, width, height, k - 1);
      var q := Frames(p, width, height, k - 1);
      ReflectKeepsBand(q.x, q.vx, width);
      ReflectKeepsBand(q.y, q.vy, height);
    }
  }

  /** Two frames near the right edge of a 100-pixel canvas: the particle overshoots to 100.05,
      its vx flips on that same frame, and the next frame brings it back to 99.95. */
  lemma ReflectionExample()
    ensures var p := Particle(99.95, 50.0, 0.1, 0.0, 1.0, Palette[0], 0.5);
            var q := Step(p, 100, 100);
            q.x == 100.05 && q.vx == -0.1 && Step(q, 100, 100).x == 99.95 && Step(q, 100, 100).vx == -0.1
  {
  }
}
