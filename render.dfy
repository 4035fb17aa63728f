/** What one frame of drawParticles draws, as a sequence of records in drawing order
    (src/components/AnimatedBackground.tsx, lines 54-98). The frame is a single pass: particle i
    is moved, its circle is drawn, and it is then tested against every later particle j, which
    has not moved yet in this frame. */
module Render {
  import opened ParticleStore
  import opened Motion
  import opened Connections

  /** A drawing record: the circle of particle i, or the line from particle i to particle j.
      The indices are positions in the particle array. */
  datatype Shape =
    | Circle(i: int, x: real, y: real, size: real, color: string, alpha: real)
    | Line(i: int, j: int, x1: real, y1: real, x2: real, y2: real, color: string, alpha: real)

  /** The circle of lines 67-70. */
  function CircleOf(i: nat, p: Particle): Shape {
    Circle(i, p.x, p.y, p.size, p.color, p.alpha)
  }

  /** The line of lines 86-92: from p to q, in p's colour, faded by distance. */
  function LineOf(i: nat, p: Particle, j: nat, q: Particle, sqrt: real -> real): Shape {
    Line(i, j, p.x, p.y, q.x, q.y, p.color, LineAlpha(sqrt(DistSq(p, q))))
  }

  /** Every particle after one frame. */
  function StepAll(ps: seq<Particle>, width: nat, height: nat): seq<Particle> {
    seq(|ps|, k requires 0 <= k < |ps| => Step(ps[k], width, height))
  }

  /** What the pair test draws for particle i (already moved, now p) against particle j. */
  function LinkTo(i: nat, p: Particle, j: nat, q: Particle, sqrt: real -> real): seq<Shape> {
    if Connects(p, q) then [LineOf(i, p, j, q, sqrt)] else []
  }

  /** The records of iterations lo, ..., hi - 1 of a loop whose iteration k draws f(k), in
      drawing order. */
  function Gather<T>(f: nat -> seq<T>, lo: nat, hi: nat): seq<T>
    decreases hi
  {
    if hi <= lo then [] else Gather(f, lo, hi - 1) + f(hi - 1)
  }

  /** A record is drawn by the iterations lo to hi - 1 exactly when one of them draws it. */
  lemma {:induction false} InGather<T>(f: nat -> seq<T>, lo: nat, hi: nat, s: T)
    ensures s in Gather(f, lo, hi) <==> exists k :: lo <= k < hi && s in f(k)
    decreases hi
  {
    if hi > lo {
      InGather(f, lo, hi - 1, s);
      assert Gather(f, lo, hi) == Gather(f, lo, hi - 1) + f(hi - 1);
    }
  }

  /** Later iterations only append: what the iterations up to k drew is not changed by those up
      to n. */
  lemma {:induction false} GatherPrefix<T>(f: nat -> seq<T>, lo: nat, k: nat, n: nat, t: nat)
    requires k <= n && t < |Gather(f, lo, k)|
    ensures t < |Gather(f, lo, n)| && Gather(f, lo, n)[t] == Gather(f, lo, k)[t]
    decreases n
  {
    if k < n {
      GatherPrefix(f, lo, k, n - 1, t);
      assert Gather(f, lo, n) == Gather(f, lo, n - 1) + f(n - 1);
    }
  }

  lemma {:induction false} GatherGrows<T>(f: nat -> seq<T>, lo: nat, k: nat, n: nat)
    requires k <= n
    ensures |Gather(f, lo, k)| <= |Gather(f, lo, n)|
    decreases n
  {
    if k < n && lo < n {
      GatherGrows(f, lo, k, n - 1);
      assert Gather(f, lo, n) == Gather(f, lo, n - 1) + f(n - 1);
    }
  }

  /** The pair test of particle i, moved to p, against each particle j of ps. */
  function LinkAt(ps: seq<Particle>, sqrt: real -> real, i: nat, p: Particle): nat -> seq<Shape> {
    (j: nat) => if j < |ps| then LinkTo(i, p, j, ps[j], sqrt) else []
  }

  /** The lines the inner loop has drawn for particle i, moved to p, once it reaches j: the pairs
      (i, j') with i < j' < j, tested against the not yet moved ps[j']. */
  function Links(ps: seq<Particle>, sqrt: real -> real, i: nat, p: Particle, j: nat): seq<Shape> {
    Gather(LinkAt(ps, sqrt, i, p), i + 1, j)
  }

  /** What one iteration of the outer loop draws for particle i. */
  function Visit(ps: seq<Particle>, width: nat, height: nat, sqrt: real -> real, i: nat): seq<Shape>
    requires i < |ps|
  {
    var p := Step(ps[i], width, height);
    [CircleOf(i, p)] + Links(ps, sqrt, i, p, |ps|)
  }

  function VisitAt(ps: seq<Particle>, width: nat, height: nat, sqrt: real -> real): nat -> seq<Shape> {
    (i: nat) => if i < |ps| then Visit(ps, width, height, sqrt, i) else []
  }

  /** What the first i iterations of the outer loop draw, given the particles ps at the start of
      the frame. */
  function Output(ps: seq<Particle>, width: nat, height: nat, sqrt: real -> real, i: nat): seq<Shape> {
    Gather(VisitAt(ps, width, height, sqrt), 0, i)
  }

  /** Everything one frame draws. With no particles nothing is drawn. */
  function FrameOutput(ps: seq<Particle>, width: nat, height: nat, sqrt: real -> real): (out: seq<Shape>)
    ensures |ps| == 0 ==> out == []
  {
    Output(ps, width, height, sqrt, |ps|)
  }

  /** The line s is the one the pair test draws from particle i, moved to p, to ps[s.j]. */
  predicate LinkMatch(ps: seq<Particle>, sqrt: real -> real, i: nat, p: Particle, s: Shape)
    requires s.Line? && 0 <= s.j < |ps|
  {
    Connects(p, ps[s.j]) && s == LineOf(i, p, s.j, ps[s.j], sqrt)
  }

  /** The inner loop draws lines from particle i to later particles only, and exactly those that
      pass the pair test. */
  lemma InLinks(ps: seq<Particle>, sqrt: real -> real, i: nat, p: Particle, j: nat, s: Shape)
    requires j <= |ps|
    ensures s in Links(ps, sqrt, i, p, j) <==>
            s.Line? && s.i == i && i < s.j < j && LinkMatch(ps, sqrt, i, p, s)
  {
    var f := LinkAt(ps, sqrt, i, p);
    InGather(f, i + 1, j, s);
    if s.Line? && s.i == i && i < s.j < j && LinkMatch(ps, sqrt, i, p, s) {
      assert s in f(s.j);
    }
    if s in Links(ps, sqrt, i, p, j) {
      var k :| i + 1 <= k < j && s in f(k);
      assert s in LinkTo(i, p, k, ps[k], sqrt);
      assert Connects(p, ps[k]) && s == LineOf(i, p, k, ps[k], sqrt);
    }
  }

  /** One more iteration of the outer loop appends the circle of particle i and its lines. */
  lemma OutputStep(ps: seq<Particle>, width: nat, height: nat, sqrt: real -> real, i: nat)
    requires i < |ps|
    ensures var p := Step(ps[i], width, height);
            Output(ps, width, height, sqrt, i + 1) ==
            Output(ps, width, height, sqrt, i) + ([CircleOf(i, p)] + Links(ps, sqrt, i, p, |ps|))
  {
    assert VisitAt(ps, width, height, sqrt)(i) == Visit(ps, width, height, sqrt, i);
  }

  /** Iteration i draws the circle of particle i at its moved position, and its lines. */
  lemma InVisit(ps: seq<Particle>, width: nat, height: nat, sqrt: real -> real, i: nat, s: Shape)
    requires i < |ps|
    ensures var p := Step(ps[i], width, height);
            s in VisitAt(ps, width, height, sqrt)(i) <==> s == CircleOf(i, p) || s in Links(ps, sqrt, i, p, |ps|)
  {
  }

  /** Iteration k starts with the circle of particle k, at the position it moved to. */
  lemma OutputCircleAt(ps: seq<Particle>, width: nat, height: nat, sqrt: real -> real, k: nat, n: nat)
    requires k < n <= |ps|
    ensures |Output(ps, width, height, sqrt, k)| < |Output(ps, width, height, sqrt, k + 1)| <= |Output(ps, width, height, sqrt, n)|
    ensures Output(ps, width, height, sqrt, n)[|Output(ps, width, height, sqrt, k)|] == CircleOf(k, Step(ps[k], width, height))
  {
    OutputStep(ps, width, height, sqrt, k);
    var f := VisitAt(ps, width, height, sqrt);
    GatherGrows(f, 0, k + 1, n);
    GatherPrefix(f, 0, k + 1, n, |Output(ps, width, height, sqrt, k)|);
  }

  /** The circles the first i iterations draw: one for each particle k < i, at its moved
      position. */
  lemma InOutputCircle(ps: seq<Particle>, width: nat, height: nat, sqrt: real -> real, i: nat, s: Shape)
    requires i <= |ps| && s.Circle?
    ensures s in Output(ps, width, height, sqrt, i) <==>
            0 <= s.i < i && s == CircleOf(s.i, Step(ps[s.i], width, height))
  {
    var f := VisitAt(ps, width, height, sqrt);
    InGather(f, 0, i, s);
    if s in Output(ps, width, height, sqrt, i) {
      var k :| 0 <= k < i && s in f(k);
      InVisit(ps, width, height, sqrt, k, s);
      InLinks(ps, sqrt, k, Step(ps[k], width, height), |ps|, s);
    } else if 0 <= s.i < i && s == CircleOf(s.i, Step(ps[s.i], width, height)) {
      InVisit(ps, width, height, sqrt, s.i, s);
    }
  }

  /** The lines the first i iterations draw: one for each pair k < j with k < i that passes the
      pair test, from k's moved position to j's position at the start of the frame. */
  lemma InOutputLine(ps: seq<Particle>, width: nat, height: nat, sqrt: real -> real, i: nat, s: Shape)
    requires i <= |ps| && s.Line?
    ensures s in Output(ps, width, height, sqrt, i) <==>
            0 <= s.i < i && s.i < s.j < |ps| &&
            LinkMatch(ps, sqrt, s.i, Step(ps[s.i], width, height), s)
  {
    var f := VisitAt(ps, width, height, sqrt);
    InGather(f, 0, i, s);
    if s in Output(ps, width, height, sqrt, i) {
      var k :| 0 <= k < i && s in f(k);
      InVisit(ps, width, height, sqrt, k, s);
      InLinks(ps, sqrt, k, Step(ps[k], width, height), |ps|, s);
    } else if 0 <= s.i < i && s.i < s.j < |ps| && LinkMatch(ps, sqrt, s.i, Step(ps[s.i], width, height), s) {
      InVisit(ps, width, height, sqrt, s.i, s);
      InLinks(ps, sqrt, s.i, Step(ps[s.i], width, height), |ps|, s);
    }
  }

  /** A frame draws the circle of every particle k at the position k moved to, each at the start
      of k's iteration, so the circles come in index order; it draws no other circle. */
  lemma FrameCircles(ps: seq<Particle>, width: nat, height: nat, sqrt: real -> real, k: nat, s: Shape)
    requires k < |ps|
    ensures var at := |Output(ps, width, height, sqrt, k)|;
            at < |Output(ps, width, height, sqrt, k + 1)| <= |FrameOutput(ps, width, height, sqrt)| &&
            FrameOutput(ps, width, height, sqrt)[at] == CircleOf(k, Step(ps[k], width, height))
    ensures s in FrameOutput(ps, width, height, sqrt) && s.Circle? <==>
            s.Circle? && 0 <= s.i < |ps| && s == CircleOf(s.i, Step(ps[s.i], width, height))
  {
    OutputCircleAt(ps, width, height, sqrt, k, |ps|);
    if s.Circle? {
      InOutputCircle(ps, width, height, sqrt, |ps|, s);
    }
  }

  /** A frame draws a line for the pair (i, j) exactly when i < j and, with i already moved and j
      not yet moved, their squared distance is below 22500; the axis rejections drop no such pair. */
  lemma FrameLines(ps: seq<Particle>, width: nat, height: nat, sqrt: real -> real, s: Shape)
    ensures s in FrameOutput(ps, width, height, sqrt) && s.Line? <==>
            s.Line? && 0 <= s.i < s.j < |ps| &&
            DistSq(Step(ps[s.i], width, height), ps[s.j]) < ReachSq &&
            s == LineOf(s.i, Step(ps[s.i], width, height), s.j, ps[s.j], sqrt)
  {
    if s.Line? {
      InOutputLine(ps, width, height, sqrt, |ps|, s);
    }
    if s.Line? && 0 <= s.i < s.j < |ps| {
      AxisChecksRedundant(Step(ps[s.i], width, height), ps[s.j]);
    }
  }

  /** Every line of a frame has opacity in (0, 0.1] and the colour of its lower-index particle. */
  lemma FrameLineStyle(ps: seq<Particle>, width: nat, height: nat, sqrt: real -> real, s: Shape)
    requires IsSqrt(sqrt)
    requires s in FrameOutput(ps, width, height, sqrt) && s.Line?
    ensures 0 <= s.i < s.j < |ps| && 0.0 < s.alpha <= 0.1 && s.color == ps[s.i].color
  {
    InOutputLine(ps, width, height, sqrt, |ps|, s);
    ConnectedAlpha(Step(ps[s.i], width, height), ps[s.j], sqrt);
  }

  /** A frame keeps the number of particles and keeps every particle roaming. */
  lemma FrameKeepsRoaming(ps: seq<Particle>, width: nat, height: nat)
    requires forall k :: 0 <= k < |ps| ==> Roaming(ps[k], width, height)
    ensures |StepAll(ps, width, height)| == |ps|
    ensures forall k :: 0 <= k < |ps| ==> Roaming(StepAll(ps, width, height)[k], width, height)
  {
    forall k | 0 <= k < |ps|
      ensures Roaming(StepAll(ps, width, height)[k], width, height)
    {
      StepKeepsRoaming(ps[k], width, height);
    }
  }
}
