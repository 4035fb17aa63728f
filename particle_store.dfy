/** The particle record, the palette, and how a fresh population is drawn
    (src/components/AnimatedBackground.tsx, lines 15-23 and 30-52). */
module ParticleStore {

  /** One particle: position, velocity, radius, palette prefix and opacity. */
  datatype Particle = Particle(x: real, y: real, vx: real, vy: real, size: real, color: string, alpha: real)

  /** Canvas area, in square pixels, that one particle accounts for. */
  const AreaPerParticle: nat := 25000

  /** The palette: orange, purple, green. The opacity and the closing ")" are appended when drawing. */
  const Palette: seq<string> := ["rgba(255, 107, 0, ", "rgba(147, 51, 234, ", "rgba(34, 197, 94, "]

  /** A value that `Math.random()` can return. */
  predicate IsUnit(r: real) {
    0.0 <= r < 1.0
  }

  /** A stream of random draws: the t-th call to `Math.random()` returns rand(t). */
  ghost predicate IsRandomStream(rand: nat -> real) {
    forall t: nat :: IsUnit(rand(t))
  }

  /** The seven draws one particle consumes, in the order its object literal evaluates them. */
  datatype Draws = Draws(x: real, y: real, vx: real, vy: real, size: real, color: real, alpha: real)

  predicate ValidDraws(d: Draws) {
    IsUnit(d.x) && IsUnit(d.y) && IsUnit(d.vx) && IsUnit(d.vy) &&
    IsUnit(d.size) && IsUnit(d.color) && IsUnit(d.alpha)
  }

  /** The draws of the k-th particle pushed: calls 7k to 7k+6 of the stream. */
  function DrawsAt(rand: nat -> real, k: nat): (d: Draws)
    ensures IsRandomStream(rand) ==> ValidDraws(d)
  {
    Draws(rand(7 * k), rand(7 * k + 1), rand(7 * k + 2), rand(7 * k + 3),
          rand(7 * k + 4), rand(7 * k + 5), rand(7 * k + 6))
  }

  /** How many particles a width x height canvas holds: Math.floor(width * height / 25000). */
  function ParticleCount(width: nat, height: nat): (count: nat)
    ensures count * AreaPerParticle <= width * height < (count + 1) * AreaPerParticle
    ensures count == 0 <==> width * height < AreaPerParticle
    ensures count > 0 ==> width > 0 && height > 0
  {
    width * height / AreaPerParticle
  }

  /** The ranges every freshly created particle lies in. */
  predicate Newborn(p: Particle, width: nat, height: nat) {
    && 0.0 <= p.x < width as real
    && 0.0 <= p.y < height as real
    && -0.15 <= p.vx < 0.15
    && -0.15 <= p.vy < 0.15
    && 1.0 <= p.size < 3.0
    && 0.2 <= p.alpha < 0.7
    && p.color in Palette
  }

  lemma PositiveProduct(a: real, b: real)
    requires a > 0.0 && b > 0.0
    ensures a * b > 0.0
  {
  }

  lemma NonNegativeProduct(a: real, b: real)
    requires a >= 0.0 && b >= 0.0
    ensures a * b >= 0.0
  {
  }

  /** A draw scaled to [0, bound): Math.random() * bound. */
  function Scale(r: real, bound: nat): (v: real)
    requires IsUnit(r)
    ensures 0.0 <= v <= bound as real
    ensures bound > 0 ==> v < bound as real
  {
    var b := bound as real;
    NonNegativeProduct(r, b);
    NonNegativeProduct(1.0 - r, b);
    if bound > 0 then PositiveProduct(1.0 - r, b); r * b else r * b
  }

  /** The palette entry picked by one draw: colors[Math.floor(r * colors.length)]. */
  function PickColor(r: real): (c: string)
    requires IsUnit(r)
    ensures c in Palette
  {
    var k := (r * (|Palette| as real)).Floor;
    Palette[k]
  }

  /** The object literal of lines 42-50, built from its seven draws. */
  function Spawn(d: Draws, width: nat, height: nat): (p: Particle)
    requires ValidDraws(d)
    ensures 0.0 <= p.x <= width as real && (width > 0 ==> p.x < width as real)
    ensures 0.0 <= p.y <= height as real && (height > 0 ==> p.y < height as real)
    ensures -0.15 <= p.vx < 0.15 && -0.15 <= p.vy < 0.15
    ensures 1.0 <= p.size < 3.0
    ensures 0.2 <= p.alpha < 0.7
    ensures p.color in Palette
  {
    Particle(
      Scale(d.x, width),
      Scale(d.y, height),
      (d.vx - 0.5) * 0.3,
      (d.vy - 0.5) * 0.3,
      d.size * 2.0 + 1.0,
      PickColor(d.color),
      d.alpha * 0.5 + 0.2)
  }

  /** The particles createParticles pushes on a width x height canvas, in push order. */
  function Population(width: nat, height: nat, rand: nat -> real): (ps: seq<Particle>)
    requires IsRandomStream(rand)
    ensures |ps| == ParticleCount(width, height)
    ensures forall k :: 0 <= k < |ps| ==> Newborn(ps[k], width, height)
  {
    seq(ParticleCount(width, height), k requires 0 <= k => Spawn(DrawsAt(rand, k), width, height))
  }

  /** The counts of two canvas sizes: 500 x 500 holds ten particles, 100 x 100 none. */
  lemma CountExamples()
    ensures ParticleCount(500, 500) == 10
    ensures ParticleCount(100, 100) == 0
  {
  }
}
