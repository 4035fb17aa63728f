# Animated particle background

A Dafny model of the particle simulation behind the portfolio site's animated canvas background
(`src/components/AnimatedBackground.tsx`). The effect sizes the canvas to the window and fills it
with one particle per 25000 square pixels. Each particle gets a random position, velocity, radius,
palette colour and opacity. Every animation frame it runs one pass over the particles:

- particle `i` is moved by its velocity;
- a velocity component is flipped when the new coordinate is off the canvas;
- the particle's circle is drawn;
- particle `i` is tested against every later particle `j`, which has not moved yet in this frame,
  and a fading line is drawn between the close pairs.

A window resize re-measures the canvas and replaces the whole population.

The model has five modules:

- `ParticleStore` (`particle_store.dfy`): the particle record, the palette, the particle count
  and how one particle is built from its seven random draws. `Population` is the list of particles
  that `createParticles` pushes.
- `Motion` (`motion.dfy`): the per-particle update `Step`, its `k`-frame iterate `Frames`, and
  the invariant that reflection without clamping keeps. This invariant is `Roaming`: each
  coordinate stays within one step of the canvas, and a particle beyond an edge is heading back.
- `Connections` (`connections.dfy`): the pair test, with its axis rejections, and the line
  opacity.
- `Render` (`render.dfy`): the drawing records `Shape` and the specification of what a frame
  draws and in what order.
  - `Output(ps, w, h, sqrt, i)` is what the first `i` passes of the outer loop draw.
  - `FrameOutput` is one whole frame.
  - Both are built from `Gather`, which concatenates what each iteration `k` of a counted loop
    draws. Its membership and prefix lemmas are proved once, for any loop body.
- `Background` (`background.dfy`): the class `ParticleField`. It holds the state the effect's
  closures share: the canvas size, the particle array (updated in place) and the records drawn
  since the canvas was last cleared. It has one method per closure of the effect, each proved
  against the functions above.

Three things the program gets from its host are parameters:

- Randomness is a parameter `rand: nat -> real`. Call `t` of `Math.random()` during one population
  returns `rand(t)`.
- `Math.sqrt` is a parameter `sqrt: real -> real`. Lemmas that need its meaning require `IsSqrt`.
- The window size is a pair of parameters, `innerWidth` and `innerHeight`.

Coordinates are exact reals. The canvas size is a pair of naturals.

Three details of the code are easy to misstate, and the model follows the code in each:

- Velocity components are drawn from the half-open range `[-0.15, 0.15)`, not the closed one.
- Opacity lies in `[0.2, 0.7)`.
- Positions are not kept inside the canvas. A coordinate never leaves `[-|v|, bound + |v|]`,
  where `v` is its velocity, and this is what `Motion.NearCanvasForever` proves. No stronger
  claim holds, because a particle can overshoot an edge by up to one step and stay there until
  the next frame.

## Model

| member | source | states |
|---|---|---|
| ParticleStore.ParticleCount | src/components/AnimatedBackground.tsx:39 | The count is the floor of area / 25000: `count * 25000 <= w * h < (count + 1) * 25000`. It is zero exactly when the area is below 25000, and a positive count means both sides are positive. |
| ParticleStore.CountExamples | src/components/AnimatedBackground.tsx:39-41 | A 500 x 500 canvas holds 10 particles, a 100 x 100 canvas none. |
| ParticleStore.DrawsAt | src/components/AnimatedBackground.tsx:41-50 | Particle k consumes calls 7k to 7k + 6 of the random stream, in the order the object literal evaluates them. Each of these draws lies in [0, 1). |
| ParticleStore.Scale | src/components/AnimatedBackground.tsx:43-44 | `r * bound` lies in [0, bound], and in [0, bound) when bound > 0. |
| ParticleStore.PickColor | src/components/AnimatedBackground.tsx:48 | `colors[floor(r * 3)]` is always one of the three palette entries. No index goes out of range. |
| ParticleStore.Spawn | src/components/AnimatedBackground.tsx:42-50 | A particle built from valid draws has x in [0, width) (and in [0, width] when width is 0), likewise for y. It has vx, vy in [-0.15, 0.15), size in [1, 3), alpha in [0.2, 0.7) and a palette colour. |
| ParticleStore.Population | src/components/AnimatedBackground.tsx:36-52 | The new population has exactly ParticleCount(width, height) particles, and every one is in the newborn ranges above. |
| Motion.Step | src/components/AnimatedBackground.tsx:61-65 | The particle moves by exactly (vx, vy). Each velocity component is kept or negated, so its magnitude is kept. vx changes exactly when it is non-zero and the updated x is outside [0, width]; likewise vy against height. Size, colour and opacity do not change. |
| Motion.ReflectKeepsBand | src/components/AnimatedBackground.tsx:61-65 | Moving and reflecting one coordinate keeps the band: within one speed of [0, bound], and when beyond an edge, heading inward. |
| Motion.StepKeepsRoaming | src/components/AnimatedBackground.tsx:59-65 | A frame's update keeps a roaming particle roaming. |
| Motion.NewbornRoams | src/components/AnimatedBackground.tsx:42-50 | Every freshly created particle is roaming. |
| Motion.FramesKeepSpeed | src/components/AnimatedBackground.tsx:61-65 | After any number of frames \|vx\|, \|vy\|, size, colour and opacity are as at creation. |
| Motion.FramesKeepRoaming | src/components/AnimatedBackground.tsx:59-65 | Any number of frames keeps a particle roaming. |
| Motion.BandForever | src/components/AnimatedBackground.tsx:61-65 | The band on both axes survives any number of frames. |
| Motion.NearCanvasForever | src/components/AnimatedBackground.tsx:61-65 | A particle that starts inside the canvas has x in [-\|vx\|, width + \|vx\|] and y in [-\|vy\|, height + \|vy\|] after every number of frames. |
| Motion.ReflectionExample | src/components/AnimatedBackground.tsx:61-64 | On a 100-wide canvas, x = 99.95 with vx = 0.1 overshoots to 100.05 and flips vx on that same frame. The next frame brings it back to 99.95. |
| Connections.AxisChecksRedundant | src/components/AnimatedBackground.tsx:76-85 | The pair test (axis rejections, then the squared-distance check) accepts a pair exactly when dx² + dy² < 22500. The axis checks never reject a close pair. |
| Connections.LineAlpha | src/components/AnimatedBackground.tsx:89-90 | `0.1 * (1 - dist / 150)` lies in (0, 0.1] for 0 <= dist < 150. It is 0.1 exactly at dist 0 and 0 exactly at dist 150. |
| Connections.ConnectedAlpha | src/components/AnimatedBackground.tsx:83-90 | For a pair that passes the test, the line's opacity lies in (0, 0.1]. |
| Render.FrameOutput | src/components/AnimatedBackground.tsx:57-59 | With no particles a frame draws nothing. |
| Render.InLinks | src/components/AnimatedBackground.tsx:74-94 | The inner loop for particle i draws the line to each later j below the loop bound that passes the pair test, from i's moved position to j's position, and nothing else. |
| Render.OutputStep | src/components/AnimatedBackground.tsx:59-95 | One more pass of the outer loop appends particle i's circle and then its lines. |
| Render.OutputCircleAt | src/components/AnimatedBackground.tsx:59-70 | Pass k begins with the circle of particle k at its moved position, and later passes keep it there. |
| Render.InOutputCircle | src/components/AnimatedBackground.tsx:59-70 | The first i passes draw the circle of each particle k < i, at the position k moved to, and no other circle. |
| Render.InOutputLine | src/components/AnimatedBackground.tsx:74-93 | The first i passes draw the line of each pair k < j with k < i that passes the test, and no other line. Particle k has moved at that point and j has not. |
| Render.FrameCircles | src/components/AnimatedBackground.tsx:59-70 | A frame draws the circle of every particle k at its moved position, at the start of pass k, so circles come in index order. It draws no other circle. |
| Render.FrameLines | src/components/AnimatedBackground.tsx:74-93 | A frame draws a line for (i, j) exactly when i < j and the squared distance between moved i and not yet moved j is below 22500. |
| Render.FrameLineStyle | src/components/AnimatedBackground.tsx:85-90 | Every line drawn has i < j, opacity in (0, 0.1] and the colour of the lower-index particle i. |
| Render.FrameKeepsRoaming | src/components/AnimatedBackground.tsx:59-65 | A frame keeps the number of particles and keeps every particle roaming. |
| Background.PairTest | src/components/AnimatedBackground.tsx:75-93 | The inner loop body, with its two early rejections, draws exactly LinkTo: one line with opacity `0.1 * (1 - sqrt(distSq) / 150)` when the pair connects, nothing otherwise. It changes no particle. |
| Background.ParticleField.Mount | src/components/AnimatedBackground.tsx:100-102 | Mounting sizes the canvas to the window and creates a fresh population. It draws exactly FrameOutput of that population, leaves the particles one step on, and establishes Valid. |
| Background.ParticleField.ResizeCanvas | src/components/AnimatedBackground.tsx:25-28 | The canvas takes the window's size. Setting the size clears the canvas. |
| Background.ParticleField.CreateParticles | src/components/AnimatedBackground.tsx:36-52 | The old array is replaced by a freshly allocated one holding Population(width, height, rand). The class invariant Valid (count matches the canvas, every particle roaming) holds. |
| Background.ParticleField.DrawParticles | src/components/AnimatedBackground.tsx:54-95 | The canvas is cleared. Every particle is updated in place to Step of its old value, and exactly FrameOutput of the old particles is drawn. Valid is preserved. It needs nothing of its caller, including for an empty array. |
| Background.ParticleField.VisitParticle | src/components/AnimatedBackground.tsx:59-94 | One pass of the outer loop moves particle i, leaves every other particle alone, and appends Visit(i). |
| Background.ParticleField.MoveParticle | src/components/AnimatedBackground.tsx:60-65 | The four in-place field updates of particle i produce Step of its old value. Nothing else changes. |
| Background.ParticleField.DrawLinks | src/components/AnimatedBackground.tsx:74-94 | The inner loop appends exactly Links(i): the lines to the later particles, which have not moved. It changes only the drawing. |
| Background.ParticleField.OnResize | src/components/AnimatedBackground.tsx:104-107 | A resize sets the new size and replaces the population by a fresh one for that size, so no old particle survives. Valid holds afterwards. |

## Left out

- Frame scheduling (lines 97 and 110): `requestAnimationFrame` and `cancelAnimationFrame`. It is host-driven, so each frame is one call of `DrawParticles`, and `Motion.Frames` states what a run of frames does to a particle.
- Unmounting (lines 109-112) is not modelled. The cleanup removes `resizeCanvas`, but line 104 registered a different closure, so the resize listener is never actually detached. Listener registration belongs to the host.
- The early returns when the canvas or its 2D context is missing (lines 8-12). They depend on the host.
- Canvas calls and colour strings (lines 55, 67-70, 86-92). Drawing is a sequence of `Circle` and `Line` records holding the numbers and the palette prefix. The CSS text `color + alpha + ')'` depends on the host's number-to-string conversion. The constant line width 0.5 is not recorded.
- IEEE floating point: coordinates are exact reals. `Math.sqrt` is a parameter, and only `Render.FrameLineStyle` and `Connections.ConnectedAlpha` require it to be a square root.
- `Math.random()` is a parameter stream rather than a source of randomness, and its distribution is not modelled.
- Background.ParticleField.CreateParticles: the array is allocated at its final length and filled in order, instead of being reset to `[]` and grown by `push`. Nothing else holds the old array, so no caller can tell the difference.
- The framer-motion gradient and noise overlays (lines 115-166), which are declarative animation properties.
- The other components and pages (hero, about, skills, projects and contact sections, the two modals, the index page). They are static content, constant colour tables, a form `fetch` and JSX composition. The index page mounts a different background component, `ShaderBackground`, which is not part of this model.
