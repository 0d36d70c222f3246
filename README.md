# rain: a Dafny model

This project models the logic behind a browser rain animation. It has three modules, one for each JavaScript file of the animation's core, and two small shared ones.

- `Vectors` (`vectors.dfy`) models vector.js. `Vector2` is an immutable 2D vector with `add`, `mul`, `length` and `normalized`. Coordinates are mathematical reals. The length is handled through its square, and `IsLength(v, l)` says that `l` is the non-negative root.
- `Particles` (`particles.dfy`) models particles.js.
  - `Particle` is a class whose `Update` changes `lifetime`, `isDead` and `position` in place. The `Raindrop` and `Splash` subclasses are recorded in a `kind` field.
  - `ParticleSystem` is a class that owns the `particles` sequence. The spawn methods push onto it, `Clear` and `ClearDeadParticles` reassign it, and `Update` walks it in order.
  - The `onUpdate` callback is a pure function from the particle state it is shown to an `Effect`. An effect may mark the particle dead and may ask for particles to be spawned.
- `Rain` (`rain.dfy`) models main.js.
  - It has its own `Raindrop` and `Splash` classes, `Umbrella.touched`, `ground_level_at`, `getRandom`, `spawn`, `splash` and `initRain`.
  - `Scene` holds the drops, the splashes and the random stream. `Scene.Loop` is one call of `loop` without its drawing.
  - `Math.random()` is an injected stream `random: nat -> Roll` plus a counter `rolls`, so the model keeps the order in which main.js draws.
- `Reals` (`reals.dfy`) holds facts about squares and products. The other modules use them.
- `Seqs` (`seqs.dfy`) defines `Distinct`: no object is held twice. Both the particle system and the frame state keep their arrays that way.

Three quirks of the animation are modelled as written.
- The filter at the head of `loop` keeps a drop whose bottom is strictly above its ground (`<`). The landing test after the move fires strictly below it (`>`), or when the umbrella touches the drop. A drop that stops exactly on its ground and misses the umbrella makes no splash and no replacement, and the next filter removes it silently. `Rain.FlightAndLandingTests` and `Rain.SilentLanding` state this.
- An umbrella landing does not remove the drop by itself. A drop that hits the umbrella while still above its ground makes its splashes and its replacement but stays in the array. If the umbrella is then disabled or leaves the canvas, the next filter keeps the drop and it can land again. `Rain.UmbrellaLandingCanRepeat` states this.
- main.js splashes count their lifetime down and are dropped once it is no longer positive. particles.js particles count up towards `maxLifetime`. Both are modelled as written: `Rain.Drift` versus `Particles.Step`.

## Model

| member | source | states |
|---|---|---|
| Vectors.Vector2.Add | vector.js:34-36 | `add`: the componentwise sum, a new vector (its laws are `AddCommutes`, `AddAssociates` and `AddZeroIsIdentity`) |
| Vectors.Vector2.Mul | vector.js:43-45 | `mul`: both components multiplied by the number, a new vector (its laws are `MulOneIsIdentity`, `MulZeroIsZero` and `MulDistributes`) |
| Vectors.Vector2.LengthSquared | vector.js:17-19 | the square of `length()`, x² + y² (`LengthSquaredZeroIff` states its sign) |
| Vectors.IsLength | vector.js:17-19 | `l` is what `length()` returns: the non-negative number whose square is x² + y² (`LengthUnique` states there is only one) |
| Vectors.Vector2.Normalized | vector.js:25-27 | the vector must not be zero; scaling the normalized vector back by the length gives the original vector |
| Vectors.NormalizedHasLengthOne | vector.js:17-27 | a normalized vector has length exactly 1 |
| Vectors.LengthSquaredZeroIff | vector.js:17-19 | the squared length x² + y² is never negative and is zero exactly for the zero vector |
| Vectors.LengthZeroIff | vector.js:17-19 | the length is zero exactly for the zero vector |
| Vectors.LengthUnique | vector.js:17-19 | `length()` is well defined: two non-negative roots of x² + y² are equal |
| Vectors.AddCommutes | vector.js:34-36 | `a.add(b)` equals `b.add(a)` |
| Vectors.AddAssociates | vector.js:34-36 | `a.add(b).add(c)` equals `a.add(b.add(c))` |
| Vectors.AddZeroIsIdentity | vector.js:34-36 | adding the zero vector on either side changes nothing |
| Vectors.MulOneIsIdentity | vector.js:43-45 | `mul(1)` returns the same vector |
| Vectors.MulZeroIsZero | vector.js:43-45 | `mul(0)` returns the zero vector |
| Vectors.MulDistributes | vector.js:34-45 | `a.mul(m).add(a.mul(n))` equals `a.mul(m + n)`, which is how repeated moves add up |
| Particles.Particle.constructor | particles.js:13-20 | stores its arguments, alive, with lifetime 0 |
| Particles.Particle.Raindrop | particles.js:58-61 | a raindrop has maximum lifetime -1 and height 20 / depth, alive, with lifetime 0 |
| Particles.Particle.Splash | particles.js:80-85 | a splash has depth 0 and moves along the direction its angle gives, a unit vector in the arc it is drawn from |
| Particles.Particle.Update | particles.js:28-39 | the new state is `Step` of the old one; the callback's spawn requests are those for the aged state before the move |
| Particles.Age | particles.js:29-34 | the state the callback is shown: only the lifetime and the dead flag change, so the callback sees the position and velocity the particle had on entry; the lifetime never goes down and a dead particle stays dead; a particle other than a raindrop is dead afterwards exactly when it was dead or its new lifetime reached its maximum |
| Particles.Step | particles.js:28-39 | a raindrop's lifetime is unchanged and any other particle's grows by exactly 1; dead exactly when it was dead, or the callback marked it, or (not a raindrop) the new lifetime reached the maximum; position becomes old position + velocity; nothing else changes |
| Particles.StepNeverRevives | particles.js:28-39 | `update` never turns a dead particle back to alive |
| Particles.SplashLifecycle | particles.js:28-39 | a splash with maximum m, updated n times with a no-op callback, has lifetime n, is dead exactly when n ≥ 1 and n ≥ m, sits at origin + n·direction, and keeps depth 0 |
| Particles.RaindropNeverAges | particles.js:29-38 | a raindrop updated n times with a no-op callback keeps its lifetime and its liveness, and sits at position + n·velocity |
| Particles.Birth | particles.js:141-159 | a spawned particle starts alive with lifetime 0; it is a splash exactly when a splash was asked for, and a splash then starts at its origin with depth 0 and the requested lifetime as its maximum |
| Particles.RaindropAlongPlacement | particles.js:141-147 | a spawned raindrop has y = origin.y, x in [origin.x, origin.x + width) for a positive width, velocity (0, s) with s in [10, 20), the given depth, height 20 / depth, maximum -1, lifetime 0 and alive |
| Particles.Alive | particles.js:113 | the dead filter never lengthens the array, and every particle it keeps was in the array and is not dead |
| Particles.AliveMembers | particles.js:112-114 | a particle survives the dead filter exactly when it was in the array and is not dead |
| Particles.AliveAppend | particles.js:112-114 | the filter works piece by piece, so the survivors keep their relative order |
| Particles.AliveIdempotent | particles.js:112-114 | filtering twice is the same as filtering once |
| Particles.AliveShrinks | particles.js:112-114 | the filter never lengthens the array, and leaves the length unchanged exactly when no particle is dead |
| Particles.AliveOfDistinct | particles.js:112-114 | filtering an array without repeats gives an array without repeats |
| Particles.Spawned | particles.js:120-124 | the spawn requests of a pass over the first i particles: those of each particle's callback, shown its aged state, in array order |
| Particles.SpawnedOk | particles.js:120-124 | every spawn request a well-formed callback makes during a pass is well formed |
| Particles.QuietPassSpawnsNothing | particles.js:120-124 | a pass whose callback never asks to spawn asks for no particle at all |
| Particles.ParticleSystem.constructor | particles.js:100-102 | a new system has no particles |
| Particles.ParticleSystem.Clear | particles.js:107-109 | afterwards the collection is empty |
| Particles.ParticleSystem.ClearDeadParticles | particles.js:112-114 | the particles become the living ones of the old array, in order, still without repeats |
| Particles.ParticleSystem.SpawnRaindropAlong | particles.js:141-147 | exactly one new raindrop is appended at the end, in the state `RaindropAlongPlacement` describes; earlier entries are unchanged |
| Particles.ParticleSystem.SpawnSplashAt | particles.js:155-159 | exactly one new splash is appended at the end, with the given origin and lifetime and its drawn direction; earlier entries are unchanged |
| Particles.ParticleSystem.SpawnAll | particles.js:121-123 | a callback's spawn requests append new particles in the order requested, each in the state its request describes |
| Particles.ParticleSystem.StepAt | particles.js:122 | updates the particle at index i and only it, and returns what its callback asked to spawn |
| Particles.ParticleSystem.SpawnStep | particles.js:121-123 | appends the spawns of particle i after those of the particles before it |
| Particles.ParticleSystem.UpdateAt | particles.js:121-123 | one iteration of the `forEach`: particle i updated, its spawns appended, earlier entries unchanged |
| Particles.ParticleSystem.UpdateAll | particles.js:121-123 | after the `forEach` over the n particles present at its start, each has been updated once and the rest are the spawned particles in order |
| Particles.ParticleSystem.Update | particles.js:120-124 | each particle present at the start is updated exactly once, in array order (its new state is `Step` of its old state); the particles spawned during the pass are appended in the order requested, are fresh, and are not updated in this pass; with a callback that never spawns, the array holds the same particles afterwards |
| Rain.Fall | main.js:19-21 | the drop moves down by exactly its speed; x, depth, speed and height are unchanged |
| Rain.Raindrop.constructor | main.js:11-17 | stores its arguments, with height 20 / depth |
| Rain.Raindrop.Update | main.js:19-21 | the new state is `Fall` of the old one |
| Rain.Drift | main.js:40-45 | the lifetime drops by exactly 1, and the splash moves by (cos angle, -sin angle); the angle is unchanged |
| Rain.SplashRises | main.js:40-45 | for an angle `splash` can draw, a splash moves up, and sideways by at most as much as it moves up |
| Rain.DriftTimesMoves | main.js:40-45 | after n updates a splash has lost n of lifetime and moved n times (cos angle, -sin angle) |
| Rain.Splash.constructor | main.js:33-38 | a new splash starts with lifetime `SPLASH_LIFETIME` at the given point and angle |
| Rain.Splash.Update | main.js:40-45 | the new state is `Drift` of the old one |
| Rain.UpdatesLeft | main.js:203-228 | how many more `update`s a splash gets when a frame starts with it: one per frame while its lifetime is positive (`UpdatesLeftIsLifetime` gives the count) |
| Rain.UpdatesLeftIsLifetime | main.js:203-228 | a splash kept while its lifetime is positive and updated once per frame gets exactly max(lifetime, 0) more updates |
| Rain.NewSplashIsUpdatedLifetimeTimes | main.js:212-228 | a splash made during the drops' pass is updated exactly `SPLASH_LIFETIME` (10) times before the filter drops it |
| Rain.NewUmbrella | main.js:57-64 | a new umbrella is as tall as its radius, active and enabled |
| Rain.DistanceSquared | main.js:76 | the square of the distance `touched` computes, from the canopy centre (x, y - height) to the drop's bottom |
| Rain.Touched | main.js:70-79 | a hit needs an active and enabled umbrella; an umbrella with a negative radius hits nothing, since a distance is never negative |
| Rain.TouchedIsDistanceTest | main.js:70-79 | for the distance `touched` computes, the hit-test is false for an inactive or disabled umbrella and is otherwise `dist <= radius` |
| Rain.GroundLevelAt | main.js:143-153 | the ground is between canvasHeight - 40 and canvasHeight |
| Rain.GroundRisesWithDepth | main.js:143-153 | among depths from 1 up, a deeper drop never has a lower ground |
| Rain.ShallowDepthGetsDeepestGround | main.js:143-153 | a depth below 1 falls through to the last band, canvasHeight - 40 |
| Rain.GetRandom | main.js:108-110 | for a roll in [0, 1) and min < max, `getRandom(min, max)` lies in [min, max) |
| Rain.HeightBounds | main.js:11-17 | for a depth in [1, 5) the height 20 / depth lies in (4, 20] |
| Rain.SpawnState | main.js:116-118 | the drop `spawn` builds from its three rolls: x = roll · maxWidth, y = -30, depth `getRandom(1, 5)`, speed `getRandom(10, 20)`, height 20 / depth (`Rain.SpawnRanges` states its ranges) |
| Rain.SpawnRanges | main.js:116-118 | a spawned drop has y = -30, x in [0, maxWidth), depth in [1, 5), speed in [10, 20) and height in (4, 20] |
| Rain.Target | main.js:131-135 | `RAINDROPS_COUNT[rainLevel - 1]` exists exactly for levels 1 to 4, and is then one of the four counts |
| Rain.FilledCount | main.js:131-135 | `initRain` never lowers the count; for a level from 1 to 4 it reaches the target and stops there (the count is either unchanged or exactly the target); for any other level it adds nothing |
| Rain.RefillCount | main.js:198-202 | the refill at the head of `loop` never lowers the number of drops the filter kept |
| Rain.StaysInFlight | main.js:198 | the filter's test: the drop's bottom is strictly above its ground and the umbrella does not touch it (`Rain.FlightAndLandingTests` relates it to `Rain.Lands`) |
| Rain.Lands | main.js:215 | the landing test: the drop's bottom is strictly below its ground or the umbrella touches it |
| Rain.FlightAndLandingTests | main.js:198-215 | the filter keeps a drop exactly when the landing test fails and its bottom is not exactly on its ground |
| Rain.SilentLanding | main.js:198-215 | a drop exactly on its ground and off the umbrella neither lands nor survives the next filter |
| Rain.LandedDropIsRemoved | main.js:198-215 | a drop that landed on its ground is removed by the next frame's filter, wherever the umbrella is then |
| Rain.UmbrellaLandingCanRepeat | main.js:198-215 | a drop that landed on the umbrella above its ground survives the next filter if the umbrella is disabled meanwhile, and so can land a second time |
| Rain.LandedCount | main.js:212-220 | how many of the first i drops of a pass land |
| Rain.SplashOrigins | main.js:212-220 | where the splashes of a pass over the first i drops start: `SPLASHES_COUNT` at the bottom of each drop that lands, in order |
| Rain.SplashOriginsCount | main.js:212-220 | the drops' pass makes `SPLASHES_COUNT` splashes for each drop that lands |
| Rain.InFlight | main.js:198 | the drops' filter never lengthens the array |
| Rain.InFlightMembers | main.js:198 | a drop survives the filter exactly when it was there and passes the filter's test |
| Rain.InFlightDistinct | main.js:198 | filtering drops without repeats gives drops without repeats |
| Rain.Lasting | main.js:203 | the splashes' filter never lengthens the array |
| Rain.LastingMembers | main.js:203 | a splash survives the filter exactly when it was there and its lifetime is positive |
| Rain.LastingDistinct | main.js:203 | filtering splashes without repeats gives splashes without repeats |
| Rain.Scene.constructor | main.js:165-167 | the frame state starts with no drops, no splashes and no draws made |
| Rain.Scene.Random | main.js:109 | one `Math.random()`: the next value of the stream, in [0, 1) |
| Rain.Scene.SpawnedAt | main.js:116-118 | the drop the `count`-th `spawn` from roll `from` on makes: `SpawnState` of the three rolls after the `3 · count` before it |
| Rain.Scene.Spawn | main.js:116-118 | `spawn` draws three rolls, for x, depth and speed in that order, and makes the drop `SpawnState` describes |
| Rain.Scene.MakeSplash | main.js:120-122 | `splash` draws one roll and makes a splash at (x, y) with `SPLASH_LIFETIME` and an angle in its arc |
| Rain.Scene.InitRain | main.js:131-135 | the count becomes `FilledCount`; existing drops are unchanged and the new ones come at the end, each from the next three rolls |
| Rain.Scene.SplashBurst | main.js:216-218 | five new splashes at (x, y) are appended, each with `SPLASH_LIFETIME` and an angle in its arc |
| Rain.Scene.FilterDrops | main.js:198 | the drops become those of `InFlight`, in order |
| Rain.Scene.FilterSplashes | main.js:203 | the splashes become those with positive lifetime, in order |
| Rain.Scene.FallAt | main.js:213 | drop i falls once and no other drop changes |
| Rain.Scene.Landed | main.js:216-219 | a landing appends five splashes at (x, y), then one new drop: the one `spawn` makes from the three rolls after the five splash rolls |
| Rain.Scene.ReplacementAt | main.js:212-220 | the drop the m-th landing of a pass pushes: `spawn` of the three rolls after the five splash rolls of that landing, with eight rolls drawn per earlier landing |
| Rain.Scene.ReplacementShaped | main.js:116-118 | a replacement drop has the ranges of every spawned drop (`SpawnShaped`) |
| Rain.Scene.LandHit | main.js:215-220 | a drop that lands after its fall pushes five splashes at its bottom and one new drop, which is `ReplacementAt` of its landing |
| Rain.Scene.LandMiss | main.js:215-220 | a drop that does not land after its fall pushes nothing |
| Rain.Scene.PassStep | main.js:212-223 | one iteration of the drops' `forEach`: drop i falls; if it lands, its splashes and replacement are appended |
| Rain.Scene.LandAll | main.js:212-223 | after the drops' `forEach` over the n drops present at its start, each has fallen once and the pushes are those of the drops that landed, in order |
| Rain.Scene.LandingPass | main.js:212-223 | each existing drop falls once; each that lands appends exactly five splashes at its bottom and one new drop, the m-th of them `ReplacementAt` its landing; drops appended during the pass are not visited |
| Rain.Scene.DriftPass | main.js:225-228 | every splash, old or just pushed, is updated exactly once |
| Rain.Scene.Refill | main.js:198-202 | the drops become the filtered ones, in order, then are refilled to `RefillCount` (the level's target when at most `CRITICAL_RAINDROPS_COUNT` (5) are left); each refill drop is new and is the one `spawn` makes from the next three rolls, which are consumed |
| Rain.Scene.Refresh | main.js:198-203 | the drops are filtered and refilled as in `Refill`; the splashes become those with positive lifetime, in order |
| Rain.Scene.Refreshed | main.js:198-202 | the drop states after the refill: as many as asked for, the kept ones first and unchanged |
| Rain.Scene.RefreshedFrom | main.js:198-202 | drops that are the kept ones followed by the drops spawned from roll `from` on have exactly the states `Refreshed` lists |
| Rain.Scene.PrepareFrame | main.js:198-203 | the head of `loop`: the filters keep the given drops and splashes, the drop states become `Refreshed` of the kept ones from the current roll, the refill drops are new, and three rolls are consumed per refill drop |
| Rain.Scene.Advance | main.js:212-228 | each drop present at the start falls once and keeps its place; after them come the new drops, the m-th being `ReplacementAt` the m-th landing, and `(SPLASHES_COUNT + 3)` rolls are consumed per landing; the splashes present drift once and keep their place, and after them come five new splashes per landing, each at its landed drop's bottom, with an angle in the splash arc, drifted once |
| Rain.Scene.DropsAfterPassFrom | main.js:212-223 | the drops `Advance` leaves are those `DropsAfterPass` describes: the kept prefix first, every starting drop fallen once, then the replacements in landing order, with eight rolls per landing |
| Rain.Scene.DropsAfterFrameFrom | main.js:197-223 | a pass that began with the kept drops and the refill drops made from roll `from` on leaves the drops `DropsAfterFrame` describes |
| Rain.Scene.SplashesAfterFrameFrom | main.js:203-228 | the splashes after `Advance`, started from the filtered splashes, are those `SplashesAfterFrame` describes |
| Rain.Scene.AdvanceFrame | main.js:212-228 | from the state `PrepareFrame` leaves, the drops and splashes become those `DropsAfterFrame` and `SplashesAfterFrame` describe; everything appended is new |
| Rain.Scene.Loop | main.js:197-231 | one frame: the drops the filter kept stay first; they and the refill drops (exactly those `spawn` makes from the next rolls) have each fallen once; after them come the new drops, one per landing, each exactly the drop `spawn` makes from the rolls after its landing's splash rolls (`ReplacementAt`); the rolls consumed are three per refill drop and eight per landing; the splashes the filter kept stay first and have drifted once; after them come five new splashes per landing at the landed drop's bottom, each drifted once; every drop and splash not kept is new |

## Left out

- Drawing is not modelled: every `render` method, `ctx.clearRect`, the umbrella drawing and `requestAnimationFrame`. They are canvas I/O with no state to verify.
- The DOM wiring is not modelled: canvas sizing and the slider, checkbox and mouse handlers. The umbrella and the rain level they set are inputs of each frame (the `u` and `rainLevel` parameters of `Rain.Scene.Loop`).
- `Math.random()` is not computed. In main.js it is the injected stream `random`. In particles.js each draw is a parameter, with its range in `SpawnOk`. math.js, which defines the particles' `getRandom`, is not part of this model.
- Square roots and trigonometry are not computed.
  - `length()` is replaced by squared lengths (`IsLength`).
  - The `Math.sqrt` of `touched` is replaced by a comparison of squares; `Rain.TouchedIsDistanceTest` relates the two.
  - The cosine and sine of a splash angle are given by the injected map `trig` in main.js, and by a direction parameter in particles.js. Each carries the arc it must lie in as a type or a precondition.
- IEEE floating point is not modelled: coordinates are exact reals, with no rounding, `NaN` or `Infinity`.
- Vectors.Vector2.Normalized: takes the length as an argument that satisfies `IsLength`, instead of computing the square root.
- Particles.Particle.Raindrop: requires a non-zero depth. JavaScript would store an infinite or `NaN` height.
- Particles.ParticleSystem.SpawnRaindropAlong: requires a non-zero depth (through `SpawnOk`), for the same reason.
- Rain.Raindrop.constructor: requires a non-zero depth, for the same reason.
- Particles.Particle.Update: the callback is a pure function of the particle state it is shown. Its effects are limited to marking that particle dead and requesting spawns.
  - In JavaScript the callback pushes onto the system itself, before the particle moves. The model appends the requests right after the particle's update. The two give the same final state, because new particles are separate objects.
  - A callback that mutates other particles is not modelled.
- Particles.ParticleSystem.Update: requires a callback whose spawn requests are well formed (`CallbackOk`). This is the range of the random draws it would make.
- Rain.SpawnRanges: states the drop's height as the range (4, 20]. The exact value 20 / depth is stated by `Rain.Raindrop.constructor` and `Rain.SpawnState`.
- Rain.Scene.SplashBurst: states each new splash's angle only as lying in the splash arc. `Rain.Scene.MakeSplash` ties a single splash's angle to its roll; the members that call it repeatedly keep the arc only, to keep their proofs small.
- Rain.Scene.Landed: states the new splashes' angles only as lying in the splash arc, as `Rain.Scene.SplashBurst` does.
- Rain.Scene.LandingPass: states the new splashes' angles only as lying in the splash arc.
- Rain.Scene.Advance: states the new splashes' angles only as lying in the splash arc. Their origins and their one drift are stated exactly.
- Rain.Scene.Loop: states the new splashes' angles only as lying in the splash arc. Every other part of the frame's new state is tied to the rolls it was made from: the refill drops through `Refreshed`, and the replacement drops through `ReplacementAt`.
- The rain level is an integer. In JavaScript it is the slider's string value, which `rainLevel - 1` converts to a number.
