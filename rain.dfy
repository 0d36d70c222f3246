/**
  The animation driver of main.js: its own `Raindrop` and `Splash` classes
  (independent of particles.js), the umbrella hit-test, the ground levels,
  the spawning helpers, `initRain`, and the state changes of one call of
  `loop`.

  `Math.random()` is a stream: `random(k)` is the value of the k-th call,
  and `rolls` counts the calls made so far, so the model keeps the order in
  which main.js draws. The cosine and sine of a splash angle are not
  computed: `trig(roll)` gives them for the angle `getRandom(π/4, π - π/4)`
  makes from `roll`. The umbrella and the rain level, which the DOM
  handlers set between frames, are inputs of a frame.
*/
module Rain {

  import opened Reals
  import opened Seqs

  const SplashLifetime: int := 10
  const SplashesCount: nat := 5
  const RaindropsCount: seq<nat> := [100, 600, 1000, 4000]
  const MaxRaindropDepth: real := 5.0
  const CriticalRaindropsCount: nat := 5

  datatype Option<T> = None | Some(value: T)

  function Max(a: int, b: int): int {
    if a < b then b else a
  }

  // ---------------------------------------------------------------- raindrops

  /** The fields of a main.js raindrop. */
  datatype DropState = DropState(x: real, y: real, depth: real, speed: real, height: real)

  /** The y coordinate of the lower end of the drop. */
  function Bottom(d: DropState): real {
    d.y + d.height
  }

  /** `Raindrop.update`: the drop falls by its speed; nothing else changes. */
  function Fall(d: DropState): (r: DropState)
    ensures r.y - d.y == d.speed
    ensures r.x == d.x && r.depth == d.depth && r.speed == d.speed && r.height == d.height
  {
    d.(y := d.y + d.speed)
  }

  class Raindrop {
    const x: real
    var y: real
    const depth: real
    const speed: real
    const height: real

    function State(): DropState
      reads this
    {
      DropState(x, y, depth, speed, height)
    }

    /** `new Raindrop(x, y, depth, speed)`, whose height is 20 / depth. */
    constructor (x: real, y: real, depth: real, speed: real)
      requires depth != 0.0
      ensures State() == DropState(x, y, depth, speed, 20.0 / depth)
    {
      this.x := x;
      this.y := y;
      this.depth := depth;
      this.speed := speed;
      this.height := 20.0 / depth;
    }

    method Update()
      modifies this
      ensures State() == Fall(old(State()))
    {
      y := y + speed;
    }
  }

  // ---------------------------------------------------------------- splashes

  /** `(Math.cos(angle), Math.sin(angle))` for a splash angle. */
  datatype Direction = Direction(cos: real, sin: real)

  /**
    The cosine and sine of an angle in [π/4, 3π/4), the range `splash`
    draws from: a point of the unit circle with -sin < cos <= sin.
  */
  ghost predicate InSplashArc(a: Direction) {
    Square(a.cos) + Square(a.sin) == 1.0 && -a.sin < a.cos <= a.sin
  }

  /** The cosine and sine of an angle `splash` can draw. */
  type ArcDirection = a: Direction | InSplashArc(a) witness Direction(0.0, 1.0)

  /** The fields of a main.js splash; the angle is kept as its cosine and sine. */
  datatype SplashState = SplashState(x: real, y: real, angle: Direction, lifetime: int)

  /** `Splash.update`: one step along the angle, one unit of lifetime less. */
  function Drift(s: SplashState): (r: SplashState)
    ensures r.lifetime == s.lifetime - 1
    ensures r.x - s.x == s.angle.cos && s.y - r.y == s.angle.sin
    ensures r.angle == s.angle
  {
    s.(x := s.x + s.angle.cos, y := s.y - s.angle.sin, lifetime := s.lifetime - 1)
  }

  /** A splash goes up the canvas (y decreases) and sideways by at most as much. */
  lemma SplashRises(s: SplashState)
    requires InSplashArc(s.angle)
    ensures Drift(s).y < s.y
    ensures -(s.y - Drift(s).y) < Drift(s).x - s.x <= s.y - Drift(s).y
  {
  }

  /** `n` drifts. */
  function DriftTimes(s: SplashState, n: nat): SplashState {
    if n == 0 then s else Drift(DriftTimes(s, n - 1))
  }

  /** After `n` drifts the splash has moved `n` steps along its angle and lost `n` of lifetime. */
  lemma {:induction false} DriftTimesMoves(s: SplashState, n: nat)
    ensures DriftTimes(s, n).lifetime == s.lifetime - n
    ensures DriftTimes(s, n).x == s.x + (n as real) * s.angle.cos
    ensures DriftTimes(s, n).y == s.y - (n as real) * s.angle.sin
    ensures DriftTimes(s, n).angle == s.angle
  {
    if n > 0 {
      DriftTimesMoves(s, n - 1);
      assert (n as real) * s.angle.cos == ((n - 1) as real) * s.angle.cos + s.angle.cos;
      assert (n as real) * s.angle.sin == ((n - 1) as real) * s.angle.sin + s.angle.sin;
    }
  }

  class Splash {
    var x: real
    var y: real
    const angle: Direction
    var lifetime: int

    function State(): SplashState
      reads this
    {
      SplashState(x, y, angle, lifetime)
    }

    /** `new Splash(x, y, angle)`: it starts with `SPLASH_LIFETIME`. */
    constructor (x: real, y: real, angle: Direction)
      ensures State() == SplashState(x, y, angle, SplashLifetime)
    {
      this.x := x;
      this.y := y;
      this.angle := angle;
      this.lifetime := SplashLifetime;
    }

    method Update()
      modifies this
      ensures State() == Drift(old(State()))
    {
      x := x + angle.cos;
      y := y - angle.sin;
      lifetime := lifetime - 1;
    }
  }

  /**
    The number of further `update`s a splash gets when a frame starts with
    it: `loop` keeps it while its lifetime is positive, then updates it.
  */
  function UpdatesLeft(s: SplashState): nat
    decreases if s.lifetime > 0 then s.lifetime else 0
  {
    if s.lifetime > 0 then 1 + UpdatesLeft(Drift(s)) else 0
  }

  lemma {:induction false} UpdatesLeftIsLifetime(s: SplashState)
    ensures UpdatesLeft(s) == Max(s.lifetime, 0)
    decreases Max(s.lifetime, 0)
  {
    if s.lifetime > 0 {
      UpdatesLeftIsLifetime(Drift(s));
    }
  }

  /**
    A splash is created during the drops' pass, updated in the same frame,
    and then once per frame while its lifetime stays positive: it is
    updated exactly `SPLASH_LIFETIME` times in all.
  */
  lemma NewSplashIsUpdatedLifetimeTimes(x: real, y: real, angle: Direction)
    ensures 1 + UpdatesLeft(Drift(SplashState(x, y, angle, SplashLifetime))) == SplashLifetime
  {
    UpdatesLeftIsLifetime(Drift(SplashState(x, y, angle, SplashLifetime)));
  }

  // ---------------------------------------------------------------- umbrella

  datatype Umbrella = Umbrella(x: real, y: real, radius: real, height: real, isActive: bool, enabled: bool)

  /** `new Umbrella(x, y, radius)`: as tall as its radius, active and enabled. */
  function NewUmbrella(x: real, y: real, radius: real): (u: Umbrella)
    ensures u.isActive && u.enabled && u.height == u.radius == radius
    ensures u.x == x && u.y == y
  {
    Umbrella(x, y, radius, radius, true, true)
  }

  /**
    The square of the distance from the centre of the canopy,
    `(x, y - height)`, to the bottom of the drop.
  */
  function DistanceSquared(u: Umbrella, d: DropState): real {
    Square(u.x - d.x) + Square((u.y - u.height) - Bottom(d))
  }

  /**
    `touched(raindrop)`, with the square root compared through squares: a
    distance is never negative, so a negative radius is never reached.
  */
  function Touched(u: Umbrella, d: DropState): (r: bool)
    ensures r ==> u.isActive && u.enabled
    ensures u.radius < 0.0 ==> !r
  {
    u.isActive && u.enabled && u.radius >= 0.0 && DistanceSquared(u, d) <= Square(u.radius)
  }

  /**
    For `dist` the square root `touched` computes, `Touched` is false for an
    inactive or disabled umbrella and otherwise is `dist <= radius`.
  */
  lemma TouchedIsDistanceTest(u: Umbrella, d: DropState, dist: real)
    requires dist >= 0.0 && Square(dist) == DistanceSquared(u, d)
    ensures Touched(u, d) <==> u.isActive && u.enabled && dist <= u.radius
  {
    if u.radius >= 0.0 {
      SquareLess(u.radius, dist);
    }
  }

  // ---------------------------------------------------------------- ground

  /** `ground_level_at(depth, canvasHeight)`. */
  function GroundLevelAt(depth: real, canvasHeight: real): (r: real)
    ensures canvasHeight - 40.0 <= r <= canvasHeight
  {
    if 1.0 <= depth && depth < 2.5 then canvasHeight
    else if 2.5 <= depth && depth < 3.5 then canvasHeight - 20.0
    else canvasHeight - 40.0
  }

  /** Among depths from 1 up, a deeper drop never has a lower-down ground. */
  lemma GroundRisesWithDepth(d1: real, d2: real, canvasHeight: real)
    requires 1.0 <= d1 <= d2
    ensures GroundLevelAt(d2, canvasHeight) <= GroundLevelAt(d1, canvasHeight)
  {
  }

  /** A depth below 1 falls through to the last band, with the deepest drops. */
  lemma ShallowDepthGetsDeepestGround(depth: real, canvasHeight: real)
    requires depth < 1.0
    ensures GroundLevelAt(depth, canvasHeight) == GroundLevelAt(MaxRaindropDepth - 1.0, canvasHeight)
  {
  }

  // ---------------------------------------------------------------- random draws

  /** `getRandom(min, max)` for the roll `Math.random()` returned: a roll in [0, 1) gives a value in [min, max). */
  function GetRandom(min: real, max: real, roll: real): (r: real)
    ensures 0.0 <= roll < 1.0 && min < max ==> min <= r < max
  {
    ScaledRollInRange(roll, max - min);
    Product(roll, max - min) + min
  }

  /**
    The drop `spawn(maxWidth)` makes from its three rolls, in the order
    main.js draws them: x, depth, speed.
  */
  function SpawnState(maxWidth: real, r0: real, r1: real, r2: real): (d: DropState)
    requires 0.0 <= r1 < 1.0
  {
    var depth := GetRandom(1.0, MaxRaindropDepth, r1);
    DropState(Product(r0, maxWidth), -30.0, depth, GetRandom(10.0, 20.0, r2), 20.0 / depth)
  }

  /**
    What a spawned drop looks like, whatever the rolls. (Its height is also
    20 / depth, as every drop's: see the `Raindrop` constructor.)
  */
  ghost predicate SpawnShaped(d: DropState, maxWidth: real) {
    && d.y == -30.0
    && (maxWidth > 0.0 ==> 0.0 <= d.x < maxWidth)
    && 1.0 <= d.depth < MaxRaindropDepth
    && 10.0 <= d.speed < 20.0
    && 4.0 < d.height <= 20.0
  }

  lemma HeightBounds(depth: real)
    requires 1.0 <= depth < 5.0
    ensures 4.0 < 20.0 / depth <= 20.0
  {
    var h := 20.0 / depth;
    assert h * depth == 20.0;
    if h <= 4.0 {
      if h < 4.0 {
        ProductPositive(4.0 - h, depth);
      }
      assert false;
    }
    if h > 20.0 {
      ProductPositive(h - 20.0, depth);
      assert false;
    }
  }

  /**
    A spawned drop starts at y = -30, at an x in [0, maxWidth), with a depth
    in [1, 5), a speed in [10, 20) and so a height in (4, 20].
  */
  lemma SpawnRanges(maxWidth: real, r0: real, r1: real, r2: real)
    requires 0.0 <= r0 < 1.0 && 0.0 <= r1 < 1.0 && 0.0 <= r2 < 1.0
    ensures SpawnShaped(SpawnState(maxWidth, r0, r1, r2), maxWidth)
  {
    var d := SpawnState(maxWidth, r0, r1, r2);
    if maxWidth > 0.0 {
      ScaledRollInRange(r0, maxWidth);
    }
    HeightBounds(d.depth);
  }

  // ---------------------------------------------------------------- rain level

  /**
    `RAINDROPS_COUNT[rainLevel - 1]`: a level outside 1..4 indexes past the
    array and gives `undefined`.
  */
  function Target(rainLevel: int): (t: Option<nat>)
    ensures t.Some? <==> 1 <= rainLevel <= |RaindropsCount|
    ensures t.Some? ==> t.value in RaindropsCount
  {
    if 1 <= rainLevel <= |RaindropsCount| then Some(RaindropsCount[rainLevel - 1]) else None
  }

  /**
    How many drops `initRain` leaves: it never removes drops, fills a valid
    level exactly up to its target, and adds none for any other level (a
    comparison with `undefined` is false).
  */
  function FilledCount(count: nat, rainLevel: int): (n: nat)
    ensures n >= count
    ensures 1 <= rainLevel <= |RaindropsCount| ==> n >= RaindropsCount[rainLevel - 1]
    ensures n == count || (1 <= rainLevel <= |RaindropsCount| && n == RaindropsCount[rainLevel - 1])
    ensures !(1 <= rainLevel <= |RaindropsCount|) ==> n == count
  {
    match Target(rainLevel)
    case None => count
    case Some(t) => Max(count, t)
  }

  /** How many drops there are after the refill at the head of `loop`, from `kept` survivors. */
  function RefillCount(kept: nat, rainLevel: int): (n: nat)
    ensures n >= kept
  {
    if kept <= CriticalRaindropsCount then FilledCount(kept, rainLevel) else kept
  }

  // ---------------------------------------------------------------- loop tests

  /** The test of the filter at the head of `loop`: a drop stays while it is above its ground and not on the umbrella. */
  function StaysInFlight(u: Umbrella, canvasHeight: real, d: DropState): bool {
    Bottom(d) < GroundLevelAt(d.depth, canvasHeight) && !Touched(u, d)
  }

  /** The test after `update` in the drops' pass: below its ground or on the umbrella. */
  function Lands(u: Umbrella, canvasHeight: real, d: DropState): bool {
    Bottom(d) > GroundLevelAt(d.depth, canvasHeight) || Touched(u, d)
  }

  /**
    The two tests are not complements: a drop whose bottom is exactly at its
    ground and which misses the umbrella neither lands nor stays.
  */
  lemma FlightAndLandingTests(u: Umbrella, canvasHeight: real, d: DropState)
    ensures StaysInFlight(u, canvasHeight, d) <==>
      !Lands(u, canvasHeight, d) && Bottom(d) != GroundLevelAt(d.depth, canvasHeight)
  {
  }

  /**
    Such a drop makes no splash and no replacement, and the next frame's
    filter removes it.
  */
  lemma SilentLanding(u: Umbrella, canvasHeight: real, d: DropState)
    requires Bottom(d) == GroundLevelAt(d.depth, canvasHeight) && !Touched(u, d)
    ensures !Lands(u, canvasHeight, d) && !StaysInFlight(u, canvasHeight, d)
  {
  }

  /** A drop that landed on its ground is removed by the next frame's filter, whatever the umbrella does meanwhile. */
  lemma LandedDropIsRemoved(u: Umbrella, next: Umbrella, canvasHeight: real, d: DropState)
    requires Lands(u, canvasHeight, d) && !Touched(u, d)
    ensures !StaysInFlight(next, canvasHeight, d)
  {
  }

  /**
    A drop that landed on the umbrella while still above its ground is not
    removed when the umbrella is disabled before the next frame: it survives
    the filter and, unless it moves, lands again after its next fall.
  */
  lemma UmbrellaLandingCanRepeat(u: Umbrella, next: Umbrella, canvasHeight: real, d: DropState)
    requires Touched(u, d) && Bottom(d) < GroundLevelAt(d.depth, canvasHeight) && !next.enabled
    ensures Lands(u, canvasHeight, d) && StaysInFlight(next, canvasHeight, d)
  {
  }

  /** How many of the first `i` drops of `ds` land. */
  function LandedCount(u: Umbrella, canvasHeight: real, ds: seq<DropState>, i: nat): nat
    requires i <= |ds|
  {
    if i == 0 then 0
    else LandedCount(u, canvasHeight, ds, i - 1) + (if Lands(u, canvasHeight, ds[i - 1]) then 1 else 0)
  }

  /**
    Where the splashes the first `i` drops of `ds` make start: five at the
    bottom of each drop that lands, in order.
  */
  function SplashOrigins(u: Umbrella, canvasHeight: real, ds: seq<DropState>, i: nat): seq<(real, real)>
    requires i <= |ds|
  {
    if i == 0 then []
    else
      var d := ds[i - 1];
      SplashOrigins(u, canvasHeight, ds, i - 1)
        + (if Lands(u, canvasHeight, d) then seq(SplashesCount, _ => (d.x, Bottom(d))) else [])
  }

  lemma {:induction false} SplashOriginsCount(u: Umbrella, canvasHeight: real, ds: seq<DropState>, i: nat)
    requires i <= |ds|
    ensures |SplashOrigins(u, canvasHeight, ds, i)| == SplashesCount * LandedCount(u, canvasHeight, ds, i)
  {
    if i > 0 {
      SplashOriginsCount(u, canvasHeight, ds, i - 1);
    }
  }

  /** The state of the splash `splash` makes at `origin` with the drawn angle. */
  function NewSplash(origin: (real, real), angle: Direction): SplashState {
    SplashState(origin.0, origin.1, angle, SplashLifetime)
  }

  function DropStates(ds: seq<Raindrop>): (ss: seq<DropState>)
    reads ds
    ensures |ss| == |ds|
  {
    seq(|ds|, k reads ds requires 0 <= k < |ds| => ds[k].State())
  }

  /** The drops after one fall each. */
  function Falls(ds: seq<DropState>): (r: seq<DropState>)
    ensures |r| == |ds|
  {
    seq(|ds|, k requires 0 <= k < |ds| => Fall(ds[k]))
  }

  function SplashStates(ss: seq<Splash>): (r: seq<SplashState>)
    reads ss
    ensures |r| == |ss|
  {
    seq(|ss|, k reads ss requires 0 <= k < |ss| => ss[k].State())
  }

  /** The drops the filter at the head of `loop` keeps, in order. */
  function InFlight(u: Umbrella, canvasHeight: real, ds: seq<Raindrop>): (r: seq<Raindrop>)
    reads ds
    ensures |r| <= |ds|
  {
    if ds == [] then []
    else
      var head := if StaysInFlight(u, canvasHeight, ds[0].State()) then [ds[0]] else [];
      head + InFlight(u, canvasHeight, ds[1..])
  }

  lemma {:induction false} InFlightMembers(u: Umbrella, canvasHeight: real, ds: seq<Raindrop>, d: Raindrop)
    ensures d in InFlight(u, canvasHeight, ds) <==> d in ds && StaysInFlight(u, canvasHeight, d.State())
  {
    if ds != [] {
      InFlightMembers(u, canvasHeight, ds[1..], d);
      assert ds == [ds[0]] + ds[1..];
    }
  }

  lemma {:induction false} InFlightDistinct(u: Umbrella, canvasHeight: real, ds: seq<Raindrop>)
    requires Distinct(ds)
    ensures Distinct(InFlight(u, canvasHeight, ds))
  {
    if ds != [] {
      InFlightDistinct(u, canvasHeight, ds[1..]);
      InFlightMembers(u, canvasHeight, ds[1..], ds[0]);
    }
  }

  /** The splashes the filter of `loop` keeps, in order: those with lifetime left. */
  function Lasting(ss: seq<Splash>): (r: seq<Splash>)
    reads ss
    ensures |r| <= |ss|
  {
    if ss == [] then []
    else
      var head := if ss[0].lifetime > 0 then [ss[0]] else [];
      head + Lasting(ss[1..])
  }

  lemma {:induction false} LastingMembers(ss: seq<Splash>, s: Splash)
    ensures s in Lasting(ss) <==> s in ss && s.lifetime > 0
  {
    if ss != [] {
      LastingMembers(ss[1..], s);
      assert ss == [ss[0]] + ss[1..];
    }
  }

  lemma {:induction false} LastingDistinct(ss: seq<Splash>)
    requires Distinct(ss)
    ensures Distinct(Lasting(ss))
  {
    if ss != [] {
      LastingDistinct(ss[1..]);
      LastingMembers(ss[1..], ss[0]);
    }
  }

  // ---------------------------------------------------------------- the scene

  /** A value `Math.random()` returns: in [0, 1). */
  type Roll = r: real | 0.0 <= r < 1.0

  /** The state `loop` works on: the two arrays and the random stream. */
  class Scene {
    var drops: seq<Raindrop>
    var splashes: seq<Splash>
    const canvasWidth: real
    const canvasHeight: real
    const random: nat -> Roll
    const trig: Roll -> ArcDirection
    var rolls: nat

    ghost predicate Valid()
      reads this
    {
      && Distinct(drops)
      && Distinct(splashes)
    }

    /** The drop the `count`-th `spawn` from roll `from` on makes: it uses the next three rolls. */
    function SpawnedAt(maxWidth: real, from: nat, count: nat): DropState
      reads this
    {
      SpawnState(maxWidth, random(from + 3 * count), random(from + 3 * count + 1), random(from + 3 * count + 2))
    }

    constructor (canvasWidth: real, canvasHeight: real, random: nat -> Roll, trig: Roll -> ArcDirection)
      ensures Valid() && drops == [] && splashes == [] && rolls == 0
      ensures this.canvasWidth == canvasWidth && this.canvasHeight == canvasHeight
      ensures this.random == random && this.trig == trig
    {
      this.canvasWidth := canvasWidth;
      this.canvasHeight := canvasHeight;
      this.random := random;
      this.trig := trig;
      drops := [];
      splashes := [];
      rolls := 0;
    }

    /** One call of `Math.random()`. */
    method Random() returns (r: real)
      modifies this
      ensures r == random(old(rolls)) && 0.0 <= r < 1.0
      ensures rolls == old(rolls) + 1
      ensures drops == old(drops) && splashes == old(splashes)
    {
      r := random(rolls);
      rolls := rolls + 1;
    }

    /** `spawn(maxWidth)`. */
    method Spawn(maxWidth: real) returns (d: Raindrop)
      requires Valid()
      modifies this
      ensures Valid() && fresh(d)
      ensures d.State() == SpawnState(maxWidth, random(old(rolls)), random(old(rolls) + 1), random(old(rolls) + 2))
      ensures rolls == old(rolls) + 3
      ensures drops == old(drops) && splashes == old(splashes)
    {
      var r0 := Random();
      var r1 := Random();
      var depth := GetRandom(1.0, MaxRaindropDepth, r1);
      var r2 := Random();
      d := new Raindrop(Product(r0, maxWidth), -30.0, depth, GetRandom(10.0, 20.0, r2));
    }

    /** `splash(x, y)`. */
    method MakeSplash(x: real, y: real) returns (s: Splash)
      requires Valid()
      modifies this
      ensures Valid() && fresh(s)
      ensures s.State() == SplashState(x, y, trig(random(old(rolls))), SplashLifetime)
      ensures InSplashArc(s.angle)
      ensures rolls == old(rolls) + 1
      ensures drops == old(drops) && splashes == old(splashes)
    {
      var roll := Random();
      s := new Splash(x, y, trig(roll));
    }

    /** `initRain(drops, maxWidth, rainLevel)` on the scene's drops. */
    method InitRain(maxWidth: real, rainLevel: int)
      requires Valid()
      modifies this
      ensures Valid()
      ensures |drops| == FilledCount(|old(drops)|, rainLevel)
      ensures drops[..|old(drops)|] == old(drops) && splashes == old(splashes)
      ensures forall k :: |old(drops)| <= k < |drops| ==> fresh(drops[k])
      ensures forall k :: |old(drops)| <= k < |drops| ==> drops[k].State() == SpawnedAt(maxWidth, old(rolls), k - |old(drops)|)
      ensures rolls == old(rolls) + 3 * (|drops| - |old(drops)|)
    {
      var target := Target(rainLevel);
      if target.Some? {
        var i := |drops|;
        while i < target.value
          invariant Valid()
          invariant i == |drops| >= |old(drops)|
          invariant i <= Max(|old(drops)|, target.value)
          invariant drops[..|old(drops)|] == old(drops) && splashes == old(splashes)
          invariant forall k :: |old(drops)| <= k < |drops| ==> fresh(drops[k])
          invariant forall k :: |old(drops)| <= k < |drops| ==> drops[k].State() == SpawnedAt(maxWidth, old(rolls), k - |old(drops)|)
          invariant rolls == old(rolls) + 3 * (|drops| - |old(drops)|)
          decreases target.value - i
        {
          var d := Spawn(maxWidth);
          drops := drops + [d];
          i := i + 1;
        }
      }
    }

    /** The five `splash` calls for a drop that landed at `(x, y)`. */
    method SplashBurst(x: real, y: real)
      requires Valid()
      modifies this
      ensures Valid()
      ensures |splashes| == |old(splashes)| + SplashesCount
      ensures splashes[..|old(splashes)|] == old(splashes) && drops == old(drops)
      ensures forall k :: |old(splashes)| <= k < |splashes| ==>
        && fresh(splashes[k]) && splashes[k].x == x && splashes[k].y == y
        && splashes[k].lifetime == SplashLifetime && InSplashArc(splashes[k].angle)
      ensures rolls == old(rolls) + SplashesCount
    {
      var i := 0;
      while i < SplashesCount
        invariant 0 <= i <= SplashesCount
        invariant Valid()
        invariant |splashes| == |old(splashes)| + i
        invariant splashes[..|old(splashes)|] == old(splashes) && drops == old(drops)
        invariant forall k :: |old(splashes)| <= k < |splashes| ==>
          && fresh(splashes[k]) && splashes[k].x == x && splashes[k].y == y
          && splashes[k].lifetime == SplashLifetime && InSplashArc(splashes[k].angle)
        invariant rolls == old(rolls) + i
      {
        var s := MakeSplash(x, y);
        splashes := splashes + [s];
        i := i + 1;
      }
    }

    /** The filter at the head of `loop`. */
    method FilterDrops(u: Umbrella)
      requires Valid()
      modifies this
      ensures Valid()
      ensures drops == InFlight(u, canvasHeight, old(drops))
      ensures forall d :: d in drops ==> d in old(drops)
      ensures splashes == old(splashes) && rolls == old(rolls)
    {
      var kept := InFlight(u, canvasHeight, drops);
      InFlightDistinct(u, canvasHeight, drops);
      forall d | d in kept
        ensures d in drops
      {
        InFlightMembers(u, canvasHeight, drops, d);
      }
      drops := kept;
    }

    /** The splash filter of `loop`. */
    method FilterSplashes()
      requires Valid()
      modifies this
      ensures Valid()
      ensures splashes == Lasting(old(splashes))
      ensures forall k :: 0 <= k < |splashes| ==>
        exists j :: 0 <= j < |old(splashes)| && old(splashes)[j] == splashes[k]
      ensures drops == old(drops) && rolls == old(rolls)
    {
      var lasting := Lasting(splashes);
      LastingDistinct(splashes);
      forall k | 0 <= k < |lasting|
        ensures exists j :: 0 <= j < |splashes| && splashes[j] == lasting[k]
      {
        LastingMembers(splashes, lasting[k]);
        var j :| 0 <= j < |splashes| && splashes[j] == lasting[k];
      }
      splashes := lasting;
    }

    /**
      Where the drops' `forEach` of `loop` stands after the first `i` of
      the `n` drops it started with (states `start`): those have fallen,
      the others not yet.
    */
    ghost predicate FallenAt(start: seq<DropState>, n: nat, i: nat)
      reads this, drops
    {
      && i <= n == |start| <= |drops|
      && (forall k :: 0 <= k < i ==> drops[k].State() == Fall(start[k]))
      && (forall k :: i <= k < n ==> drops[k].State() == start[k])
    }

    /**
      What the first `i` drops of the pass (states after their fall:
      `fallen`) have pushed: for each that landed, five splashes and one
      new drop; `s0` is the number of splashes and `r0` the number of rolls
      when the pass began.
    */
    ghost predicate LandedAt(u: Umbrella, fallen: seq<DropState>, n: nat, i: nat, s0: nat, r0: nat)
      requires i <= |fallen|
      reads this, splashes
    {
      && Valid()
      && |drops| == n + LandedCount(u, canvasHeight, fallen, i)
      && |splashes| == s0 + |SplashOrigins(u, canvasHeight, fallen, i)|
      && (forall k :: s0 <= k < |splashes| ==>
            && (splashes[k].x, splashes[k].y) == SplashOrigins(u, canvasHeight, fallen, i)[k - s0]
            && splashes[k].lifetime == SplashLifetime && InSplashArc(splashes[k].angle))
      && rolls == r0 + (SplashesCount + 3) * LandedCount(u, canvasHeight, fallen, i)
    }

    /**
      The drop the `m`-th landing of a pass pushes, when `r0` rolls had been
      drawn as the pass began: each landing before it drew five rolls for
      its splashes and three for its `spawn`, and this one draws its five
      splash rolls first.
    */
    function ReplacementAt(r0: nat, m: nat): DropState
      reads this
    {
      SpawnedAt(canvasWidth, r0 + (SplashesCount + 3) * m + SplashesCount, 0)
    }

    /** A replacement drop has the shape every `spawn` gives. */
    lemma ReplacementShaped(r0: nat, m: nat)
      ensures SpawnShaped(ReplacementAt(r0, m), canvasWidth)
    {
      var j := r0 + (SplashesCount + 3) * m + SplashesCount;
      SpawnRanges(canvasWidth, random(j), random(j + 1), random(j + 2));
    }

    /** The drops from index `n` on are the replacements of the pass, in order. */
    ghost predicate ReplacedFrom(n: nat, r0: nat)
      reads this, drops
    {
      forall k :: n <= k < |drops| ==> drops[k].State() == ReplacementAt(r0, k - n)
    }

    /** The `e.update()` of the drops' `forEach` for the drop at index `i`. */
    method FallAt(ghost start: seq<DropState>, n: nat, i: nat, ghost r0: nat)
      requires FallenAt(start, n, i) && ReplacedFrom(n, r0) && Distinct(drops) && i < n
      modifies drops[i]
      ensures FallenAt(start, n, i + 1) && ReplacedFrom(n, r0)
    {
      drops[i].Update();
    }

    /**
      What the drops' `forEach` does for a drop that landed with its bottom
      at `(x, y)`: five `splash(x, y)` calls, then one `spawn` pushed.
    */
    method Landed(x: real, y: real)
      requires Valid()
      modifies this
      ensures Valid()
      ensures |drops| == |old(drops)| + 1 && drops[..|old(drops)|] == old(drops)
      ensures fresh(drops[|old(drops)|]) && SpawnShaped(drops[|old(drops)|].State(), canvasWidth)
      ensures drops[|old(drops)|].State() == SpawnedAt(canvasWidth, old(rolls) + SplashesCount, 0)
      ensures |splashes| == |old(splashes)| + SplashesCount && splashes[..|old(splashes)|] == old(splashes)
      ensures forall k :: |old(splashes)| <= k < |splashes| ==>
        && fresh(splashes[k]) && splashes[k].x == x && splashes[k].y == y
        && splashes[k].lifetime == SplashLifetime && InSplashArc(splashes[k].angle)
      ensures rolls == old(rolls) + SplashesCount + 3
    {
      SplashBurst(x, y);
      ghost var r := rolls;
      var d := Spawn(canvasWidth);
      SpawnRanges(canvasWidth, random(r), random(r + 1), random(r + 2));
      drops := drops + [d];
    }

    /** The drop at index `i` has just fallen and landed: five splashes at its bottom and a new drop. */
    method LandHit(u: Umbrella, ghost start: seq<DropState>, ghost fallen: seq<DropState>, n: nat, i: nat, ghost s0: nat, ghost r0: nat)
      requires FallenAt(start, n, i + 1) && i < n == |fallen|
      requires LandedAt(u, fallen, n, i, s0, r0) && ReplacedFrom(n, r0)
      requires drops[i].State() == fallen[i] && Lands(u, canvasHeight, fallen[i])
      modifies this
      ensures FallenAt(start, n, i + 1) && LandedAt(u, fallen, n, i + 1, s0, r0) && ReplacedFrom(n, r0)
      ensures |drops| == |old(drops)| + 1 && drops[..|old(drops)|] == old(drops) && fresh(drops[|old(drops)|])
      ensures |splashes| >= |old(splashes)| && splashes[..|old(splashes)|] == old(splashes)
      ensures forall k :: |old(splashes)| <= k < |splashes| ==> fresh(splashes[k])
    {
      var e := drops[i];
      Landed(e.x, e.y + e.height);
    }

    /** The drop at index `i` has just fallen and has not landed: nothing is pushed. */
    lemma LandMiss(u: Umbrella, fallen: seq<DropState>, n: nat, i: nat, s0: nat, r0: nat)
      requires i < n == |fallen| && LandedAt(u, fallen, n, i, s0, r0) && !Lands(u, canvasHeight, fallen[i])
      ensures LandedAt(u, fallen, n, i + 1, s0, r0)
    {
    }

    /** The body of the drops' `forEach` for the drop at index `i`. */
    method PassStep(u: Umbrella, ghost start: seq<DropState>, ghost fallen: seq<DropState>, n: nat, i: nat, ghost s0: nat, ghost r0: nat)
      requires FallenAt(start, n, i) && i < n == |fallen|
      requires LandedAt(u, fallen, n, i, s0, r0) && ReplacedFrom(n, r0) && fallen[i] == Fall(start[i])
      modifies this, drops[i]
      ensures FallenAt(start, n, i + 1) && LandedAt(u, fallen, n, i + 1, s0, r0) && ReplacedFrom(n, r0)
      ensures |drops| >= |old(drops)| && drops[..|old(drops)|] == old(drops)
      ensures |splashes| >= |old(splashes)| && splashes[..|old(splashes)|] == old(splashes)
      ensures forall k :: |old(drops)| <= k < |drops| ==> fresh(drops[k])
      ensures forall k :: |old(splashes)| <= k < |splashes| ==> fresh(splashes[k])
    {
      FallAt(start, n, i, r0);
      var e := drops[i];
      if e.y + e.height > GroundLevelAt(e.depth, canvasHeight) || Touched(u, e.State()) {
        LandHit(u, start, fallen, n, i, s0, r0);
      } else {
        LandMiss(u, fallen, n, i, s0, r0);
      }
    }

    /** The drops' `forEach` of `loop` over the `n` drops present when it starts, in states `start`. */
    method LandAll(u: Umbrella, ghost start: seq<DropState>, ghost fallen: seq<DropState>, n: nat, ghost s0: nat, ghost r0: nat)
      requires Valid() && n == |start| && fallen == Falls(start)
      requires FallenAt(start, n, 0) && LandedAt(u, fallen, n, 0, s0, r0) && ReplacedFrom(n, r0)
      modifies this, drops
      ensures FallenAt(start, n, n) && LandedAt(u, fallen, n, n, s0, r0) && ReplacedFrom(n, r0)
      ensures forall k :: 0 <= k < n ==> drops[k] == old(drops)[k]
      ensures forall k :: 0 <= k < s0 ==> splashes[k] == old(splashes)[k]
      ensures forall k :: n <= k < |drops| ==> fresh(drops[k])
      ensures forall k :: s0 <= k < |splashes| ==> fresh(splashes[k])
    {
      var i := 0;
      while i < n
        invariant FallenAt(start, n, i) && LandedAt(u, fallen, n, i, s0, r0) && ReplacedFrom(n, r0)
        invariant forall k :: 0 <= k < n ==> drops[k] == old(drops)[k]
        invariant forall k :: 0 <= k < s0 ==> splashes[k] == old(splashes)[k]
        invariant forall k :: n <= k < |drops| ==> fresh(drops[k])
        invariant forall k :: s0 <= k < |splashes| ==> fresh(splashes[k])
      {
        ghost var ds, ss := drops, splashes;
        PassStep(u, start, fallen, n, i, s0, r0);
        forall k | n <= k < |drops|
          ensures fresh(drops[k])
        {
          if k < |ds| {
            assert drops[k] == ds[k];
          }
        }
        forall k | s0 <= k < |splashes|
          ensures fresh(splashes[k])
        {
          if k < |ss| {
            assert splashes[k] == ss[k];
          }
        }
        i := i + 1;
      }
    }

    /**
      The drops' `forEach` of `loop`: each drop present when it starts falls
      once, in order; each that then lands (below its ground or on the
      umbrella) pushes five splashes at its bottom and one new drop. The
      drops pushed here are not visited in this pass.
    */
    method LandingPass(u: Umbrella)
      requires Valid()
      modifies this, drops
      ensures Valid()
      ensures |drops| >= |old(drops)| && drops[..|old(drops)|] == old(drops)
      ensures |splashes| >= |old(splashes)| && splashes[..|old(splashes)|] == old(splashes)
      ensures forall k :: 0 <= k < |old(drops)| ==> drops[k].State() == Fall(old(drops[k].State()))
      ensures var fallen := Falls(old(DropStates(drops)));
        && |drops| == |old(drops)| + LandedCount(u, canvasHeight, fallen, |fallen|)
        && |splashes| == |old(splashes)| + |SplashOrigins(u, canvasHeight, fallen, |fallen|)|
        && (forall k :: |old(splashes)| <= k < |splashes| ==>
              (splashes[k].x, splashes[k].y) == SplashOrigins(u, canvasHeight, fallen, |fallen|)[k - |old(splashes)|])
        && rolls == old(rolls) + (SplashesCount + 3) * LandedCount(u, canvasHeight, fallen, |fallen|)
      ensures forall k :: |old(drops)| <= k < |drops| ==>
        && fresh(drops[k]) && drops[k].State() == ReplacementAt(old(rolls), k - |old(drops)|)
        && SpawnShaped(drops[k].State(), canvasWidth)
      ensures forall k :: |old(splashes)| <= k < |splashes| ==>
        fresh(splashes[k]) && splashes[k].lifetime == SplashLifetime && InSplashArc(splashes[k].angle)
    {
      var n := |drops|;
      ghost var start := DropStates(drops);
      ghost var fallen := Falls(start);
      ghost var s0, r0 := |splashes|, rolls;
      LandAll(u, start, fallen, n, s0, r0);
      assert drops[..n] == old(drops);
      assert splashes[..s0] == old(splashes);
      forall k | n <= k < |drops|
        ensures SpawnShaped(drops[k].State(), canvasWidth)
      {
        var j := r0 + (SplashesCount + 3) * (k - n) + SplashesCount;
        SpawnRanges(canvasWidth, random(j), random(j + 1), random(j + 2));
      }
    }

    /** The splashes' `forEach` of `loop`: every splash, old or just pushed, is updated once. */
    method DriftPass()
      requires Valid()
      modifies splashes
      ensures forall k :: 0 <= k < |splashes| ==> splashes[k].State() == Drift(old(splashes[k].State()))
      ensures forall k :: 0 <= k < |drops| ==> drops[k].State() == old(drops[k].State())
    {
      var i := 0;
      while i < |splashes|
        invariant 0 <= i <= |splashes|
        invariant forall k :: 0 <= k < i ==> splashes[k].State() == Drift(old(splashes[k].State()))
        invariant forall k :: i <= k < |splashes| ==> splashes[k].State() == old(splashes[k].State())
      {
        splashes[i].Update();
        i := i + 1;
      }
    }

    /**
      The drops' part of the head of `loop`: filter the drops, then refill
      them when at most `CRITICAL_RAINDROPS_COUNT` are left.
    */
    method Refill(u: Umbrella, rainLevel: int)
      requires Valid()
      modifies this
      ensures Valid()
      ensures var kept := InFlight(u, canvasHeight, old(drops));
        && |kept| <= |drops|
        && drops[..|kept|] == kept
        && |drops| == RefillCount(|kept|, rainLevel)
        && (forall k :: |kept| <= k < |drops| ==> fresh(drops[k]))
        && (forall k :: |kept| <= k < |drops| ==>
              drops[k].State() == SpawnedAt(canvasWidth, old(rolls), k - |kept|)
              && SpawnShaped(drops[k].State(), canvasWidth))
        && rolls == old(rolls) + 3 * (|drops| - |kept|)
      ensures forall k :: 0 <= k < |drops| && !fresh(drops[k]) ==>
        exists j :: 0 <= j < |old(drops)| && old(drops)[j] == drops[k]
      ensures splashes == old(splashes)
    {
      FilterDrops(u);
      ghost var kept := drops;
      if |drops| <= CriticalRaindropsCount {
        InitRain(canvasWidth, rainLevel);
      }
      forall k | |kept| <= k < |drops|
        ensures SpawnShaped(drops[k].State(), canvasWidth)
      {
        var j := 3 * (k - |kept|);
        SpawnRanges(canvasWidth, random(old(rolls) + j), random(old(rolls) + j + 1), random(old(rolls) + j + 2));
      }
      forall k | 0 <= k < |drops| && !fresh(drops[k])
        ensures exists j :: 0 <= j < |old(drops)| && old(drops)[j] == drops[k]
      {
        assert drops[k] == kept[k] && kept[k] in old(drops);
        var j :| 0 <= j < |old(drops)| && old(drops)[j] == drops[k];
      }
    }

    /**
      The head of `loop`: filter the drops, refill them when at most
      `CRITICAL_RAINDROPS_COUNT` are left, filter the splashes.
    */
    method Refresh(u: Umbrella, rainLevel: int)
      requires Valid()
      modifies this
      ensures Valid()
      ensures var kept := InFlight(u, canvasHeight, old(drops));
        && |kept| <= |drops|
        && drops[..|kept|] == kept
        && |drops| == RefillCount(|kept|, rainLevel)
        && (forall k :: |kept| <= k < |drops| ==> fresh(drops[k]))
        && (forall k :: |kept| <= k < |drops| ==>
              drops[k].State() == SpawnedAt(canvasWidth, old(rolls), k - |kept|)
              && SpawnShaped(drops[k].State(), canvasWidth))
        && rolls == old(rolls) + 3 * (|drops| - |kept|)
      ensures forall k :: 0 <= k < |drops| && !fresh(drops[k]) ==>
        exists j :: 0 <= j < |old(drops)| && old(drops)[j] == drops[k]
      ensures splashes == Lasting(old(splashes))
      ensures forall k :: 0 <= k < |splashes| ==>
        exists j :: 0 <= j < |old(splashes)| && old(splashes)[j] == splashes[k]
    {
      Refill(u, rainLevel);
      FilterSplashes();
    }

    /**
      The rest of `loop`: every drop falls once and each that lands pushes
      five splashes at its bottom and one new drop; then every splash, old
      or new, drifts once. `start` and `splashStates` are the states of the
      drops and splashes when it begins.
    */
    method Advance(u: Umbrella, ghost kept: seq<Raindrop>, ghost start: seq<DropState>, ghost splashStates: seq<SplashState>)
      requires Valid()
      requires |kept| <= |drops| && drops[..|kept|] == kept
      requires |start| == |drops| && forall k :: 0 <= k < |drops| ==> drops[k].State() == start[k]
      requires |splashStates| == |splashes| && forall k :: 0 <= k < |splashes| ==> splashes[k].State() == splashStates[k]
      modifies this, drops, splashes
      ensures Valid()
      ensures DropsAfterPass(u, kept, start, old(rolls))
      ensures drops[..|start|] == old(drops)
      ensures forall k :: |start| <= k < |drops| ==> fresh(drops[k])
      ensures var origins := SplashOrigins(u, canvasHeight, Falls(start), |start|);
        && |splashes| == |splashStates| + |origins|
        && splashes[..|splashStates|] == old(splashes)
        && (forall k :: 0 <= k < |splashStates| ==> splashes[k].State() == Drift(splashStates[k]))
        && (forall k :: |splashStates| <= k < |splashes| ==>
              && fresh(splashes[k]) && InSplashArc(splashes[k].angle)
              && splashes[k].State() == Drift(NewSplash(origins[k - |splashStates|], splashes[k].angle)))
    {
      assert DropStates(drops) == start;
      ghost var mid := drops;
      LandingPass(u);
      ghost var before := splashes;
      forall k | 0 <= k < |splashes| && !fresh(splashes[k])
        ensures exists j :: 0 <= j < |old(splashes)| && old(splashes)[j] == splashes[k]
      {
        assert splashes[k] == before[k] && k < |old(splashes)|;
      }
      DriftPass();
      DropsAfterPassFrom(u, kept, mid, start, old(rolls));
    }

    /**
      The drops the drops' `forEach` of `loop` starts with: the `kept`
      ones, then refill drops up to `count`, made by `spawn` from roll
      `from` on.
    */
    ghost function Refreshed(kept: seq<DropState>, count: nat, from: nat): (r: seq<DropState>)
      requires |kept| <= count
      reads this
      ensures |r| == count
      ensures forall k :: 0 <= k < |kept| ==> r[k] == kept[k]
    {
      kept + seq(count - |kept|, j requires 0 <= j reads this => SpawnedAt(canvasWidth, from, j))
    }

    /** The drops are the `kept` ones followed by refill drops made from roll `from` on. */
    lemma RefreshedFrom(kept: seq<DropState>, from: nat)
      requires |kept| <= |drops|
      requires forall k :: 0 <= k < |kept| ==> drops[k].State() == kept[k]
      requires forall k :: |kept| <= k < |drops| ==> drops[k].State() == SpawnedAt(canvasWidth, from, k - |kept|)
      ensures forall k :: 0 <= k < |drops| ==> drops[k].State() == Refreshed(kept, |drops|, from)[k]
    {
      forall k | |kept| <= k < |drops|
        ensures drops[k].State() == Refreshed(kept, |drops|, from)[k]
      {
        assert Refreshed(kept, |drops|, from)[k] == SpawnedAt(canvasWidth, from, k - |kept|);
      }
    }

    /**
      The drops after the pass of `loop` that began with the drops in
      states `start`, the first of them `kept`, and `r0` rolls drawn: the
      kept drops stay first; every starting drop has fallen once; after
      them come the replacements of the drops that landed.
    */
    ghost predicate DropsAfterPass(u: Umbrella, kept: seq<Raindrop>, start: seq<DropState>, r0: nat)
      reads this, drops
    {
      && |kept| <= |start| <= |drops|
      && drops[..|kept|] == kept
      && (forall k :: 0 <= k < |start| ==> drops[k].State() == Fall(start[k]))
      && |drops| == |start| + LandedCount(u, canvasHeight, Falls(start), |start|)
      && ReplacedFrom(|start|, r0)
      && rolls == r0 + (SplashesCount + 3) * LandedCount(u, canvasHeight, Falls(start), |start|)
    }

    /**
      The drops after one frame that started with the drops `kept` (in
      states `keptStates`) surviving the filter and `from` rolls drawn:
      the pass began with them and the refill drops, and with three rolls
      drawn per refill drop.
    */
    ghost predicate DropsAfterFrame(u: Umbrella, rainLevel: int, kept: seq<Raindrop>, keptStates: seq<DropState>, from: nat)
      reads this, drops
    {
      var refilled := RefillCount(|kept|, rainLevel);
      && |keptStates| == |kept| <= refilled
      && DropsAfterPass(u, kept, Refreshed(keptStates, refilled, from), from + 3 * (refilled - |kept|))
    }

    /**
      The splashes after the same frame, which started with the splashes
      `lasting` (in states `lastingStates`) surviving their filter: those
      stay first and have drifted once; after them come five new splashes
      per landing, at the landed drop's bottom, drifted once.
    */
    ghost predicate SplashesAfterFrame(u: Umbrella, rainLevel: int, keptStates: seq<DropState>,
                                       lasting: seq<Splash>, lastingStates: seq<SplashState>, from: nat)
      reads this, splashes
    {
      var refilled := RefillCount(|keptStates|, rainLevel);
      var fallen := Falls(Refreshed(keptStates, refilled, from));
      var origins := SplashOrigins(u, canvasHeight, fallen, refilled);
      && |lastingStates| == |lasting|
      && |splashes| == |lasting| + |origins|
      && |origins| == SplashesCount * LandedCount(u, canvasHeight, fallen, refilled)
      && splashes[..|lasting|] == lasting
      && (forall k :: 0 <= k < |lasting| ==> splashes[k].State() == Drift(lastingStates[k]))
      && (forall k :: |lasting| <= k < |splashes| ==>
            && InSplashArc(splashes[k].angle)
            && splashes[k].State() == Drift(NewSplash(origins[k - |lasting|], splashes[k].angle)))
    }

    /**
      `DropsAfterPass` as `Advance` states it: the drops `mid`, in states
      `start` and the first of them `kept`, fell and landed with `r0` rolls
      drawn before.
    */
    lemma DropsAfterPassFrom(u: Umbrella, kept: seq<Raindrop>, mid: seq<Raindrop>, start: seq<DropState>, r0: nat)
      requires |kept| <= |mid| == |start| && mid[..|kept|] == kept
      requires |drops| == |start| + LandedCount(u, canvasHeight, Falls(start), |start|)
      requires drops[..|start|] == mid
      requires forall k :: 0 <= k < |start| ==> drops[k].State() == Fall(start[k])
      requires forall k :: |start| <= k < |drops| ==> drops[k].State() == ReplacementAt(r0, k - |start|)
      requires rolls == r0 + (SplashesCount + 3) * LandedCount(u, canvasHeight, Falls(start), |start|)
      ensures DropsAfterPass(u, kept, start, r0)
    {
      assert drops[..|kept|] == mid[..|mid|][..|kept|];
    }

    /**
      `DropsAfterFrame` from `DropsAfterPass` when the pass began with the
      `kept` drops and the refill drops made from roll `from` on.
    */
    lemma DropsAfterFrameFrom(u: Umbrella, rainLevel: int, kept: seq<Raindrop>, keptStates: seq<DropState>, from: nat,
                              start: seq<DropState>, r0: nat)
      requires |keptStates| == |kept| <= |start| == RefillCount(|kept|, rainLevel)
      requires start == Refreshed(keptStates, |start|, from) && r0 == from + 3 * (|start| - |kept|)
      requires DropsAfterPass(u, kept, start, r0)
      ensures DropsAfterFrame(u, rainLevel, kept, keptStates, from)
    {
      var refilled := RefillCount(|kept|, rainLevel);
      assert Refreshed(keptStates, refilled, from) == start;
      assert from + 3 * (refilled - |kept|) == r0;
    }

    /**
      `SplashesAfterFrame` from the pass after the refill: the splashes
      `lasting` drifted, and the new ones were made and drifted as
      `Advance` states.
    */
    lemma SplashesAfterFrameFrom(u: Umbrella, rainLevel: int, keptStates: seq<DropState>, from: nat,
                                 lasting: seq<Splash>, lastingStates: seq<SplashState>, start: seq<DropState>)
      requires |keptStates| <= RefillCount(|keptStates|, rainLevel) == |start|
      requires start == Refreshed(keptStates, |start|, from) && |lastingStates| == |lasting|
      requires |splashes| == |lasting| + |SplashOrigins(u, canvasHeight, Falls(start), |start|)|
      requires splashes[..|lasting|] == lasting
      requires forall k :: 0 <= k < |lasting| ==> splashes[k].State() == Drift(lastingStates[k])
      requires forall k :: |lasting| <= k < |splashes| ==>
        && InSplashArc(splashes[k].angle)
        && splashes[k].State() == Drift(NewSplash(SplashOrigins(u, canvasHeight, Falls(start), |start|)[k - |lasting|], splashes[k].angle))
      ensures SplashesAfterFrame(u, rainLevel, keptStates, lasting, lastingStates, from)
    {
      SplashOriginsCount(u, canvasHeight, Falls(start), |start|);
    }

    /**
      The head of `loop`: the drop filter and refill, then the splash filter,
      told what the filters keep (`kept` and `lasting`, in states
      `keptStates` and `lastingStates`). It leaves what `AdvanceFrame`
      starts from.
    */
    method PrepareFrame(u: Umbrella, rainLevel: int, ghost kept: seq<Raindrop>, ghost keptStates: seq<DropState>,
                        ghost lasting: seq<Splash>, ghost lastingStates: seq<SplashState>)
      requires Valid()
      requires kept == InFlight(u, canvasHeight, drops)
      requires |keptStates| == |kept| && forall k :: 0 <= k < |kept| ==> kept[k].State() == keptStates[k]
      requires lasting == Lasting(splashes)
      requires |lastingStates| == |lasting| && forall k :: 0 <= k < |lasting| ==> lasting[k].State() == lastingStates[k]
      modifies this
      ensures Valid()
      ensures |keptStates| == |kept| <= |drops| == RefillCount(|kept|, rainLevel)
      ensures drops[..|kept|] == kept
      ensures forall k :: 0 <= k < |drops| ==> drops[k].State() == Refreshed(keptStates, |drops|, old(rolls))[k]
      ensures rolls == old(rolls) + 3 * (|drops| - |kept|)
      ensures splashes == lasting && |lastingStates| == |lasting|
      ensures forall k :: 0 <= k < |lasting| ==> splashes[k].State() == lastingStates[k]
      ensures forall k :: |kept| <= k < |drops| ==> fresh(drops[k])
      ensures forall k :: 0 <= k < |drops| && !fresh(drops[k]) ==>
        exists j :: 0 <= j < |old(drops)| && old(drops)[j] == drops[k]
      ensures forall k :: 0 <= k < |splashes| ==>
        exists j :: 0 <= j < |old(splashes)| && old(splashes)[j] == splashes[k]
    {
      ghost var r0 := rolls;
      Refresh(u, rainLevel);
      assert forall k :: |kept| <= k < |drops| ==> fresh(drops[k]);
      assert forall k :: 0 <= k < |kept| ==> drops[k].State() == keptStates[k];
      RefreshedFrom(keptStates, r0);
      assert forall k :: 0 <= k < |lasting| ==> splashes[k].State() == lastingStates[k];
    }

    /**
      The part of `loop` after the refill and the splash filter: the drops
      are the `kept` ones followed by refill drops made from roll `from`
      on, and the splashes are the `lasting` ones. It leaves
      `DropsAfterFrame` and `SplashesAfterFrame`.
    */
    method AdvanceFrame(u: Umbrella, rainLevel: int, ghost kept: seq<Raindrop>, ghost keptStates: seq<DropState>,
                        ghost lasting: seq<Splash>, ghost lastingStates: seq<SplashState>, ghost from: nat)
      requires Valid()
      requires |keptStates| == |kept| <= |drops| == RefillCount(|kept|, rainLevel)
      requires drops[..|kept|] == kept
      requires forall k :: 0 <= k < |drops| ==> drops[k].State() == Refreshed(keptStates, |drops|, from)[k]
      requires rolls == from + 3 * (|drops| - |kept|)
      requires splashes == lasting && |lastingStates| == |lasting|
      requires forall k :: 0 <= k < |lasting| ==> splashes[k].State() == lastingStates[k]
      modifies this, drops, splashes
      ensures Valid()
      ensures DropsAfterFrame(u, rainLevel, kept, keptStates, from)
      ensures |old(drops)| <= |drops|
      ensures forall k :: 0 <= k < |old(drops)| ==> drops[k] == old(drops)[k]
      ensures forall k :: |old(drops)| <= k < |drops| ==> fresh(drops[k])
      ensures SplashesAfterFrame(u, rainLevel, keptStates, lasting, lastingStates, from)
      ensures forall k :: |lasting| <= k < |splashes| ==> fresh(splashes[k])
    {
      ghost var start, midRolls := Refreshed(keptStates, |drops|, from), rolls;
      Advance(u, kept, start, lastingStates);
      DropsAfterFrameFrom(u, rainLevel, kept, keptStates, from, start, midRolls);
      SplashesAfterFrameFrom(u, rainLevel, keptStates, from, lasting, lastingStates, start);
    }

    /**
      One call of `loop` without its drawing: what it leaves is
      `DropsAfterFrame` and `SplashesAfterFrame` of what its filters kept;
      every drop and splash not kept is new.
    */
    method Loop(u: Umbrella, rainLevel: int)
      requires Valid()
      modifies this, drops, splashes
      ensures Valid()
      ensures DropsAfterFrame(u, rainLevel, old(InFlight(u, canvasHeight, drops)),
                              old(DropStates(InFlight(u, canvasHeight, drops))), old(rolls))
      ensures forall k :: |old(InFlight(u, canvasHeight, drops))| <= k < |drops| ==> fresh(drops[k])
      ensures SplashesAfterFrame(u, rainLevel, old(DropStates(InFlight(u, canvasHeight, drops))),
                                 old(Lasting(splashes)), old(SplashStates(Lasting(splashes))), old(rolls))
      ensures forall k :: |old(Lasting(splashes))| <= k < |splashes| ==> fresh(splashes[k])
    {
      ghost var kept := InFlight(u, canvasHeight, drops);
      ghost var keptStates := DropStates(kept);
      ghost var lasting := Lasting(splashes);
      ghost var lastingStates := SplashStates(lasting);
      ghost var r0 := rolls;
      PrepareFrame(u, rainLevel, kept, keptStates, lasting, lastingStates);
      ghost var mid := drops;
      AdvanceFrame(u, rainLevel, kept, keptStates, lasting, lastingStates, r0);
      forall k | |kept| <= k < |drops|
        ensures fresh(drops[k])
      {
        if k < |mid| {
          assert drops[k] == mid[k];
        }
      }
    }
  }
}
