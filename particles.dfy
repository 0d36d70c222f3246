/**
  The particle system of particles.js.

  A `Particle` is an object whose `update` changes its `lifetime`, `isDead`
  and `position` in place; a `ParticleSystem` owns the array of particles,
  which the spawn methods push onto, `clear` and `clearDeadParticles`
  reassign, and `update` walks in order.

  The subclasses `Raindrop` and `Splash` differ from a plain `Particle` only
  in their constructors and in the `instanceof Raindrop` test of `update`,
  so the model keeps one class and records the subclass in `kind`.

  The random draws (`Math.random()` and `getRandom` of math.js) and the
  cosine and sine of a splash angle are parameters. The `onUpdate`
  callback is a pure function of the particle's state at the moment it is
  called; what it does is summed up as an `Effect`: it may mark the
  particle dead and may ask the system to spawn particles.
*/
module Particles {

  import opened Reals
  import opened Seqs
  import opened Vectors

  /** Which constructor made the particle; a raindrop keeps its height. */
  datatype Kind = Plain | Raindrop(height: real) | Splash

  /** All the fields of a particle, as a value. */
  datatype ParticleState = ParticleState(
    position: Vector2,
    depth: real,
    velocity: Vector2,
    isDead: bool,
    maxLifetime: int,
    lifetime: int,
    kind: Kind)

  /**
    A particle the callback asks the system to create, with the random
    draws already made: `offsetRoll` is the `Math.random()` of
    `spawnRaindropAlong` and `speed` its `getRandom(10, 20)`; `direction`
    is `(cos angle, -sin angle)` for the angle a splash draws.
  */
  datatype Spawn =
    | RaindropAlong(origin: Vector2, width: real, depth: real, offsetRoll: real, speed: real)
    | SplashAt(origin: Vector2, lifetime: int, direction: Vector2)

  /** What one call of the callback does to its particle and its system. */
  datatype Effect = Effect(markDead: bool, spawns: seq<Spawn>)

  /** The callback that does nothing. */
  function NoEffect(s: ParticleState): Effect {
    Effect(false, [])
  }

  /**
    `(cos a, -sin a)` for an angle a in [π/4, π + π/4]: a unit vector, and
    cos a - sin a == √2·cos(a + π/4) is never positive on that arc.
  */
  ghost predicate InSplashArc(direction: Vector2) {
    IsLength(direction, 1.0) && direction.x + direction.y <= 0.0
  }

  /** The ranges the random draws of a spawn fall in; a raindrop's height divides by its depth. */
  ghost predicate SpawnOk(r: Spawn) {
    match r
    case RaindropAlong(_, _, depth, offsetRoll, speed) =>
      depth != 0.0 && 0.0 <= offsetRoll < 1.0 && 10.0 <= speed < 20.0
    case SplashAt(_, _, direction) =>
      InSplashArc(direction)
  }

  ghost predicate SpawnsOk(rs: seq<Spawn>) {
    forall k :: 0 <= k < |rs| ==> SpawnOk(rs[k])
  }

  /** A callback whose every spawn request is well formed, whatever particle it sees. */
  ghost predicate CallbackOk(onUpdate: ParticleState -> Effect) {
    forall s: ParticleState :: SpawnsOk(onUpdate(s).spawns)
  }

  /** The state of the particle that `spawnRaindropAlong` or `spawnSplashAt` creates. */
  function Birth(r: Spawn): (s: ParticleState)
    requires SpawnOk(r)
    ensures !s.isDead && s.lifetime == 0
    ensures s.kind.Splash? <==> r.SplashAt?
    ensures r.SplashAt? ==> s.position == r.origin && s.depth == 0.0 && s.maxLifetime == r.lifetime
  {
    match r
    case RaindropAlong(origin, width, depth, offsetRoll, speed) =>
      ParticleState(origin.Add(Vector2(Product(offsetRoll, width), 0.0)), depth, Vector2(0.0, speed),
                    false, -1, 0, Raindrop(20.0 / depth))
    case SplashAt(origin, lifetime, direction) =>
      ParticleState(origin, 0.0, direction, false, lifetime, 0, Splash)
  }

  /**
    A raindrop spawned along a segment starts on the segment, inside
    [origin.x, origin.x + width) when the width is positive, falls straight
    down at a speed in [10, 20), has not aged and is alive.
  */
  lemma RaindropAlongPlacement(origin: Vector2, width: real, depth: real, offsetRoll: real, speed: real)
    requires SpawnOk(RaindropAlong(origin, width, depth, offsetRoll, speed))
    ensures var s := Birth(RaindropAlong(origin, width, depth, offsetRoll, speed));
      && s.position.y == origin.y
      && (width > 0.0 ==> origin.x <= s.position.x < origin.x + width)
      && s.velocity.x == 0.0 && 10.0 <= s.velocity.y < 20.0
      && s.depth == depth && s.kind == Raindrop(20.0 / depth)
      && s.maxLifetime == -1 && s.lifetime == 0 && !s.isDead
  {
    var s := Birth(RaindropAlong(origin, width, depth, offsetRoll, speed));
    assert s.position.x == origin.x + Product(offsetRoll, width);
    if width > 0.0 {
      ScaledRollInRange(offsetRoll, width);
    }
  }

  /**
    The age check at the head of `update`: everything but a raindrop grows
    one step older and dies once its lifetime reaches its maximum. This is
    the state the callback sees.
  */
  function Age(s: ParticleState): (r: ParticleState)
    ensures r.(lifetime := s.lifetime, isDead := s.isDead) == s
    ensures r.lifetime >= s.lifetime && (s.isDead ==> r.isDead)
    ensures !s.kind.Raindrop? ==> (r.isDead <==> s.isDead || r.lifetime >= s.maxLifetime)
  {
    if s.kind.Raindrop? then s
    else
      var older := s.lifetime + 1;
      s.(lifetime := older, isDead := s.isDead || older >= s.maxLifetime)
  }

  /** One `update`: age check, then the callback, then the move by the velocity. */
  function Step(s: ParticleState, onUpdate: ParticleState -> Effect): (r: ParticleState)
    ensures r.lifetime == if s.kind.Raindrop? then s.lifetime else s.lifetime + 1
    ensures r.isDead <==>
      || s.isDead
      || onUpdate(Age(s)).markDead
      || (!s.kind.Raindrop? && s.lifetime + 1 >= s.maxLifetime)
    ensures r.position == s.position.Add(s.velocity)
    ensures r.velocity == s.velocity && r.depth == s.depth
    ensures r.maxLifetime == s.maxLifetime && r.kind == s.kind
  {
    var seen := Age(s);
    var marked := if onUpdate(seen).markDead then seen.(isDead := true) else seen;
    marked.(position := marked.position.Add(marked.velocity))
  }

  /** `update` never brings a dead particle back. */
  lemma StepNeverRevives(s: ParticleState, onUpdate: ParticleState -> Effect)
    requires s.isDead
    ensures Step(s, onUpdate).isDead
  {
  }

  /** `n` updates with a callback that does nothing. */
  function Run(s: ParticleState, n: nat): ParticleState {
    if n == 0 then s else Step(Run(s, n - 1), NoEffect)
  }

  /**
    A splash made with maximum lifetime `m` and updated `n` times by a
    callback that does nothing has lived `n` steps, is dead exactly when
    `n >= 1` and `n >= m`, has moved `n` times its direction, and keeps
    depth 0.
  */
  lemma {:induction false} SplashLifecycle(origin: Vector2, m: int, direction: Vector2, n: nat)
    requires InSplashArc(direction)
    ensures var s := Run(Birth(SplashAt(origin, m, direction)), n);
      && s.lifetime == n
      && (s.isDead <==> n >= 1 && n >= m)
      && s.position == origin.Add(direction.Mul(n as real))
      && s.velocity == direction && s.depth == 0.0 && s.kind == Splash && s.maxLifetime == m
  {
    if n == 0 {
      assert direction.Mul(0.0) == Zero();
    } else {
      SplashLifecycle(origin, m, direction, n - 1);
      var before := Run(Birth(SplashAt(origin, m, direction)), n - 1);
      var after := Run(Birth(SplashAt(origin, m, direction)), n);
      assert after == Step(before, NoEffect);
      var quiet: ParticleState -> Effect := NoEffect;
      assert !quiet(Age(before)).markDead;
      assert after.isDead <==> before.isDead || before.lifetime + 1 >= m;
      MulDistributes(direction, (n - 1) as real, 1.0);
      assert ((n - 1) as real) + 1.0 == n as real;
      assert direction.Mul(1.0) == direction;
      assert after.position == origin.Add(direction.Mul((n - 1) as real)).Add(direction);
    }
  }

  /**
    A raindrop updated `n` times by a callback that does nothing never ages,
    never dies on its own, and has moved `n` times its velocity.
  */
  lemma {:induction false} RaindropNeverAges(s: ParticleState, n: nat)
    requires s.kind.Raindrop?
    ensures var r := Run(s, n);
      && r.lifetime == s.lifetime
      && r.isDead == s.isDead
      && r.position == s.position.Add(s.velocity.Mul(n as real))
      && r.velocity == s.velocity && r.kind == s.kind
  {
    if n == 0 {
      assert s.velocity.Mul(0.0) == Zero();
    } else {
      RaindropNeverAges(s, n - 1);
      assert NoEffect(Age(Run(s, n - 1))).markDead == false;
      MulDistributes(s.velocity, (n - 1) as real, 1.0);
      assert s.velocity.Mul(1.0) == s.velocity;
    }
  }

  class Particle {
    var position: Vector2
    const depth: real
    const velocity: Vector2
    var isDead: bool
    const maxLifetime: int
    var lifetime: int
    const kind: Kind

    function State(): ParticleState
      reads this
    {
      ParticleState(position, depth, velocity, isDead, maxLifetime, lifetime, kind)
    }

    /** `new Particle(position, depth, velocity, maxLifetime)`: alive and not yet aged. */
    constructor (position: Vector2, depth: real, velocity: Vector2, maxLifetime: int)
      ensures State() == ParticleState(position, depth, velocity, false, maxLifetime, 0, Plain)
    {
      this.position := position;
      this.depth := depth;
      this.velocity := velocity;
      this.isDead := false;
      this.maxLifetime := maxLifetime;
      this.lifetime := 0;
      this.kind := Plain;
    }

    /** `new Raindrop(position, depth, velocity)`: maximum lifetime -1, height 20 / depth. */
    constructor Raindrop(position: Vector2, depth: real, velocity: Vector2)
      requires depth != 0.0
      ensures State() == ParticleState(position, depth, velocity, false, -1, 0, Kind.Raindrop(20.0 / depth))
    {
      this.position := position;
      this.depth := depth;
      this.velocity := velocity;
      this.isDead := false;
      this.maxLifetime := -1;
      this.lifetime := 0;
      this.kind := Kind.Raindrop(20.0 / depth);
    }

    /**
      `new Splash(position, maxLifetime)`: depth 0, moving along the
      direction drawn for it.
    */
    constructor Splash(position: Vector2, maxLifetime: int, direction: Vector2)
      requires InSplashArc(direction)
      ensures State() == ParticleState(position, 0.0, direction, false, maxLifetime, 0, Kind.Splash)
    {
      this.position := position;
      this.depth := 0.0;
      this.velocity := direction;
      this.isDead := false;
      this.maxLifetime := maxLifetime;
      this.lifetime := 0;
      this.kind := Kind.Splash;
    }

    /**
      `update(onUpdate)`. Returns the particles the callback asked for, which
      the system appends.
    */
    method Update(onUpdate: ParticleState -> Effect) returns (spawns: seq<Spawn>)
      modifies this
      ensures State() == Step(old(State()), onUpdate)
      ensures spawns == onUpdate(Age(old(State()))).spawns
    {
      if !kind.Raindrop? {
        lifetime := lifetime + 1;
        if lifetime >= maxLifetime {
          isDead := true;
        }
      }
      var effect := onUpdate(State());
      if effect.markDead {
        isDead := true;
      }
      spawns := effect.spawns;
      position := position.Add(velocity);
    }
  }

  /** The states of a sequence of particles, in order. */
  function States(ps: seq<Particle>): (ss: seq<ParticleState>)
    reads ps
    ensures |ss| == |ps|
  {
    seq(|ps|, k reads ps requires 0 <= k < |ps| => ps[k].State())
  }

  /** The living particles, in their original order (the `filter` of `clearDeadParticles`). */
  function Alive(ps: seq<Particle>): (r: seq<Particle>)
    reads ps
    ensures |r| <= |ps|
    ensures forall k :: 0 <= k < |r| ==> r[k] in ps && !r[k].isDead
  {
    if ps == [] then []
    else (if ps[0].isDead then [] else [ps[0]]) + Alive(ps[1..])
  }

  /** A particle survives the filter exactly when it was there and is alive. */
  lemma {:induction false} AliveMembers(ps: seq<Particle>, p: Particle)
    ensures p in Alive(ps) <==> p in ps && !p.isDead
  {
    if ps != [] {
      AliveMembers(ps[1..], p);
      assert ps == [ps[0]] + ps[1..];
    }
  }

  /** The filter works piece by piece, so the survivors keep their order. */
  lemma {:induction false} AliveAppend(a: seq<Particle>, b: seq<Particle>)
    ensures Alive(a + b) == Alive(a) + Alive(b)
  {
    if a == [] {
      assert a + b == b;
    } else {
      assert (a + b)[1..] == a[1..] + b;
      AliveAppend(a[1..], b);
    }
  }

  /** Filtering twice is filtering once. */
  lemma {:induction false} AliveIdempotent(ps: seq<Particle>)
    ensures Alive(Alive(ps)) == Alive(ps)
  {
    if ps != [] {
      AliveIdempotent(ps[1..]);
      var head := if ps[0].isDead then [] else [ps[0]];
      AliveAppend(head, Alive(ps[1..]));
    }
  }

  /** The filter never adds particles. */
  lemma {:induction false} AliveShrinks(ps: seq<Particle>)
    ensures |Alive(ps)| <= |ps|
    ensures |Alive(ps)| == |ps| <==> forall k :: 0 <= k < |ps| ==> !ps[k].isDead
  {
    if ps != [] {
      AliveShrinks(ps[1..]);
      assert forall k :: 1 <= k < |ps| ==> ps[k] == ps[1..][k - 1];
    }
  }

  /**
    The particles spawned while a pass of `ParticleSystem.update` visits
    the first `i` particles, in states `ss`, in the order the callbacks
    asked for them.
  */
  function Spawned(ss: seq<ParticleState>, i: nat, onUpdate: ParticleState -> Effect): seq<Spawn>
    requires i <= |ss|
  {
    if i == 0 then []
    else Spawned(ss, i - 1, onUpdate) + onUpdate(Age(ss[i - 1])).spawns
  }

  lemma {:induction false} SpawnedOk(ss: seq<ParticleState>, i: nat, onUpdate: ParticleState -> Effect)
    requires i <= |ss| && CallbackOk(onUpdate)
    ensures SpawnsOk(Spawned(ss, i, onUpdate))
  {
    if i > 0 {
      SpawnedOk(ss, i - 1, onUpdate);
      assert SpawnsOk(onUpdate(Age(ss[i - 1])).spawns);
    }
  }

  /** With a callback that spawns nothing, a pass spawns nothing. */
  lemma {:induction false} QuietPassSpawnsNothing(ss: seq<ParticleState>, i: nat, onUpdate: ParticleState -> Effect)
    requires i <= |ss|
    requires forall s :: onUpdate(s).spawns == []
    ensures Spawned(ss, i, onUpdate) == []
  {
    if i > 0 {
      QuietPassSpawnsNothing(ss, i - 1, onUpdate);
    }
  }

  class ParticleSystem {
    var particles: seq<Particle>

    /** No particle is in the array twice. */
    ghost predicate Valid()
      reads this
    {
      Distinct(particles)
    }

    constructor ()
      ensures Valid() && particles == []
    {
      particles := [];
    }

    /** `clear`: the array is replaced by an empty one. */
    method Clear()
      modifies this
      ensures Valid() && particles == []
    {
      particles := [];
    }

    /** `clearDeadParticles`: keeps the living particles, in order. */
    method ClearDeadParticles()
      requires Valid()
      modifies this
      ensures particles == Alive(old(particles))
      ensures Valid()
    {
      AliveOfDistinct(particles);
      particles := Alive(particles);
    }

    /**
      `spawnRaindropAlong(origin, width, depth)`, with `offsetRoll` the
      `Math.random()` and `speed` the `getRandom(10, 20)` it draws.
    */
    method SpawnRaindropAlong(origin: Vector2, width: real, depth: real, offsetRoll: real, speed: real)
      requires Valid()
      requires SpawnOk(RaindropAlong(origin, width, depth, offsetRoll, speed))
      modifies this
      ensures Valid()
      ensures |particles| == |old(particles)| + 1 && particles[..|old(particles)|] == old(particles)
      ensures fresh(particles[|old(particles)|])
      ensures particles[|old(particles)|].State() == Birth(RaindropAlong(origin, width, depth, offsetRoll, speed))
    {
      var offset := Vector2(Product(offsetRoll, width), 0.0);
      var velocity := Vector2(0.0, speed);
      var raindrop := new Particle.Raindrop(origin.Add(offset), depth, velocity);
      particles := particles + [raindrop];
    }

    /** `spawnSplashAt(origin, lifetime)`, with `direction` the one its angle gives. */
    method SpawnSplashAt(origin: Vector2, lifetime: int, direction: Vector2)
      requires Valid()
      requires InSplashArc(direction)
      modifies this
      ensures Valid()
      ensures |particles| == |old(particles)| + 1 && particles[..|old(particles)|] == old(particles)
      ensures fresh(particles[|old(particles)|])
      ensures particles[|old(particles)|].State() == Birth(SplashAt(origin, lifetime, direction))
    {
      var splash := new Particle.Splash(origin, lifetime, direction);
      particles := particles + [splash];
    }

    /** The spawn calls one callback makes, in order. */
    method SpawnAll(rs: seq<Spawn>)
      requires Valid() && SpawnsOk(rs)
      modifies this
      ensures Valid()
      ensures |particles| == |old(particles)| + |rs| && particles[..|old(particles)|] == old(particles)
      ensures forall k :: |old(particles)| <= k < |particles| ==>
        fresh(particles[k]) && particles[k].State() == Birth(rs[k - |old(particles)|])
    {
      var i := 0;
      while i < |rs|
        invariant 0 <= i <= |rs|
        invariant Valid()
        invariant |particles| == |old(particles)| + i && particles[..|old(particles)|] == old(particles)
        invariant forall k :: |old(particles)| <= k < |particles| ==>
          fresh(particles[k]) && particles[k].State() == Birth(rs[k - |old(particles)|])
      {
        match rs[i] {
          case RaindropAlong(origin, width, depth, offsetRoll, speed) =>
            SpawnRaindropAlong(origin, width, depth, offsetRoll, speed);
          case SplashAt(origin, lifetime, direction) =>
            SpawnSplashAt(origin, lifetime, direction);
        }
        i := i + 1;
      }
    }

    /**
      Where a pass of `update` stands after the first `i` of the `n`
      particles it started with (states `start`): those are updated, the
      rest are as they were.
    */
    ghost predicate SteppedAt(start: seq<ParticleState>, n: nat, i: nat, onUpdate: ParticleState -> Effect)
      reads this, particles
    {
      && i <= n == |start| <= |particles|
      && (forall k :: 0 <= k < i ==> particles[k].State() == Step(start[k], onUpdate))
      && (forall k :: i <= k < n ==> particles[k].State() == start[k])
    }

    /** After the first `n` particles come those the callbacks of the first `i` spawned, in order. */
    ghost predicate BornAt(start: seq<ParticleState>, n: nat, i: nat, onUpdate: ParticleState -> Effect)
      requires i <= |start|
      reads this, particles
    {
      && SpawnsOk(Spawned(start, i, onUpdate))
      && |particles| == n + |Spawned(start, i, onUpdate)|
      && (forall k :: n <= k < |particles| ==>
            particles[k].State() == Birth(Spawned(start, i, onUpdate)[k - n]))
    }

    /** The `p.update(onUpdate)` of the pass for the particle at index `i`, returning what the callback spawns. */
    method StepAt(ghost start: seq<ParticleState>, n: nat, i: nat, onUpdate: ParticleState -> Effect)
      returns (spawns: seq<Spawn>)
      requires Valid() && SteppedAt(start, n, i, onUpdate) && BornAt(start, n, i, onUpdate) && i < n
      modifies particles[i]
      ensures SteppedAt(start, n, i + 1, onUpdate) && BornAt(start, n, i, onUpdate)
      ensures spawns == onUpdate(Age(start[i])).spawns
    {
      spawns := particles[i].Update(onUpdate);
    }

    /** The spawns of the callback for the particle at index `i`, appended. */
    method SpawnStep(ghost start: seq<ParticleState>, n: nat, i: nat, onUpdate: ParticleState -> Effect, spawns: seq<Spawn>)
      requires Valid() && SteppedAt(start, n, i + 1, onUpdate) && BornAt(start, n, i, onUpdate) && i < n
      requires CallbackOk(onUpdate) && spawns == onUpdate(Age(start[i])).spawns
      modifies this
      ensures Valid() && SteppedAt(start, n, i + 1, onUpdate) && BornAt(start, n, i + 1, onUpdate)
      ensures |particles| >= |old(particles)| && particles[..|old(particles)|] == old(particles)
      ensures forall k :: |old(particles)| <= k < |particles| ==> fresh(particles[k])
    {
      assert SpawnsOk(spawns);
      SpawnAll(spawns);
    }

    /** The body of the `forEach` of `update` for the particle at index `i`. */
    method UpdateAt(ghost start: seq<ParticleState>, n: nat, i: nat, onUpdate: ParticleState -> Effect)
      requires Valid() && SteppedAt(start, n, i, onUpdate) && BornAt(start, n, i, onUpdate)
      requires i < n && CallbackOk(onUpdate)
      modifies this, particles[i]
      ensures Valid() && SteppedAt(start, n, i + 1, onUpdate) && BornAt(start, n, i + 1, onUpdate)
      ensures |particles| >= |old(particles)| && particles[..|old(particles)|] == old(particles)
      ensures forall k :: |old(particles)| <= k < |particles| ==> fresh(particles[k])
    {
      var spawns := StepAt(start, n, i, onUpdate);
      SpawnStep(start, n, i, onUpdate, spawns);
    }

    /** The `forEach` of `update` over the `n` particles present when it starts, in states `start`. */
    method UpdateAll(ghost start: seq<ParticleState>, n: nat, onUpdate: ParticleState -> Effect)
      requires Valid() && SteppedAt(start, n, 0, onUpdate) && BornAt(start, n, 0, onUpdate)
      requires CallbackOk(onUpdate)
      modifies this, particles
      ensures Valid() && SteppedAt(start, n, n, onUpdate) && BornAt(start, n, n, onUpdate)
      ensures forall k :: 0 <= k < n ==> particles[k] == old(particles)[k]
      ensures forall k :: n <= k < |particles| ==> fresh(particles[k])
    {
      var i := 0;
      while i < n
        invariant Valid() && SteppedAt(start, n, i, onUpdate) && BornAt(start, n, i, onUpdate)
        invariant forall k :: 0 <= k < n ==> particles[k] == old(particles)[k]
        invariant forall k :: n <= k < |particles| ==> fresh(particles[k])
      {
        ghost var before := particles;
        UpdateAt(start, n, i, onUpdate);
        forall k | n <= k < |particles|
          ensures fresh(particles[k])
        {
          if k < |before| {
            assert particles[k] == before[k];
          }
        }
        i := i + 1;
      }
    }

    /**
      `update(onUpdate)`: every particle present when the pass starts is
      updated once, in array order; the particles the callbacks spawn are
      appended in the order asked for and are not updated in this pass, as
      `forEach` fixes the length before it starts.
    */
    method Update(onUpdate: ParticleState -> Effect)
      requires Valid() && CallbackOk(onUpdate)
      modifies this, particles
      ensures Valid()
      ensures |particles| >= |old(particles)| && particles[..|old(particles)|] == old(particles)
      ensures var start := old(States(particles));
        && (forall k :: 0 <= k < |start| ==> particles[k].State() == Step(start[k], onUpdate))
        && SpawnsOk(Spawned(start, |start|, onUpdate))
        && |particles| == |start| + |Spawned(start, |start|, onUpdate)|
        && (forall k :: |start| <= k < |particles| ==>
              fresh(particles[k]) && particles[k].State() == Birth(Spawned(start, |start|, onUpdate)[k - |start|]))
      ensures (forall s :: onUpdate(s).spawns == []) ==> particles == old(particles)
    {
      var n := |particles|;
      ghost var start := States(particles);
      UpdateAll(start, n, onUpdate);
      assert particles[..n] == old(particles);
      if forall s :: onUpdate(s).spawns == [] {
        QuietPassSpawnsNothing(start, n, onUpdate);
      }
    }
  }

  lemma AliveOfDistinct(ps: seq<Particle>)
    requires Distinct(ps)
    ensures Distinct(Alive(ps))
  {
    if ps != [] {
      AliveOfDistinct(ps[1..]);
      AliveMembers(ps[1..], ps[0]);
    }
  }
}
