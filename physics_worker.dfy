/** The physics worker: one fixed-timestep tick over the particle list, and
    the message handler that replaces the list or one tunable at a time.

    `Math.sqrt` is a foreign call; it is a parameter `sqrt` of which only
    `IsSqrt` is known.  A tick is specified by `Tick`: every unordered pair in
    order (`PairPass`), then every particle integrated (`IntegrateAll`), then
    the out-of-bounds particles removed (`Cull`).  The worker interleaves the
    pair rows with the integration; `UpdatePhysics` is proved to compute the
    same thing. */
module Physics {
  import opened Particles
  import opened Messages
  import opened Options

  const G: real := 0.0000000000667430
  const SCALE_FACTOR: real := 100000000.0
  /** Milliseconds between ticks. */
  const PHYSICS_STEP: real := 1000.0 / 60.0
  const VELOCITY_EPSILON: real := 0.0000000001

  /** What the model assumes of `Math.sqrt` on non-negative arguments. */
  ghost predicate IsSqrt(sqrt: real -> real)
  {
    forall a: real :: 0.0 <= a ==> 0.0 <= sqrt(a) && sqrt(a) * sqrt(a) == a
  }

  /** The simulated time of one tick, in seconds. */
  function TimeStep(speedMultiplier: real): (dt: real)
    ensures dt == speedMultiplier / 60.0
  {
    (PHYSICS_STEP / 1000.0) * speedMultiplier
  }

  /** Every particle has positive mass and size, so that no division in the
      force branch is by zero. */
  predicate Simulable(ps: seq<Snapshot>)
  {
    forall k :: 0 <= k < |ps| ==> Massive(ps[k])
  }

  /** What the distance test and the force read of a particle: position,
      mass and size, the fields the pair pass never writes. */
  datatype Body = Body(x: real, y: real, mass: real, size: real)

  function BodyOf(b: Snapshot): Body
  {
    Body(b.x, b.y, b.mass, b.size)
  }

  /** `a` and `b` hold the same bodies, index by index. */
  predicate SameBodies(a: seq<Snapshot>, b: seq<Snapshot>)
  {
    && |a| == |b|
    && forall k :: 0 <= k < |a| ==> BodyOf(a[k]) == BodyOf(b[k])
  }

  // ---------------------------------------------------------------------
  // One pair

  /** The branch a pair takes: a collision, or an attraction with the force
      on the first particle (the second gets its opposite). */
  datatype Outcome = Collision | Attraction(forceX: real, forceY: real)

  function MinDistance(p: Body, q: Body): real
  {
    (p.size + q.size) * 1.5
  }

  /** The squared distance between two particles. */
  function SquaredDistance(p: Body, q: Body): (d2: real)
    ensures d2 >= 0.0
  {
    var dx := q.x - p.x;
    var dy := q.y - p.y;
    SquareSumNonNegative(dx, dy);
    dx * dx + dy * dy
  }

  /** The distance test and, when it fails, the force on `p` from `q`.
      The pair collides exactly when the distance is below the collision
      radius; otherwise the softening `max(distance, minDistance)` is the
      distance itself, so the force is the plain inverse-square force along
      `(dx, dy) / distance`. */
  function Interaction(p: Body, q: Body, sqrt: real -> real): (r: Outcome)
    requires p.size + q.size > 0.0
    ensures var distance := sqrt(SquaredDistance(p, q));
      && (r.Collision? <==> distance < MinDistance(p, q))
      && (r.Attraction? ==>
            && distance >= MinDistance(p, q) > 0.0
            && r.forceX == ScaledForce(p, q, distance) * (q.x - p.x) / distance
            && r.forceY == ScaledForce(p, q, distance) * (q.y - p.y) / distance)
  {
    var dx := q.x - p.x;
    var dy := q.y - p.y;
    var distance := sqrt(SquaredDistance(p, q));
    var minDistance := MinDistance(p, q);
    if distance < minDistance then Collision
    else
      var softening := Max(distance, minDistance);
      var scaledForce := ScaledForce(p, q, softening);
      Attraction(scaledForce * dx / distance, scaledForce * dy / distance)
  }

  /** The magnitude of the gravitational force between `p` and `q` at
      distance `softening`, times `SCALE_FACTOR`: an inverse-square law,
      whose product with the squared distance is the constant
      `G m_p m_q SCALE_FACTOR`. */
  function ScaledForce(p: Body, q: Body, softening: real): (f: real)
    requires softening > 0.0
    ensures f * Square(softening) == G * p.mass * q.mass * SCALE_FACTOR
  {
    var softeningSquared := Square(softening);
    PositiveSquare(softening);
    var force := (G * p.mass * q.mass) / softeningSquared;
    assert force * softeningSquared == G * p.mass * q.mass;
    assert (force * SCALE_FACTOR) * softeningSquared == (force * softeningSquared) * SCALE_FACTOR;
    force * SCALE_FACTOR
  }

  lemma SquareSumNonNegative(dx: real, dy: real)
    ensures dx * dx + dy * dy >= 0.0
  {
  }

  function Square(a: real): real { a * a }

  lemma PositiveSquare(a: real)
    requires a > 0.0
    ensures Square(a) > 0.0
  {
    calc {
      Square(a);
    ==
      a * a;
    >
      0.0;
    }
  }

  /** Collision velocity scaling: only the velocity changes (no impulse
      along the line of centres, no position correction). */
  function Slowed(b: Snapshot, dampening: real): (r: Snapshot)
    ensures r.(vx := b.vx, vy := b.vy) == b
  {
    b.(vx := b.vx * dampening, vy := b.vy * dampening)
  }

  /** Particles of positive mass and size. */
  predicate Massive(b: Snapshot)
  {
    b.mass > 0.0 && b.size > 0.0
  }

  /** The two particles of a pair after it is visited: both slowed by
      `dampening` on a collision, otherwise pushed by opposite forces. */
  function PairEffect(p: Snapshot, q: Snapshot, dampening: real, sqrt: real -> real): (r: (Snapshot, Snapshot))
    requires Massive(p) && Massive(q)
    ensures BodyOf(r.0) == BodyOf(p) && BodyOf(r.1) == BodyOf(q)
  {
    match Interaction(BodyOf(p), BodyOf(q), sqrt)
    case Collision => (Slowed(p, dampening), Slowed(q, dampening))
    case Attraction(fx, fy) => (Pushed(p, fx, fy), Pushed(q, -fx, -fy))
  }

  /** The particle list after pair `(i, j)` is visited. */
  function PairStep(ps: seq<Snapshot>, i: nat, j: nat, dampening: real, sqrt: real -> real): (r: seq<Snapshot>)
    requires Simulable(ps) && i < j < |ps|
    ensures SameBodies(ps, r)
  {
    var effect := PairEffect(ps[i], ps[j], dampening, sqrt);
    ps[i := effect.0][j := effect.1]
  }

  // ---------------------------------------------------------------------
  // The pair pass

  /** Row `i` visited up to (not including) pair `(i, j)`. */
  function RowUpTo(ps: seq<Snapshot>, i: nat, j: nat, dampening: real, sqrt: real -> real): (r: seq<Snapshot>)
    requires Simulable(ps) && i < j <= |ps|
    ensures SameBodies(ps, r)
    ensures Simulable(r)
    decreases j
  {
    if j == i + 1 then ps
    else PairStep(RowUpTo(ps, i, j - 1, dampening, sqrt), i, j - 1, dampening, sqrt)
  }

  /** Every pair `(k, j)` with `k < i` visited, row by row. */
  function PairsBefore(ps: seq<Snapshot>, i: nat, dampening: real, sqrt: real -> real): (r: seq<Snapshot>)
    requires Simulable(ps) && i <= |ps|
    ensures SameBodies(ps, r)
    ensures Simulable(r)
    decreases i
  {
    if i == 0 then ps
    else
      var before := PairsBefore(ps, i - 1, dampening, sqrt);
      RowUpTo(before, i - 1, |ps|, dampening, sqrt)
  }

  /** Every unordered pair visited once.  The pass writes only velocities
      and accelerations: positions, masses and sizes are kept, index by
      index. */
  function PairPass(ps: seq<Snapshot>, dampening: real, sqrt: real -> real): (r: seq<Snapshot>)
    requires Simulable(ps)
    ensures SameBodies(ps, r)
    ensures Simulable(r)
  {
    PairsBefore(ps, |ps|, dampening, sqrt)
  }

  // ---------------------------------------------------------------------
  // Integration and culling

  /** The worker's integration step: the acceleration is consumed, mass
      and size are kept, and without friction the velocity is `v + a dt`.
      With friction each component is either stopped or at least
      `VELOCITY_EPSILON` in magnitude (`IntegrateSettles`). */
  function Integrate(b: Snapshot, dt: real, friction: real): (r: Snapshot)
    ensures r.ax == 0.0 && r.ay == 0.0 && r.mass == b.mass && r.size == b.size
    ensures friction <= 0.0 ==> r.vx == b.vx + b.ax * dt && r.vy == b.vy + b.ay * dt
  {
    Integrated(b, dt, friction, VELOCITY_EPSILON)
  }

  /** `Integrate` with its time step and friction fixed. */
  function Integrator(dt: real, friction: real): Snapshot -> Snapshot
  {
    b => Integrate(b, dt, friction)
  }

  /** `r` is `ps` with `f` applied to the particles before index `i`. */
  predicate MappedBefore(r: seq<Snapshot>, ps: seq<Snapshot>, i: nat, f: Snapshot -> Snapshot)
  {
    && |r| == |ps|
    && forall k :: 0 <= k < |ps| ==> r[k] == if k < i then f(ps[k]) else ps[k]
  }

  function IntegrateAll(ps: seq<Snapshot>, dt: real, friction: real): (r: seq<Snapshot>)
    ensures |r| == |ps|
    ensures forall k :: 0 <= k < |ps| ==> r[k].mass == ps[k].mass && r[k].size == ps[k].size
    ensures forall k :: 0 <= k < |ps| ==> r[k].ax == 0.0 && r[k].ay == 0.0
  {
    seq(|ps|, k requires 0 <= k < |ps| => Integrate(ps[k], dt, friction))
  }

  /** The keep-condition of the cull: inside the domain widened by the
      particle's own size on every side. */
  function InBounds(b: Snapshot, simSize: real): (r: bool)
    ensures b.size >= 0.0 && 0.0 <= b.x <= simSize && 0.0 <= b.y <= simSize ==> r
  {
    var margin := b.size;
    b.x >= -margin && b.x <= simSize + margin && b.y >= -margin && b.y <= simSize + margin
  }

  function Cull(ps: seq<Snapshot>, simSize: real): (r: seq<Snapshot>)
    ensures |r| <= |ps|
    ensures forall b :: b in r <==> b in ps && InBounds(b, simSize)
  {
    if ps == [] then []
    else (if InBounds(ps[0], simSize) then [ps[0]] else []) + Cull(ps[1..], simSize)
  }

  // ---------------------------------------------------------------------
  // The worker's state, a tick, and a message

  datatype WorkerState = WorkerState(
    particles: seq<Snapshot>,
    isPaused: bool,
    friction: real,
    dampening: real,
    speedMultiplier: real,
    simSize: real)

  predicate CanTick(s: WorkerState)
  {
    !s.isPaused ==> Simulable(s.particles)
  }

  /** One tick of the worker.  A paused worker is left as it is; otherwise
      only the particle list changes, and every particle left is inside the
      bounds with its acceleration consumed. */
  function Tick(s: WorkerState, sqrt: real -> real): (r: WorkerState)
    requires CanTick(s)
    ensures s.isPaused ==> r == s
    ensures r == s.(particles := r.particles)
    ensures |r.particles| <= |s.particles|
    ensures !s.isPaused ==> forall b :: b in r.particles ==> InBounds(b, s.simSize) && b.ax == 0.0 && b.ay == 0.0
  {
    if s.isPaused then s
    else
      var dt := TimeStep(s.speedMultiplier);
      var interacted := PairPass(s.particles, s.dampening, sqrt);
      s.(particles := Cull(IntegrateAll(interacted, dt, s.friction), s.simSize))
  }

  /** The worker's state after a message: each kind of message writes its
      own fields and no other; an unrecognised one writes nothing. */
  function Receive(s: WorkerState, msg: Message): (r: WorkerState)
    ensures r.particles == if msg.Init? || msg.Update? then msg.particles else s.particles
    ensures r.simSize == if msg.Init? then msg.simSize else if msg.SimSize? then msg.size else s.simSize
    ensures r.isPaused == if msg.Pause? then msg.paused else s.isPaused
    ensures r.speedMultiplier == if msg.Speed? then msg.speed else s.speedMultiplier
    ensures r.friction == if msg.Friction? then msg.friction else s.friction
    ensures r.dampening == if msg.Dampening? then msg.dampening else s.dampening
  {
    match msg
    case Init(ps, size) => s.(particles := ps, simSize := size)
    case Update(ps) => s.(particles := ps)
    case Pause(paused) => s.(isPaused := paused)
    case Speed(speed) => s.(speedMultiplier := speed)
    case Friction(friction) => s.(friction := friction)
    case Dampening(dampening) => s.(dampening := dampening)
    case SimSize(size) => s.(simSize := size)
    case Unrecognised(_) => s
  }

  class Worker {
    var particles: seq<Snapshot>
    var isPaused: bool
    var friction: real
    var dampening: real
    var speedMultiplier: real
    var simSize: real

    constructor ()
      ensures State() == WorkerState([], false, 0.01, 0.05, 1.0, 5000.0)
    {
      particles := [];
      isPaused := false;
      friction := 0.01;
      dampening := 0.05;
      speedMultiplier := 1.0;
      simSize := 5000.0;
    }

    function State(): WorkerState
      reads this
    {
      WorkerState(particles, isPaused, friction, dampening, speedMultiplier, simSize)
    }

    method OnMessage(msg: Message)
      modifies this
      ensures State() == Receive(old(State()), msg)
    {
      match msg
      case Init(ps, size) =>
        particles := ps;
        simSize := size;
      case Update(ps) =>
        particles := ps;
      case Pause(paused) =>
        isPaused := paused;
      case Speed(speed) =>
        speedMultiplier := speed;
      case Friction(f) =>
        friction := f;
      case Dampening(d) =>
        dampening := d;
      case SimSize(size) =>
        simSize := size;
      case Unrecognised(_) =>
    }

    /** One tick; returns the message posted back, if any. */
    method UpdatePhysics(sqrt: real -> real) returns (posted: Option<Message>)
      requires CanTick(State())
      modifies this`particles
      ensures State() == Tick(old(State()), sqrt)
      ensures posted == if old(isPaused) then None else Some(Update(particles))
    {
      if isPaused {
        return None;
      }

      var dt := (PHYSICS_STEP / 1000.0) * speedMultiplier;
      Step(dt, sqrt);

      particles := Cull(particles, simSize);
      posted := Some(Update(particles));
    }

    /** The two loops of a tick: row `i` of pairs, then particle `i`
        integrated, for every `i` in order. */
    method Step(dt: real, sqrt: real -> real)
      requires Simulable(particles)
      modifies this`particles
      ensures particles == IntegrateAll(PairPass(old(particles), dampening, sqrt), dt, friction)
    {
      ghost var start := particles;
      var n := |particles|;
      for i := 0 to n
        invariant n == |start|
        invariant MappedBefore(particles, PairsBefore(start, i, dampening, sqrt), i, Integrator(dt, friction))
      {
        Sweep(i, dt, sqrt, start);
      }
      IntegratedAll(particles, PairPass(start, dampening, sqrt), dt, friction);
    }

    /** The body of the outer loop for particle `i`: its row of pairs, then
        its integration.  The particles before `i` are integrated already,
        the others are as the pair pass left them. */
    method Sweep(i: nat, dt: real, sqrt: real -> real, ghost start: seq<Snapshot>)
      requires Simulable(start) && i < |start|
      requires MappedBefore(particles, PairsBefore(start, i, dampening, sqrt), i, Integrator(dt, friction))
      modifies this`particles
      ensures MappedBefore(particles, PairsBefore(start, i + 1, dampening, sqrt), i + 1, Integrator(dt, friction))
    {
      ghost var mixed := particles;
      IntegratedKeepsSimulable(mixed, PairsBefore(start, i, dampening, sqrt), i, dt, friction);
      VisitRow(i, sqrt);
      ghost var row := particles;
      IntegrateAt(i, dt);
      IntegratorApplies(row[i], dt, friction);
      SweepStep(start, mixed, row, particles, i, dampening, sqrt, Integrator(dt, friction));
    }

    /** The inner loop: every pair `(i, j)` with `j > i`, in order. */
    method VisitRow(i: nat, sqrt: real -> real)
      requires Simulable(particles) && i < |particles|
      modifies this`particles
      ensures particles == RowUpTo(old(particles), i, |old(particles)|, dampening, sqrt)
    {
      ghost var rowStart := particles;
      var n := |particles|;
      for j := i + 1 to n
        invariant particles == RowUpTo(rowStart, i, j, dampening, sqrt)
      {
        ghost var before := particles;
        VisitPair(i, j, sqrt);
        RowUpToNext(rowStart, before, i, j, dampening, sqrt);
      }
    }

    /** The body of the inner loop for pair `(i, j)`: the distance test and
        force of `Interaction`, then the collision or the attraction branch
        applied to the two particles. */
    method VisitPair(i: nat, j: nat, sqrt: real -> real)
      requires Simulable(particles) && i < j < |particles|
      modifies this`particles
      ensures particles == PairStep(old(particles), i, j, dampening, sqrt)
    {
      var particle := particles[i];
      var other := particles[j];
      match Interaction(BodyOf(particle), BodyOf(other), sqrt)
      case Collision =>
        particles := particles[i := Slowed(particle, dampening)][j := Slowed(other, dampening)];
      case Attraction(forceX, forceY) =>
        particles := particles[i := Pushed(particle, forceX, forceY)][j := Pushed(other, -forceX, -forceY)];
    }

    /** The integration of particle `i` at the end of its row.  Every field
        read here is read before it is written, so the new values are
        computed from the particle as it was. */
    method IntegrateAt(i: nat, dt: real)
      requires i < |particles|
      modifies this`particles
      ensures particles == old(particles)[i := Integrate(old(particles)[i], dt, friction)]
    {
      var particle := particles[i];

      var x := particle.x + particle.vx * dt + 0.5 * particle.ax * dt * dt;
      var y := particle.y + particle.vy * dt + 0.5 * particle.ay * dt * dt;
      assert x == particle.x + Displacement(particle.vx, particle.ax, dt);
      assert y == particle.y + Displacement(particle.vy, particle.ay, dt);

      var vx := particle.vx + particle.ax * dt;
      var vy := particle.vy + particle.ay * dt;
      ghost var drifted := Drifted(particle, dt);
      assert drifted.vx == vx && drifted.vy == vy;
      vx, vy := Dampen(vx, vy, dt, friction, VELOCITY_EPSILON);
      ghost var integrated := Integrate(particle, dt, friction);
      assert integrated == drifted.(x := x, y := y, vx := vx, vy := vy, ax := 0.0, ay := 0.0);

      particles := particles[i := particle.(x := x, y := y, vx := vx, vy := vy, ax := 0.0, ay := 0.0)];
    }
  }

  /** Integration keeps every mass and size. */
  lemma IntegratedKeepsSimulable(r: seq<Snapshot>, ps: seq<Snapshot>, i: nat, dt: real, friction: real)
    requires MappedBefore(r, ps, i, Integrator(dt, friction)) && Simulable(ps)
    ensures Simulable(r)
  {
    forall k | 0 <= k < |r|
      ensures Massive(r[k])
    {
      assert Massive(ps[k]);
    }
  }

  /** Applying `Integrator` is integrating. */
  lemma IntegratorApplies(b: Snapshot, dt: real, friction: real)
    ensures Integrator(dt, friction)(b) == Integrate(b, dt, friction)
  {
  }

  /** Mapping particle `i` as well extends the mapped prefix. */
  lemma MapOneMore(r: seq<Snapshot>, r': seq<Snapshot>, ps: seq<Snapshot>, i: nat, f: Snapshot -> Snapshot)
    requires MappedBefore(r, ps, i, f) && i < |ps| && r' == r[i := f(r[i])]
    ensures MappedBefore(r', ps, i + 1, f)
  {
  }

  /** With every particle integrated, the list is `IntegrateAll`. */
  lemma IntegratedAll(r: seq<Snapshot>, ps: seq<Snapshot>, dt: real, friction: real)
    requires MappedBefore(r, ps, |ps|, Integrator(dt, friction))
    ensures r == IntegrateAll(ps, dt, friction)
  {
  }

  // ---------------------------------------------------------------------
  // Interleaving rows with integration

  /** Visiting pair `(i, j)` commutes with integrating the particles before
      `i`: the pair reads and writes only particles `i` and `j`, which are
      not integrated yet. */
  lemma PairStepCommutesWithIntegration(m: seq<Snapshot>, ps: seq<Snapshot>, i: nat, j: nat,
                                        dampening: real, sqrt: real -> real, f: Snapshot -> Snapshot)
    requires MappedBefore(m, ps, i, f)
    requires Simulable(ps) && Simulable(m) && i < j < |ps|
    ensures MappedBefore(PairStep(m, i, j, dampening, sqrt), PairStep(ps, i, j, dampening, sqrt), i, f)
  {
    assert m[i] == ps[i] && m[j] == ps[j];
  }

  /** Visiting row `i` up to pair `(i, j)` commutes with integrating the
      particles before `i`. */
  lemma {:induction false} RowCommutesWithIntegration(m: seq<Snapshot>, ps: seq<Snapshot>, i: nat, j: nat,
                                                       dampening: real, sqrt: real -> real, f: Snapshot -> Snapshot)
    requires MappedBefore(m, ps, i, f)
    requires Simulable(ps) && Simulable(m) && i < j <= |ps|
    ensures MappedBefore(RowUpTo(m, i, j, dampening, sqrt), RowUpTo(ps, i, j, dampening, sqrt), i, f)
    decreases j
  {
    if j == i + 1 {
      assert RowUpTo(m, i, j, dampening, sqrt) == m;
      assert RowUpTo(ps, i, j, dampening, sqrt) == ps;
    } else {
      RowCommutesWithIntegration(m, ps, i, j - 1, dampening, sqrt, f);
      RowStepCommutesWithIntegration(m, ps, i, j, dampening, sqrt, f);
    }
  }

  /** One pair more on both sides of `RowCommutesWithIntegration`. */
  lemma RowStepCommutesWithIntegration(m: seq<Snapshot>, ps: seq<Snapshot>, i: nat, j: nat,
                                       dampening: real, sqrt: real -> real, f: Snapshot -> Snapshot)
    requires Simulable(ps) && Simulable(m) && i + 1 < j <= |ps| == |m|
    requires MappedBefore(RowUpTo(m, i, j - 1, dampening, sqrt), RowUpTo(ps, i, j - 1, dampening, sqrt), i, f)
    ensures MappedBefore(RowUpTo(m, i, j, dampening, sqrt), RowUpTo(ps, i, j, dampening, sqrt), i, f)
  {
    var m' := RowUpTo(m, i, j - 1, dampening, sqrt);
    var ps' := RowUpTo(ps, i, j - 1, dampening, sqrt);
    PairStepCommutesWithIntegration(m', ps', i, j - 1, dampening, sqrt, f);
    MappedBeforeEqual(PairStep(m', i, j - 1, dampening, sqrt), PairStep(ps', i, j - 1, dampening, sqrt),
                      RowUpTo(m, i, j, dampening, sqrt), RowUpTo(ps, i, j, dampening, sqrt), i, f);
  }

  /** One round of the tick's outer loop keeps the interleaved state in step
      with the pair pass: row `i` of pairs, then particle `i` mapped. */
  lemma SweepStep(start: seq<Snapshot>, mixed: seq<Snapshot>, row: seq<Snapshot>, after: seq<Snapshot>, i: nat,
                  dampening: real, sqrt: real -> real, f: Snapshot -> Snapshot)
    requires Simulable(start) && Simulable(mixed) && i < |start|
    requires MappedBefore(mixed, PairsBefore(start, i, dampening, sqrt), i, f)
    requires row == RowUpTo(mixed, i, |mixed|, dampening, sqrt)
    requires after == row[i := f(row[i])]
    ensures MappedBefore(after, PairsBefore(start, i + 1, dampening, sqrt), i + 1, f)
  {
    var done := PairsBefore(start, i, dampening, sqrt);
    var n := |start|;
    RowCommutesWithIntegration(mixed, done, i, n, dampening, sqrt, f);
    PairsBeforeNext(start, i, dampening, sqrt);
    MappedBeforeEqual(RowUpTo(mixed, i, n, dampening, sqrt), RowUpTo(done, i, n, dampening, sqrt),
                      row, PairsBefore(start, i + 1, dampening, sqrt), i, f);
    MapOneMore(row, after, PairsBefore(start, i + 1, dampening, sqrt), i, f);
  }

  /** One more row of pairs. */
  lemma PairsBeforeNext(ps: seq<Snapshot>, i: nat, dampening: real, sqrt: real -> real)
    requires Simulable(ps) && i < |ps|
    ensures PairsBefore(ps, i + 1, dampening, sqrt) == RowUpTo(PairsBefore(ps, i, dampening, sqrt), i, |ps|, dampening, sqrt)
  {
  }

  /** One more pair of row `i`. */
  lemma RowUpToNext(ps: seq<Snapshot>, before: seq<Snapshot>, i: nat, j: nat, dampening: real, sqrt: real -> real)
    requires Simulable(ps) && i < j < |ps| && before == RowUpTo(ps, i, j, dampening, sqrt)
    ensures Simulable(before) && i < j < |before|
    ensures RowUpTo(ps, i, j + 1, dampening, sqrt) == PairStep(before, i, j, dampening, sqrt)
  {
  }

  /** `MappedBefore` carried over to equal lists. */
  lemma MappedBeforeEqual(r: seq<Snapshot>, ps: seq<Snapshot>, r': seq<Snapshot>, ps': seq<Snapshot>, i: nat, f: Snapshot -> Snapshot)
    requires MappedBefore(r, ps, i, f) && r' == r && ps' == ps
    ensures MappedBefore(r', ps', i, f)
  {
  }
}
