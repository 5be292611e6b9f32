/** The particle record of the simulator and its integrator.

    The `Decimal` arithmetic of the original is modelled as exact `real`
    arithmetic, and the string conversions of `serialize`/`deserialize` as the
    identity on values, so a `Snapshot` carries the eight physics fields as
    reals. */
module Particles {

  /** The serialized form of a particle: what crosses the boundary between the
      drawing side and the physics worker, and what the worker keeps and
      updates in place. */
  datatype Snapshot = Snapshot(
    x: real, y: real,
    vx: real, vy: real,
    ax: real, ay: real,
    mass: real, size: real)

  /** Velocity threshold below which `Particle.Update` stops a component. */
  const UPDATE_EPSILON: real := 0.001

  function Abs(v: real): real { if v < 0.0 then -v else v }

  /** `Math.max` on two reals. */
  function Max(a: real, b: real): (r: real)
    ensures r >= a && r >= b
    ensures r == a || r == b
  {
    if a >= b then a else b
  }

  /** A velocity component stopped when its magnitude is below `epsilon`. */
  function Snap(v: real, epsilon: real): real
  {
    if Abs(v) < epsilon then 0.0 else v
  }

  /** The factor friction scales a velocity by over `dt`. */
  function FrictionFactor(friction: real, dt: real): real
  {
    1.0 - friction * dt
  }

  /** A velocity component after the friction step: scaled and snapped when
      `friction` is positive, untouched otherwise.  With friction, the result
      is either stopped or at least `epsilon` in magnitude, never a residual
      motion below `epsilon` (`FrictionSnaps`). */
  function Damped(v: real, dt: real, friction: real, epsilon: real): real
  {
    if friction > 0.0 then Snap(v * FrictionFactor(friction, dt), epsilon) else v
  }

  /** The force accumulator after a force `(fx, fy)` is applied: `a += F / m`. */
  function Pushed(b: Snapshot, fx: real, fy: real): (r: Snapshot)
    requires b.mass != 0.0
    ensures r.mass * (r.ax - b.ax) == fx && r.mass * (r.ay - b.ay) == fy
    ensures r.(ax := b.ax, ay := b.ay) == b
  {
    b.(ax := b.ax + fx / b.mass, ay := b.ay + fy / b.mass)
  }

  /** The distance covered over `dt` from velocity `v` under a constant
      acceleration `a`: `v dt + a dt^2 / 2`. */
  function Displacement(v: real, a: real, dt: real): real
  {
    v * dt + a * dt * dt / 2.0
  }

  /** Position from the velocity held before the step plus half the
      accumulated acceleration; velocity from the acceleration.  Only
      position and velocity change, and the particle moves at the mean of
      its old and its drifted velocity. */
  function Drifted(b: Snapshot, dt: real): (r: Snapshot)
    ensures r.(x := b.x, y := b.y, vx := b.vx, vy := b.vy) == b
  {
    b.(x := b.x + Displacement(b.vx, b.ax, dt),
       y := b.y + Displacement(b.vy, b.ay, dt),
       vx := b.vx + b.ax * dt,
       vy := b.vy + b.ay * dt)
  }

  /** The drift moves a particle at the mean of its old velocity and its
      velocity before friction, `v + a dt`. */
  lemma {:induction false} DriftAtMeanVelocity(b: Snapshot, dt: real)
    ensures var r := Drifted(b, dt);
      && r.x == b.x + (b.vx + r.vx) / 2.0 * dt
      && r.y == b.y + (b.vy + r.vy) / 2.0 * dt
  {
    MeanVelocity(b.vx, b.ax, dt);
    MeanVelocity(b.vy, b.ay, dt);
  }

  lemma MeanVelocity(v: real, a: real, dt: real)
    ensures Displacement(v, a, dt) == (v + (v + a * dt)) / 2.0 * dt
  {
    calc {
      (v + (v + a * dt)) / 2.0 * dt;
    ==
      (2.0 * v + a * dt) / 2.0 * dt;
    ==
      (v + a * dt / 2.0) * dt;
    ==
      v * dt + a * dt / 2.0 * dt;
    ==
      Displacement(v, a, dt);
    }
  }

  /** One integration step of a particle over `dt`: drift, friction on each
      velocity component, and the acceleration consumed. */
  function Integrated(b: Snapshot, dt: real, friction: real, epsilon: real): (r: Snapshot)
    ensures r.x == b.x + Displacement(b.vx, b.ax, dt)
    ensures r.y == b.y + Displacement(b.vy, b.ay, dt)
    ensures r.vx == Damped(b.vx + b.ax * dt, dt, friction, epsilon)
    ensures r.vy == Damped(b.vy + b.ay * dt, dt, friction, epsilon)
    ensures r.ax == 0.0 && r.ay == 0.0
    ensures r.mass == b.mass && r.size == b.size
  {
    var d := Drifted(b, dt);
    d.(vx := Damped(d.vx, dt, friction, epsilon),
       vy := Damped(d.vy, dt, friction, epsilon),
       ax := 0.0, ay := 0.0)
  }

  /** With friction a component becomes `v (1 - friction dt)`, except that one
      whose magnitude falls below `epsilon` becomes exactly zero; so no
      component is left strictly between 0 and `epsilon` in magnitude. */
  lemma FrictionSnaps(v: real, dt: real, friction: real, epsilon: real)
    requires friction > 0.0
    ensures var s := v * (1.0 - friction * dt);
      var r := Damped(v, dt, friction, epsilon);
      && (Abs(s) < epsilon ==> r == 0.0)
      && (Abs(s) >= epsilon ==> r == s)
      && (r == 0.0 || Abs(r) >= epsilon)
  {
  }

  /** Without friction a velocity component is left exactly as it is, with
      no snapping however small it is. */
  lemma FrictionlessIsIdentity(v: real, dt: real, friction: real, epsilon: real)
    requires friction <= 0.0
    ensures Damped(v, dt, friction, epsilon) == v
  {
  }

  /** A particle with no acceleration and no friction coasts: it moves by
      `v dt` and keeps its velocity. */
  lemma Coasting(b: Snapshot, dt: real, epsilon: real)
    requires b.ax == 0.0 && b.ay == 0.0
    ensures Integrated(b, dt, 0.0, epsilon) == b.(x := b.x + b.vx * dt, y := b.y + b.vy * dt)
  {
  }

  /** With `0 < friction dt <= 1` friction never speeds a component up, and
      slows every non-zero component strictly. */
  lemma {:induction false} FrictionSlows(v: real, dt: real, friction: real, epsilon: real)
    requires friction > 0.0 && 0.0 < friction * dt <= 1.0
    ensures Abs(Damped(v, dt, friction, epsilon)) <= Abs(v)
    ensures v != 0.0 ==> Abs(Damped(v, dt, friction, epsilon)) < Abs(v)
  {
    var k := FrictionFactor(friction, dt);
    assert 0.0 <= k < 1.0;
    var s := v * k;
    assert Abs(s) == Abs(v) * k by {
      if v < 0.0 { assert s <= 0.0; } else { assert s >= 0.0; }
    }
    ScaledDown(Abs(v), k);
    var r := Damped(v, dt, friction, epsilon);
    assert r == Snap(s, epsilon);
    assert Abs(r) <= Abs(s) by {
      if Abs(s) < epsilon { assert r == 0.0; } else { assert r == s; }
    }
    assert Abs(s) <= Abs(v);
    if v != 0.0 {
      assert Abs(v) > 0.0;
    }
  }

  lemma ScaledDown(a: real, k: real)
    requires a >= 0.0 && 0.0 <= k < 1.0
    ensures a * k <= a
    ensures a > 0.0 ==> a * k < a
  {
  }

  /** The friction step on a velocity, shared by the particle and the
      physics worker: when `friction` is positive both components are
      scaled by `1 - friction dt` and each one below `epsilon` in magnitude
      is stopped. */
  method Dampen(vx: real, vy: real, dt: real, friction: real, epsilon: real) returns (vx': real, vy': real)
    ensures vx' == Damped(vx, dt, friction, epsilon)
    ensures vy' == Damped(vy, dt, friction, epsilon)
  {
    vx', vy' := vx, vy;
    if friction > 0.0 {
      var frictionFactor := FrictionFactor(friction, dt);
      vx' := vx' * frictionFactor;
      vy' := vy' * frictionFactor;
      if Abs(vx') < epsilon {
        vx' := 0.0;
      }
      if Abs(vy') < epsilon {
        vy' := 0.0;
      }
    }
  }

  /** A particle object of the drawing side.  Its colour (a rendering detail)
      is not modelled. */
  class Particle {
    var x: real
    var y: real
    var mass: real
    var size: real
    var vx: real
    var vy: real
    var ax: real
    var ay: real

    /** A new particle at rest with no accumulated acceleration. */
    constructor (x: real, y: real, mass: real, size: real)
      ensures Serialize() == Snapshot(x, y, 0.0, 0.0, 0.0, 0.0, mass, size)
    {
      this.x := x;
      this.y := y;
      this.mass := mass;
      this.size := size;
      this.vx := 0.0;
      this.vy := 0.0;
      this.ax := 0.0;
      this.ay := 0.0;
    }

    /** The eight physics fields as a record. */
    function Serialize(): (s: Snapshot)
      reads this
      ensures s.x == x && s.y == y && s.vx == vx && s.vy == vy
      ensures s.ax == ax && s.ay == ay && s.mass == mass && s.size == size
    {
      Snapshot(x, y, vx, vy, ax, ay, mass, size)
    }

    /** A fresh particle holding the fields of `data`. */
    static method Deserialize(data: Snapshot) returns (p: Particle)
      ensures fresh(p)
      ensures p.Serialize() == data
    {
      p := new Particle(data.x, data.y, data.mass, data.size);
      p.vx := data.vx;
      p.vy := data.vy;
      p.ax := data.ax;
      p.ay := data.ay;
    }

    /** A fresh particle with the same physics fields. */
    method Clone() returns (p: Particle)
      ensures fresh(p)
      ensures p.Serialize() == Serialize()
    {
      p := new Particle(x, y, mass, size);
      p.vx := vx;
      p.vy := vy;
      p.ax := ax;
      p.ay := ay;
    }

    /** One integration step, stopping velocity components below 0.001. */
    method Update(dt: real, friction: real := 0.0)
      modifies this
      ensures Serialize() == Integrated(old(Serialize()), dt, friction, UPDATE_EPSILON)
    {
      Drift(dt);
      ApplyFriction(dt, friction);
      ax := 0.0;
      ay := 0.0;
    }

    /** The position and velocity part of `Update`. */
    method Drift(dt: real)
      modifies this
      ensures Serialize() == Drifted(old(Serialize()), dt)
    {
      x := x + vx * dt + ax * dt * dt / 2.0;
      y := y + vy * dt + ay * dt * dt / 2.0;
      vx := vx + ax * dt;
      vy := vy + ay * dt;
      assert x == old(x) + Displacement(old(vx), old(ax), dt);
      assert y == old(y) + Displacement(old(vy), old(ay), dt);
    }

    /** The friction part of `Update`. */
    method ApplyFriction(dt: real, friction: real)
      modifies this
      ensures Serialize() == old(Serialize()).(vx := Damped(old(vx), dt, friction, UPDATE_EPSILON),
                                               vy := Damped(old(vy), dt, friction, UPDATE_EPSILON))
    {
      vx, vy := Dampen(vx, vy, dt, friction, UPDATE_EPSILON);
    }

    /** Accumulates the acceleration `F / m` of a force `(fx, fy)`. */
    method ApplyForce(fx: real, fy: real)
      requires mass != 0.0
      modifies this
      ensures Serialize() == Pushed(old(Serialize()), fx, fy)
    {
      ax := ax + fx / mass;
      ay := ay + fy / mass;
    }
  }

  /** Applying two forces one after the other accumulates the same
      acceleration as applying their sum once. */
  lemma {:induction false} ForcesAdd(b: Snapshot, fx1: real, fy1: real, fx2: real, fy2: real)
    requires b.mass != 0.0
    ensures Pushed(Pushed(b, fx1, fy1), fx2, fy2) == Pushed(b, fx1 + fx2, fy1 + fy2)
  {
    var m := b.mass;
    var once := Pushed(b, fx1, fy1);
    var twice := Pushed(once, fx2, fy2);
    var summed := Pushed(b, fx1 + fx2, fy1 + fy2);
    assert once.mass == m;
    SumOfQuotients(fx1, fx2, m);
    SumOfQuotients(fy1, fy2, m);
    assert twice.ax == summed.ax;
    assert twice.ay == summed.ay;
  }

  lemma SumOfQuotients(a: real, b: real, m: real)
    requires m != 0.0
    ensures a / m + b / m == (a + b) / m
  {
  }
}
