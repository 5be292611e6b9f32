/** What one pair visit, the pair pass, the cull and the message handler of
    the physics worker promise, stated over the functions that specify them. */
module PhysicsProperties {
  import opened Particles
  import opened Messages
  import opened Physics

  // ---------------------------------------------------------------------
  // The distance test

  /** For non-negative reals, comparing values is comparing squares. */
  lemma SquareMonotone(a: real, b: real)
    requires 0.0 <= a && 0.0 <= b
    ensures a < b <==> Square(a) < Square(b)
  {
    if a < b {
      calc {
        Square(a);
      ==
        a * a;
      <=
        a * b;
      <
        b * b;
      ==
        Square(b);
      }
    } else {
      calc {
        Square(b);
      ==
        b * b;
      <=
        b * a;
      <=
        a * a;
      ==
        Square(a);
      }
    }
  }

  /** The collision branch is taken exactly when the squared distance is
      below the squared collision radius, so the test needs no square root. */
  lemma CollisionIffClose(p: Body, q: Body, sqrt: real -> real)
    requires IsSqrt(sqrt) && p.size + q.size > 0.0
    ensures Interaction(p, q, sqrt).Collision?
        <==> SquaredDistance(p, q) < Square(MinDistance(p, q))
  {
    var d2 := SquaredDistance(p, q);
    var distance := sqrt(d2);
    assert 0.0 <= distance && distance * distance == d2;
    assert Square(distance) == d2;
    SquareMonotone(distance, MinDistance(p, q));
  }

  // ---------------------------------------------------------------------
  // The force branch

  lemma ScaledForcePositive(p: Body, q: Body, softening: real)
    requires p.mass > 0.0 && q.mass > 0.0 && softening > 0.0
    ensures ScaledForce(p, q, softening) > 0.0
  {
    PositiveSquare(softening);
    var m := G * p.mass * q.mass;
    assert m > 0.0;
    assert m / Square(softening) > 0.0;
  }

  /** A force `(fx, fy) = s (dx, dy) / d` with `s, d > 0` points along
      `(dx, dy)`. */
  lemma ScaledComponents(fx: real, fy: real, s: real, d: real, dx: real, dy: real)
    requires s > 0.0 && d > 0.0 && fx == s * dx / d && fy == s * dy / d
    ensures fx * dx >= 0.0 && fy * dy >= 0.0 && fx * dy == fy * dx
  {
    var k := s / d;
    assert k > 0.0;
    assert fx == k * dx;
    assert fy == k * dy;
    assert (k * dx) * dx == k * (dx * dx);
    assert (k * dy) * dy == k * (dy * dy);
    assert (k * dx) * dy == (k * dy) * dx;
  }

  /** The force on `p` points towards `q`: it is parallel to `(dx, dy)` and
      has the sign of each component. */
  lemma AttractionPullsTogether(p: Body, q: Body, sqrt: real -> real)
    requires p.mass > 0.0 && q.mass > 0.0 && p.size + q.size > 0.0
    requires Interaction(p, q, sqrt).Attraction?
    ensures var o := Interaction(p, q, sqrt);
      && o.forceX * (q.x - p.x) >= 0.0
      && o.forceY * (q.y - p.y) >= 0.0
      && o.forceX * (q.y - p.y) == o.forceY * (q.x - p.x)
  {
    var distance := sqrt(SquaredDistance(p, q));
    var o := Interaction(p, q, sqrt);
    ScaledForcePositive(p, q, distance);
    ScaledComponents(o.forceX, o.forceY, ScaledForce(p, q, distance), distance, q.x - p.x, q.y - p.y);
  }

  // ---------------------------------------------------------------------
  // Integration

  /** With friction the worker leaves no velocity component strictly
      between 0 and `VELOCITY_EPSILON` in magnitude. */
  lemma {:induction false} IntegrateSettles(b: Snapshot, dt: real, friction: real)
    requires friction > 0.0
    ensures var r := Integrate(b, dt, friction);
      && (r.vx == 0.0 || Abs(r.vx) >= VELOCITY_EPSILON)
      && (r.vy == 0.0 || Abs(r.vy) >= VELOCITY_EPSILON)
  {
    FrictionSnaps(b.vx + b.ax * dt, dt, friction, VELOCITY_EPSILON);
    FrictionSnaps(b.vy + b.ay * dt, dt, friction, VELOCITY_EPSILON);
  }

  // ---------------------------------------------------------------------
  // One pair

  /** The change of momentum `m da` of a particle whose acceleration went
      from `before` to `after`, along x and along y. */
  function MomentumChangeX(before: Snapshot, after: Snapshot): real
  {
    before.mass * (after.ax - before.ax)
  }

  function MomentumChangeY(before: Snapshot, after: Snapshot): real
  {
    before.mass * (after.ay - before.ay)
  }

  /** A pair closer than its collision radius takes the collision branch:
      both velocities are multiplied by `dampening` and nothing else
      changes, the accelerations included. */
  lemma PairCollides(p: Snapshot, q: Snapshot, dampening: real, sqrt: real -> real)
    requires IsSqrt(sqrt) && Massive(p) && Massive(q)
    requires SquaredDistance(BodyOf(p), BodyOf(q)) < Square(MinDistance(BodyOf(p), BodyOf(q)))
    ensures var r := PairEffect(p, q, dampening, sqrt);
      && r.0 == p.(vx := p.vx * dampening, vy := p.vy * dampening)
      && r.1 == q.(vx := q.vx * dampening, vy := q.vy * dampening)
  {
    assert Interaction(BodyOf(p), BodyOf(q), sqrt).Collision? by {
      CollisionIffClose(BodyOf(p), BodyOf(q), sqrt);
    }
    assert PairEffect(p, q, dampening, sqrt) == (Slowed(p, dampening), Slowed(q, dampening));
  }

  /** With `0 <= dampening <= 1` a collision never speeds a particle up
      along either axis. */
  lemma {:induction false} CollisionSlows(b: Snapshot, dampening: real)
    requires 0.0 <= dampening <= 1.0
    ensures Abs(Slowed(b, dampening).vx) <= Abs(b.vx)
    ensures Abs(Slowed(b, dampening).vy) <= Abs(b.vy)
  {
    DampenedComponent(b.vx, dampening);
    DampenedComponent(b.vy, dampening);
  }

  lemma DampenedComponent(v: real, dampening: real)
    requires 0.0 <= dampening <= 1.0
    ensures Abs(v * dampening) <= Abs(v)
  {
    if v < 0.0 {
      assert v * dampening >= v;
    } else {
      assert v * dampening <= v;
    }
  }

  /** Any other pair takes the force branch: positions and velocities are
      untouched, the accelerations change by equal and opposite forces
      (`m_i da_i = -m_j da_j`), and `p` is pulled towards `q`. */
  lemma PairAttracts(p: Snapshot, q: Snapshot, dampening: real, sqrt: real -> real)
    requires IsSqrt(sqrt) && Massive(p) && Massive(q)
    requires SquaredDistance(BodyOf(p), BodyOf(q)) >= Square(MinDistance(BodyOf(p), BodyOf(q)))
    ensures var r := PairEffect(p, q, dampening, sqrt);
      && r.0.(ax := p.ax, ay := p.ay) == p
      && r.1.(ax := q.ax, ay := q.ay) == q
      && MomentumChangeX(p, r.0) == -MomentumChangeX(q, r.1)
      && MomentumChangeY(p, r.0) == -MomentumChangeY(q, r.1)
      && MomentumChangeX(p, r.0) * (q.x - p.x) >= 0.0
      && MomentumChangeY(p, r.0) * (q.y - p.y) >= 0.0
  {
    var bp := BodyOf(p);
    var bq := BodyOf(q);
    var o := Interaction(bp, bq, sqrt);
    assert o.Attraction? by {
      CollisionIffClose(bp, bq, sqrt);
    }
    var a := Pushed(p, o.forceX, o.forceY);
    var b := Pushed(q, -o.forceX, -o.forceY);
    assert PairEffect(p, q, dampening, sqrt) == (a, b);
    assert o.forceX * (q.x - p.x) >= 0.0 && o.forceY * (q.y - p.y) >= 0.0 by {
      AttractionPullsTogether(bp, bq, sqrt);
    }
    OppositePushes(p, q, o.forceX, o.forceY);
  }

  /** Opposite forces on two particles change their momenta oppositely. */
  lemma OppositePushes(p: Snapshot, q: Snapshot, fx: real, fy: real)
    requires p.mass != 0.0 && q.mass != 0.0
    ensures MomentumChangeX(p, Pushed(p, fx, fy)) == fx == -MomentumChangeX(q, Pushed(q, -fx, -fy))
    ensures MomentumChangeY(p, Pushed(p, fx, fy)) == fy == -MomentumChangeY(q, Pushed(q, -fx, -fy))
  {
    var a := Pushed(p, fx, fy);
    var b := Pushed(q, -fx, -fy);
    assert a.mass == p.mass && b.mass == q.mass;
  }

  // ---------------------------------------------------------------------
  // The pair pass

  /** When the tick reaches pair `(i, j)`, particles `i` and `j` have moved
      neither by an earlier pair nor by the integration of earlier particles,
      so the distance test and the force of the pair are those of the
      start-of-tick positions, masses and sizes. */
  lemma {:induction false} PairSeesStartOfTick(start: seq<Snapshot>, mixed: seq<Snapshot>, i: nat, j: nat,
                                               dampening: real, sqrt: real -> real, dt: real, friction: real)
    requires Simulable(start) && Simulable(mixed) && i < j < |start|
    requires MappedBefore(mixed, PairsBefore(start, i, dampening, sqrt), i, Integrator(dt, friction))
    ensures var now := RowUpTo(mixed, i, j, dampening, sqrt);
      && BodyOf(now[i]) == BodyOf(start[i]) && BodyOf(now[j]) == BodyOf(start[j])
      && Interaction(BodyOf(now[i]), BodyOf(now[j]), sqrt) == Interaction(BodyOf(start[i]), BodyOf(start[j]), sqrt)
  {
    var done := PairsBefore(start, i, dampening, sqrt);
    RowCommutesWithIntegration(mixed, done, i, j, dampening, sqrt, Integrator(dt, friction));
    var now := RowUpTo(mixed, i, j, dampening, sqrt);
    var expected := RowUpTo(done, i, j, dampening, sqrt);
    assert now[i] == expected[i] && now[j] == expected[j];
    assert BodyOf(expected[i]) == BodyOf(done[i]) && BodyOf(expected[j]) == BodyOf(done[j]);
  }

  // ---------------------------------------------------------------------
  // The cull

  /** The cull is a filter: it distributes over concatenation, so the
      particles kept stay in their original relative order. */
  lemma {:induction false} CullAppend(a: seq<Snapshot>, b: seq<Snapshot>, simSize: real)
    ensures Cull(a + b, simSize) == Cull(a, simSize) + Cull(b, simSize)
  {
    if a == [] {
      assert a + b == b;
    } else {
      assert (a + b)[0] == a[0];
      assert (a + b)[1..] == a[1..] + b;
      CullAppend(a[1..], b, simSize);
    }
  }

  /** A particle on its own is kept exactly when it is in bounds. */
  lemma CullOne(b: Snapshot, simSize: real)
    ensures Cull([b], simSize) == if InBounds(b, simSize) then [b] else []
  {
    assert [b][1..] == [];
  }

  /** A list whose particles are all in bounds is kept whole. */
  lemma {:induction false} CullKeepsInBounds(ps: seq<Snapshot>, simSize: real)
    requires forall k :: 0 <= k < |ps| ==> InBounds(ps[k], simSize)
    ensures Cull(ps, simSize) == ps
  {
    if ps != [] {
      CullKeepsInBounds(ps[1..], simSize);
      assert [ps[0]] + ps[1..] == ps;
    }
  }

  /** Culling twice is culling once. */
  lemma CullIdempotent(ps: seq<Snapshot>, simSize: real)
    ensures Cull(Cull(ps, simSize), simSize) == Cull(ps, simSize)
  {
    var r := Cull(ps, simSize);
    forall k | 0 <= k < |r|
      ensures InBounds(r[k], simSize)
    {
      assert r[k] in r;
    }
    CullKeepsInBounds(r, simSize);
  }

  // ---------------------------------------------------------------------
  // Messages

  /** Receiving the same message twice is receiving it once. */
  lemma ReceiveIdempotent(s: WorkerState, msg: Message)
    ensures Receive(Receive(s, msg), msg) == Receive(s, msg)
  {
  }

  /** An unrecognised message changes nothing. */
  lemma UnrecognisedIgnored(s: WorkerState, kind: string)
    ensures Receive(s, Unrecognised(kind)) == s
  {
  }
}
