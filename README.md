# GravSim core in Dafny

GravSim is a browser N-body gravity simulator. Its drawing side (`Simulator`)
keeps a list of `Particle` objects and converts between world and screen
coordinates. A physics worker holds the same particles as plain records. Every
tick, the worker:

1. visits every unordered pair: a close pair collides, any other pair
   attracts gravitationally;
2. integrates each particle;
3. drops the particles that left the world;
4. posts the list back.

A spatial hash (`Grid`) files particles by cell and answers neighbourhood
queries.

This project models that core and proves what it promises:

- `particle.dfy` (module `Particles`): the particle record as a `Snapshot`
  datatype, the integrator and force accumulation as functions, and the
  particle object as a class whose methods are proved against those
  functions.
- `physics_worker.dfy` (module `Physics`): the worker as a class over a
  `seq<Snapshot>` and its tunables.
  - `UpdatePhysics` runs the two nested loops of the original, and each
    particle is integrated at the end of its own row. It is proved equal to
    the specification `Tick`: every pair in order (`PairPass`), then every
    particle integrated (`IntegrateAll`), then the cull (`Cull`).
  - The bridge between the two orders is `RowCommutesWithIntegration`.
    Visiting a pair never touches a particle that is already integrated.
  - `OnMessage` is proved against `Receive`.
- `physics_properties.dfy` (module `PhysicsProperties`): the physics of one
  pair and the properties of the pair pass, the cull and the message
  handler. These cover:
  - branch exclusivity;
  - Newton's third law as `m_i Δa_i = -m_j Δa_j`;
  - the attraction pointing from one particle to the other;
  - the pair test seeing start-of-tick positions;
  - the cull as an order-keeping filter.
- `grid.dfy` (module `SpatialGrid`): the grid as a class over
  `map<(int, int), set<Particle>>`. The nested query loops are proved to
  return exactly the union of the cells in the search square.
- `simulator.dfy` (module `Simulation`): the coordinate conversions and their
  round trips, the fit-to-canvas zoom, the zoom clamp, and the particle-list
  bookkeeping of the drawing side.
- `messages.dfy` (module `Messages`): the messages exchanged by the two
  sides. They are one constructor per `type` string, plus `Unrecognised`.

`Math.sqrt` is a parameter `sqrt: real -> real`. The lemmas that need its
meaning require `IsSqrt(sqrt)`.

Five facts about the code shape the model:

- **Collisions:** a close pair only has both velocities multiplied by
  `dampening` (physics-worker.js:37-40). There is no impulse along the
  line of centres and no correction of the overlap (`Slowed`,
  `PairCollides`).
- **Softening:** `Math.max(distance, minDistance)` at physics-worker.js:45
  never takes effect. The force branch runs only when
  `distance >= minDistance`, so the maximum is always `distance`
  (`Interaction`).
- **Integration order:** the position is updated from the velocity held
  before the step (physics-worker.js:63-64), and only then is the velocity
  updated (67-68). The particle moves at the mean of its old velocity
  and its velocity before friction (`DriftAtMeanVelocity`).
- **Cull margin:** the margin is each particle's own `size`
  (physics-worker.js:92), not a fixed amount (`InBounds`, `Cull`).
- **Order within a tick:** particle `i` is integrated right after its own
  row of pairs (physics-worker.js:21-88), not after every pair is visited.
  `PairSeesStartOfTick` shows the pair test still sees start-of-tick
  positions, and `Worker.Step` proves the interleaved loops equal to
  visiting every pair first and then integrating every particle.

## Model

| member | source | states |
|---|---|---|
| Particles.Max | physics-worker.js:45 | `Math.max`: at least both arguments and equal to one of them |
| Particles.Pushed | particle.js:49-53 | applying force `(fx, fy)` changes the acceleration by exactly `F / m` (`m Δa = F`) and leaves every other field as it was |
| Particles.Integrated | particle.js:20-47 | one update step, field by field: position from the old velocity plus `a dt^2 / 2`, velocity `v + a dt` then friction, acceleration reset to 0, mass and size kept |
| Particles.Drifted | particle.js:26-31 | the drift changes only position and velocity |
| Particles.DriftAtMeanVelocity | particle.js:26-31 | the position moves at the mean of the old velocity and the velocity before friction, `(v + v') / 2 dt` with `v' = v + a dt` |
| Particles.Dampen | physics-worker.js:71-83 | the friction step shared by particle and worker: each component is `Damped` with the given threshold |
| Particles.FrictionlessIsIdentity | particle.js:34-42 | with `friction <= 0` a velocity component is neither scaled nor snapped |
| Particles.FrictionSnaps | particle.js:34-42 | with `friction > 0` a component becomes `v (1 - friction dt)`, or exactly 0 when that is below the threshold in magnitude; no component is left strictly between 0 and the threshold |
| Particles.Coasting | particle.js:26-31 | with no acceleration and no friction a particle moves by `v dt` and keeps its velocity |
| Particles.FrictionSlows | particle.js:34-42 | with `0 < friction dt <= 1` friction never speeds a component up and strictly slows every non-zero one |
| Particles.ForcesAdd | particle.js:49-53 | two applied forces accumulate the same acceleration as their sum applied once |
| Particles.Particle.constructor | particle.js:2-10 | a new particle holds the given position, mass and size, with zero velocity and acceleration |
| Particles.Particle.Serialize | particle.js:63-74 | the record carries exactly the eight physics fields |
| Particles.Particle.Deserialize | particle.js:77-89 | a fresh particle whose eight fields are those of the record, so `deserialize(serialize(p))` reproduces `p` |
| Particles.Particle.Clone | particle.js:92-104 | a fresh particle with the same eight fields |
| Particles.Particle.Update | particle.js:20-47 | the new fields are `Integrated` of the old ones with threshold 0.001 |
| Particles.Particle.Drift | particle.js:26-31 | position and velocity updated from the old velocity and acceleration |
| Particles.Particle.ApplyFriction | particle.js:33-42 | velocities scaled by `1 - friction dt` and snapped below 0.001, only when `friction > 0` |
| Particles.Particle.ApplyForce | particle.js:49-53 | the new fields are `Pushed` of the old ones |
| Physics.TimeStep | physics-worker.js:18 | one tick simulates `speedMultiplier / 60` seconds |
| Physics.SquaredDistance | physics-worker.js:28-30 | the squared distance is never negative |
| Physics.Interaction | physics-worker.js:28-52 | a pair collides exactly when `sqrt(dx^2 + dy^2) < 1.5 (size_i + size_j)`; otherwise the distance is positive and the force is `ScaledForce` at the distance itself along `(dx, dy) / distance` |
| Physics.ScaledForce | physics-worker.js:45-48 | inverse-square law: the scaled force times the squared distance is the constant `G m_i m_j SCALE_FACTOR` |
| Physics.Slowed | physics-worker.js:37-40 | a collision changes only the two velocity components |
| Physics.PairPass | physics-worker.js:21-59 | the pair pass keeps every position, mass and size, index by index, and keeps the particles simulable |
| Physics.Integrate | physics-worker.js:61-87 | integration consumes the acceleration, keeps mass and size, and without friction sets the velocity to `v + a dt` |
| Physics.InBounds | physics-worker.js:91-96 | a particle of non-negative size inside the world square is kept |
| Physics.PairEffect | physics-worker.js:34-58 | a pair visit never changes a position, mass or size |
| Physics.PairStep | physics-worker.js:26-58 | visiting a pair keeps every particle's position, mass and size |
| Physics.RowUpTo | physics-worker.js:25-59 | a partial row of pairs keeps positions, masses and sizes |
| Physics.PairsBefore | physics-worker.js:21-59 | the rows of pairs before row `i` keep positions, masses and sizes |
| Physics.IntegrateAll | physics-worker.js:61-87 | integration keeps the length, every mass and size, and leaves every acceleration 0 |
| Physics.Cull | physics-worker.js:91-97 | a particle survives exactly when it lies within its own size of the world square; never more particles than before |
| Physics.Tick | physics-worker.js:15-100 | a paused tick changes nothing; otherwise only the list changes, it does not grow, and every survivor is in bounds with zero acceleration |
| Physics.Receive | physics-worker.js:107-132 | each message type writes its own fields only: `init` the list and world size, `update` the list, an unrecognised type nothing |
| Physics.Worker.constructor | physics-worker.js:7-12 | the initial state: no particles, running, friction 0.01, dampening 0.05, speed 1, world size 5000 |
| Physics.Worker.OnMessage | physics-worker.js:107-132 | the new state is `Receive` of the old one |
| Physics.Worker.UpdatePhysics | physics-worker.js:15-101 | the new state is `Tick` of the old one; an update message is posted exactly when not paused |
| Physics.Worker.Step | physics-worker.js:21-88 | the interleaved loops leave the list at `IntegrateAll(PairPass(start))` |
| Physics.Worker.Sweep | physics-worker.js:22-87 | after row `i` and the integration of particle `i`, particles `0..i` are integrated and the rest are as the pair pass left them |
| Physics.Worker.VisitRow | physics-worker.js:25-59 | the inner loop visits pairs `(i, i+1) .. (i, n-1)` in order |
| Physics.Worker.VisitPair | physics-worker.js:26-58 | the inner loop body is `PairStep` |
| Physics.Worker.IntegrateAt | physics-worker.js:61-87 | particle `i` becomes `Integrate` of itself with threshold 1e-10; no other particle changes |
| Physics.IntegratedAll | physics-worker.js:21-88 | once every particle is integrated, the list is `IntegrateAll` of the pair pass |
| Physics.PairStepCommutesWithIntegration | physics-worker.js:21-64 | a pair `(i, j)` commutes with integrating particles before `i` |
| Physics.RowCommutesWithIntegration | physics-worker.js:21-64 | a partial row `i` commutes with integrating particles before `i` |
| Physics.SweepStep | physics-worker.js:21-88 | one outer-loop round keeps the interleaved list in step with the pair pass |
| PhysicsProperties.CollisionIffClose | physics-worker.js:30-35 | the collision branch is taken exactly when the squared distance is below `(1.5 (size_i + size_j))^2` |
| PhysicsProperties.ScaledForcePositive | physics-worker.js:45-48 | between positive masses the scaled force is positive |
| PhysicsProperties.AttractionPullsTogether | physics-worker.js:51-52 | the force on `i` is parallel to `(dx, dy)` and has the sign of each component |
| PhysicsProperties.IntegrateSettles | physics-worker.js:71-83 | with friction no velocity component is left strictly between 0 and `1e-10` in magnitude |
| PhysicsProperties.CollisionSlows | physics-worker.js:37-40 | with `0 <= dampening <= 1` a collision never speeds a particle up along either axis |
| PhysicsProperties.PairCollides | physics-worker.js:34-42 | a close pair only has both velocities multiplied by `dampening`; no acceleration is added |
| PhysicsProperties.PairAttracts | physics-worker.js:45-58 | any other pair keeps positions and velocities, obeys `m_i Δa_i = -m_j Δa_j` on each axis, and pulls `i` toward `j` |
| PhysicsProperties.OppositePushes | physics-worker.js:55-58 | opposite forces change the two momenta by exactly `F` and `-F` |
| PhysicsProperties.PairSeesStartOfTick | physics-worker.js:21-64 | when pair `(i, j)` is visited, both particles still have their start-of-tick positions, masses and sizes, so the test and force are those of the start of the tick |
| PhysicsProperties.CullAppend | physics-worker.js:91-97 | the cull distributes over concatenation, so survivors keep their relative order |
| PhysicsProperties.CullOne | physics-worker.js:91-97 | a single particle is kept exactly when it is in bounds |
| PhysicsProperties.CullKeepsInBounds | physics-worker.js:91-97 | a list wholly in bounds is kept whole |
| PhysicsProperties.CullIdempotent | physics-worker.js:91-97 | culling twice is culling once |
| PhysicsProperties.ReceiveIdempotent | physics-worker.js:107-132 | receiving the same message twice is receiving it once |
| PhysicsProperties.UnrecognisedIgnored | physics-worker.js:107-132 | an unrecognised message type changes nothing |
| SpatialGrid.Ceil | grid.js:34 | `Math.ceil`: the least integer not below its argument |
| SpatialGrid.CellIndex | grid.js:10-11 | `floor(v / cellSize)`: the `k` with `k cellSize <= v < (k + 1) cellSize` |
| SpatialGrid.IndexUnique | grid.js:10-11 | that `k` is the only one |
| SpatialGrid.SameIntervalSameIndex | grid.js:9-13 | two coordinates in the same `cellSize`-aligned interval get the same cell index |
| SpatialGrid.Inserted | grid.js:16-22 | after filing, `p` is in its cell, no other cell changes, and the cell gains only `p` |
| SpatialGrid.InsertTwice | grid.js:18-21 | filing a particle twice is filing it once |
| SpatialGrid.InsertedIsNearby | grid.js:30-47 | a filed particle is found by a search of non-negative radius around its cell |
| SpatialGrid.NeighbourhoodGrows | grid.js:16-22 | filing a particle never removes one from any neighbourhood |
| SpatialGrid.ClearedFindsNothing | grid.js:25-27 | a cleared grid finds nothing |
| SpatialGrid.SearchRadius | grid.js:34 | the search radius in cells has the sign of the query radius |
| SpatialGrid.DefaultRadiusIsOneCell | grid.js:30-34 | the default radius searches one cell around, a 3 x 3 block |
| SpatialGrid.Grid.constructor | grid.js:2-6 | an empty grid with the given size and cell size |
| SpatialGrid.Grid.GetCellKey | grid.js:9-13 | the key's coordinates are the cell indices of `x` and `y` |
| SpatialGrid.Grid.AddParticle | grid.js:16-22 | the new cells are `Inserted` of the old ones |
| SpatialGrid.Grid.Clear | grid.js:25-27 | no cells are left |
| SpatialGrid.Grid.GetNearbyParticles | grid.js:30-48 | the result is exactly the union of the cells within the search radius of the query cell; the cells are not changed |
| Simulation.ScreenToWorld | simulator.js:37-44 | the world point is the one that `scale` and the centring offset map to the screen point |
| Simulation.WorldToScreen | simulator.js:46-53 | each screen coordinate is the world coordinate times `scale` plus the centring offset `(dim - simSize scale) / 2` |
| Simulation.WorldScreenWorld | simulator.js:37-53 | `screenToWorld(worldToScreen(w)) == w` whenever `scale != 0` |
| Simulation.ScreenWorldScreen | simulator.js:37-53 | `worldToScreen(screenToWorld(s)) == s` whenever `scale != 0` |
| Simulation.WorldToScreenAffine | simulator.js:46-53 | each axis depends only on its own world coordinate, and `d` world units are `d scale` pixels |
| Simulation.CentreToCentre | simulator.js:46-53 | the centre of the world is drawn at the centre of the canvas |
| Simulation.Min | simulator.js:180 | `Math.min`: at most both arguments and equal to one of them |
| Simulation.CalculateMaxZoom | simulator.js:176-181 | `min(width / simSize, height / simSize)` |
| Simulation.FittedWorldIsVisible | simulator.js:176-181 | at that scale the whole world square is on the canvas and spans it along one axis |
| Simulation.ClampedZoom | simulator.js:188-199 | the new zoom is the requested one raised to `maxZoom` when zooming out and to `minZoom` otherwise |
| Simulation.ZoomInGrows | simulator.js:188-199 | zooming in from a non-negative zoom never lowers it |
| Simulation.Serialized | simulator.js:62 | one snapshot per particle, in order |
| Simulation.Simulator.constructor | simulator.js:2-16 | no particles, zoom 1, and scale `calculateMaxZoom() * zoom` |
| Simulation.Simulator.HandleZoom | simulator.js:183-205 | the zoom becomes `ClampedZoom` of the old zoom and the scale becomes `calculateMaxZoom() * zoom` |
| Simulation.Simulator.AddParticle | simulator.js:55-65 | exactly one new particle at rest is appended and returned, earlier entries are kept, and the whole list is posted as an update |
| Simulation.Simulator.Clear | simulator.js:67-73 | the list becomes empty and an empty update is posted |
| Simulation.Simulator.HandlePhysicsMessage | simulator.js:218-230 | an update replaces the list with one fresh, distinct particle per incoming snapshot, in order; any other message leaves it unchanged |

## Left out

- IEEE-754 doubles and `Decimal` are modelled as exact `real` arithmetic, with no rounding, NaN or Infinity.
- `toString` and parsing in `serialize` and `deserialize` are the identity on values.
- In the original, the serialized fields are strings. The model treats every field as a number, and that is where it departs from the original:
  - JavaScript coerces a string to a number for `*`, `/` and `-`.
  - A comparison coerces only when one side is a number. When both sides are strings, it compares them as text.
  - `+` with a string on either side concatenates.
  - `particle.ax +=` and `particle.ay +=` (physics-worker.js:55-56), `particle.x +=` and `particle.y +=` (63-64), and `particle.vx +=` and `particle.vy +=` (67-68) append digits to the field.
  - `(particle.size + other.size) * 1.5` at physics-worker.js:34 concatenates the sizes. Two particles of size 15 get the radius `"1515" * 1.5 = 2272.5` instead of 45.
  - `simSize + margin` at physics-worker.js:94 and 96 concatenates, giving `"500015"` for a size of 15. `particle.x` is a string there as well, so `<=` compares two strings as text: a particle at x = 600 fails the test, because `"6…"` sorts after `"5…"`.
- `Math.sqrt` is the parameter `sqrt`. The tick needs nothing about it, and the pair lemmas require `IsSqrt(sqrt)`.
- `setInterval`, `postMessage` and `new Worker` are left out. A tick is a call to `UpdatePhysics`, and a message is a call to `OnMessage` or `HandlePhysicsMessage`. The posted message is returned.
- Nothing is modelled of the canvas except its width and height. `draw`, `drawGrid`, `resize`, `init`, the FPS counter, `generateColor` and the particle colour are left out.
- `main.js` is not part of this model.
- The message `type` strings become constructors of `Message`, with `Unrecognised` for any other string.
- The grid's string keys `"cellX,cellY"` are modelled as integer pairs. Distinct pairs give distinct strings.
- The grid's per-particle insertion loop in `getNearbyParticles` is modelled as a set union per cell.
- "Each unordered pair is visited exactly once" is not a separate lemma. It is built into `PairsBefore` and `RowUpTo`, which visit pair `(i, j)` once for each `i < j`, and into `Worker.Step`, which is proved equal to them.
- Physics.Tick: requires every particle to have positive mass and size (`CanTick`). This is a modelling choice, not a check of the original. Positive mass is what the model takes every particle to have, and it keeps the divisions by mass defined. Positive size makes `minDistance` positive, so `distance > 0` whenever the force branch divides by it.
- Physics.Worker.UpdatePhysics: has the same requirement, as the same modelling choice.
- Physics.Worker.Step: has the same requirement, as the same modelling choice.
- Particles.Particle.ApplyForce: requires a non-zero mass, because real division by zero is undefined in the model.
- Particles.Pushed: requires a non-zero mass, for the same reason.
- Simulation.ScreenToWorld: requires `scale != 0`, since the original divides by it.
- SpatialGrid.Grid.GetNearbyParticles: requires a positive cell size, as a modelling choice. A zero cell size gives the original infinite or NaN cell indices. A negative one would also divide, with mirrored cells, but the model excludes it. The grid's constructor and `GetCellKey` have the same requirement.
- Simulation.Simulator.HandleZoom: takes only `deltaY`. The mouse position feeds `worldBefore`, `worldAfter`, `dx` and `dy`, which the original computes and never uses, and the final `draw()` is left out.
- Simulation.Simulator.constructor: takes the canvas size as given. The `resize()` call that reads the parent element's size is left out. `simSize` stays the constant 5000 that the constructor sets (simulator.js:6). `main.js` assigns a new value to it, and `main.js` is not part of this model.
