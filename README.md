# Mosegaard's cloth kernel, modelled in Dafny

This project models the mass-spring cloth kernel of `3rdParty/MosegaardsClothTutorial`.
The kernel is a grid of particles joined by distance constraints. It is advanced by
Verlet integration and by repeated constraint relaxation. Gravity, wind and a ball act
on it.

The model follows the kernel file by file.

- `vector.dfy` is module `Vector`, for `Vec3.h`. A vector is a datatype of three reals.
  The operators are functions. `+=` is a method on the `float f[3]` array.
- `particle.dfy` is module `ParticleModel`, for `Particle.h`.
  - Class `Particle` keeps the fields of the C++ class.
  - The whole particle state is the `PState` datatype.
  - Each method is proved to change the state exactly as a function on `PState` says, for
    example `TimeStep` and `Integrate`. The properties are lemmas about those functions.
- `constraint.dfy` is module `ConstraintModel`, for `Constraint.h`.
  - Class `Constraint` holds the two particles as indices into the cloth's store. The
    C++ code holds raw pointers.
  - `Satisfy` is proved against `Relaxed`, the function on the store's states.
  - `RelaxAll` and `Relaxations` are the sweeps of `Cloth::timeStep` over the constraint
    list.
- `grid.dfy` is module `ClothGrid`, for the integer part of `Cloth.h`:
  - the row-major index `y * W + x`;
  - the ordered list of links that the two connecting passes emit;
  - the two triangles per grid quad that the wind visits.
- `cloth.dfy` is module `ClothModel`, for the rest of `Cloth.h`.
  - Class `Cloth` owns the particle store, a `seq<Particle>` of `W * H` slots, and the
    constraint list, which its methods reassign.
  - Every loop of the C++ code is a loop here. Its invariant ties the store's states to a
    function of the states the loop started from:
    - `Layout` and `Hung` for the constructor;
    - `Step` for `timeStep`;
    - `PushAll` for `addForce`;
    - `Winded` for `windForce`;
    - `CollideAll` for `ballCollision`.

The Euclidean length needs a square root, which Dafny does not have. So the length is a
parameter `norm: Vec3 -> real`, and the cloth keeps it in a constant field. Lemmas that
depend on what the length is assume `IsLength(norm)`. That predicate says `norm(v)` is
the non-negative square root of `Dot(v, v)`, so it fixes `norm` as the Euclidean length.
The `.norm()` of the `Vector3d` type that `Cloth.h` and `Constraint.h` use is the same
`norm`.

Several C++ expressions divide by a length without a check:
- the current distance in `satisfyConstraint`;
- the normal's length in `normalized()`;
- a particle's distance from the ball's centre.

At a zero length the C++ result is not a number. In `satisfyConstraint` and
`ballCollision` that value only reaches `offsetPos`, which a pinned particle ignores,
so only a free particle can take it. In `addWindForcesForTriangle` the quotient of
`normalized()` reaches all three vertices through `addForce`, and `addToNormal` takes
it, whether the particle is pinned or not. The model handles the two kinds of
operation differently:
- The relaxation functions `Relaxed`, `RelaxAll`, `Relaxations` and `Step` return
  `None` when a free particle would take such an offset. Two pinned particles at
  distance zero relax to themselves (`RelaxedBothPinned`).
- `Normalized`, `AccumulateNormal`, `TriangleForce`, `WindOnTriangle`, `Winded`,
  `Collided` and `CollideAll` have a precondition instead: the length is not zero, or,
  for the ball, no free particle sits at its centre. The methods built on them have
  the same precondition.

Where the code and its own comments or documentation differ, the model follows the code:

- When one end of a constraint is pinned, the other particle moves by the half
  correction only. Nothing moves it by the full correction (`RelaxedFirstPinned`,
  `RelaxedSecondPinned`).
- `ballCollision` only projects free particles. A pinned particle inside the ball stays
  there (`Collided`).
- The pinning loop nudges a left anchor by `+0.5` in x before pinning it. Its nudge back
  by `-0.5` comes after the pin, so it does nothing. A left anchor `(i, 0)` therefore
  ends shifted exactly when it was still free at its round, which is when `2 * i < W`.
  For `W = 3` and `W = 4`, particle `(2, 0)` was already pinned as a right anchor, so it
  is not shifted (`HungAnchors`). The right-hand `makeUnmovable` never shifts a
  particle. A right anchor is shifted only when it is also a left anchor `(x, 0)` with
  `2 * x < W`, as `(2, 0)` is for `W = 5`.
- The connecting loops compare against the constructor's `int` parameters, which shadow
  the `size_t` members. So `H - 2` and `W - 2` do not wrap around when they are
  negative. A one-row cloth simply gets no vertical links.

## Model

| member | source | states |
|---|---|---|
| Vector.Add | 3rdParty/MosegaardsClothTutorial/Vec3.h:54-57 | definition of `+`, component-wise; its laws are `AddSubCancel` and `SubIsAddNeg` |
| Vector.Sub | 3rdParty/MosegaardsClothTutorial/Vec3.h:49-52 | definition of binary `-`, component-wise |
| Vector.Neg | 3rdParty/MosegaardsClothTutorial/Vec3.h:64-67 | definition of unary `-`, component-wise |
| Vector.Scale | 3rdParty/MosegaardsClothTutorial/Vec3.h:59-62 | definition of `* a`, each component times the scalar |
| Vector.Cross | 3rdParty/MosegaardsClothTutorial/Vec3.h:69-72 | definition of `cross`; its laws are `CrossAntisymmetric` and `CrossOrthogonal` |
| Vector.Dot | 3rdParty/MosegaardsClothTutorial/Vec3.h:74-77 | definition of `dot`; its laws are `DotSymmetric` and `DotScaleLeft` |
| Vector.Div | 3rdParty/MosegaardsClothTutorial/Vec3.h:44-47 | division by a non-zero scalar is undone by scaling back: `Scale(r, s) == a` |
| Vector.Normalized | 3rdParty/MosegaardsClothTutorial/Vec3.h:31-35 | `normalized()` is defined only for a non-zero length, and scaling it by the length gives the vector back |
| Vector.NormalizedIsUnit | 3rdParty/MosegaardsClothTutorial/Vec3.h:31-35 | with the Euclidean length, a normalized vector has length one |
| Vector.AddAssign | 3rdParty/MosegaardsClothTutorial/Vec3.h:37-42 | `a += v` leaves the array holding `a + v` |
| Vector.AddSubCancel | 3rdParty/MosegaardsClothTutorial/Vec3.h:49-57 | `(a + b) - b == a` and `(a - b) + b == a` |
| Vector.SubIsAddNeg | 3rdParty/MosegaardsClothTutorial/Vec3.h:49-67 | `a - b == a + (-b)`, `-(-a) == a`, and `-a == a * -1` |
| Vector.DotSymmetric | 3rdParty/MosegaardsClothTutorial/Vec3.h:74-77 | `dot(a, b) == dot(b, a)` |
| Vector.CrossAntisymmetric | 3rdParty/MosegaardsClothTutorial/Vec3.h:69-72 | `cross(a, b) == -cross(b, a)` |
| Vector.CrossOrthogonal | 3rdParty/MosegaardsClothTutorial/Vec3.h:69-77 | `cross(a, b)` is orthogonal to both `a` and `b` |
| Vector.DotScaleLeft | 3rdParty/MosegaardsClothTutorial/Vec3.h:59-77 | `dot(a * s, b) == s * dot(a, b)` |
| Vector.LengthScale | 3rdParty/MosegaardsClothTutorial/Vec3.h:26-29 | the Euclidean length is absolutely homogeneous: `length(v * s) == abs(s) * length(v)` |
| Vector.LengthNeg | 3rdParty/MosegaardsClothTutorial/Vec3.h:26-29 | `length(-v) == length(v)` |
| ParticleModel.Spawn | 3rdParty/MosegaardsClothTutorial/Particle.h:30 | a new particle is free and at rest at `pos` (`old_pos == pos`), with zero acceleration and zero normal |
| ParticleModel.Particle.constructor | 3rdParty/MosegaardsClothTutorial/Particle.h:30 | the new particle's state is `Spawn(pos)`; its mass is the constant one |
| ParticleModel.Push | 3rdParty/MosegaardsClothTutorial/Particle.h:33-36 | `addForce(f)` raises the acceleration by `f / mass` and changes nothing else |
| ParticleModel.Particle.AddForce | 3rdParty/MosegaardsClothTutorial/Particle.h:33-36 | the new state is `Push(old state, f)` |
| ParticleModel.Integrate | 3rdParty/MosegaardsClothTutorial/Particle.h:41-50 | a free particle's new velocity is the old one damped by `1 - DAMPING` plus `acceleration * TIME_STEPSIZE2`; its new `old_pos` is the previous `pos`; its acceleration is reset; a pinned particle keeps its whole state, acceleration included |
| ParticleModel.Particle.TimeStep | 3rdParty/MosegaardsClothTutorial/Particle.h:41-50 | the new state is `Integrate(old state)`, computed through the temporary as the code does |
| ParticleModel.ClearAcceleration | 3rdParty/MosegaardsClothTutorial/Particle.h:54 | only the acceleration changes, to zero |
| ParticleModel.Particle.ResetAcceleration | 3rdParty/MosegaardsClothTutorial/Particle.h:54 | the new state is `ClearAcceleration(old state)` |
| ParticleModel.Offset | 3rdParty/MosegaardsClothTutorial/Particle.h:56 | a free particle moves by exactly `v`; a pinned one keeps its whole state; nothing but the position changes |
| ParticleModel.Particle.OffsetPos | 3rdParty/MosegaardsClothTutorial/Particle.h:56 | the new state is `Offset(old state, v)` |
| ParticleModel.Pin | 3rdParty/MosegaardsClothTutorial/Particle.h:58 | the particle is pinned and nothing else changes |
| ParticleModel.Particle.MakeUnmovable | 3rdParty/MosegaardsClothTutorial/Particle.h:58 | the new state is `Pin(old state)` |
| ParticleModel.AccumulateNormal | 3rdParty/MosegaardsClothTutorial/Particle.h:60-63 | the accumulated normal grows by the unit vector along `n`, which needs a non-zero length; nothing else changes |
| ParticleModel.Particle.AddToNormal | 3rdParty/MosegaardsClothTutorial/Particle.h:60-63 | the new state is `AccumulateNormal(old state, n)` |
| ParticleModel.ClearNormal | 3rdParty/MosegaardsClothTutorial/Particle.h:67 | only the accumulated normal changes, to zero |
| ParticleModel.Particle.ResetNormal | 3rdParty/MosegaardsClothTutorial/Particle.h:67 | the new state is `ClearNormal(old state)` |
| ParticleModel.PinIsPermanent | 3rdParty/MosegaardsClothTutorial/Particle.h:21-67 | the pin flag is one-way: `makeUnmovable` sets it, and every other operation keeps it as it was |
| ParticleModel.PinnedNeverMoves | 3rdParty/MosegaardsClothTutorial/Particle.h:43-58 | no operation changes a pinned particle's position; `timeStep` and `offsetPos` leave its whole state unchanged |
| ConstraintModel.Constraint.constructor | 3rdParty/MosegaardsClothTutorial/Constraint.h:19-23 | the constraint joins `p1` and `p2`; its rest distance is their distance at construction; every field is constant from then on |
| ConstraintModel.Constraint.Span | 3rdParty/MosegaardsClothTutorial/Constraint.h:28 | definition of `p1_to_p2`: the vector from `p1`'s position to `p2`'s |
| ConstraintModel.Constraint.Correction | 3rdParty/MosegaardsClothTutorial/Constraint.h:28-30 | definition of `correctionVector`: the span scaled by `1 - rest / current`, for a non-zero current distance |
| ConstraintModel.Constraint.Relaxed | 3rdParty/MosegaardsClothTutorial/Constraint.h:27-34 | `satisfyConstraint` is defined exactly when the current distance is not zero or both particles are pinned, and it keeps the store's size |
| ConstraintModel.Constraint.Satisfy | 3rdParty/MosegaardsClothTutorial/Constraint.h:27-34 | the particles' new states are `Relaxed(old states)`: `p1` offset by half the correction and `p2` by minus half of it; callable whenever the current distance is not zero or both particles are pinned |
| ConstraintModel.RelaxedBothPinned | 3rdParty/MosegaardsClothTutorial/Constraint.h:32-33 | with both particles pinned, relaxation changes nothing, even at distance zero |
| ConstraintModel.RelaxedFrame | 3rdParty/MosegaardsClothTutorial/Constraint.h:32-33 | a defined relaxation moves only the positions of free particles, and only those of `p1` and `p2` |
| ConstraintModel.RelaxedKeepsMidpoint | 3rdParty/MosegaardsClothTutorial/Constraint.h:32-33 | with both ends free, `p1.pos + p2.pos` (the midpoint) is kept |
| ConstraintModel.RelaxedScalesSpan | 3rdParty/MosegaardsClothTutorial/Constraint.h:28-33 | with both ends free, the new `p2 - p1` is the old one scaled by `rest / current` |
| ConstraintModel.RelaxedRestoresRestDistance | 3rdParty/MosegaardsClothTutorial/Constraint.h:28-33 | with both ends free and the Euclidean length, the two particles end exactly at the rest distance |
| ConstraintModel.RelaxedFirstPinned | 3rdParty/MosegaardsClothTutorial/Constraint.h:31-33 | with `p1` pinned, `p1` keeps its state and `p2` moves by the half correction only; the new span is the mean of the old span and the span at rest length |
| ConstraintModel.RelaxedSecondPinned | 3rdParty/MosegaardsClothTutorial/Constraint.h:31-33 | with `p2` pinned, `p2` keeps its state and `p1` moves by the half correction only |
| ConstraintModel.RelaxAll | 3rdParty/MosegaardsClothTutorial/Cloth.h:178-180 | definition of one sweep: the constraints satisfied in list order, undefined as soon as one relaxation is; its properties are `RelaxAllStep` and `RelaxAllMovesOnlyFree` |
| ConstraintModel.Relaxations | 3rdParty/MosegaardsClothTutorial/Cloth.h:176-181 | definition of `k` sweeps in a row; its property is `RelaxationsMovesOnlyFree` |
| ConstraintModel.RelaxAllStep | 3rdParty/MosegaardsClothTutorial/Cloth.h:178-180 | a sweep over the first `j + 1` constraints is the sweep over the first `j` followed by constraint `j`: the list is relaxed in order |
| ConstraintModel.RelaxAllMovesOnlyFree | 3rdParty/MosegaardsClothTutorial/Cloth.h:178-180 | a sweep changes only the positions of free particles |
| ConstraintModel.RelaxationsMovesOnlyFree | 3rdParty/MosegaardsClothTutorial/Cloth.h:176-181 | any number of sweeps changes only the positions of free particles |
| ClothGrid.Index | 3rdParty/MosegaardsClothTutorial/Cloth.h:26 | definition of the row-major slot `y * W + x`; its properties are `IndexInRange`, `IndexInjective` and `CellAtInRange` |
| ClothGrid.IndexInRange | 3rdParty/MosegaardsClothTutorial/Cloth.h:25-27 | for `x < W` and `y < H` the slot `y * W + x` lies in `[0, W * H)`, and the cell can be read back from it |
| ClothGrid.IndexInjective | 3rdParty/MosegaardsClothTutorial/Cloth.h:25-27 | distinct cells of the grid have distinct slots |
| ClothGrid.CellAtInRange | 3rdParty/MosegaardsClothTutorial/Cloth.h:25-27 | every slot of `[0, W * H)` is the slot of a cell of the grid |
| ClothGrid.CellLinks | 3rdParty/MosegaardsClothTutorial/Cloth.h:93-98 | definition of the links the four `if`s of the loop body emit for one cell, in order |
| ClothGrid.ColumnLinks | 3rdParty/MosegaardsClothTutorial/Cloth.h:92-99 | definition of the links of the inner loop for one column, row by row |
| ClothGrid.PassLinks | 3rdParty/MosegaardsClothTutorial/Cloth.h:91-100 | definition of the links of one connecting pass, column by column |
| ClothGrid.Links | 3rdParty/MosegaardsClothTutorial/Cloth.h:91-112 | definition of the whole list: the structural pass followed by the bend pass; its properties are `LinksCount`, `PassLinksSpan` and `LinksJoinNeighbours` |
| ClothGrid.ColumnLinksCount | 3rdParty/MosegaardsClothTutorial/Cloth.h:92-99 | the number of constraints the inner loop emits for one column |
| ClothGrid.PassLinksCount | 3rdParty/MosegaardsClothTutorial/Cloth.h:91-100 | the number of constraints a pass emits for its first `m` columns |
| ClothGrid.PassCount | 3rdParty/MosegaardsClothTutorial/Cloth.h:91-112 | the pass at grid distance `d` emits `(W-d)*H + W*(H-d) + 2*(W-d)*(H-d)` constraints |
| ClothGrid.LinksCount | 3rdParty/MosegaardsClothTutorial/Cloth.h:91-112 | the structural pass emits `(W-1)*H + W*(H-1) + 2*(W-1)*(H-1)` constraints and the bend pass `(W-2)*H + W*(H-2) + 2*(W-2)*(H-2)`; the list is the structural ones followed by the bend ones |
| ClothGrid.PassLinksSpan | 3rdParty/MosegaardsClothTutorial/Cloth.h:91-112 | every link of a pass joins two grid cells `d` apart, rightwards, downwards or along one of the two diagonals |
| ClothGrid.LinksJoinNeighbours | 3rdParty/MosegaardsClothTutorial/Cloth.h:91-112 | every structural constraint joins two distinct in-range particles whose coordinates differ by at most one on each axis; every bend constraint joins two distinct in-range particles two cells apart |
| ClothGrid.QuadTriangles | 3rdParty/MosegaardsClothTutorial/Cloth.h:202-203 | definition of the two triangles of quad `(x, y)`, in the code's vertex order |
| ClothGrid.SurfaceColumn | 3rdParty/MosegaardsClothTutorial/Cloth.h:201-204 | definition of the triangles the inner `windForce` loop visits for quad column `x`, row by row |
| ClothGrid.SurfacePass | 3rdParty/MosegaardsClothTutorial/Cloth.h:200-205 | definition of the triangles the outer `windForce` loop visits for its first `m` quad columns, column by column |
| ClothGrid.Surface | 3rdParty/MosegaardsClothTutorial/Cloth.h:199-206 | definition of the triangles the wind loops visit, quad column by quad column; its property is `SurfaceShape` |
| ClothGrid.SurfaceShape | 3rdParty/MosegaardsClothTutorial/Cloth.h:199-206 | the wind visits two triangles per grid quad, and every vertex is a cell of the grid |
| ClothModel.GridPos | 3rdParty/MosegaardsClothTutorial/Cloth.h:84-85 | definition of the position of cell `(x, y)`: `(width * x / W, -height * y / H, 0)` |
| ClothModel.Layout | 3rdParty/MosegaardsClothTutorial/Cloth.h:82-88 | the creation loop's states, one per slot; its property is `LayoutPlacesCells` |
| ClothModel.CreateParticles | 3rdParty/MosegaardsClothTutorial/Cloth.h:82-88 | the creation loop fills all `W * H` slots with fresh, distinct particles whose states are `Layout` |
| ClothModel.LayoutPlacesCells | 3rdParty/MosegaardsClothTutorial/Cloth.h:82-88 | after the creation loop, the slot of cell `(x, y)` holds a free particle at rest at `(width * x / W, -height * y / H, 0)` |
| ClothModel.PinRound | 3rdParty/MosegaardsClothTutorial/Cloth.h:116-120 | one round of the pinning loop, keeping the store's size: nudge, pin, nudge back `(i, 0)`, then pin `(W-1-i, 0)` |
| ClothModel.PinRounds | 3rdParty/MosegaardsClothTutorial/Cloth.h:115-121 | the first `n` rounds, keeping the store's size; its property is `PinRoundsEffect` |
| ClothModel.Hung | 3rdParty/MosegaardsClothTutorial/Cloth.h:82-121 | the constructor's states, `W * H` of them: the layout after three rounds; its property is `HungAnchors` |
| ClothModel.PinRoundsEffect | 3rdParty/MosegaardsClothTutorial/Cloth.h:115-121 | after `n` rounds, exactly the first `n` and the last `n` slots of the top row are pinned; left anchor `k` is shifted by `+0.5` exactly when `2 * k < W`; nothing else changes |
| ClothModel.HungAnchors | 3rdParty/MosegaardsClothTutorial/Cloth.h:114-121 | after construction, the particles `(i, 0)` and `(W-1-i, 0)` for `i < 3` are pinned and all others are free; the left anchors with `2 * x < W` sit `0.5` to the right of their grid position; everything else is as created |
| ClothModel.RestDistances | 3rdParty/MosegaardsClothTutorial/Cloth.h:91-112 | with the Euclidean length, every constraint's rest distance is the distance between the grid positions of its two cells, which always lie in the grid |
| ClothModel.HorizontalRest | 3rdParty/MosegaardsClothTutorial/Cloth.h:84-85 | horizontal grid neighbours are laid out `abs(width) / W` apart |
| ClothModel.VerticalRest | 3rdParty/MosegaardsClothTutorial/Cloth.h:84-85 | vertical grid neighbours are laid out `abs(height) / H` apart |
| ClothModel.IntegrateAll | 3rdParty/MosegaardsClothTutorial/Cloth.h:183-186 | the particle loop applies `Particle::timeStep` once to every slot |
| ClothModel.Step | 3rdParty/MosegaardsClothTutorial/Cloth.h:174-187 | `timeStep` is defined exactly when `CONSTRAINT_ITERATIONS` sweeps are; it leaves every pinned particle unchanged; free particles stay free, lose their acceleration and keep their normal |
| ClothModel.PushAll | 3rdParty/MosegaardsClothTutorial/Cloth.h:190-196 | `addForce(d)` raises every acceleration by the same `d / mass` and changes nothing else, in particular no position |
| ClothModel.TriangleNormal | 3rdParty/MosegaardsClothTutorial/Cloth.h:36-45 | definition of `calcTriangleNormal`: the cross product of the two edges from `p1`; its properties are the three lemmas below |
| ClothModel.TriangleNormalOrthogonal | 3rdParty/MosegaardsClothTutorial/Cloth.h:36-45 | the triangle normal is orthogonal to both edges from `p1` |
| ClothModel.TriangleNormalOrientation | 3rdParty/MosegaardsClothTutorial/Cloth.h:36-45 | swapping `p2` and `p3` flips the normal |
| ClothModel.TriangleNormalArea | 3rdParty/MosegaardsClothTutorial/Cloth.h:32-45 | the squared length of the normal is the squared area of the parallelogram on the two edges |
| ClothModel.TriangleForce | 3rdParty/MosegaardsClothTutorial/Cloth.h:50-52 | definition of the wind force on a triangle, for a non-zero normal; its properties are the two lemmas below |
| ClothModel.TriangleForceOrthogonal | 3rdParty/MosegaardsClothTutorial/Cloth.h:49-52 | the wind force on a triangle is orthogonal to its edges |
| ClothModel.TriangleForceIsFlux | 3rdParty/MosegaardsClothTutorial/Cloth.h:49-52 | the force is the unit normal scaled by the flux of the wind through the normal, so it grows with the area the triangle shows the wind; a wind parallel to the triangle exerts none |
| ClothModel.NormalAt | 3rdParty/MosegaardsClothTutorial/Cloth.h:50 | definition of the local `normal`: the triangle normal at the vertices' positions in the store |
| ClothModel.ForceAt | 3rdParty/MosegaardsClothTutorial/Cloth.h:50-52 | definition of the local `force`: `TriangleForce` at the vertices' positions in the store, for a non-zero normal |
| ClothModel.PushAt | 3rdParty/MosegaardsClothTutorial/Cloth.h:53 | one vertex's `addForce(force)` on the store, keeping its size; its property is `PushAtEffect` |
| ClothModel.PushAtEffect | 3rdParty/MosegaardsClothTutorial/Cloth.h:53 | pushing one slot changes only accelerations: that slot's becomes `Push` of it, and every other slot is unchanged |
| ClothModel.PushTriangle | 3rdParty/MosegaardsClothTutorial/Cloth.h:53-55 | the force pushed onto the three vertices in turn, keeping the store's size |
| ClothModel.WindOnTriangle | 3rdParty/MosegaardsClothTutorial/Cloth.h:49-56 | `addWindForcesForTriangle` on the states: the triangle's force pushed onto its vertices, keeping the store's size |
| ClothModel.Winded | 3rdParty/MosegaardsClothTutorial/Cloth.h:199-206 | the wind forces of a list of triangles applied in order, keeping the store's size; its properties are `WindedAppend`, `WindedOnlyAccelerates` and `WindedUntouched` |
| ClothModel.PushTriangleEffect | 3rdParty/MosegaardsClothTutorial/Cloth.h:53-55 | pushing a triangle changes only the accelerations of its three vertices, each by `force / mass` |
| ClothModel.WindedAppend | 3rdParty/MosegaardsClothTutorial/Cloth.h:199-206 | applying the forces of one more triangle is one call of `addWindForcesForTriangle` at the positions the earlier triangles left, which are the original ones |
| ClothModel.WindedOnlyAccelerates | 3rdParty/MosegaardsClothTutorial/Cloth.h:199-206 | `windForce` changes only accelerations, so no position moves, pinned or not |
| ClothModel.WindedUntouched | 3rdParty/MosegaardsClothTutorial/Cloth.h:199-206 | `windForce` leaves every particle that is no triangle's vertex unchanged |
| ClothModel.Collided | 3rdParty/MosegaardsClothTutorial/Cloth.h:215-220 | a free particle strictly inside the ball, which must not sit at its centre, moves along the ray from the centre to distance `radius`; a pinned particle, even at the centre, or one at distance `>= radius`, is unchanged; only the position can change |
| ClothModel.CollidedOnSurface | 3rdParty/MosegaardsClothTutorial/Cloth.h:215-220 | with the Euclidean length, a free particle from inside the ball lands exactly on its surface |
| ClothModel.CollideAll | 3rdParty/MosegaardsClothTutorial/Cloth.h:212-222 | `ballCollision` moves only free particles, and leaves every particle at distance `>= radius` unchanged |
| ClothModel.CollideAllClears | 3rdParty/MosegaardsClothTutorial/Cloth.h:212-222 | with the Euclidean length, after `ballCollision` no free particle is strictly inside the ball |
| ClothModel.Cloth.ParticleAt | 3rdParty/MosegaardsClothTutorial/Cloth.h:25-27 | `getParticle(x, y)` is the particle in slot `y * W + x`, which is in range |
| ClothModel.Cloth.ParticleIndex | 3rdParty/MosegaardsClothTutorial/Cloth.h:26 | the slot `getParticle` computes is the cell's row-major index and lies in the store |
| ClothModel.Cloth.constructor | 3rdParty/MosegaardsClothTutorial/Cloth.h:78-122 | the particles' states are `Hung` (laid out, then pinned); the constraint list is made, one for one and in order, for `Links(W, H)`, with rest distances taken from the layout before pinning |
| ClothModel.Cloth.PinAnchors | 3rdParty/MosegaardsClothTutorial/Cloth.h:115-121 | the pinning loop applies three rounds and leaves the constraints alone |
| ClothModel.Cloth.AnchorRound | 3rdParty/MosegaardsClothTutorial/Cloth.h:116-120 | one round nudges, pins and nudges back `(i, 0)`, then pins `(W-1-i, 0)` |
| ClothModel.Cloth.MakeConstraint | 3rdParty/MosegaardsClothTutorial/Cloth.h:28-30 | `makeConstraint` appends one constraint between the two slots, with their current distance as rest distance, and keeps the earlier list |
| ClothModel.Cloth.ConnectCell | 3rdParty/MosegaardsClothTutorial/Cloth.h:93-98 | the loop body appends exactly the constraints of `CellLinks` for the cell, in the order of its four `if`s |
| ClothModel.Cloth.Connect | 3rdParty/MosegaardsClothTutorial/Cloth.h:93-98 | `makeConstraint(getParticle(a), getParticle(b))` appends the constraint made for the link from `a` to `b` |
| ClothModel.Cloth.ConnectColumn | 3rdParty/MosegaardsClothTutorial/Cloth.h:92-99 | the inner loop appends the links of one column, row by row |
| ClothModel.Cloth.ConnectPass | 3rdParty/MosegaardsClothTutorial/Cloth.h:91-100 | a pass appends the links of all columns, column by column, and moves no particle |
| ClothModel.Cloth.TimeStep | 3rdParty/MosegaardsClothTutorial/Cloth.h:174-187 | the particles' new states are `Step(old states)` |
| ClothModel.Cloth.Relax | 3rdParty/MosegaardsClothTutorial/Cloth.h:176-181 | the constraint loops make exactly `CONSTRAINT_ITERATIONS` sweeps |
| ClothModel.Cloth.Sweep | 3rdParty/MosegaardsClothTutorial/Cloth.h:178-180 | one sweep satisfies every constraint once, in list order |
| ClothModel.Cloth.SatisfyNext | 3rdParty/MosegaardsClothTutorial/Cloth.h:179 | satisfying constraint `j` extends the sweep from the first `j` constraints to the first `j + 1` |
| ClothModel.Cloth.IntegrateParticles | 3rdParty/MosegaardsClothTutorial/Cloth.h:183-186 | the particle loop steps every particle once |
| ClothModel.Cloth.AddForce | 3rdParty/MosegaardsClothTutorial/Cloth.h:190-196 | the particles' new states are `PushAll(old states, d)` |
| ClothModel.Cloth.AddWindForcesForTriangle | 3rdParty/MosegaardsClothTutorial/Cloth.h:49-56 | the three vertices each receive the triangle's wind force at the current positions |
| ClothModel.Cloth.WindForce | 3rdParty/MosegaardsClothTutorial/Cloth.h:199-206 | the particles' new states are the wind forces of every mesh triangle, column by column and two per quad, applied in order |
| ClothModel.Cloth.WindColumn | 3rdParty/MosegaardsClothTutorial/Cloth.h:200-205 | the inner wind loop adds the triangles of one quad column |
| ClothModel.Cloth.WindQuad | 3rdParty/MosegaardsClothTutorial/Cloth.h:202-203 | the loop body adds the two triangles of one quad, in the code's vertex order |
| ClothModel.Cloth.WindNext | 3rdParty/MosegaardsClothTutorial/Cloth.h:202-203 | one call of `addWindForcesForTriangle` adds one triangle to the wind forces applied so far |
| ClothModel.Cloth.BallCollision | 3rdParty/MosegaardsClothTutorial/Cloth.h:212-222 | the particles' new states are `CollideAll(old states)` |

## Left out

- Rendering is not modelled, because it only feeds OpenGL. That covers `drawShaded`,
  including its loops that reset and accumulate the particle normals (`Cloth.h:134-169`),
  and `drawTriangle` (`Cloth.h:59-73`). The particle operations those loops call,
  `resetNormal` and `addToNormal`, are modelled.
- The empty `doFrame` is not modelled.
- `MosegaardsClothTutorial.cpp` is not part of this model. It is the GLUT window, the
  camera, the input handlers and the display loop.
- The accessors `getPos` and `getNormal` are not modelled; the model reads the fields
  directly.
- The default constructors `Particle()` and `Vec3()` are not modelled, because they
  leave their fields uninitialised.
- The arithmetic is over exact reals, not 32-bit IEEE floats, so rounding, overflow and
  NaN are not modelled.
- `length()` and `.norm()` are the parameter `norm` rather than a square root. Only what
  `IsLength` states about them is used.
- `Vector3d`, which `Cloth.h` and `Constraint.h` use, is not part of this model; it is
  taken to be `Vec3`.
- The store is allocated with its `W * H` slots before the creation loop fills it.
  `Cloth.h:86` assigns by index into a vector that was never sized, which has no
  defined meaning.
- Raw `Particle*` pointers are indices into the store. `Constraint.Satisfy` therefore
  takes the store, and asks that its slots hold distinct particles, which the C++
  vector of values guarantees.
- ClothModel.Cloth.constructor: requires `W >= 3` and `H >= 1`, because the pinning loop
  reads the particles `(2, 0)` and `(W - 3, 0)`.
- ClothModel.Cloth.TimeStep: requires that no relaxation of its sweeps meets two
  particles at distance zero of which one is free, because the code then divides by
  zero and moves that particle to a position that is not a number.
- ClothModel.Cloth.WindForce: requires every mesh triangle to have a non-zero normal,
  because `normalized()` then divides by zero.
- ClothModel.Cloth.BallCollision: requires that no free particle sits exactly at the
  ball's centre, because `normalized()` then divides by zero and the particle takes the
  result. A pinned particle there is allowed; it discards the offset.
- ClothModel.PushTriangleEffect: states the increase of each vertex's acceleration only
  when the three vertices are distinct slots. Every mesh triangle has three distinct
  slots.
