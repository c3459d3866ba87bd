/** The cloth (Cloth.h): a `W x H` grid of particles stored row by row at index
    `y * W + x`, the distance constraints between grid neighbours, and the operations one
    frame of the simulation applies to it.

    Each operation of class `Cloth` is proved to change the particle states exactly as a
    function on `seq<PState>` says, and the properties of the cloth are lemmas about those
    functions. */
module ClothModel {
  import opened Options
  import opened Vector
  import opened ParticleModel
  import opened ConstraintModel
  import opened ClothGrid

  // ---------------------------------------------------------------------------------
  // The layout the constructor creates
  // ---------------------------------------------------------------------------------

  /** The position the constructor gives cell `c`: the grid runs from (0,0,0) towards
      (width,-height,0), column `x` at `width * x / W` and row `y` at `-height * y / H`. */
  function GridPos(w: nat, h: nat, width: real, height: real, c: Cell): Vec3
    requires 0 < w && 0 < h
  {
    Vec3(width * (c.x as real / w as real), -height * (c.y as real / h as real), 0.0)
  }

  /** The particle states after the creation loop: slot `k` holds a fresh particle at
      the position of the cell stored there. */
  function Layout(w: nat, h: nat, width: real, height: real): (s: seq<PState>)
    requires 0 < w && 0 < h
    ensures |s| == w * h
  {
    seq(w * h, k requires 0 <= k < w * h => Spawn(GridPos(w, h, width, height, CellAt(w, k))))
  }

  /** Every cell of the grid gets its own slot, holding a free particle at rest at the
      cell's grid position. */
  lemma LayoutPlacesCells(w: nat, h: nat, width: real, height: real, c: Cell)
    requires InGrid(w, h, c)
    ensures Index(w, c) < |Layout(w, h, width, height)|
    ensures Layout(w, h, width, height)[Index(w, c)] == Spawn(GridPos(w, h, width, height, c))
  {
    IndexInRange(w, h, c);
  }

  // ---------------------------------------------------------------------------------
  // Pinning the anchors
  // ---------------------------------------------------------------------------------

  /** The offset the pinning loop applies to a left anchor before pinning it. */
  const Nudge: Vec3 := Vec3(0.5, 0.0, 0.0)

  /** Round `i` of the pinning loop on the states `s` of a store whose top row has `w`
      slots: cell `(i, 0)` is nudged right, pinned and nudged back (which does nothing
      any more, as it is pinned), then cell `(w - 1 - i, 0)` is pinned. */
  function PinRound(s: seq<PState>, w: nat, i: nat): (r: seq<PState>)
    requires i < w <= |s|
    ensures |r| == |s|
  {
    var t := s[i := Offset(s[i], Nudge)];
    var u := t[i := Pin(t[i])];
    var v := u[i := Offset(u[i], Neg(Nudge))];
    v[w - 1 - i := Pin(v[w - 1 - i])]
  }

  /** The first `n` rounds of the pinning loop. */
  function PinRounds(s: seq<PState>, w: nat, n: nat): (r: seq<PState>)
    requires n <= w <= |s|
    ensures |r| == |s|
  {
    if n == 0 then s else PinRound(PinRounds(s, w, n - 1), w, n - 1)
  }

  /** Slot `k` is pinned by the first `n` rounds: one of the first `n` or of the last `n`
      slots of the top row. */
  predicate Anchor(w: nat, n: nat, k: nat) {
    k < n || (w - n <= k < w)
  }

  /** After `n` rounds on a store of free particles, exactly the anchors are pinned; a
      left anchor `k` is shifted by the nudge exactly when it was still free when its round
      came, that is when `2 * k < w`; nothing else changes. */
  lemma {:induction false} PinRoundsEffect(s: seq<PState>, w: nat, n: nat)
    requires n <= w <= |s|
    requires forall k :: 0 <= k < |s| ==> s[k].movable
    ensures forall k :: 0 <= k < |s| ==>
      && PinRounds(s, w, n)[k].movable == !Anchor(w, n, k)
      && PinRounds(s, w, n)[k].pos == (if k < n && 2 * k < w then Add(s[k].pos, Nudge) else s[k].pos)
      && PinRounds(s, w, n)[k].(pos := s[k].pos, movable := true) == s[k]
  {
    if n > 0 {
      PinRoundsEffect(s, w, n - 1);
      var u := PinRounds(s, w, n - 1);
      var i := n - 1;
      assert u[i].movable == (2 * i < w);
      assert u[i].pos == s[i].pos;
      var t := u[i := Offset(u[i], Nudge)];
      var t2 := t[i := Pin(t[i])];
      var t3 := t2[i := Offset(t2[i], Neg(Nudge))];
      assert t3[i].pos == (if 2 * i < w then Add(s[i].pos, Nudge) else s[i].pos);
      assert PinRounds(s, w, n) == t3[w - 1 - i := Pin(t3[w - 1 - i])];
    }
  }

  /** The states the constructor leaves: the layout after three pinning rounds. */
  function Hung(w: nat, h: nat, width: real, height: real): (s: seq<PState>)
    requires 3 <= w && 0 < h
    ensures |s| == w * h
  {
    MulAtLeast(h, w);
    PinRounds(Layout(w, h, width, height), w, 3)
  }

  lemma TopRow(w: nat, h: nat, c: Cell)
    requires InGrid(w, h, c)
    ensures Index(w, c) < w <==> c.y == 0
    ensures c.y == 0 ==> Index(w, c) == c.x
  {
    if c.y > 0 {
      MulAtLeast(c.y, w);
    }
  }

  /** After construction the three leftmost and the three rightmost particles of the top
      row are pinned and all others are free; the left anchors that were still free when
      their round came (`2 * x < W`) sit half a unit to the right of their grid position;
      every particle is otherwise as it was created. */
  lemma HungAnchors(w: nat, h: nat, width: real, height: real, c: Cell)
    requires 3 <= w && InGrid(w, h, c)
    ensures Index(w, c) < |Hung(w, h, width, height)|
    ensures Hung(w, h, width, height)[Index(w, c)].movable <==> !(c.y == 0 && (c.x < 3 || w - 3 <= c.x))
    ensures Hung(w, h, width, height)[Index(w, c)].pos
         == if c.y == 0 && c.x < 3 && 2 * c.x < w
            then Add(GridPos(w, h, width, height, c), Nudge)
            else GridPos(w, h, width, height, c)
    ensures Hung(w, h, width, height)[Index(w, c)].oldPos == GridPos(w, h, width, height, c)
    ensures Hung(w, h, width, height)[Index(w, c)].acc == Zero
    ensures Hung(w, h, width, height)[Index(w, c)].normal == Zero
  {
    var s := Layout(w, h, width, height);
    MulAtLeast(h, w);
    PinRoundsEffect(s, w, 3);
    LayoutPlacesCells(w, h, width, height, c);
    TopRow(w, h, c);
  }

  // ---------------------------------------------------------------------------------
  // The constraints the constructor makes
  // ---------------------------------------------------------------------------------

  /** Constraint `c` was made for `l` from the states `s`: it joins the slots of the two
      cells and its rest distance is their distance in `s`. */
  predicate Made(c: Constraint, l: Link, s: seq<PState>, w: nat, norm: Vec3 -> real) {
    && c.p1 == Index(w, l.a) && c.p2 == Index(w, l.b)
    && c.p1 < |s| && c.p2 < |s|
    && c.restDistance == norm(Sub(s[c.p1].pos, s[c.p2].pos))
  }

  /** The constraint list `cs` was made, one for one and in order, for the links `ls`. */
  predicate Realizes(cs: seq<Constraint>, ls: seq<Link>, s: seq<PState>, w: nat, norm: Vec3 -> real) {
    && |cs| == |ls|
    && forall k :: 0 <= k < |cs| ==> Made(cs[k], ls[k], s, w, norm)
  }

  lemma RealizesConcat(cs: seq<Constraint>, ls: seq<Link>, cs': seq<Constraint>, ls': seq<Link>,
                       s: seq<PState>, w: nat, norm: Vec3 -> real)
    requires Realizes(cs, ls, s, w, norm) && Realizes(cs', ls', s, w, norm)
    ensures Realizes(cs + cs', ls + ls', s, w, norm)
  {
    forall k | 0 <= k < |cs + cs'|
      ensures Made((cs + cs')[k], (ls + ls')[k], s, w, norm)
    {
      if k >= |cs| {
        assert (cs + cs')[k] == cs'[k - |cs|] && (ls + ls')[k] == ls'[k - |cs|];
      }
    }
  }

  /** A list `b` that extends `a` by constraints made for `ls'` extends the part of `a`
      from `n0` on, made for `ls`, to one made for `ls + ls'`. */
  lemma RealizesExtend(a: seq<Constraint>, b: seq<Constraint>, n0: nat, ls: seq<Link>, ls': seq<Link>,
                       s: seq<PState>, w: nat, norm: Vec3 -> real)
    requires n0 <= |a| <= |b| && b[..|a|] == a
    requires Realizes(a[n0..], ls, s, w, norm) && Realizes(b[|a|..], ls', s, w, norm)
    ensures b[..n0] == a[..n0]
    ensures Realizes(b[n0..], ls + ls', s, w, norm)
  {
    assert b[n0..] == a[n0..] + b[|a|..];
    RealizesConcat(a[n0..], ls, b[|a|..], ls', s, w, norm);
  }

  /** With the Euclidean length, every constraint made from the layout has as rest
      distance the distance between the grid positions of its two cells; for a structural
      horizontal neighbour that is `|width| / W`, for a vertical one `|height| / H`. */
  lemma RestDistances(cs: seq<Constraint>, w: nat, h: nat, width: real, height: real, norm: Vec3 -> real, k: nat)
    requires 0 < w && 0 < h && IsLength(norm) && k < |cs|
    requires Realizes(cs, Links(w, h), Layout(w, h, width, height), w, norm)
    ensures k < |Links(w, h)|
    ensures cs[k].restDistance
      == norm(Sub(GridPos(w, h, width, height, Links(w, h)[k].a), GridPos(w, h, width, height, Links(w, h)[k].b)))
  {
    var first, second := PassLinks(w, h, 1, w), PassLinks(w, h, 2, w);
    var l := Links(w, h)[k];
    PassLinksSpan(w, h, 1, w);
    PassLinksSpan(w, h, 2, w);
    if k < |first| {
      assert l == first[k];
      assert Spans(w, h, 1, l);
    } else {
      assert l == second[k - |first|];
      assert Spans(w, h, 2, l);
    }
    LayoutPlacesCells(w, h, width, height, l.a);
    LayoutPlacesCells(w, h, width, height, l.b);
  }

  /** With the Euclidean length, `|(r, 0, 0)| == |r|`, and likewise on the other axes. */
  lemma AxisLength(norm: Vec3 -> real, v: Vec3, r: real)
    requires IsLength(norm)
    requires v == Vec3(r, 0.0, 0.0) || v == Vec3(0.0, r, 0.0)
    ensures norm(v) == Abs(r)
  {
    assert Dot(v, v) == r * r;
    assert Abs(r) * Abs(r) == r * r;
    SquareRootUnique(norm(v), Abs(r));
  }

  /** Horizontal neighbours are laid out `|width| / W` apart. */
  lemma HorizontalRest(w: nat, h: nat, width: real, height: real, norm: Vec3 -> real, x: nat, y: nat)
    requires 0 < w && 0 < h && IsLength(norm)
    ensures norm(Sub(GridPos(w, h, width, height, Cell(x, y)), GridPos(w, h, width, height, Cell(x + 1, y))))
         == Abs(width) / w as real
  {
    var a := x as real / w as real;
    var b := (x + 1) as real / w as real;
    assert b == a + 1.0 / w as real;
    assert width * a - width * b == -(width / w as real);
    var v := Sub(GridPos(w, h, width, height, Cell(x, y)), GridPos(w, h, width, height, Cell(x + 1, y)));
    assert v == Vec3(-(width / w as real), 0.0, 0.0);
    AxisLength(norm, v, -(width / w as real));
    assert Abs(-(width / w as real)) == Abs(width) / w as real;
  }

  /** Vertical neighbours are laid out `|height| / H` apart. */
  lemma VerticalRest(w: nat, h: nat, width: real, height: real, norm: Vec3 -> real, x: nat, y: nat)
    requires 0 < w && 0 < h && IsLength(norm)
    ensures norm(Sub(GridPos(w, h, width, height, Cell(x, y)), GridPos(w, h, width, height, Cell(x, y + 1))))
         == Abs(height) / h as real
  {
    var a := y as real / h as real;
    var b := (y + 1) as real / h as real;
    assert b == a + 1.0 / h as real;
    assert -height * a - -height * b == height / h as real;
    var v := Sub(GridPos(w, h, width, height, Cell(x, y)), GridPos(w, h, width, height, Cell(x, y + 1)));
    assert v == Vec3(0.0, height / h as real, 0.0);
    AxisLength(norm, v, height / h as real);
    assert Abs(height / h as real) == Abs(height) / h as real;
  }

  // ---------------------------------------------------------------------------------
  // One time step
  // ---------------------------------------------------------------------------------

  /** `Particle::timeStep()` on every slot. */
  function IntegrateAll(s: seq<PState>): (r: seq<PState>)
    ensures |r| == |s|
    ensures forall k :: 0 <= k < |s| ==> r[k] == Integrate(s[k])
  {
    seq(|s|, k requires 0 <= k < |s| => Integrate(s[k]))
  }

  /** `timeStep()`: `CONSTRAINT_ITERATIONS` sweeps over the constraint list, then one
      Verlet step of every particle. None when some relaxation meets a zero distance. */
  function Step(s: seq<PState>, cs: seq<Constraint>, norm: Vec3 -> real): (r: Option<seq<PState>>)
    requires InRange(cs, |s|)
    ensures r.Some? <==> Relaxations(s, cs, CONSTRAINT_ITERATIONS, norm).Some?
    ensures r.Some? ==> |r.value| == |s|
    ensures r.Some? ==> forall k :: 0 <= k < |s| && !s[k].movable ==> r.value[k] == s[k]
    ensures r.Some? ==> forall k :: 0 <= k < |s| && s[k].movable ==>
      r.value[k].movable && r.value[k].acc == Zero && r.value[k].normal == s[k].normal
  {
    match Relaxations(s, cs, CONSTRAINT_ITERATIONS, norm)
    case None => None
    case Some(t) =>
      RelaxationsMovesOnlyFree(s, cs, CONSTRAINT_ITERATIONS, norm);
      Some(IntegrateAll(t))
  }

  // ---------------------------------------------------------------------------------
  // Forces
  // ---------------------------------------------------------------------------------

  /** `t` differs from `s` at most in the accelerations. */
  predicate OnlyAccelerates(s: seq<PState>, t: seq<PState>) {
    && |t| == |s|
    && forall k :: 0 <= k < |s| ==> t[k].(acc := s[k].acc) == s[k]
  }

  lemma OnlyAcceleratesTransitive(s: seq<PState>, t: seq<PState>, u: seq<PState>)
    requires OnlyAccelerates(s, t) && OnlyAccelerates(t, u)
    ensures OnlyAccelerates(s, u)
  {
  }

  /** `addForce(f)` on every slot: every acceleration grows by the same `f / mass` and
      nothing else changes. */
  function PushAll(s: seq<PState>, f: Vec3): (r: seq<PState>)
    ensures OnlyAccelerates(s, r)
    ensures forall k :: 0 <= k < |s| ==> Sub(r[k].acc, s[k].acc) == Div(f, MASS)
  {
    seq(|s|, k requires 0 <= k < |s| => Push(s[k], f))
  }

  /** `calcTriangleNormal`: the cross product of the two edges from `p1`. */
  function TriangleNormal(p1: Vec3, p2: Vec3, p3: Vec3): Vec3 {
    Cross(Sub(p2, p1), Sub(p3, p1))
  }

  /** The normal is orthogonal to both edges from `p1`. */
  lemma TriangleNormalOrthogonal(p1: Vec3, p2: Vec3, p3: Vec3)
    ensures Dot(TriangleNormal(p1, p2, p3), Sub(p2, p1)) == 0.0
    ensures Dot(TriangleNormal(p1, p2, p3), Sub(p3, p1)) == 0.0
  {
    CrossOrthogonal(Sub(p2, p1), Sub(p3, p1));
  }

  /** Listing the vertices the other way round flips the normal. */
  lemma TriangleNormalOrientation(p1: Vec3, p2: Vec3, p3: Vec3)
    ensures TriangleNormal(p1, p3, p2) == Neg(TriangleNormal(p1, p2, p3))
  {
    CrossAntisymmetric(Sub(p2, p1), Sub(p3, p1));
  }

  /** The squared length of the normal is the squared area of the parallelogram on the
      two edges (`|a|^2 |b|^2 - (a . b)^2`, Lagrange's identity). */
  lemma TriangleNormalArea(p1: Vec3, p2: Vec3, p3: Vec3, norm: Vec3 -> real)
    requires IsLength(norm)
    ensures norm(TriangleNormal(p1, p2, p3)) * norm(TriangleNormal(p1, p2, p3))
         == Dot(Sub(p2, p1), Sub(p2, p1)) * Dot(Sub(p3, p1), Sub(p3, p1))
            - Dot(Sub(p2, p1), Sub(p3, p1)) * Dot(Sub(p2, p1), Sub(p3, p1))
  {
    Lagrange(Sub(p2, p1), Sub(p3, p1));
  }

  lemma Lagrange(a: Vec3, b: Vec3)
    ensures Dot(Cross(a, b), Cross(a, b)) == Dot(a, a) * Dot(b, b) - Dot(a, b) * Dot(a, b)
  {
    var c := Cross(a, b);
    assert c.x * c.x == a.y * a.y * b.z * b.z - 2.0 * a.y * b.z * a.z * b.y + a.z * a.z * b.y * b.y;
    assert c.y * c.y == a.z * a.z * b.x * b.x - 2.0 * a.z * b.x * a.x * b.z + a.x * a.x * b.z * b.z;
    assert c.z * c.z == a.x * a.x * b.y * b.y - 2.0 * a.x * b.y * a.y * b.x + a.y * a.y * b.x * b.x;
    assert Dot(a, a) * Dot(b, b)
        == a.x * a.x * b.x * b.x + a.x * a.x * b.y * b.y + a.x * a.x * b.z * b.z
         + a.y * a.y * b.x * b.x + a.y * a.y * b.y * b.y + a.y * a.y * b.z * b.z
         + a.z * a.z * b.x * b.x + a.z * a.z * b.y * b.y + a.z * a.z * b.z * b.z;
    assert Dot(a, b) * Dot(a, b)
        == a.x * a.x * b.x * b.x + a.y * a.y * b.y * b.y + a.z * a.z * b.z * b.z
         + 2.0 * a.x * b.x * a.y * b.y + 2.0 * a.x * b.x * a.z * b.z + 2.0 * a.y * b.y * a.z * b.z;
  }

  /** The wind force `addWindForcesForTriangle` applies on each vertex: the normal scaled
      by the component of the wind along the unit normal. */
  function TriangleForce(p1: Vec3, p2: Vec3, p3: Vec3, direction: Vec3, norm: Vec3 -> real): Vec3
    requires norm(TriangleNormal(p1, p2, p3)) != 0.0
  {
    var normal := TriangleNormal(p1, p2, p3);
    Scale(normal, Dot(Normalized(normal, norm), direction))
  }

  /** The wind force is along the normal, so orthogonal to the triangle's edges. */
  lemma TriangleForceOrthogonal(p1: Vec3, p2: Vec3, p3: Vec3, direction: Vec3, norm: Vec3 -> real)
    requires norm(TriangleNormal(p1, p2, p3)) != 0.0
    ensures Dot(TriangleForce(p1, p2, p3, direction, norm), Sub(p2, p1)) == 0.0
    ensures Dot(TriangleForce(p1, p2, p3, direction, norm), Sub(p3, p1)) == 0.0
  {
    var normal := TriangleNormal(p1, p2, p3);
    var q := Dot(Normalized(normal, norm), direction);
    TriangleNormalOrthogonal(p1, p2, p3);
    DotScaleLeft(normal, q, Sub(p2, p1));
    DotScaleLeft(normal, q, Sub(p3, p1));
  }

  /** The force is the unit normal scaled by the flux of the wind through the normal
      (whose length is twice the triangle's area), so it grows with the area the triangle
      shows the wind, and a wind parallel to the triangle exerts no force. */
  lemma TriangleForceIsFlux(p1: Vec3, p2: Vec3, p3: Vec3, direction: Vec3, norm: Vec3 -> real)
    requires norm(TriangleNormal(p1, p2, p3)) != 0.0
    ensures TriangleForce(p1, p2, p3, direction, norm)
         == Scale(Normalized(TriangleNormal(p1, p2, p3), norm), Dot(TriangleNormal(p1, p2, p3), direction))
    ensures Dot(TriangleNormal(p1, p2, p3), direction) == 0.0 ==> TriangleForce(p1, p2, p3, direction, norm) == Zero
  {
    FluxAlongNormal(TriangleNormal(p1, p2, p3), direction, norm);
  }

  /** Scaling `n` by the wind's component along `n`'s unit vector is scaling that unit
      vector by the flux of the wind through `n`. */
  lemma FluxAlongNormal(n: Vec3, direction: Vec3, norm: Vec3 -> real)
    requires norm(n) != 0.0
    ensures Scale(n, Dot(Normalized(n, norm), direction)) == Scale(Normalized(n, norm), Dot(n, direction))
  {
    var l := norm(n);
    var d := Normalized(n, norm);
    assert d == Vec3(n.x / l, n.y / l, n.z / l);
    var q := Dot(d, direction);
    assert q == Dot(n, direction) / l;
    assert n.x * q == (n.x / l) * Dot(n, direction);
    assert n.y * q == (n.y / l) * Dot(n, direction);
    assert n.z * q == (n.z / l) * Dot(n, direction);
  }

  /** The three vertices of `t` have slots in a store of `n` particles. */
  predicate Slotted(w: nat, n: nat, t: Triangle) {
    Index(w, t.a) < n && Index(w, t.b) < n && Index(w, t.c) < n
  }

  /** The normal of triangle `t` at the positions `s`. */
  function NormalAt(s: seq<PState>, w: nat, t: Triangle): Vec3
    requires Slotted(w, |s|, t)
  {
    TriangleNormal(s[Index(w, t.a)].pos, s[Index(w, t.b)].pos, s[Index(w, t.c)].pos)
  }

  function ForceAt(s: seq<PState>, w: nat, t: Triangle, direction: Vec3, norm: Vec3 -> real): Vec3
    requires Slotted(w, |s|, t) && norm(NormalAt(s, w, t)) != 0.0
  {
    TriangleForce(s[Index(w, t.a)].pos, s[Index(w, t.b)].pos, s[Index(w, t.c)].pos, direction, norm)
  }

  /** `addForce(f)` on slot `k` alone. */
  function PushAt(s: seq<PState>, k: nat, f: Vec3): (r: seq<PState>)
    requires k < |s|
    ensures |r| == |s|
  {
    s[k := Push(s[k], f)]
  }

  /** Pushing slot `k` changes only its acceleration, and no other slot. */
  lemma PushAtEffect(s: seq<PState>, k: nat, f: Vec3)
    requires k < |s|
    ensures OnlyAccelerates(s, PushAt(s, k, f))
    ensures PushAt(s, k, f)[k] == Push(s[k], f)
    ensures forall j :: 0 <= j < |s| && j != k ==> PushAt(s, k, f)[j] == s[j]
  {
  }

  /** The force `f` pushed onto the three vertices of `t` in turn. */
  function PushTriangle(s: seq<PState>, w: nat, t: Triangle, f: Vec3): (r: seq<PState>)
    requires Slotted(w, |s|, t)
    ensures |r| == |s|
  {
    PushAt(PushAt(PushAt(s, Index(w, t.a), f), Index(w, t.b), f), Index(w, t.c), f)
  }

  /** Pushing a triangle changes only accelerations, and only those of its three
      vertices, each by the force over the mass when the three are distinct. */
  lemma PushTriangleEffect(s: seq<PState>, w: nat, t: Triangle, f: Vec3)
    requires Slotted(w, |s|, t)
    ensures OnlyAccelerates(s, PushTriangle(s, w, t, f))
    ensures forall k :: 0 <= k < |s| && k != Index(w, t.a) && k != Index(w, t.b) && k != Index(w, t.c) ==>
      PushTriangle(s, w, t, f)[k] == s[k]
    ensures Index(w, t.a) != Index(w, t.b) && Index(w, t.b) != Index(w, t.c) && Index(w, t.a) != Index(w, t.c) ==>
      var r := PushTriangle(s, w, t, f);
      && Sub(r[Index(w, t.a)].acc, s[Index(w, t.a)].acc) == Div(f, MASS)
      && Sub(r[Index(w, t.b)].acc, s[Index(w, t.b)].acc) == Div(f, MASS)
      && Sub(r[Index(w, t.c)].acc, s[Index(w, t.c)].acc) == Div(f, MASS)
  {
    var a, b, c := Index(w, t.a), Index(w, t.b), Index(w, t.c);
    var s1 := PushAt(s, a, f);
    var s2 := PushAt(s1, b, f);
    var r := PushAt(s2, c, f);
    PushAtEffect(s, a, f);
    PushAtEffect(s1, b, f);
    PushAtEffect(s2, c, f);
    OnlyAcceleratesTransitive(s, s1, s2);
    OnlyAcceleratesTransitive(s, s2, r);
  }

  /** `addWindForcesForTriangle`: the triangle's force at the positions `s`, pushed onto
      its three vertices. */
  function WindOnTriangle(s: seq<PState>, w: nat, t: Triangle, direction: Vec3, norm: Vec3 -> real): (r: seq<PState>)
    requires Slotted(w, |s|, t) && norm(NormalAt(s, w, t)) != 0.0
    ensures |r| == |s|
  {
    PushTriangle(s, w, t, ForceAt(s, w, t, direction, norm))
  }

  /** Every triangle of `tris` has slots in `s` and a non-zero normal there; stated
      last triangle first, the way `Winded` takes the triangles apart. */
  predicate WindDefined(s: seq<PState>, w: nat, tris: seq<Triangle>, norm: Vec3 -> real)
    decreases |tris|
  {
    tris == [] ||
    (&& WindDefined(s, w, tris[..|tris| - 1], norm)
     && Slotted(w, |s|, tris[|tris| - 1])
     && norm(NormalAt(s, w, tris[|tris| - 1])) != 0.0)
  }

  /** `WindDefined` holds exactly when every triangle has slots and a non-zero normal. */
  lemma {:induction false} WindDefinedEach(s: seq<PState>, w: nat, tris: seq<Triangle>, norm: Vec3 -> real)
    ensures WindDefined(s, w, tris, norm)
        <==> forall j :: 0 <= j < |tris| ==> Slotted(w, |s|, tris[j]) && norm(NormalAt(s, w, tris[j])) != 0.0
    decreases |tris|
  {
    if tris != [] {
      var pre := tris[..|tris| - 1];
      WindDefinedEach(s, w, pre, norm);
      assert forall j :: 0 <= j < |pre| ==> pre[j] == tris[j];
    }
  }

  lemma {:induction false} WindDefinedPrefix(s: seq<PState>, w: nat, tris: seq<Triangle>, pre: seq<Triangle>, norm: Vec3 -> real)
    requires WindDefined(s, w, tris, norm) && pre <= tris
    ensures WindDefined(s, w, pre, norm)
    decreases |tris|
  {
    if |pre| == |tris| {
      assert pre == tris;
    } else {
      assert pre <= tris[..|tris| - 1];
      WindDefinedPrefix(s, w, tris[..|tris| - 1], pre, norm);
    }
  }

  /** Slot `k` is not a vertex of any triangle of `tris`. */
  predicate Untouched(w: nat, tris: seq<Triangle>, k: nat) {
    forall j :: 0 <= j < |tris| ==> k != Index(w, tris[j].a) && k != Index(w, tris[j].b) && k != Index(w, tris[j].c)
  }

  /** The wind forces of the triangles `tris`, applied in order. Each force is the one at
      the positions of `s`: the wind only accelerates particles, so these are the
      positions every call of `addWindForcesForTriangle` sees (`WindedAppend`). */
  function Winded(s: seq<PState>, w: nat, tris: seq<Triangle>, direction: Vec3, norm: Vec3 -> real): (r: seq<PState>)
    requires WindDefined(s, w, tris, norm)
    ensures |r| == |s|
    decreases |tris|
  {
    if tris == [] then s
    else
      var last := tris[|tris| - 1];
      PushTriangle(Winded(s, w, tris[..|tris| - 1], direction, norm), w, last, ForceAt(s, w, last, direction, norm))
  }

  /** The wind forces change only accelerations. */
  lemma {:induction false} WindedOnlyAccelerates(s: seq<PState>, w: nat, tris: seq<Triangle>, direction: Vec3, norm: Vec3 -> real)
    requires WindDefined(s, w, tris, norm)
    ensures OnlyAccelerates(s, Winded(s, w, tris, direction, norm))
    decreases |tris|
  {
    if tris != [] {
      var pre := tris[..|tris| - 1];
      var last := tris[|tris| - 1];
      WindedOnlyAccelerates(s, w, pre, direction, norm);
      var t := Winded(s, w, pre, direction, norm);
      PushTriangleEffect(t, w, last, ForceAt(s, w, last, direction, norm));
      OnlyAcceleratesTransitive(s, t, Winded(s, w, tris, direction, norm));
    }
  }

  /** The wind forces leave every particle that is no triangle's vertex as it was. */
  lemma {:induction false} WindedUntouched(s: seq<PState>, w: nat, tris: seq<Triangle>, direction: Vec3, norm: Vec3 -> real, k: nat)
    requires WindDefined(s, w, tris, norm) && k < |s| && Untouched(w, tris, k)
    ensures Winded(s, w, tris, direction, norm)[k] == s[k]
    decreases |tris|
  {
    if tris != [] {
      var pre := tris[..|tris| - 1];
      assert Untouched(w, pre, k) by {
        assert forall j :: 0 <= j < |pre| ==> pre[j] == tris[j];
      }
      WindedUntouched(s, w, pre, direction, norm, k);
      var last := tris[|tris| - 1];
      assert k != Index(w, last.a) && k != Index(w, last.b) && k != Index(w, last.c);
      PushTriangleEffect(Winded(s, w, pre, direction, norm), w, last, ForceAt(s, w, last, direction, norm));
    }
  }

  /** The wind forces of `pre + [t]` are those of `pre` followed by
      `addWindForcesForTriangle` on `t` at the positions the forces of `pre` leave, which
      are those of `s`. */
  lemma WindedAppend(s: seq<PState>, w: nat, pre: seq<Triangle>, t: Triangle, direction: Vec3, norm: Vec3 -> real)
    requires WindDefined(s, w, pre + [t], norm)
    ensures WindDefined(s, w, pre, norm)
    ensures Slotted(w, |Winded(s, w, pre, direction, norm)|, t)
    ensures norm(NormalAt(Winded(s, w, pre, direction, norm), w, t)) != 0.0
    ensures Winded(s, w, pre + [t], direction, norm)
         == WindOnTriangle(Winded(s, w, pre, direction, norm), w, t, direction, norm)
  {
    assert (pre + [t])[..|pre|] == pre;
    assert (pre + [t])[|pre|] == t;
    var u := Winded(s, w, pre, direction, norm);
    WindedOnlyAccelerates(s, w, pre, direction, norm);
    assert u[Index(w, t.a)].pos == s[Index(w, t.a)].pos;
    assert u[Index(w, t.b)].pos == s[Index(w, t.b)].pos;
    assert u[Index(w, t.c)].pos == s[Index(w, t.c)].pos;
    assert NormalAt(u, w, t) == NormalAt(s, w, t);
    assert ForceAt(u, w, t, direction, norm) == ForceAt(s, w, t, direction, norm);
  }

  // ---------------------------------------------------------------------------------
  // Ball collision
  // ---------------------------------------------------------------------------------

  /** The projection of `ballCollision` is defined for `p`: a free particle strictly
      inside the ball is not at its centre (the code divides by the distance; a pinned
      particle discards the offset, whatever it is). */
  predicate CollisionDefined(p: PState, center: Vec3, radius: real, norm: Vec3 -> real) {
    p.movable && norm(Sub(p.pos, center)) < radius ==> norm(Sub(p.pos, center)) != 0.0
  }

  lemma ProjectComponent(a: real, l: real, radius: real)
    requires l != 0.0
    ensures a + (a / l) * (radius - l) == a * (radius / l)
  {
    assert (a / l) * (radius - l) == (a / l) * radius - a;
    assert (a / l) * radius == a * (radius / l);
  }

  /** One particle of `ballCollision`: a particle strictly inside the ball is offset
      along the ray from the centre by the missing distance; only its position can
      change, and a pinned particle or one outside the ball is left as it is. */
  function Collided(p: PState, center: Vec3, radius: real, norm: Vec3 -> real): (r: PState)
    requires CollisionDefined(p, center, radius, norm)
    ensures r.(pos := p.pos) == p
    ensures !p.movable || radius <= norm(Sub(p.pos, center)) ==> r == p
    ensures p.movable && norm(Sub(p.pos, center)) < radius ==>
      Sub(r.pos, center) == Scale(Sub(p.pos, center), radius / norm(Sub(p.pos, center)))
  {
    var v := Sub(p.pos, center);
    var l := norm(v);
    if l < radius && l != 0.0 then
      var r := Offset(p, Scale(Normalized(v, norm), radius - l));
      ProjectComponent(v.x, l, radius);
      ProjectComponent(v.y, l, radius);
      ProjectComponent(v.z, l, radius);
      r
    else
      // Outside the ball, or at its centre, where only a pinned particle can be and it
      // discards the offset.
      p
  }

  /** With the Euclidean length, a free particle inside the ball lands exactly on its
      surface, so after the projection no free particle is strictly inside. */
  lemma CollidedOnSurface(p: PState, center: Vec3, radius: real, norm: Vec3 -> real)
    requires IsLength(norm) && CollisionDefined(p, center, radius, norm)
    ensures p.movable && norm(Sub(p.pos, center)) < radius ==>
      norm(Sub(Collided(p, center, radius, norm).pos, center)) == radius
    ensures p.movable ==> radius <= norm(Sub(Collided(p, center, radius, norm).pos, center))
  {
    var v := Sub(p.pos, center);
    var l := norm(v);
    if p.movable && l < radius {
      LengthScale(norm, v, radius / l);
      assert 0.0 < l;
      assert 0.0 < radius / l;
      assert (radius / l) * l == radius;
    }
  }

  predicate CollisionsDefined(s: seq<PState>, center: Vec3, radius: real, norm: Vec3 -> real) {
    forall k :: 0 <= k < |s| ==> CollisionDefined(s[k], center, radius, norm)
  }

  /** `ballCollision` on every slot. */
  function CollideAll(s: seq<PState>, center: Vec3, radius: real, norm: Vec3 -> real): (r: seq<PState>)
    requires CollisionsDefined(s, center, radius, norm)
    ensures MovesOnlyFree(s, r)
    ensures forall k :: 0 <= k < |s| && radius <= norm(Sub(s[k].pos, center)) ==> r[k] == s[k]
  {
    seq(|s|, k requires 0 <= k < |s| => Collided(s[k], center, radius, norm))
  }

  /** With the Euclidean length, after `ballCollision` no free particle is strictly
      inside the ball. */
  lemma CollideAllClears(s: seq<PState>, center: Vec3, radius: real, norm: Vec3 -> real)
    requires IsLength(norm) && CollisionsDefined(s, center, radius, norm)
    ensures forall k :: 0 <= k < |s| && s[k].movable ==>
      radius <= norm(Sub(CollideAll(s, center, radius, norm)[k].pos, center))
  {
    forall k | 0 <= k < |s| && s[k].movable
      ensures radius <= norm(Sub(CollideAll(s, center, radius, norm)[k].pos, center))
    {
      CollidedOnSurface(s[k], center, radius, norm);
    }
  }

  // ---------------------------------------------------------------------------------
  // The cloth
  // ---------------------------------------------------------------------------------

  /** The constructor's creation loop: a store of `w * h` fresh, distinct particles, the
      one of cell `(x, y)` in slot `y * w + x` at the cell's grid position. */
  method CreateParticles(w: nat, h: nat, width: real, height: real) returns (ps: seq<Particle>)
    requires 0 < w && 0 < h
    ensures Distinct(ps)
    ensures forall k :: 0 <= k < |ps| ==> fresh(ps[k])
    ensures States(ps) == Layout(w, h, width, height)
  {
    ghost var initial := Layout(w, h, width, height);
    var store := new Particle?[w * h];
    ghost var placed: set<nat> := {};
    for x := 0 to w
      invariant forall c :: InGrid(w, h, c) && c.x < x ==> Index(w, c) in placed
      invariant forall k :: k in placed ==>
        k < w * h && store[k] != null && fresh(store[k]) && store[k].State() == initial[k]
      invariant forall i, j :: i in placed && j in placed && i != j ==> store[i] != store[j]
    {
      for y := 0 to h
        invariant forall c :: InGrid(w, h, c) && (c.x < x || (c.x == x && c.y < y)) ==> Index(w, c) in placed
        invariant forall k :: k in placed ==>
          k < w * h && store[k] != null && fresh(store[k]) && store[k].State() == initial[k]
        invariant forall i, j :: i in placed && j in placed && i != j ==> store[i] != store[j]
      {
        var pos := GridPos(w, h, width, height, Cell(x, y));
        LayoutPlacesCells(w, h, width, height, Cell(x, y));
        var p := new Particle(pos);
        store[y * w + x] := p;
        placed := placed + {Index(w, Cell(x, y))};
      }
    }
    forall k | 0 <= k < w * h
      ensures k in placed
    {
      CellAtInRange(w, h, k);
    }
    ps := store[..];
  }

  /** Wind forces defined on the whole mesh are defined on what the wind loop has
      visited before quad `(x, y)`. */
  lemma Visited(s: seq<PState>, w: nat, h: nat, x: nat, y: nat, norm: Vec3 -> real)
    requires 1 <= h && y + 1 <= h
    requires WindDefined(s, w, SurfacePass(h, x + 1), norm)
    ensures WindDefined(s, w, SurfacePass(h, x) + SurfaceColumn(x, y), norm)
  {
    SurfacePassPrefix(h, x, y);
    WindDefinedPrefix(s, w, SurfacePass(h, x + 1), SurfacePass(h, x) + SurfaceColumn(x, y), norm);
  }

  /** Wind forces defined on the whole mesh are defined on its first `m` quad columns. */
  lemma PassDefined(s: seq<PState>, w: nat, h: nat, m: nat, norm: Vec3 -> real)
    requires 1 <= h && m < w
    requires WindDefined(s, w, Surface(w, h), norm)
    ensures WindDefined(s, w, SurfacePass(h, m), norm)
  {
    SurfacePassGrows(h, m, w - 1);
    WindDefinedPrefix(s, w, Surface(w, h), SurfacePass(h, m), norm);
  }

  class Cloth {
    const numParticlesWidth: nat
    const numParticlesHeight: nat
    /** The particle store, slot `y * W + x` for cell `(x, y)`; its slots never change,
        only the particles in them do. */
    const particles: seq<Particle>
    /** The slot of each particle of the store. */
    ghost const slot: map<Particle, nat>
    var constraints: seq<Constraint>
    /** The vector length the cloth measures distances with. */
    const norm: Vec3 -> real

    ghost predicate Valid()
      reads this
    {
      && 3 <= numParticlesWidth && 1 <= numParticlesHeight
      && |particles| == numParticlesWidth * numParticlesHeight
      && Indexed(particles, slot)
      && InRange(constraints, |particles|)
    }

    /** `getParticle(x, y)`: the slot of cell `(x, y)`. */
    function ParticleAt(x: nat, y: nat): (p: Particle)
      requires Valid() && x < numParticlesWidth && y < numParticlesHeight
      reads this
      ensures Index(numParticlesWidth, Cell(x, y)) < |particles|
      ensures p == particles[Index(numParticlesWidth, Cell(x, y))]
    {
      particles[ParticleIndex(x, y)]
    }

    /** The cloth constructor: creates the grid of particles, the structural and the bend
        constraints from the grid positions, then pins the six anchors of the top row. */
    constructor (width: real, height: real, numParticlesWidth: nat, numParticlesHeight: nat, norm: Vec3 -> real)
      requires 3 <= numParticlesWidth && 1 <= numParticlesHeight
      ensures Valid()
      ensures this.numParticlesWidth == numParticlesWidth && this.numParticlesHeight == numParticlesHeight
      ensures this.norm == norm
      ensures forall k :: 0 <= k < |particles| ==> fresh(particles[k])
      ensures States(particles) == Hung(numParticlesWidth, numParticlesHeight, width, height)
      ensures Realizes(constraints, Links(numParticlesWidth, numParticlesHeight),
                       Layout(numParticlesWidth, numParticlesHeight, width, height), numParticlesWidth, norm)
    {
      var w, h := numParticlesWidth, numParticlesHeight;
      ghost var initial := Layout(w, h, width, height);
      var store := CreateParticles(w, h, width, height);
      particles := store;
      slot := SlotMap(store);
      this.numParticlesWidth := w;
      this.numParticlesHeight := h;
      this.norm := norm;
      constraints := [];
      new;
      assert States(particles) == initial;
      ConnectPass(1);
      ghost var structural := constraints;
      ConnectPass(2);
      assert States(particles) == initial;
      RealizesExtend(structural, constraints, 0, PassLinks(w, h, 1, w), PassLinks(w, h, 2, w), initial, w, norm);
      assert constraints[0..] == constraints && structural[0..] == structural;
      ghost var made := constraints;
      PinAnchors();
      assert constraints == made;
    }

    /** The constructor's pinning loop: three rounds of `AnchorRound`. */
    method PinAnchors()
      requires Valid()
      modifies particles
      ensures constraints == old(constraints)
      ensures States(particles) == PinRounds(old(States(particles)), numParticlesWidth, 3)
    {
      ghost var s0 := States(particles);
      var i := 0;
      while i < 3
        invariant i <= 3
        invariant constraints == old(constraints)
        invariant States(particles) == PinRounds(s0, numParticlesWidth, i)
      {
        AnchorRound(i);
        i := i + 1;
      }
      assert i == 3;
    }

    /** Round `i` of the pinning loop: cell `(i, 0)` is nudged right, pinned and nudged
        back, then cell `(W - 1 - i, 0)` is pinned. */
    method AnchorRound(i: nat)
      requires Valid() && i < numParticlesWidth
      modifies particles
      ensures constraints == old(constraints)
      ensures States(particles) == PinRound(old(States(particles)), numParticlesWidth, i)
    {
      var w := numParticlesWidth;
      MulAtLeast(numParticlesHeight, w);
      ghost var s := States(particles);
      ParticleAt(0 + i, 0).OffsetPos(Nudge);
      ghost var t := s[i := Offset(s[i], Nudge)];
      assert States(particles) == t;
      ParticleAt(0 + i, 0).MakeUnmovable();
      ghost var u := t[i := Pin(t[i])];
      assert States(particles) == u;
      ParticleAt(0 + i, 0).OffsetPos(Vec3(-0.5, 0.0, 0.0));
      ghost var v := u[i := Offset(u[i], Neg(Nudge))];
      assert States(particles) == v;
      ParticleAt(w - 1 - i, 0).MakeUnmovable();
    }

    /** `makeConstraint`: appends a constraint between slots `p1` and `p2`, whose rest
        distance is their current distance. */
    method MakeConstraint(p1: nat, p2: nat)
      requires Valid() && p1 < |particles| && p2 < |particles|
      modifies this
      ensures Valid()
      ensures |constraints| == |old(constraints)| + 1
      ensures constraints[..|old(constraints)|] == old(constraints)
      ensures constraints[|old(constraints)|].p1 == p1 && constraints[|old(constraints)|].p2 == p2
      ensures constraints[|old(constraints)|].restDistance == norm(Sub(particles[p1].pos, particles[p2].pos))
    {
      var c := new Constraint(particles, p1, p2, norm);
      constraints := constraints + [c];
    }

    /** The body of the constructor's connecting loops for cell `(x, y)` in the pass at
        grid distance `d`: up to four constraints, each emitted when its far cell exists. */
    method ConnectCell(d: nat, x: nat, y: nat)
      requires Valid() && x < numParticlesWidth && y < numParticlesHeight
      modifies this
      ensures Valid()
      ensures |old(constraints)| <= |constraints| && constraints[..|old(constraints)|] == old(constraints)
      ensures Realizes(constraints[|old(constraints)|..], CellLinks(numParticlesWidth, numParticlesHeight, d, x, y),
                       States(particles), numParticlesWidth, norm)
    {
      var w, h := numParticlesWidth, numParticlesHeight;
      ghost var n0 := |constraints|;
      ghost var links: seq<Link> := [];
      if x < w - d {
        Connect(Cell(x, y), Cell(x + d, y), n0, links);
        links := links + [Link(Cell(x, y), Cell(x + d, y))];
      }
      if y < h - d {
        Connect(Cell(x, y), Cell(x, y + d), n0, links);
        links := links + [Link(Cell(x, y), Cell(x, y + d))];
      }
      if x < w - d && y < h - d {
        Connect(Cell(x, y), Cell(x + d, y + d), n0, links);
        links := links + [Link(Cell(x, y), Cell(x + d, y + d))];
      }
      if x < w - d && y < h - d {
        Connect(Cell(x + d, y), Cell(x, y + d), n0, links);
        links := links + [Link(Cell(x + d, y), Cell(x, y + d))];
      }
      assert links == CellLinks(w, h, d, x, y);
    }

    /** `makeConstraint(getParticle(a.x, a.y), getParticle(b.x, b.y))`, keeping the part of
        the list made since length `n0` in step with the links `links` emitted so far. */
    method Connect(a: Cell, b: Cell, ghost n0: nat, ghost links: seq<Link>)
      requires Valid() && InGrid(numParticlesWidth, numParticlesHeight, a) && InGrid(numParticlesWidth, numParticlesHeight, b)
      requires n0 <= |constraints|
      requires Realizes(constraints[n0..], links, States(particles), numParticlesWidth, norm)
      modifies this
      ensures Valid()
      ensures |old(constraints)| < |constraints| && constraints[..n0] == old(constraints)[..n0]
      ensures Realizes(constraints[n0..], links + [Link(a, b)], States(particles), numParticlesWidth, norm)
    {
      ghost var before := constraints;
      MakeConstraint(ParticleIndex(a.x, a.y), ParticleIndex(b.x, b.y));
      SnocMade(before, n0, links, Link(a, b));
    }

    /** The slot of cell `(x, y)`, as `getParticle` computes it. */
    function ParticleIndex(x: nat, y: nat): (k: nat)
      requires Valid() && x < numParticlesWidth && y < numParticlesHeight
      reads this
      ensures k == Index(numParticlesWidth, Cell(x, y)) && k < |particles|
    {
      IndexInRange(numParticlesWidth, numParticlesHeight, Cell(x, y));
      y * numParticlesWidth + x
    }

    /** Bookkeeping for `ConnectCell`: appending the constraint just made for `l` keeps the
        new part of the list in step with the links emitted so far. */
    lemma SnocMade(before: seq<Constraint>, n0: nat, links: seq<Link>, l: Link)
      requires n0 <= |before| && |constraints| == |before| + 1 && constraints[..|before|] == before
      requires Realizes(before[n0..], links, States(particles), numParticlesWidth, norm)
      requires Made(constraints[|before|], l, States(particles), numParticlesWidth, norm)
      ensures Realizes(constraints[n0..], links + [l], States(particles), numParticlesWidth, norm)
    {
      assert constraints[n0..] == before[n0..] + [constraints[|before|]];
    }

    /** The inner connecting loop for column `x`, over rows `y`. */
    method ConnectColumn(d: nat, x: nat)
      requires Valid() && x < numParticlesWidth
      modifies this
      ensures Valid()
      ensures |old(constraints)| <= |constraints| && constraints[..|old(constraints)|] == old(constraints)
      ensures Realizes(constraints[|old(constraints)|..], ColumnLinks(numParticlesWidth, numParticlesHeight, d, x, numParticlesHeight),
                       States(particles), numParticlesWidth, norm)
    {
      var w, h := numParticlesWidth, numParticlesHeight;
      ghost var n0 := |constraints|;
      ghost var start := constraints;
      for y := 0 to h
        invariant Valid() && n0 <= |constraints| && constraints[..n0] == start
        invariant Realizes(constraints[n0..], ColumnLinks(w, h, d, x, y), States(particles), w, norm)
      {
        ghost var before := constraints;
        ConnectCell(d, x, y);
        RealizesExtend(before, constraints, n0, ColumnLinks(w, h, d, x, y), CellLinks(w, h, d, x, y),
                       States(particles), w, norm);
      }
    }

    /** One of the constructor's two connecting passes, at grid distance `d`: the outer
        loop over columns `x`, the inner one over rows `y`. */
    method ConnectPass(d: nat)
      requires Valid()
      modifies this
      ensures Valid() && States(particles) == old(States(particles))
      ensures |old(constraints)| <= |constraints| && constraints[..|old(constraints)|] == old(constraints)
      ensures Realizes(constraints[|old(constraints)|..], PassLinks(numParticlesWidth, numParticlesHeight, d, numParticlesWidth),
                       States(particles), numParticlesWidth, norm)
    {
      var w, h := numParticlesWidth, numParticlesHeight;
      ghost var n0 := |constraints|;
      ghost var start := constraints;
      for x := 0 to w
        invariant Valid() && n0 <= |constraints| && constraints[..n0] == start
        invariant Realizes(constraints[n0..], PassLinks(w, h, d, x), States(particles), w, norm)
      {
        ghost var before := constraints;
        ConnectColumn(d, x);
        RealizesExtend(before, constraints, n0, PassLinks(w, h, d, x), ColumnLinks(w, h, d, x, h),
                       States(particles), w, norm);
      }
    }

    /** `timeStep()`: `CONSTRAINT_ITERATIONS` sweeps over the whole constraint list, then
        one Verlet step of every particle. The C++ code divides by each constraint's
        current distance unchecked; the model asks that no sweep meets a zero one. */
    method TimeStep()
      requires Valid()
      requires Step(States(particles), constraints, norm).Some?
      modifies particles
      ensures States(particles) == Step(old(States(particles)), constraints, norm).value
    {
      Relax();
      IntegrateParticles();
    }

    /** The constraint loops of `timeStep()`: `CONSTRAINT_ITERATIONS` sweeps. */
    method Relax()
      requires Valid()
      requires Relaxations(States(particles), constraints, CONSTRAINT_ITERATIONS, norm).Some?
      modifies particles
      ensures States(particles) == Relaxations(old(States(particles)), constraints, CONSTRAINT_ITERATIONS, norm).value
    {
      ghost var s0 := States(particles);
      var i := 0;
      while i < CONSTRAINT_ITERATIONS
        invariant i <= CONSTRAINT_ITERATIONS
        invariant Relaxations(s0, constraints, i, norm).Some?
        invariant States(particles) == Relaxations(s0, constraints, i, norm).value
      {
        RelaxationsPrefixDefined(s0, constraints, i + 1, CONSTRAINT_ITERATIONS, norm);
        Sweep();
        i := i + 1;
      }
      assert i == CONSTRAINT_ITERATIONS;
    }

    /** The particle loop of `timeStep()`: one Verlet step of every particle. */
    method IntegrateParticles()
      requires Valid()
      modifies particles
      ensures States(particles) == IntegrateAll(old(States(particles)))
    {
      ghost var r := States(particles);
      for k := 0 to |particles|
        invariant forall m :: 0 <= m < |particles| ==>
          particles[m].State() == if m < k then Integrate(r[m]) else r[m]
      {
        particles[k].TimeStep();
      }
    }

    /** The inner loop of `timeStep()`: every constraint satisfied once, in list order. */
    method Sweep()
      requires Valid() && RelaxAll(States(particles), constraints, norm).Some?
      modifies particles
      ensures States(particles) == RelaxAll(old(States(particles)), constraints, norm).value
    {
      ghost var s := States(particles);
      var j := 0;
      while j < |constraints|
        invariant j <= |constraints|
        invariant InRange(constraints[..j], |s|) && RelaxAll(s, constraints[..j], norm).Some?
        invariant States(particles) == RelaxAll(s, constraints[..j], norm).value
      {
        SatisfyNext(s, j);
        j := j + 1;
      }
      assert constraints[..j] == constraints;
    }

    /** One turn of the inner loop of `timeStep()`: constraint `j` satisfied after the
        constraints before it, on the states `s` the sweep started from. */
    method SatisfyNext(ghost s: seq<PState>, j: nat)
      requires Valid() && |s| == |particles| && j < |constraints|
      requires RelaxAll(s, constraints, norm).Some?
      requires InRange(constraints[..j], |s|) && RelaxAll(s, constraints[..j], norm).Some?
      requires States(particles) == RelaxAll(s, constraints[..j], norm).value
      modifies particles
      ensures InRange(constraints[..j + 1], |s|) && RelaxAll(s, constraints[..j + 1], norm).Some?
      ensures States(particles) == RelaxAll(s, constraints[..j + 1], norm).value
    {
      RelaxAllPrefixDefined(s, constraints, j + 1, norm);
      RelaxAllStep(s, constraints, j, norm);
      ghost var t := States(particles);
      var c := constraints[j];
      assert c.Relaxed(t, norm).Some?;
      IndexedDistinct(particles, slot);
      c.Satisfy(particles, norm);
    }

    /** `addForce(direction)`: the same force on every particle. */
    method AddForce(direction: Vec3)
      requires Valid()
      modifies particles
      ensures States(particles) == PushAll(old(States(particles)), direction)
    {
      ghost var s0 := States(particles);
      for k := 0 to |particles|
        invariant forall m :: 0 <= m < |particles| ==>
          particles[m].State() == if m < k then Push(s0[m], direction) else s0[m]
      {
        particles[k].AddForce(direction);
      }
    }

    /** `addWindForcesForTriangle`: the wind force of triangle `t` on its three vertices.
        The unit normal divides by the normal's length, which must not be zero. */
    method AddWindForcesForTriangle(t: Triangle, direction: Vec3)
      requires Indexed(particles, slot) && Slotted(numParticlesWidth, |particles|, t)
      requires norm(NormalAt(States(particles), numParticlesWidth, t)) != 0.0
      modifies particles
      ensures States(particles) == WindOnTriangle(old(States(particles)), numParticlesWidth, t, direction, norm)
    {
      var w := numParticlesWidth;
      ghost var s := States(particles);
      var p1, p2, p3 := particles[Index(w, t.a)], particles[Index(w, t.b)], particles[Index(w, t.c)];
      var normal := TriangleNormal(p1.pos, p2.pos, p3.pos);
      var d := Normalized(normal, norm);
      var force := Scale(normal, Dot(d, direction));
      assert force == ForceAt(s, w, t, direction, norm);
      p1.AddForce(force);
      ghost var s1 := PushAt(s, Index(w, t.a), force);
      PushAtEffect(s, Index(w, t.a), force);
      assert States(particles) == s1;
      p2.AddForce(force);
      ghost var s2 := PushAt(s1, Index(w, t.b), force);
      PushAtEffect(s1, Index(w, t.b), force);
      assert States(particles) == s2;
      PushAtEffect(s2, Index(w, t.c), force);
      p3.AddForce(force);
    }

    /** `windForce(direction)`: the wind force of every mesh triangle, quad column by quad
        column, two triangles per quad. */
    method WindForce(direction: Vec3)
      requires Valid()
      requires WindDefined(States(particles), numParticlesWidth, Surface(numParticlesWidth, numParticlesHeight), norm)
      modifies particles
      ensures States(particles)
           == Winded(old(States(particles)), numParticlesWidth, Surface(numParticlesWidth, numParticlesHeight), direction, norm)
    {
      var w, h := numParticlesWidth, numParticlesHeight;
      ghost var s0 := States(particles);
      var columns: nat, x: nat := w - 1, 0;
      while x < columns
        invariant x <= columns
        invariant WindDefined(s0, w, SurfacePass(h, x), norm)
        invariant States(particles) == Winded(s0, w, SurfacePass(h, x), direction, norm)
      {
        PassDefined(s0, w, h, x + 1, norm);
        WindColumn(x, direction, s0);
        x := x + 1;
      }
      assert x == columns;
      assert Surface(w, h) == SurfacePass(h, w - 1);
    }

    /** The inner loop of `windForce` for quad column `x`, starting from the wind forces
        of the columns before it on the states `s0`. */
    method WindColumn(x: nat, direction: Vec3, ghost s0: seq<PState>)
      requires Indexed(particles, slot) && 1 <= numParticlesHeight && x + 1 < numParticlesWidth && |s0| == |particles|
      requires WindDefined(s0, numParticlesWidth, SurfacePass(numParticlesHeight, x), norm)
      requires WindDefined(s0, numParticlesWidth, SurfacePass(numParticlesHeight, x + 1), norm)
      requires States(particles) == Winded(s0, numParticlesWidth, SurfacePass(numParticlesHeight, x), direction, norm)
      modifies particles
      ensures States(particles) == Winded(s0, numParticlesWidth, SurfacePass(numParticlesHeight, x + 1), direction, norm)
    {
      var w, h := numParticlesWidth, numParticlesHeight;
      ghost var done := SurfacePass(h, x);
      VisitNothing(h, x);
      var y := 0;
      while y < h - 1
        invariant y <= h - 1
        invariant WindDefined(s0, w, done + SurfaceColumn(x, y), norm)
        invariant States(particles) == Winded(s0, w, done + SurfaceColumn(x, y), direction, norm)
      {
        Visited(s0, w, h, x, y + 1, norm);
        VisitQuad(h, x, y);
        WindQuad(s0, done + SurfaceColumn(x, y), done + SurfaceColumn(x, y + 1), x, y, direction);
        y := y + 1;
      }
      assert y == h - 1;
      VisitColumn(h, x);
    }

    /** The body of the inner loop of `windForce`: the two triangles of quad `(x, y)`,
        after the triangles `pre`. */
    method WindQuad(ghost s0: seq<PState>, ghost pre: seq<Triangle>, ghost post: seq<Triangle>, x: nat, y: nat, direction: Vec3)
      requires Indexed(particles, slot) && |s0| == |particles| && post == pre + QuadTriangles(x, y)
      requires WindDefined(s0, numParticlesWidth, pre, norm)
      requires WindDefined(s0, numParticlesWidth, post, norm)
      requires States(particles) == Winded(s0, numParticlesWidth, pre, direction, norm)
      modifies particles
      ensures States(particles) == Winded(s0, numParticlesWidth, post, direction, norm)
    {
      var t1 := Triangle(Cell(x + 1, y), Cell(x, y), Cell(x, y + 1));
      var t2 := Triangle(Cell(x + 1, y + 1), Cell(x + 1, y), Cell(x, y + 1));
      assert pre + QuadTriangles(x, y) == pre + [t1] + [t2];
      WindedAppend(s0, numParticlesWidth, pre + [t1], t2, direction, norm);
      WindNext(s0, pre, t1, direction);
      WindNext(s0, pre + [t1], t2, direction);
    }

    /** One call of `addWindForcesForTriangle` after the triangles `pre`, on the
        states `s0` the wind loop started from. */
    method WindNext(ghost s0: seq<PState>, ghost pre: seq<Triangle>, t: Triangle, direction: Vec3)
      requires Indexed(particles, slot) && |s0| == |particles|
      requires WindDefined(s0, numParticlesWidth, pre, norm)
      requires WindDefined(s0, numParticlesWidth, pre + [t], norm)
      requires States(particles) == Winded(s0, numParticlesWidth, pre, direction, norm)
      modifies particles
      ensures States(particles) == Winded(s0, numParticlesWidth, pre + [t], direction, norm)
    {
      WindedAppend(s0, numParticlesWidth, pre, t, direction, norm);
      AddWindForcesForTriangle(t, direction);
    }

    /** `ballCollision(center, radius)`: every particle strictly inside the ball is
        projected onto its surface. Normalizing divides by the distance to the centre,
        which must not be zero for a free particle inside. */
    method BallCollision(center: Vec3, radius: real)
      requires Valid() && CollisionsDefined(States(particles), center, radius, norm)
      modifies particles
      ensures States(particles) == CollideAll(old(States(particles)), center, radius, norm)
    {
      ghost var s0 := States(particles);
      for k := 0 to |particles|
        invariant forall m :: 0 <= m < |particles| ==>
          particles[m].State() == if m < k then Collided(s0[m], center, radius, norm) else s0[m]
      {
        var v := Sub(particles[k].pos, center);
        var l := norm(v);
        if norm(v) < radius {
          // At the centre the C++ offset is not a number; only a pinned particle can be
          // there, and it discards the offset, so zero stands in for it.
          var offset := if l != 0.0 then Scale(Normalized(v, norm), radius - l) else Zero;
          particles[k].OffsetPos(offset);
        }
      }
    }
  }
}
