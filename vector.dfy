/** The three-component vector of the cloth kernel (class Vec3, and the external Vector3d
    that the cloth and its constraints use in its place), with exact real components.

    The Euclidean length needs a square root, which Dafny does not have, so the length is
    not defined here: every operation that needs it takes a `norm: Vec3 -> real`, and the
    lemmas that depend on what the length is assume `IsLength(norm)`, which pins `norm`
    down to the Euclidean length (the unique non-negative square root of `Dot(v, v)`). */
module Vector {

  datatype Vec3 = Vec3(x: real, y: real, z: real)

  const Zero: Vec3 := Vec3(0.0, 0.0, 0.0)

  function Add(a: Vec3, b: Vec3): Vec3 {
    Vec3(a.x + b.x, a.y + b.y, a.z + b.z)
  }

  function Sub(a: Vec3, b: Vec3): Vec3 {
    Vec3(a.x - b.x, a.y - b.y, a.z - b.z)
  }

  function Neg(a: Vec3): Vec3 {
    Vec3(-a.x, -a.y, -a.z)
  }

  /** `a * s`: scaling by a scalar. */
  function Scale(a: Vec3, s: real): Vec3 {
    Vec3(a.x * s, a.y * s, a.z * s)
  }

  /** `a / s`: division by a scalar, which must not be zero. */
  function Div(a: Vec3, s: real): (r: Vec3)
    requires s != 0.0
    ensures Scale(r, s) == a
  {
    Vec3(a.x / s, a.y / s, a.z / s)
  }

  function Cross(a: Vec3, b: Vec3): Vec3 {
    Vec3(a.y * b.z - a.z * b.y, a.z * b.x - a.x * b.z, a.x * b.y - a.y * b.x)
  }

  function Dot(a: Vec3, b: Vec3): real {
    a.x * b.x + a.y * b.y + a.z * b.z
  }

  function Abs(r: real): real {
    if r < 0.0 then -r else r
  }

  /** `norm` is the Euclidean length: non-negative, and its square is `Dot(v, v)`. */
  ghost predicate IsLength(norm: Vec3 -> real) {
    forall v :: 0.0 <= norm(v) && norm(v) * norm(v) == Dot(v, v)
  }

  /** `v.normalized()`: `v` divided by its length, defined only for a non-zero length. */
  function Normalized(v: Vec3, norm: Vec3 -> real): (r: Vec3)
    requires norm(v) != 0.0
    ensures Scale(r, norm(v)) == v
  {
    Div(v, norm(v))
  }

  /** The components of the array `f[3]` that holds a Vec3. */
  function Of(f: array<real>): Vec3
    requires f.Length == 3
    reads f
  {
    Vec3(f[0], f[1], f[2])
  }

  /** `a += v`: adds `v` to the stored components in place. */
  method AddAssign(f: array<real>, v: Vec3)
    requires f.Length == 3
    modifies f
    ensures Of(f) == Add(old(Of(f)), v)
  {
    f[0] := f[0] + v.x;
    f[1] := f[1] + v.y;
    f[2] := f[2] + v.z;
  }

  lemma AddSubCancel(a: Vec3, b: Vec3)
    ensures Sub(Add(a, b), b) == a
    ensures Add(Sub(a, b), b) == a
  {
  }

  lemma SubIsAddNeg(a: Vec3, b: Vec3)
    ensures Sub(a, b) == Add(a, Neg(b))
    ensures Neg(Neg(a)) == a
    ensures Neg(a) == Scale(a, -1.0)
  {
  }

  lemma DotSymmetric(a: Vec3, b: Vec3)
    ensures Dot(a, b) == Dot(b, a)
  {
  }

  lemma CrossAntisymmetric(a: Vec3, b: Vec3)
    ensures Cross(a, b) == Neg(Cross(b, a))
  {
  }

  /** The cross product is orthogonal to both factors: this is what makes it a normal. */
  lemma CrossOrthogonal(a: Vec3, b: Vec3)
    ensures Dot(Cross(a, b), a) == 0.0
    ensures Dot(Cross(a, b), b) == 0.0
  {
    assert Dot(Cross(a, b), a)
        == a.x * (a.y * b.z) - a.x * (a.z * b.y) + a.y * (a.z * b.x) - a.y * (a.x * b.z)
           + a.z * (a.x * b.y) - a.z * (a.y * b.x);
    assert Dot(Cross(a, b), b)
        == b.x * (a.y * b.z) - b.x * (a.z * b.y) + b.y * (a.z * b.x) - b.y * (a.x * b.z)
           + b.z * (a.x * b.y) - b.z * (a.y * b.x);
  }

  lemma DotScaleLeft(a: Vec3, s: real, b: Vec3)
    ensures Dot(Scale(a, s), b) == s * Dot(a, b)
  {
  }

  /** Two non-negative reals with the same square are equal. */
  lemma SquareRootUnique(a: real, b: real)
    requires 0.0 <= a && 0.0 <= b && a * a == b * b
    ensures a == b
  {
    assert (a - b) * (a + b) == a * a - b * b;
    if a + b != 0.0 {
      assert a - b == 0.0;
    }
  }

  lemma DotScale(v: Vec3, s: real)
    ensures Dot(Scale(v, s), Scale(v, s)) == (s * s) * Dot(v, v)
  {
    assert (v.x * s) * (v.x * s) == (s * s) * (v.x * v.x);
    assert (v.y * s) * (v.y * s) == (s * s) * (v.y * v.y);
    assert (v.z * s) * (v.z * s) == (s * s) * (v.z * v.z);
  }

  /** The length is absolutely homogeneous: scaling a vector scales its length. */
  lemma LengthScale(norm: Vec3 -> real, v: Vec3, s: real)
    requires IsLength(norm)
    ensures norm(Scale(v, s)) == Abs(s) * norm(v)
  {
    var a := norm(Scale(v, s));
    var l := norm(v);
    var k := Abs(s);
    assert a * a == (s * s) * (l * l) by {
      DotScale(v, s);
    }
    assert (k * l) * (k * l) == (k * k) * (l * l);
    assert k * k == s * s;
    assert 0.0 <= k * l;
    SquareRootUnique(a, k * l);
  }

  lemma LengthNeg(norm: Vec3 -> real, v: Vec3)
    requires IsLength(norm)
    ensures norm(Neg(v)) == norm(v)
  {
    SubIsAddNeg(v, v);
    LengthScale(norm, v, -1.0);
  }

  /** A normalized vector has length one. */
  lemma NormalizedIsUnit(norm: Vec3 -> real, v: Vec3)
    requires IsLength(norm) && norm(v) != 0.0
    ensures norm(Normalized(v, norm)) == 1.0
  {
    var l := norm(v);
    assert 0.0 < l;
    assert Normalized(v, norm) == Scale(v, 1.0 / l);
    LengthScale(norm, v, 1.0 / l);
  }
}
