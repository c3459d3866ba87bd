/** A distance constraint between two particles (Constraint.h) and the relaxation sweeps
    the cloth runs over its list of constraints.

    The C++ constraint holds two particle pointers; here it holds the two particles'
    indices in the cloth's particle store. All its fields are fixed at construction: the
    rest distance is taken once, from the positions the particles have then. */
module ConstraintModel {
  import opened Options
  import opened Vector
  import opened ParticleModel

  /** `t` differs from `s` at most in the positions of free particles. */
  predicate MovesOnlyFree(s: seq<PState>, t: seq<PState>) {
    && |t| == |s|
    && forall k :: 0 <= k < |s| ==>
         t[k].(pos := s[k].pos) == s[k] && (!s[k].movable ==> t[k] == s[k])
  }

  lemma MovesOnlyFreeTransitive(s: seq<PState>, t: seq<PState>, u: seq<PState>)
    requires MovesOnlyFree(s, t) && MovesOnlyFree(t, u)
    ensures MovesOnlyFree(s, u)
  {
  }

  class Constraint {
    const p1: nat
    const p2: nat
    const restDistance: real

    constructor (particles: seq<Particle>, p1: nat, p2: nat, norm: Vec3 -> real)
      requires p1 < |particles| && p2 < |particles|
      ensures this.p1 == p1 && this.p2 == p2
      ensures restDistance == norm(Sub(particles[p1].pos, particles[p2].pos))
    {
      this.p1 := p1;
      this.p2 := p2;
      var vec := Sub(particles[p1].pos, particles[p2].pos);
      restDistance := norm(vec);
    }

    /** The vector from `p1` to `p2`. */
    function Span(s: seq<PState>): Vec3
      requires p1 < |s| && p2 < |s|
    {
      Sub(s[p2].pos, s[p1].pos)
    }

    /** The offset that would bring `p1` to the rest distance from `p2` on its own. */
    function Correction(s: seq<PState>, norm: Vec3 -> real): Vec3
      requires p1 < |s| && p2 < |s| && norm(Span(s)) != 0.0
    {
      Scale(Span(s), 1.0 - restDistance / norm(Span(s)))
    }

    /** `satisfyConstraint()` on the particle states `s`: `p1` is offset by half the
        correction and `p2` by minus half of it. The C++ code divides by the current
        distance without a check. At a zero distance the offset is not a number; when
        both particles are pinned `offsetPos` discards it and nothing changes, otherwise
        a free particle takes it and the result is undefined (None). */
    function Relaxed(s: seq<PState>, norm: Vec3 -> real): (r: Option<seq<PState>>)
      requires p1 < |s| && p2 < |s|
      ensures r.Some? <==> norm(Span(s)) != 0.0 || (!s[p1].movable && !s[p2].movable)
      ensures r.Some? ==> |r.value| == |s|
    {
      if norm(Span(s)) == 0.0 then
        if !s[p1].movable && !s[p2].movable then Some(s) else None
      else
        var half := Scale(Correction(s, norm), 0.5);
        var t := s[p1 := Offset(s[p1], half)];
        Some(t[p2 := Offset(t[p2], Neg(half))])
    }

    method Satisfy(particles: seq<Particle>, norm: Vec3 -> real)
      requires p1 < |particles| && p2 < |particles| && Distinct(particles)
      requires norm(Sub(particles[p2].pos, particles[p1].pos)) != 0.0
            || (!particles[p1].movable && !particles[p2].movable)
      modifies particles[p1], particles[p2]
      ensures Relaxed(old(States(particles)), norm).Some?
      ensures States(particles) == Relaxed(old(States(particles)), norm).value
    {
      ghost var s := States(particles);
      var p1ToP2 := Sub(particles[p2].pos, particles[p1].pos);
      var currentDistance := norm(p1ToP2);
      // At a zero distance both particles are pinned and discard whatever offset they
      // are given; the quotient, not a number in the C++ code, is replaced by zero.
      var correctionVector :=
        if currentDistance != 0.0 then Scale(p1ToP2, 1.0 - restDistance / currentDistance) else Zero;
      var correctionVectorHalf := Scale(correctionVector, 0.5);
      assert currentDistance != 0.0 ==> correctionVectorHalf == Scale(Correction(s, norm), 0.5);
      particles[p1].OffsetPos(correctionVectorHalf);
      ghost var t := s[p1 := Offset(s[p1], correctionVectorHalf)];
      assert States(particles) == t;
      particles[p2].OffsetPos(Neg(correctionVectorHalf));
    }
  }

  /** Two pinned particles keep their places, even at a zero distance. */
  lemma RelaxedBothPinned(c: Constraint, s: seq<PState>, norm: Vec3 -> real)
    requires c.p1 < |s| && c.p2 < |s| && !s[c.p1].movable && !s[c.p2].movable
    ensures c.Relaxed(s, norm) == Some(s)
  {
    if norm(c.Span(s)) != 0.0 {
      var half := Scale(c.Correction(s, norm), 0.5);
      var t := s[c.p1 := Offset(s[c.p1], half)];
      assert t == s;
      assert t[c.p2 := Offset(t[c.p2], Neg(half))] == s;
    }
  }

  /** Relaxation moves only free particles, and only the two it joins. */
  lemma RelaxedFrame(c: Constraint, s: seq<PState>, norm: Vec3 -> real)
    requires c.p1 < |s| && c.p2 < |s| && c.Relaxed(s, norm).Some?
    ensures MovesOnlyFree(s, c.Relaxed(s, norm).value)
    ensures forall k :: 0 <= k < |s| && k != c.p1 && k != c.p2 ==> c.Relaxed(s, norm).value[k] == s[k]
  {
  }

  /** Relaxation keeps the sum of the two positions, that is the midpoint, when both
      particles are free. */
  lemma RelaxedKeepsMidpoint(c: Constraint, s: seq<PState>, norm: Vec3 -> real)
    requires c.p1 < |s| && c.p2 < |s| && c.p1 != c.p2
    requires s[c.p1].movable && s[c.p2].movable && norm(c.Span(s)) != 0.0
    ensures Add(c.Relaxed(s, norm).value[c.p1].pos, c.Relaxed(s, norm).value[c.p2].pos)
         == Add(s[c.p1].pos, s[c.p2].pos)
  {
  }

  /** With both particles free, relaxation rescales the span from `p1` to `p2` by
      rest distance over current distance. */
  lemma RelaxedScalesSpan(c: Constraint, s: seq<PState>, norm: Vec3 -> real)
    requires c.p1 < |s| && c.p2 < |s| && c.p1 != c.p2
    requires s[c.p1].movable && s[c.p2].movable && norm(c.Span(s)) != 0.0
    ensures c.Span(c.Relaxed(s, norm).value)
         == Scale(c.Span(s), c.restDistance / norm(c.Span(s)))
  {
    var d := c.Span(s);
    var q := c.restDistance / norm(d);
    var h := Scale(Scale(d, 1.0 - q), 0.5);
    var r := c.Relaxed(s, norm).value;
    assert r[c.p1].pos == Add(s[c.p1].pos, h);
    assert r[c.p2].pos == Add(s[c.p2].pos, Neg(h));
    assert c.Span(r) == Sub(d, Scale(h, 2.0));
  }

  /** With both particles free and the Euclidean length, one relaxation puts the two
      particles exactly at the rest distance. */
  lemma RelaxedRestoresRestDistance(c: Constraint, s: seq<PState>, norm: Vec3 -> real)
    requires IsLength(norm) && 0.0 <= c.restDistance
    requires c.p1 < |s| && c.p2 < |s| && c.p1 != c.p2
    requires s[c.p1].movable && s[c.p2].movable && norm(c.Span(s)) != 0.0
    ensures norm(c.Span(c.Relaxed(s, norm).value)) == c.restDistance
  {
    var d := c.Span(s);
    var q := c.restDistance / norm(d);
    RelaxedScalesSpan(c, s, norm);
    LengthScale(norm, d, q);
    assert 0.0 < norm(d);
    assert 0.0 <= q;
  }

  /** When `p1` is pinned and `p2` free, only `p2` moves, and only by half the correction,
      so the span becomes the average of the old span and the span at rest length. */
  lemma RelaxedFirstPinned(c: Constraint, s: seq<PState>, norm: Vec3 -> real)
    requires c.p1 < |s| && c.p2 < |s| && c.p1 != c.p2
    requires !s[c.p1].movable && s[c.p2].movable && norm(c.Span(s)) != 0.0
    ensures c.Relaxed(s, norm).value[c.p1] == s[c.p1]
    ensures Sub(s[c.p2].pos, c.Relaxed(s, norm).value[c.p2].pos) == Scale(c.Correction(s, norm), 0.5)
    ensures c.Span(c.Relaxed(s, norm).value)
         == Scale(c.Span(s), (1.0 + c.restDistance / norm(c.Span(s))) * 0.5)
  {
    var d := c.Span(s);
    var q := c.restDistance / norm(d);
    var h := Scale(Scale(d, 1.0 - q), 0.5);
    var r := c.Relaxed(s, norm).value;
    assert r[c.p2].pos == Add(s[c.p2].pos, Neg(h));
    assert c.Span(r) == Sub(d, h);
  }

  /** When `p2` is pinned and `p1` free, only `p1` moves, by half the correction. */
  lemma RelaxedSecondPinned(c: Constraint, s: seq<PState>, norm: Vec3 -> real)
    requires c.p1 < |s| && c.p2 < |s| && c.p1 != c.p2
    requires s[c.p1].movable && !s[c.p2].movable && norm(c.Span(s)) != 0.0
    ensures c.Relaxed(s, norm).value[c.p2] == s[c.p2]
    ensures Sub(c.Relaxed(s, norm).value[c.p1].pos, s[c.p1].pos) == Scale(c.Correction(s, norm), 0.5)
    ensures c.Span(c.Relaxed(s, norm).value)
         == Scale(c.Span(s), (1.0 + c.restDistance / norm(c.Span(s))) * 0.5)
  {
    var d := c.Span(s);
    var q := c.restDistance / norm(d);
    var h := Scale(Scale(d, 1.0 - q), 0.5);
    var r := c.Relaxed(s, norm).value;
    assert r[c.p1].pos == Add(s[c.p1].pos, h);
    assert c.Span(r) == Sub(d, h);
  }

  /** Every constraint of `cs` joins two slots of a store of `n` particles. */
  predicate InRange(cs: seq<Constraint>, n: nat) {
    forall k :: 0 <= k < |cs| ==> cs[k].p1 < n && cs[k].p2 < n
  }

  /** One relaxation sweep: every constraint of `cs` relaxed once, in list order; None
      when some constraint meets a zero current distance. */
  function RelaxAll(s: seq<PState>, cs: seq<Constraint>, norm: Vec3 -> real): (r: Option<seq<PState>>)
    requires InRange(cs, |s|)
    ensures r.Some? ==> |r.value| == |s|
    decreases |cs|
  {
    if cs == [] then Some(s)
    else
      match RelaxAll(s, cs[..|cs| - 1], norm)
      case None => None
      case Some(t) => cs[|cs| - 1].Relaxed(t, norm)
  }

  /** `k` relaxation sweeps, one after the other. */
  function Relaxations(s: seq<PState>, cs: seq<Constraint>, k: nat, norm: Vec3 -> real): (r: Option<seq<PState>>)
    requires InRange(cs, |s|)
    ensures r.Some? ==> |r.value| == |s|
  {
    if k == 0 then Some(s)
    else
      match Relaxations(s, cs, k - 1, norm)
      case None => None
      case Some(t) => RelaxAll(t, cs, norm)
  }

  /** A defined sweep moves only free particles. */
  lemma {:induction false} RelaxAllMovesOnlyFree(s: seq<PState>, cs: seq<Constraint>, norm: Vec3 -> real)
    requires InRange(cs, |s|) && RelaxAll(s, cs, norm).Some?
    ensures MovesOnlyFree(s, RelaxAll(s, cs, norm).value)
    decreases |cs|
  {
    if cs != [] {
      var front := cs[..|cs| - 1];
      assert InRange(front, |s|);
      RelaxAllMovesOnlyFree(s, front, norm);
      var t := RelaxAll(s, front, norm).value;
      RelaxedFrame(cs[|cs| - 1], t, norm);
      MovesOnlyFreeTransitive(s, t, RelaxAll(s, cs, norm).value);
    }
  }

  /** Any number of defined sweeps moves only free particles. */
  lemma {:induction false} RelaxationsMovesOnlyFree(s: seq<PState>, cs: seq<Constraint>, k: nat, norm: Vec3 -> real)
    requires InRange(cs, |s|) && Relaxations(s, cs, k, norm).Some?
    ensures MovesOnlyFree(s, Relaxations(s, cs, k, norm).value)
  {
    if k > 0 {
      RelaxationsMovesOnlyFree(s, cs, k - 1, norm);
      var t := Relaxations(s, cs, k - 1, norm).value;
      assert InRange(cs, |t|);
      RelaxAllMovesOnlyFree(t, cs, norm);
      MovesOnlyFreeTransitive(s, t, Relaxations(s, cs, k, norm).value);
    }
  }

  /** A sweep over the first `j + 1` constraints is the sweep over the first `j`
      followed by constraint `j`. */
  lemma RelaxAllStep(s: seq<PState>, cs: seq<Constraint>, j: nat, norm: Vec3 -> real)
    requires InRange(cs, |s|) && j < |cs|
    ensures InRange(cs[..j], |s|) && InRange(cs[..j + 1], |s|)
    ensures RelaxAll(s, cs[..j + 1], norm)
         == match RelaxAll(s, cs[..j], norm)
            case None => None
            case Some(t) => cs[j].Relaxed(t, norm)
  {
    assert cs[..j + 1][..j] == cs[..j];
  }

  /** A sweep that is defined is defined on each of its prefixes. */
  lemma {:induction false} RelaxAllPrefixDefined(s: seq<PState>, cs: seq<Constraint>, j: nat, norm: Vec3 -> real)
    requires InRange(cs, |s|) && j <= |cs| && RelaxAll(s, cs, norm).Some?
    ensures InRange(cs[..j], |s|) && RelaxAll(s, cs[..j], norm).Some?
    decreases |cs| - j
  {
    if j < |cs| {
      RelaxAllPrefixDefined(s, cs, j + 1, norm);
      RelaxAllStep(s, cs, j, norm);
    } else {
      assert cs[..j] == cs;
    }
  }

  /** If `n` sweeps are defined, so is every smaller number of them. */
  lemma {:induction false} RelaxationsPrefixDefined(s: seq<PState>, cs: seq<Constraint>, i: nat, n: nat, norm: Vec3 -> real)
    requires InRange(cs, |s|) && i <= n && Relaxations(s, cs, n, norm).Some?
    ensures Relaxations(s, cs, i, norm).Some?
    decreases n - i
  {
    if i < n {
      RelaxationsPrefixDefined(s, cs, i + 1, n, norm);
    }
  }
}
