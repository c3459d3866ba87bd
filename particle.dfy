/** A cloth particle (Particle.h): a point mass advanced by Verlet integration, with its
    accumulated acceleration, a one-way pin flag and an accumulated shading normal.

    `PState` is the whole state of one particle as a value; each operation on it is a
    function on `PState`, and each method of class `Particle` is proved to change the
    object's state exactly as that function says. */
module ParticleModel {
  import opened Vector

  /** How much of the velocity is damped away each frame. */
  const DAMPING: real := 0.01
  /** The squared time step, written in the source as the macro text `0.5*0.5`. */
  const TIME_STEPSIZE2: real := 0.5 * 0.5
  /** How many relaxation sweeps over all constraints one cloth time step makes. */
  const CONSTRAINT_ITERATIONS: nat := 15
  /** The only mass any particle ever has. */
  const MASS: real := 1.0

  datatype PState = PState(pos: Vec3, oldPos: Vec3, acc: Vec3, movable: bool, normal: Vec3)

  /** The velocity that Verlet integration keeps implicitly, as a position difference. */
  function Velocity(s: PState): Vec3 {
    Sub(s.pos, s.oldPos)
  }

  /** The state `Particle(pos)` creates: at rest at `p`, free, with nothing accumulated. */
  function Spawn(p: Vec3): (s: PState)
    ensures s.pos == p && Velocity(s) == Zero
    ensures s.acc == Zero && s.normal == Zero && s.movable
  {
    PState(p, p, Zero, true, Zero)
  }

  /** `addForce(f)`: the acceleration grows by `f / mass`; nothing else changes. */
  function Push(s: PState, f: Vec3): (r: PState)
    ensures Sub(r.acc, s.acc) == Div(f, MASS)
    ensures r.(acc := s.acc) == s
  {
    s.(acc := Add(s.acc, Div(f, MASS)))
  }

  /** `timeStep()`: a free particle takes one damped Verlet step and forgets its
      acceleration; a pinned particle is left exactly as it is. */
  function Integrate(s: PState): (r: PState)
    ensures !s.movable ==> r == s
    ensures s.movable ==> r.oldPos == s.pos && r.acc == Zero
    ensures s.movable ==>
      Velocity(r) == Add(Scale(Velocity(s), 1.0 - DAMPING), Scale(s.acc, TIME_STEPSIZE2))
    ensures r.movable == s.movable && r.normal == s.normal
  {
    if s.movable then
      var next := Add(Add(s.pos, Scale(Sub(s.pos, s.oldPos), 1.0 - DAMPING)), Scale(s.acc, TIME_STEPSIZE2));
      assert Sub(next, s.pos)
          == Add(Scale(Sub(s.pos, s.oldPos), 1.0 - DAMPING), Scale(s.acc, TIME_STEPSIZE2));
      s.(pos := next, oldPos := s.pos, acc := Zero)
    else
      s
  }

  /** `offsetPos(v)`: moves a free particle by `v`; a pinned particle does not move. */
  function Offset(s: PState, v: Vec3): (r: PState)
    ensures s.movable ==> Sub(r.pos, s.pos) == v
    ensures !s.movable ==> r == s
    ensures r.(pos := s.pos) == s
  {
    if s.movable then s.(pos := Add(s.pos, v)) else s
  }

  /** `makeUnmovable()`: pins the particle; nothing else changes. */
  function Pin(s: PState): (r: PState)
    ensures !r.movable
    ensures r.(movable := s.movable) == s
  {
    s.(movable := false)
  }

  /** `resetAcceleration()`: only the acceleration changes, to zero. */
  function ClearAcceleration(s: PState): (r: PState)
    ensures r.acc == Zero
    ensures r.(acc := s.acc) == s
  {
    s.(acc := Zero)
  }

  /** `resetNormal()`: only the accumulated normal changes, to zero. */
  function ClearNormal(s: PState): (r: PState)
    ensures r.normal == Zero
    ensures r.(normal := s.normal) == s
  {
    s.(normal := Zero)
  }

  /** `addToNormal(n)`: the accumulated normal grows by `n` normalized, which needs a
      non-zero length; nothing else changes. */
  function AccumulateNormal(s: PState, n: Vec3, norm: Vec3 -> real): (r: PState)
    requires norm(n) != 0.0
    ensures Scale(Sub(r.normal, s.normal), norm(n)) == n
    ensures r.(normal := s.normal) == s
  {
    s.(normal := Add(s.normal, Normalized(n, norm)))
  }

  /** The pin flag only ever goes from free to pinned: no operation frees a pinned
      particle, and only `Pin` changes the flag at all. */
  lemma PinIsPermanent(s: PState, v: Vec3, f: Vec3, n: Vec3, norm: Vec3 -> real)
    requires norm(n) != 0.0
    ensures !Pin(s).movable
    ensures Integrate(s).movable == s.movable && Offset(s, v).movable == s.movable
    ensures Push(s, f).movable == s.movable && ClearAcceleration(s).movable == s.movable
    ensures ClearNormal(s).movable == s.movable && AccumulateNormal(s, n, norm).movable == s.movable
  {
  }

  /** A pinned particle never moves, whatever is done to it. */
  lemma PinnedNeverMoves(s: PState, v: Vec3, f: Vec3, n: Vec3, norm: Vec3 -> real)
    requires !s.movable && norm(n) != 0.0
    ensures Integrate(s) == s && Offset(s, v) == s
    ensures Push(s, f).pos == s.pos && ClearAcceleration(s).pos == s.pos
    ensures ClearNormal(s).pos == s.pos && AccumulateNormal(s, n, norm).pos == s.pos
    ensures Pin(s).pos == s.pos
  {
  }

  class Particle {
    var movable: bool
    /** The mass is set to one by the constructor and never changed. */
    const mass: real := MASS
    var pos: Vec3
    var oldPos: Vec3
    var acceleration: Vec3
    var accumulatedNormal: Vec3

    function State(): PState
      reads this
    {
      PState(pos, oldPos, acceleration, movable, accumulatedNormal)
    }

    constructor (pos: Vec3)
      ensures State() == Spawn(pos)
    {
      this.pos := pos;
      oldPos := pos;
      acceleration := Zero;
      movable := true;
      accumulatedNormal := Zero;
    }

    method AddForce(f: Vec3)
      modifies this
      ensures State() == Push(old(State()), f)
    {
      acceleration := Add(acceleration, Div(f, mass));
    }

    method TimeStep()
      modifies this
      ensures State() == Integrate(old(State()))
    {
      if movable {
        var temp := pos;
        pos := Add(Add(pos, Scale(Sub(pos, oldPos), 1.0 - DAMPING)), Scale(acceleration, TIME_STEPSIZE2));
        oldPos := temp;
        acceleration := Zero;
      }
    }

    method ResetAcceleration()
      modifies this
      ensures State() == ClearAcceleration(old(State()))
    {
      acceleration := Zero;
    }

    method OffsetPos(v: Vec3)
      modifies this
      ensures State() == Offset(old(State()), v)
    {
      if movable {
        pos := Add(pos, v);
      }
    }

    method MakeUnmovable()
      modifies this
      ensures State() == Pin(old(State()))
    {
      movable := false;
    }

    method AddToNormal(normal: Vec3, norm: Vec3 -> real)
      requires norm(normal) != 0.0
      modifies this
      ensures State() == AccumulateNormal(old(State()), normal, norm)
    {
      accumulatedNormal := Add(accumulatedNormal, Normalized(normal, norm));
    }

    method ResetNormal()
      modifies this
      ensures State() == ClearNormal(old(State()))
    {
      accumulatedNormal := Zero;
    }
  }

  /** Distinct slots of the particle store hold distinct objects. */
  ghost predicate Distinct(ps: seq<Particle>) {
    forall i, j :: 0 <= i < j < |ps| ==> ps[i] != ps[j]
  }

  /** `slot` maps each particle of the store back to the one slot that holds it. */
  ghost predicate Indexed(ps: seq<Particle>, slot: map<Particle, nat>) {
    forall i :: 0 <= i < |ps| ==> ps[i] in slot && slot[ps[i]] == i
  }

  /** A store of distinct particles can be indexed by the map from particle to slot. */
  ghost function SlotMap(ps: seq<Particle>): (slot: map<Particle, nat>)
    requires Distinct(ps)
    ensures Indexed(ps, slot)
  {
    map i | 0 <= i < |ps| :: ps[i] := i
  }

  /** An indexed store holds distinct particles. */
  lemma IndexedDistinct(ps: seq<Particle>, slot: map<Particle, nat>)
    requires Indexed(ps, slot)
    ensures Distinct(ps)
  {
  }

  /** The states of the particles of a store, slot by slot. */
  function States(ps: seq<Particle>): (r: seq<PState>)
    reads ps
    ensures |r| == |ps|
    ensures forall i :: 0 <= i < |ps| ==> r[i] == ps[i].State()
  {
    seq(|ps|, i reads ps requires 0 <= i < |ps| => ps[i].State())
  }
}
