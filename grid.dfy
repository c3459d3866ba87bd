/** The discrete part of the cloth (Cloth.h): the row-major particle grid, the two passes
    that emit the constraint list, and the two triangles per grid quad that the wind acts
    on. Everything here is integer arithmetic on grid cells. */
module ClothGrid {

  /** Column `x`, row `y` of the grid. */
  datatype Cell = Cell(x: nat, y: nat)

  /** The two cells a constraint joins, in the order the constraint takes them. */
  datatype Link = Link(a: Cell, b: Cell)

  /** Three cells, in the order the wind force visits them. */
  datatype Triangle = Triangle(a: Cell, b: Cell, c: Cell)

  predicate InGrid(w: nat, h: nat, c: Cell) {
    c.x < w && c.y < h
  }

  /** `getParticle(x, y)`: the slot `y * w + x` of the row-major particle store. */
  function Index(w: nat, c: Cell): nat {
    c.y * w + c.x
  }

  /** The cell stored at slot `k`. */
  function CellAt(w: nat, k: nat): Cell
    requires 0 < w
  {
    Cell(k % w, k / w)
  }

  function Min(a: int, b: int): int {
    if a < b then a else b
  }

  lemma MulAtLeast(a: int, w: int)
    requires 1 <= a && 0 <= w
    ensures w <= a * w
  {
    assert a * w - w == (a - 1) * w;
  }

  lemma DivModUnique(k: nat, w: nat, q: nat, r: nat)
    requires r < w && k == q * w + r
    ensures k / w == q && k % w == r
  {
    var q', r' := k / w, k % w;
    assert k == q' * w + r';
    assert (q - q') * w == r' - r by {
      assert (q - q') * w == q * w - q' * w;
    }
    if q' < q {
      MulAtLeast(q - q', w);
    } else if q < q' {
      MulAtLeast(q' - q, w);
    }
  }

  /** A cell of the grid has a slot in `[0, w*h)`, and that slot gives the cell back. */
  lemma IndexInRange(w: nat, h: nat, c: Cell)
    requires InGrid(w, h, c)
    ensures Index(w, c) < w * h
    ensures CellAt(w, Index(w, c)) == c
  {
    assert c.y * w <= (h - 1) * w;
    assert (h - 1) * w == h * w - w;
    DivModUnique(Index(w, c), w, c.y, c.x);
  }

  /** Every slot in `[0, w*h)` is the slot of exactly the cell `CellAt` gives. */
  lemma CellAtInRange(w: nat, h: nat, k: nat)
    requires 0 < w && k < w * h
    ensures InGrid(w, h, CellAt(w, k))
    ensures Index(w, CellAt(w, k)) == k
  {
  }

  /** Distinct cells of the grid have distinct slots. */
  lemma IndexInjective(w: nat, h: nat, c: Cell, c': Cell)
    requires InGrid(w, h, c) && InGrid(w, h, c') && Index(w, c) == Index(w, c')
    ensures c == c'
  {
    IndexInRange(w, h, c);
    IndexInRange(w, h, c');
  }

  /** The constraints one cell `(x, y)` emits in the pass at grid distance `d`, in the
      order of the four `if`s of the loop body. */
  function CellLinks(w: nat, h: nat, d: nat, x: nat, y: nat): seq<Link> {
    (if x + d < w then [Link(Cell(x, y), Cell(x + d, y))] else [])
    + (if y + d < h then [Link(Cell(x, y), Cell(x, y + d))] else [])
    + (if x + d < w && y + d < h then [Link(Cell(x, y), Cell(x + d, y + d))] else [])
    + (if x + d < w && y + d < h then [Link(Cell(x + d, y), Cell(x, y + d))] else [])
  }

  /** The constraints of column `x` emitted by rows `0 .. n-1` (the inner loop over `y`). */
  function ColumnLinks(w: nat, h: nat, d: nat, x: nat, n: nat): seq<Link> {
    if n == 0 then [] else ColumnLinks(w, h, d, x, n - 1) + CellLinks(w, h, d, x, n - 1)
  }

  /** The constraints of columns `0 .. m-1` (the outer loop over `x`). */
  function PassLinks(w: nat, h: nat, d: nat, m: nat): seq<Link> {
    if m == 0 then [] else PassLinks(w, h, d, m - 1) + ColumnLinks(w, h, d, m - 1, h)
  }

  /** The whole constraint list of the cloth constructor: the structural pass at distance
      one, then the bend pass at distance two. */
  function Links(w: nat, h: nat): seq<Link> {
    PassLinks(w, h, 1, w) + PassLinks(w, h, 2, w)
  }

  lemma {:induction false} ColumnLinksCount(w: nat, h: nat, d: nat, x: nat, n: nat)
    requires n <= h && d <= h
    ensures |ColumnLinks(w, h, d, x, n)|
         == if x + d < w then n + 3 * Min(n, h - d) else Min(n, h - d)
  {
    if n > 0 {
      ColumnLinksCount(w, h, d, x, n - 1);
    }
  }

  lemma NextMultiple(a: int, k: int)
    ensures (a + 1) * k == a * k + k
  {
  }

  lemma {:induction false} PassLinksCount(w: nat, h: nat, d: nat, m: nat)
    requires m <= w && d <= w && d <= h
    ensures |PassLinks(w, h, d, m)|
         == Min(m, w - d) * (h + 3 * (h - d)) + (m - Min(m, w - d)) * (h - d)
  {
    if m > 0 {
      var k, e := h + 3 * (h - d), h - d;
      var a := Min(m - 1, w - d);
      PassLinksCount(w, h, d, m - 1);
      ColumnLinksCount(w, h, d, m - 1, h);
      assert Min(h, h - d) == e;
      assert |PassLinks(w, h, d, m)| == a * k + (m - 1 - a) * e + |ColumnLinks(w, h, d, m - 1, h)|;
      if m - 1 < w - d {
        assert |ColumnLinks(w, h, d, m - 1, h)| == k;
        assert Min(m, w - d) == a + 1;
        NextMultiple(a, k);
      } else {
        assert |ColumnLinks(w, h, d, m - 1, h)| == e;
        assert Min(m, w - d) == a;
        NextMultiple(m - 1 - a, e);
      }
    }
  }

  /** The pass at distance `d` emits `(w-d)*h + w*(h-d) + 2*(w-d)*(h-d)` constraints: one per
      horizontal pair, one per vertical pair and two per `d`-by-`d` square. */
  lemma PassCount(w: nat, h: nat, d: nat)
    requires d <= w && d <= h
    ensures |PassLinks(w, h, d, w)| == (w - d) * h + w * (h - d) + 2 * (w - d) * (h - d)
  {
    PassLinksCount(w, h, d, w);
    assert Min(w, w - d) == w - d;
    PassArithmetic(w - d, d, h, h - d);
  }

  lemma PassArithmetic(a: int, d: int, h: int, e: int)
    ensures a * (h + 3 * e) + (a + d - a) * e == a * h + (a + d) * e + 2 * a * e
  {
    assert a * (h + 3 * e) == a * h + 3 * (a * e);
    assert (a + d) * e == a * e + d * e;
  }

  /** The structural pass (distance one) and the bend pass (distance two), for any grid
      of at least two by two particles. */
  lemma LinksCount(w: nat, h: nat)
    requires 2 <= w && 2 <= h
    ensures |PassLinks(w, h, 1, w)| == (w - 1) * h + w * (h - 1) + 2 * (w - 1) * (h - 1)
    ensures |PassLinks(w, h, 2, w)| == (w - 2) * h + w * (h - 2) + 2 * (w - 2) * (h - 2)
    ensures |Links(w, h)| == |PassLinks(w, h, 1, w)| + |PassLinks(w, h, 2, w)|
  {
    PassCount(w, h, 1);
    PassCount(w, h, 2);
  }

  /** `l` joins two grid cells `d` apart: to the right, downwards, down-right, or (the
      second diagonal) from the upper right to the lower left. */
  predicate Spans(w: nat, h: nat, d: nat, l: Link) {
    && InGrid(w, h, l.a) && InGrid(w, h, l.b)
    && (|| l.b == Cell(l.a.x + d, l.a.y)
        || l.b == Cell(l.a.x, l.a.y + d)
        || l.b == Cell(l.a.x + d, l.a.y + d)
        || (l.a.x == l.b.x + d && l.b.y == l.a.y + d))
  }

  lemma {:induction false} ColumnLinksSpan(w: nat, h: nat, d: nat, x: nat, n: nat)
    requires x < w && n <= h
    ensures forall l :: l in ColumnLinks(w, h, d, x, n) ==> Spans(w, h, d, l)
  {
    if n > 0 {
      ColumnLinksSpan(w, h, d, x, n - 1);
    }
  }

  lemma SpansAppend(w: nat, h: nat, d: nat, a: seq<Link>, b: seq<Link>)
    requires forall l :: l in a ==> Spans(w, h, d, l)
    requires forall l :: l in b ==> Spans(w, h, d, l)
    ensures forall l :: l in a + b ==> Spans(w, h, d, l)
  {
  }

  lemma {:induction false} PassLinksSpan(w: nat, h: nat, d: nat, m: nat)
    requires m <= w
    ensures forall l :: l in PassLinks(w, h, d, m) ==> Spans(w, h, d, l)
  {
    if m > 0 {
      PassLinksSpan(w, h, d, m - 1);
      ColumnLinksSpan(w, h, d, m - 1, h);
      SpansAppend(w, h, d, PassLinks(w, h, d, m - 1), ColumnLinks(w, h, d, m - 1, h));
    }
  }

  /** A link spanning a positive distance joins two different slots of the store. */
  lemma SpannedSlots(w: nat, h: nat, d: nat, l: Link)
    requires 0 < d && Spans(w, h, d, l)
    ensures Index(w, l.a) < w * h && Index(w, l.b) < w * h
    ensures Index(w, l.a) != Index(w, l.b)
  {
    IndexInRange(w, h, l.a);
    IndexInRange(w, h, l.b);
    if Index(w, l.a) == Index(w, l.b) {
      IndexInjective(w, h, l.a, l.b);
    }
  }

  /** Every structural constraint joins two different particles of the grid whose
      coordinates differ by at most one on each axis; every bend constraint joins two
      different particles two cells apart horizontally, vertically or diagonally. */
  lemma LinksJoinNeighbours(w: nat, h: nat)
    ensures forall l :: l in PassLinks(w, h, 1, w) ==>
      && Spans(w, h, 1, l)
      && Index(w, l.a) < w * h && Index(w, l.b) < w * h && Index(w, l.a) != Index(w, l.b)
      && -1 <= l.b.x - l.a.x <= 1 && -1 <= l.b.y - l.a.y <= 1
    ensures forall l :: l in PassLinks(w, h, 2, w) ==>
      && Spans(w, h, 2, l)
      && Index(w, l.a) < w * h && Index(w, l.b) < w * h && Index(w, l.a) != Index(w, l.b)
  {
    PassLinksSpan(w, h, 1, w);
    PassLinksSpan(w, h, 2, w);
    forall l | l in PassLinks(w, h, 1, w)
      ensures Index(w, l.a) < w * h && Index(w, l.b) < w * h && Index(w, l.a) != Index(w, l.b)
    {
      SpannedSlots(w, h, 1, l);
    }
    forall l | l in PassLinks(w, h, 2, w)
      ensures Index(w, l.a) < w * h && Index(w, l.b) < w * h && Index(w, l.a) != Index(w, l.b)
    {
      SpannedSlots(w, h, 2, l);
    }
  }

  /** The two triangles of the quad whose upper-left cell is `(x, y)`, in the order and
      with the vertex order of `windForce`. */
  function QuadTriangles(x: nat, y: nat): seq<Triangle> {
    [Triangle(Cell(x + 1, y), Cell(x, y), Cell(x, y + 1)),
     Triangle(Cell(x + 1, y + 1), Cell(x + 1, y), Cell(x, y + 1))]
  }

  /** The triangles of quad column `x`, rows `0 .. n-1`. */
  function SurfaceColumn(x: nat, n: nat): seq<Triangle> {
    if n == 0 then [] else SurfaceColumn(x, n - 1) + QuadTriangles(x, n - 1)
  }

  /** The triangles of quad columns `0 .. m-1`, each with `h - 1` quads. */
  function SurfacePass(h: nat, m: nat): seq<Triangle>
    requires 1 <= h
  {
    if m == 0 then [] else SurfacePass(h, m - 1) + SurfaceColumn(m - 1, h - 1)
  }

  /** All triangles of the mesh, in the order `windForce` visits them. */
  function Surface(w: nat, h: nat): seq<Triangle>
    requires 1 <= w && 1 <= h
  {
    SurfacePass(h, w - 1)
  }

  predicate TriangleInGrid(w: nat, h: nat, t: Triangle) {
    InGrid(w, h, t.a) && InGrid(w, h, t.b) && InGrid(w, h, t.c)
  }

  lemma {:induction false} SurfaceColumnShape(w: nat, h: nat, x: nat, n: nat)
    requires x + 1 < w && n + 1 <= h
    ensures |SurfaceColumn(x, n)| == 2 * n
    ensures forall t :: t in SurfaceColumn(x, n) ==> TriangleInGrid(w, h, t)
  {
    if n > 0 {
      SurfaceColumnShape(w, h, x, n - 1);
    }
  }

  lemma {:induction false} SurfacePassShape(w: nat, h: nat, m: nat)
    requires 1 <= h && m + 1 <= w
    ensures |SurfacePass(h, m)| == 2 * m * (h - 1)
    ensures forall t :: t in SurfacePass(h, m) ==> TriangleInGrid(w, h, t)
  {
    if m > 0 {
      SurfacePassShape(w, h, m - 1);
      SurfaceColumnShape(w, h, m - 1, h - 1);
      assert 2 * m * (h - 1) == 2 * (m - 1) * (h - 1) + 2 * (h - 1);
    }
  }

  /** The mesh has two triangles per quad, and every vertex is a particle of the grid. */
  lemma SurfaceShape(w: nat, h: nat)
    requires 1 <= w && 1 <= h
    ensures |Surface(w, h)| == 2 * (w - 1) * (h - 1)
    ensures forall t :: t in Surface(w, h) ==> TriangleInGrid(w, h, t)
  {
    SurfacePassShape(w, h, w - 1);
  }

  lemma {:induction false} SurfaceColumnGrows(x: nat, n: nat, n': nat)
    requires n <= n'
    ensures SurfaceColumn(x, n) <= SurfaceColumn(x, n')
    decreases n' - n
  {
    if n < n' {
      SurfaceColumnGrows(x, n, n' - 1);
    }
  }

  lemma {:induction false} SurfacePassGrows(h: nat, m: nat, m': nat)
    requires 1 <= h && m <= m'
    ensures SurfacePass(h, m) <= SurfacePass(h, m')
    decreases m' - m
  {
    if m < m' {
      SurfacePassGrows(h, m, m' - 1);
    }
  }

  /** Before its first quad, quad column `x` adds nothing to what the wind loop has visited. */
  lemma VisitNothing(h: nat, x: nat)
    requires 1 <= h
    ensures SurfacePass(h, x) + SurfaceColumn(x, 0) == SurfacePass(h, x)
  {
  }

  /** Visiting quad `(x, y)` appends its two triangles to what the wind loop has visited. */
  lemma VisitQuad(h: nat, x: nat, y: nat)
    requires 1 <= h
    ensures SurfacePass(h, x) + SurfaceColumn(x, y + 1)
         == (SurfacePass(h, x) + SurfaceColumn(x, y)) + QuadTriangles(x, y)
  {
  }

  /** Finishing quad column `x` completes the pass over columns `0 .. x`. */
  lemma VisitColumn(h: nat, x: nat)
    requires 1 <= h
    ensures SurfacePass(h, x) + SurfaceColumn(x, h - 1) == SurfacePass(h, x + 1)
  {
  }

  /** What the wind loop has visited of quad column `x` is a prefix of the pass that
      ends with that column. */
  lemma SurfacePassPrefix(h: nat, x: nat, y: nat)
    requires 1 <= h && y + 1 <= h
    ensures SurfacePass(h, x) + SurfaceColumn(x, y) <= SurfacePass(h, x + 1)
  {
    var a, b, c := SurfacePass(h, x), SurfaceColumn(x, y), SurfaceColumn(x, h - 1);
    SurfaceColumnGrows(x, y, h - 1);
    assert SurfacePass(h, x + 1) == a + c;
    assert b == c[..|b|];
    assert (a + c)[..|a + b|] == a + b;
  }
}
