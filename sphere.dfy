/** The UV-sphere generator: vertex positions and normals of a unit sphere sampled
    on `stackCount + 1` latitude rows of `sectorCount + 1` points each, and the
    triangle list that stitches neighbouring rows together, skipping the
    zero-area triangles at the two poles. */
module SphereMesh {
  import opened FloatModel
  import opened Vectors

  // ---------------------------------------------------------------------------
  // Vertices
  // ---------------------------------------------------------------------------

  /** Number of vertices of the mesh: `(stackCount + 1) * (sectorCount + 1)`. */
  function VertexCount(stackCount: nat, sectorCount: nat): nat
  {
    (stackCount + 1) * (sectorCount + 1)
  }

  /** Latitude of row `i`: from `pi/2` at the first pole down in steps of `pi / stackCount`. */
  function StackAngle(m: Trig, stackCount: nat, i: nat): (r: real)
    ensures stackCount > 0 && i == 0 ==> r == m.pi / 2.0
    ensures stackCount > 0 && i == stackCount ==> r == -m.pi / 2.0
  {
    m.pi / 2.0 - Mul(i as real, Div(m, m.pi, stackCount as real))
  }

  /** Longitude of column `j`: steps of `2 pi / sectorCount`, so the last column closes
      the seam at `2 pi`. */
  function SectorAngle(m: Trig, sectorCount: nat, j: nat): (r: real)
    ensures sectorCount > 0 && j == 0 ==> r == 0.0
    ensures sectorCount > 0 && j == sectorCount ==> r == 2.0 * m.pi
  {
    Mul(j as real, Div(m, 2.0 * m.pi, sectorCount as real))
  }

  /** The position `(x, y, z)` of the vertex on row `i`, column `j`. */
  function SpherePoint(m: Trig, stackCount: nat, sectorCount: nat, i: nat, j: nat): (p: seq<real>)
    ensures |p| == 3
  {
    var xy := Cos(m, StackAngle(m, stackCount, i));
    var z := Sin(m, StackAngle(m, stackCount, i));
    var sectorAngle := SectorAngle(m, sectorCount, j);
    [Mul(xy, Cos(m, sectorAngle)), Mul(xy, Sin(m, sectorAngle)), z]
  }

  /** The flattened coordinates of the first `n` points of row `i`. */
  function RowVertices(m: Trig, stackCount: nat, sectorCount: nat, i: nat, n: nat): seq<real>
  {
    if n == 0 then []
    else RowVertices(m, stackCount, sectorCount, i, n - 1) + SpherePoint(m, stackCount, sectorCount, i, n - 1)
  }

  /** The flattened coordinates of the first `n` full rows. */
  function GridVertices(m: Trig, stackCount: nat, sectorCount: nat, n: nat): seq<real>
  {
    if n == 0 then []
    else GridVertices(m, stackCount, sectorCount, n - 1) + RowVertices(m, stackCount, sectorCount, n - 1, sectorCount + 1)
  }

  /** What `generateSphere` appends to `vertices`, and equally to `normals`:
      `3 * VertexCount` coordinates. */
  function SphereVertices(m: Trig, stackCount: nat, sectorCount: nat): (r: seq<real>)
    ensures |r| == 3 * VertexCount(stackCount, sectorCount)
  {
    GridVerticesLength(m, stackCount, sectorCount, stackCount + 1);
    GridVertices(m, stackCount, sectorCount, stackCount + 1)
  }

  /** Products are monotone in their left factor. */
  lemma MulMonotone(a: nat, b: nat, w: nat)
    requires a <= b
    ensures a * w <= b * w
  {
    assert b * w == a * w + (b - a) * w;
  }

  /** Row-major position `i * w + j` of a cell inside an `n`-by-`w` grid is below `n * w`. */
  lemma RowMajorBound(i: nat, j: nat, w: nat, n: nat)
    requires i < n && j < w
    ensures i * w + j < n * w
  {
    MulMonotone(i + 1, n, w);
    assert (i + 1) * w == i * w + w;
  }

  /** Row-major positions determine the row and the column. */
  lemma RowMajorUnique(i: nat, j: nat, i': nat, j': nat, w: nat)
    requires j < w && j' < w
    requires i * w + j == i' * w + j'
    ensures i == i' && j == j'
  {
    if i < i' {
      RowMajorBound(i, j, w, i');
      MulMonotone(i', i', w);
      assert false;
    } else if i' < i {
      RowMajorBound(i', j', w, i);
      assert false;
    }
  }

  /** Row `i` lists its points' coordinates in column order. */
  lemma {:induction false} RowVerticesLayout(m: Trig, stackCount: nat, sectorCount: nat, i: nat, n: nat)
    ensures |RowVertices(m, stackCount, sectorCount, i, n)| == 3 * n
    ensures forall j: nat, c: nat :: j < n && c < 3 ==>
      RowVertices(m, stackCount, sectorCount, i, n)[3 * j + c] == SpherePoint(m, stackCount, sectorCount, i, j)[c]
  {
    if n > 0 {
      var prev := RowVertices(m, stackCount, sectorCount, i, n - 1);
      var last := SpherePoint(m, stackCount, sectorCount, i, n - 1);
      RowVerticesLayout(m, stackCount, sectorCount, i, n - 1);
      assert RowVertices(m, stackCount, sectorCount, i, n) == prev + last;
      forall j: nat, c: nat | j < n && c < 3
        ensures (prev + last)[3 * j + c] == SpherePoint(m, stackCount, sectorCount, i, j)[c]
      {
        if j == n - 1 {
          assert 3 * j + c == |prev| + c;
        }
      }
    }
  }

  /** `a * (b + 1) == a * b + a`, stated apart so that proofs see no other product. */
  lemma MulSucc(a: nat, b: nat)
    ensures a * (b + 1) == a * b + a
    ensures (b + 1) * a == b * a + a
  {
  }

  lemma {:induction false} GridVerticesLength(m: Trig, stackCount: nat, sectorCount: nat, n: nat)
    ensures |GridVertices(m, stackCount, sectorCount, n)| == 3 * (n * (sectorCount + 1))
  {
    if n > 0 {
      GridVerticesLength(m, stackCount, sectorCount, n - 1);
      RowVerticesLayout(m, stackCount, sectorCount, n - 1, sectorCount + 1);
      MulSucc(sectorCount + 1, n - 1);
    }
  }

  /** Within the first `n` rows, vertex `(i, j)` sits at row-major position `i * (sectorCount + 1) + j`. */
  lemma {:induction false} GridVertexAt(m: Trig, stackCount: nat, sectorCount: nat, n: nat, i: nat, j: nat, c: nat)
    requires i < n && j <= sectorCount && c < 3
    ensures 3 * (i * (sectorCount + 1) + j) + c < |GridVertices(m, stackCount, sectorCount, n)|
    ensures GridVertices(m, stackCount, sectorCount, n)[3 * (i * (sectorCount + 1) + j) + c]
      == SpherePoint(m, stackCount, sectorCount, i, j)[c]
  {
    var w := sectorCount + 1;
    var prev := GridVertices(m, stackCount, sectorCount, n - 1);
    GridVerticesLength(m, stackCount, sectorCount, n - 1);
    GridVerticesLength(m, stackCount, sectorCount, n);
    RowVerticesLayout(m, stackCount, sectorCount, n - 1, w);
    var k := i * w + j;
    if i < n - 1 {
      RowMajorBound(i, j, w, n - 1);
      GridVertexAt(m, stackCount, sectorCount, n - 1, i, j, c);
      RowMajorBound(i, j, w, n);
    } else {
      assert k == (n - 1) * w + j;
      assert 3 * k + c == |prev| + (3 * j + c);
      RowMajorBound(i, j, w, n);
    }
  }

  /** Point `j` of row `i`, written with the quantities the generator's loops
      hold: the row's `xy` and `z` and the column step `sectorStep`. */
  lemma RowVerticesStep(m: Trig, stackCount: nat, sectorCount: nat, i: nat, j: nat,
                        xy: real, z: real, sectorStep: real)
    requires xy == Cos(m, StackAngle(m, stackCount, i)) && z == Sin(m, StackAngle(m, stackCount, i))
    requires sectorStep == Div(m, 2.0 * m.pi, sectorCount as real)
    ensures RowVertices(m, stackCount, sectorCount, i, j + 1)
      == RowVertices(m, stackCount, sectorCount, i, j)
       + [Mul(xy, Cos(m, Mul(j as real, sectorStep))), Mul(xy, Sin(m, Mul(j as real, sectorStep))), z]
  {
    var p := SpherePoint(m, stackCount, sectorCount, i, j);
    assert p == [Mul(xy, Cos(m, Mul(j as real, sectorStep))), Mul(xy, Sin(m, Mul(j as real, sectorStep))), z];
  }

  /** Vertex `(i, j)` is appended at position `3 * (i * (sectorCount + 1) + j)`:
      row-major (stack, sector) order, every point of every row present. */
  lemma SphereVertexAt(m: Trig, stackCount: nat, sectorCount: nat, i: nat, j: nat, c: nat)
    requires i <= stackCount && j <= sectorCount && c < 3
    ensures 3 * (i * (sectorCount + 1) + j) + c < |SphereVertices(m, stackCount, sectorCount)|
    ensures SphereVertices(m, stackCount, sectorCount)[3 * (i * (sectorCount + 1) + j) + c]
      == SpherePoint(m, stackCount, sectorCount, i, j)[c]
  {
    GridVertexAt(m, stackCount, sectorCount, stackCount + 1, i, j, c);
  }

  /** When `cos^2 + sin^2 == 1` holds at the two angles involved, vertex `(i, j)` lies on
      the unit sphere, so it is its own unit outward normal. */
  lemma SpherePointOnUnitSphere(m: Trig, stackCount: nat, sectorCount: nat, i: nat, j: nat)
    requires Cos(m, StackAngle(m, stackCount, i)) * Cos(m, StackAngle(m, stackCount, i))
           + Sin(m, StackAngle(m, stackCount, i)) * Sin(m, StackAngle(m, stackCount, i)) == 1.0
    requires Cos(m, SectorAngle(m, sectorCount, j)) * Cos(m, SectorAngle(m, sectorCount, j))
           + Sin(m, SectorAngle(m, sectorCount, j)) * Sin(m, SectorAngle(m, sectorCount, j)) == 1.0
    ensures var p := SpherePoint(m, stackCount, sectorCount, i, j);
      p[0] * p[0] + p[1] * p[1] + p[2] * p[2] == 1.0
  {
    var xy := Cos(m, StackAngle(m, stackCount, i));
    var z := Sin(m, StackAngle(m, stackCount, i));
    var c := Cos(m, SectorAngle(m, sectorCount, j));
    var s := Sin(m, SectorAngle(m, sectorCount, j));
    calc {
      (xy * c) * (xy * c) + (xy * s) * (xy * s) + z * z;
      xy * xy * (c * c + s * s) + z * z;
      { assert c * c + s * s == 1.0; }
      xy * xy + z * z;
    }
  }

  // ---------------------------------------------------------------------------
  // Triangles
  // ---------------------------------------------------------------------------

  /** Three corners, as indices into the vertex list. */
  datatype Triangle = Triangle(a: nat, b: nat, c: nat)

  /** Index of the first vertex of row `i`. */
  function RowStart(sectorCount: nat, i: nat): nat
  {
    i * (sectorCount + 1)
  }

  /** `(k1, k2, k1 + 1)` for the cell at row `i`, column `j`, where
      `k1 = i * (sectorCount + 1) + j` and `k2 = k1 + sectorCount + 1`. */
  function Upper(sectorCount: nat, i: nat, j: nat): Triangle
  {
    var k1 := i * (sectorCount + 1) + j;
    Triangle(k1, k1 + sectorCount + 1, k1 + 1)
  }

  /** `(k1 + 1, k2, k2 + 1)` for the cell at row `i`, column `j`. */
  function Lower(sectorCount: nat, i: nat, j: nat): Triangle
  {
    var k1 := i * (sectorCount + 1) + j;
    Triangle(k1 + 1, k1 + sectorCount + 1, k1 + sectorCount + 2)
  }

  /** What cell `(i, j)` emits: the upper triangle except on the first row, the lower
      one except on the last row. */
  function CellTriangles(stackCount: nat, sectorCount: nat, i: nat, j: nat): (r: seq<Triangle>)
    ensures |r| == CellCount(stackCount, i)
    ensures forall t :: t in r <==> Emits(stackCount, sectorCount, i, j, t)
  {
    (if i != 0 then [Upper(sectorCount, i, j)] else [])
    + (if i != stackCount - 1 then [Lower(sectorCount, i, j)] else [])
  }

  /** The triangles of the first `n` cells of row `i`. */
  function RowTriangles(stackCount: nat, sectorCount: nat, i: nat, n: nat): seq<Triangle>
  {
    if n == 0 then []
    else RowTriangles(stackCount, sectorCount, i, n - 1) + CellTriangles(stackCount, sectorCount, i, n - 1)
  }

  /** The triangles of the first `n` rows of cells. */
  function GridTriangles(stackCount: nat, sectorCount: nat, n: nat): seq<Triangle>
  {
    if n == 0 then []
    else GridTriangles(stackCount, sectorCount, n - 1) + RowTriangles(stackCount, sectorCount, n - 1, sectorCount)
  }

  /** All triangles `generateSphere` emits, in emission order. */
  function SphereTriangles(stackCount: nat, sectorCount: nat): seq<Triangle>
  {
    GridTriangles(stackCount, sectorCount, stackCount)
  }

  /** The corners of a triangle list, three per triangle, as an index buffer holds them. */
  function Flatten(ts: seq<Triangle>): seq<nat>
  {
    if ts == [] then []
    else Flatten(ts[..|ts| - 1]) + [ts[|ts| - 1].a, ts[|ts| - 1].b, ts[|ts| - 1].c]
  }

  /** What `generateSphere` appends to `indices`. */
  function SphereIndices(stackCount: nat, sectorCount: nat): (r: seq<nat>)
    ensures |r| == 3 * |SphereTriangles(stackCount, sectorCount)|
    ensures forall t :: 0 <= t < |SphereTriangles(stackCount, sectorCount)| ==>
      var tri := SphereTriangles(stackCount, sectorCount)[t];
      r[3 * t] == tri.a && r[3 * t + 1] == tri.b && r[3 * t + 2] == tri.c
  {
    FlattenLayout(SphereTriangles(stackCount, sectorCount));
    Flatten(SphereTriangles(stackCount, sectorCount))
  }

  lemma {:induction false} FlattenAppend(s: seq<Triangle>, t: seq<Triangle>)
    ensures Flatten(s + t) == Flatten(s) + Flatten(t)
  {
    if t != [] {
      assert (s + t)[..|s + t| - 1] == s + t[..|t| - 1];
      FlattenAppend(s, t[..|t| - 1]);
    } else {
      assert s + t == s;
    }
  }

  /** The corners cell `(i, j)` contributes to the index buffer. */
  lemma CellIndices(stackCount: nat, sectorCount: nat, i: nat, j: nat)
    ensures var k1 := i * (sectorCount + 1) + j;
      var k2 := k1 + sectorCount + 1;
      Flatten(CellTriangles(stackCount, sectorCount, i, j))
        == (if i != 0 then [k1, k2, k1 + 1] else []) + (if i != stackCount - 1 then [k1 + 1, k2, k2 + 1] else [])
  {
    var up := if i != 0 then [Upper(sectorCount, i, j)] else [];
    var low := if i != stackCount - 1 then [Lower(sectorCount, i, j)] else [];
    FlattenAppend(up, low);
    assert Flatten([Upper(sectorCount, i, j)]) == Flatten([]) + [Upper(sectorCount, i, j).a, Upper(sectorCount, i, j).b, Upper(sectorCount, i, j).c];
    assert Flatten([Lower(sectorCount, i, j)]) == Flatten([]) + [Lower(sectorCount, i, j).a, Lower(sectorCount, i, j).b, Lower(sectorCount, i, j).c];
  }

  /** Cell `j` of row `i` extends the row's index list by the corners the generator
      pushes for it. */
  lemma RowIndicesStep(stackCount: nat, sectorCount: nat, i: nat, j: nat, k1: nat, k2: nat)
    requires k1 == RowStart(sectorCount, i) + j && k2 == k1 + sectorCount + 1
    ensures Flatten(RowTriangles(stackCount, sectorCount, i, j + 1))
      == Flatten(RowTriangles(stackCount, sectorCount, i, j))
       + (if i != 0 then [k1, k2, k1 + 1] else []) + (if i != stackCount - 1 then [k1 + 1, k2, k2 + 1] else [])
  {
    FlattenAppend(RowTriangles(stackCount, sectorCount, i, j), CellTriangles(stackCount, sectorCount, i, j));
    CellIndices(stackCount, sectorCount, i, j);
  }

  /** The index buffer holds three corners per triangle, in order. */
  lemma {:induction false} FlattenLayout(ts: seq<Triangle>)
    ensures |Flatten(ts)| == 3 * |ts|
    ensures forall t :: 0 <= t < |ts| ==>
      Flatten(ts)[3 * t] == ts[t].a && Flatten(ts)[3 * t + 1] == ts[t].b && Flatten(ts)[3 * t + 2] == ts[t].c
  {
    if ts != [] {
      FlattenLayout(ts[..|ts| - 1]);
    }
  }

  /** Cell `(i, j)` emits triangle `t`. */
  predicate Emits(stackCount: nat, sectorCount: nat, i: nat, j: nat, t: Triangle)
    ensures Emits(stackCount, sectorCount, i, j, t) ==> t.b == RowStart(sectorCount, i + 1) + j
    ensures Emits(stackCount, sectorCount, i, j, t) && j < sectorCount ==>
      RowStart(sectorCount, i) <= t.a < RowStart(sectorCount, i + 1)
  {
    MulSucc(sectorCount + 1, i);
    (i != 0 && t == Upper(sectorCount, i, j)) || (i != stackCount - 1 && t == Lower(sectorCount, i, j))
  }

  /** Some cell of the `stackCount`-by-`sectorCount` grid emits `t`. */
  ghost predicate Emitted(stackCount: nat, sectorCount: nat, t: Triangle)
  {
    exists i: nat, j: nat :: i < stackCount && j < sectorCount && Emits(stackCount, sectorCount, i, j, t)
  }

  lemma {:induction false} RowTrianglesMembers(stackCount: nat, sectorCount: nat, i: nat, n: nat, t: Triangle)
    ensures t in RowTriangles(stackCount, sectorCount, i, n) <==>
      exists j: nat :: j < n && Emits(stackCount, sectorCount, i, j, t)
  {
    if n > 0 {
      RowTrianglesMembers(stackCount, sectorCount, i, n - 1, t);
      var cell := CellTriangles(stackCount, sectorCount, i, n - 1);
      assert t in cell <==> Emits(stackCount, sectorCount, i, n - 1, t);
    }
  }

  lemma {:induction false} GridTrianglesMembers(stackCount: nat, sectorCount: nat, n: nat, t: Triangle)
    ensures t in GridTriangles(stackCount, sectorCount, n) <==>
      exists i: nat, j: nat :: i < n && j < sectorCount && Emits(stackCount, sectorCount, i, j, t)
  {
    if n > 0 {
      GridTrianglesMembers(stackCount, sectorCount, n - 1, t);
      RowTrianglesMembers(stackCount, sectorCount, n - 1, sectorCount, t);
      if exists i: nat, j: nat :: i < n && j < sectorCount && Emits(stackCount, sectorCount, i, j, t) {
        var i: nat, j: nat :| i < n && j < sectorCount && Emits(stackCount, sectorCount, i, j, t);
        if i == n - 1 {
          assert t in RowTriangles(stackCount, sectorCount, n - 1, sectorCount);
        } else {
          assert t in GridTriangles(stackCount, sectorCount, n - 1);
        }
      }
    }
  }

  /** A triangle is in the mesh exactly when some cell emits it: the list is complete
      and holds nothing else. */
  lemma SphereTrianglesMembers(stackCount: nat, sectorCount: nat, t: Triangle)
    ensures t in SphereTriangles(stackCount, sectorCount) <==> Emitted(stackCount, sectorCount, t)
  {
    GridTrianglesMembers(stackCount, sectorCount, stackCount, t);
  }

  /** Corners below `vertexCount`, pairwise different. */
  predicate WellFormed(t: Triangle, vertexCount: nat)
  {
    t.a < vertexCount && t.b < vertexCount && t.c < vertexCount
    && t.a != t.b && t.b != t.c && t.a != t.c
  }

  lemma CellWellFormed(stackCount: nat, sectorCount: nat, i: nat, j: nat, t: Triangle)
    requires i < stackCount && j < sectorCount
    requires Emits(stackCount, sectorCount, i, j, t)
    ensures WellFormed(t, VertexCount(stackCount, sectorCount))
  {
    var w := sectorCount + 1;
    assert (i + 1) * w == i * w + w;
    assert VertexCount(stackCount, sectorCount) == (stackCount + 1) * w;
    RowMajorBound(i + 1, j + 1, w, stackCount + 1);
  }

  /** Every emitted triangle indexes existing vertices and repeats no corner. */
  lemma SphereTrianglesWellFormed(stackCount: nat, sectorCount: nat)
    ensures forall t :: t in SphereTriangles(stackCount, sectorCount) ==>
      WellFormed(t, VertexCount(stackCount, sectorCount))
  {
    forall t | t in SphereTriangles(stackCount, sectorCount)
      ensures WellFormed(t, VertexCount(stackCount, sectorCount))
    {
      SphereTrianglesMembers(stackCount, sectorCount, t);
      var i: nat, j: nat :| i < stackCount && j < sectorCount && Emits(stackCount, sectorCount, i, j, t);
      CellWellFormed(stackCount, sectorCount, i, j, t);
    }
  }

  /** The first row never yields an upper triangle `(k1, k2, k1 + 1)` and the last row
      never yields a lower triangle `(k1 + 1, k2, k2 + 1)`: neither appears in the mesh. */
  lemma PoleRowsSkipped(stackCount: nat, sectorCount: nat, j: nat)
    requires 1 <= stackCount && j < sectorCount
    ensures Upper(sectorCount, 0, j) !in SphereTriangles(stackCount, sectorCount)
    ensures Lower(sectorCount, stackCount - 1, j) !in SphereTriangles(stackCount, sectorCount)
  {
    var w := sectorCount + 1;
    var top := Upper(sectorCount, 0, j);
    SphereTrianglesMembers(stackCount, sectorCount, top);
    if top in SphereTriangles(stackCount, sectorCount) {
      var i': nat, j': nat :| i' < stackCount && j' < sectorCount && Emits(stackCount, sectorCount, i', j', top);
      if i' != 0 && top == Upper(sectorCount, i', j') {
        RowMajorUnique(i', j', 0, j, w);
      }
      assert false;
    }
    var bottom := Lower(sectorCount, stackCount - 1, j);
    SphereTrianglesMembers(stackCount, sectorCount, bottom);
    if bottom in SphereTriangles(stackCount, sectorCount) {
      var i': nat, j': nat :| i' < stackCount && j' < sectorCount && Emits(stackCount, sectorCount, i', j', bottom);
      if i' != stackCount - 1 && bottom == Lower(sectorCount, i', j') {
        RowMajorUnique(i', j', stackCount - 1, j, w);
      }
      assert false;
    }
  }

  /** Triangles emitted by one cell: none on a row that is both first and last. */
  function CellCount(stackCount: nat, i: nat): nat
  {
    (if i != 0 then 1 else 0) + (if i != stackCount - 1 then 1 else 0)
  }

  /** Cells of the first `n` rows that emit a triangle, counted per column. */
  function GridCellCount(stackCount: nat, n: nat): int
  {
    2 * n - (if n >= 1 then 1 else 0) - (if n == stackCount && n >= 1 then 1 else 0)
  }

  lemma {:induction false} RowTrianglesCount(stackCount: nat, sectorCount: nat, i: nat, n: nat)
    ensures |RowTriangles(stackCount, sectorCount, i, n)| == n * CellCount(stackCount, i)
  {
    if n > 0 {
      RowTrianglesCount(stackCount, sectorCount, i, n - 1);
      MulSucc(CellCount(stackCount, i), n - 1);
    }
  }

  lemma {:induction false} GridTrianglesCount(stackCount: nat, sectorCount: nat, n: nat)
    requires n <= stackCount
    ensures |GridTriangles(stackCount, sectorCount, n)| == sectorCount * GridCellCount(stackCount, n)
  {
    if n > 0 {
      GridTrianglesCount(stackCount, sectorCount, n - 1);
      RowTrianglesCount(stackCount, sectorCount, n - 1, sectorCount);
      var before := GridCellCount(stackCount, n - 1);
      var cell := CellCount(stackCount, n - 1);
      assert GridCellCount(stackCount, n) == before + cell;
      MulDistributes(sectorCount, before, cell);
    }
  }

  lemma MulDistributes(a: int, b: int, c: int)
    ensures a * b + c * a == a * (b + c)
  {
  }

  /** `generateSphere` emits `2 * sectorCount * (stackCount - 1)` triangles, so
      `6 * sectorCount * (stackCount - 1)` indices — a multiple of three. */
  lemma SphereIndexCount(stackCount: nat, sectorCount: nat)
    ensures |SphereTriangles(stackCount, sectorCount)| == if stackCount == 0 then 0 else 2 * sectorCount * (stackCount - 1)
    ensures |SphereIndices(stackCount, sectorCount)| == if stackCount == 0 then 0 else 6 * sectorCount * (stackCount - 1)
    ensures |SphereIndices(stackCount, sectorCount)| % 3 == 0
  {
    GridTrianglesCount(stackCount, sectorCount, stackCount);
    FlattenLayout(SphereTriangles(stackCount, sectorCount));
    if stackCount > 0 {
      var rows := stackCount - 1;
      assert GridCellCount(stackCount, stackCount) == 2 * rows;
      MulAssociates(sectorCount, 2, rows);
      MulAssociates(sectorCount, 6, rows);
    }
  }

  lemma MulAssociates(a: int, k: int, b: int)
    ensures a * (k * b) == k * a * b && k * (a * b) == k * a * b
  {
  }

  /** Every index in the buffer names one of the generated vertices, and the three
      corners of each triangle differ. */
  lemma SphereIndicesInRange(stackCount: nat, sectorCount: nat)
    ensures forall k :: 0 <= k < |SphereIndices(stackCount, sectorCount)| ==>
      SphereIndices(stackCount, sectorCount)[k] < VertexCount(stackCount, sectorCount)
    ensures forall t :: 0 <= t < |SphereIndices(stackCount, sectorCount)| / 3 ==>
      var idx := SphereIndices(stackCount, sectorCount);
      idx[3 * t] != idx[3 * t + 1] && idx[3 * t + 1] != idx[3 * t + 2] && idx[3 * t] != idx[3 * t + 2]
  {
    var ts := SphereTriangles(stackCount, sectorCount);
    var idx := SphereIndices(stackCount, sectorCount);
    FlattenLayout(ts);
    SphereTrianglesWellFormed(stackCount, sectorCount);
    forall k | 0 <= k < |idx| ensures idx[k] < VertexCount(stackCount, sectorCount) {
      var t := k / 3;
      assert ts[t] in ts;
      assert k == 3 * t || k == 3 * t + 1 || k == 3 * t + 2;
    }
    forall t | 0 <= t < |idx| / 3
      ensures idx[3 * t] != idx[3 * t + 1] && idx[3 * t + 1] != idx[3 * t + 2] && idx[3 * t] != idx[3 * t + 2]
    {
      assert ts[t] in ts;
    }
  }

  // ---------------------------------------------------------------------------
  // The generator
  // ---------------------------------------------------------------------------

  /** `generateSphere(vertices, indices, normals, sectorCount, stackCount)`: appends the
      sphere's coordinates to `vertices` and, identically, to `normals`, and its
      triangle corners to `indices`; what the vectors held before is kept. */
  method GenerateSphere(vertices: Vector<real>, indices: Vector<nat>, normals: Vector<real>,
                        m: Trig, sectorCount: nat, stackCount: nat)
    requires vertices != normals
    modifies vertices, indices, normals
    ensures vertices.elems == old(vertices.elems) + SphereVertices(m, stackCount, sectorCount)
    ensures normals.elems == old(normals.elems) + SphereVertices(m, stackCount, sectorCount)
    ensures indices.elems == old(indices.elems) + SphereIndices(stackCount, sectorCount)
    ensures |vertices.elems| == |old(vertices.elems)| + 3 * VertexCount(stackCount, sectorCount)
    ensures |normals.elems| == |old(normals.elems)| + 3 * VertexCount(stackCount, sectorCount)
    ensures |indices.elems| == |old(indices.elems)| + (if stackCount == 0 then 0 else 6 * sectorCount * (stackCount - 1))
    ensures normals.elems[|old(normals.elems)|..] == vertices.elems[|old(vertices.elems)|..]
  {
    AppendVertices(vertices, normals, m, sectorCount, stackCount);
    AppendIndices(indices, sectorCount, stackCount);
    SphereIndexCount(stackCount, sectorCount);
  }

  /** The vertex and normal loops of `generateSphere`: row by row, the same
      coordinates go to both vectors. */
  method AppendVertices(vertices: Vector<real>, normals: Vector<real>, m: Trig, sectorCount: nat, stackCount: nat)
    requires vertices != normals
    modifies vertices, normals
    ensures vertices.elems == old(vertices.elems) + SphereVertices(m, stackCount, sectorCount)
    ensures normals.elems == old(normals.elems) + SphereVertices(m, stackCount, sectorCount)
  {
    var sectorStep := Div(m, 2.0 * m.pi, sectorCount as real);
    var stackStep := Div(m, m.pi, stackCount as real);

    var i: nat := 0;
    while i <= stackCount
      invariant i <= stackCount + 1
      invariant vertices.elems == old(vertices.elems) + GridVertices(m, stackCount, sectorCount, i)
      invariant normals.elems == old(normals.elems) + GridVertices(m, stackCount, sectorCount, i)
    {
      var stackAngle := m.pi / 2.0 - Mul(i as real, stackStep);
      var xy := Cos(m, stackAngle);
      var z := Sin(m, stackAngle);
      assert stackAngle == StackAngle(m, stackCount, i);
      AppendVertexRow(vertices, normals, m, sectorCount, stackCount, i, xy, z, sectorStep);
      AppendAssoc(old(vertices.elems), GridVertices(m, stackCount, sectorCount, i), RowVertices(m, stackCount, sectorCount, i, sectorCount + 1));
      AppendAssoc(old(normals.elems), GridVertices(m, stackCount, sectorCount, i), RowVertices(m, stackCount, sectorCount, i, sectorCount + 1));
      i := i + 1;
    }
  }

  /** One pass of the inner `j` loop over the vertices: the `sectorCount + 1` points of
      row `i`, whose latitude gives `xy` and `z`. */
  method AppendVertexRow(vertices: Vector<real>, normals: Vector<real>, m: Trig, sectorCount: nat, stackCount: nat,
                         i: nat, xy: real, z: real, sectorStep: real)
    requires vertices != normals
    requires xy == Cos(m, StackAngle(m, stackCount, i)) && z == Sin(m, StackAngle(m, stackCount, i))
    requires sectorStep == Div(m, 2.0 * m.pi, sectorCount as real)
    modifies vertices, normals
    ensures vertices.elems == old(vertices.elems) + RowVertices(m, stackCount, sectorCount, i, sectorCount + 1)
    ensures normals.elems == old(normals.elems) + RowVertices(m, stackCount, sectorCount, i, sectorCount + 1)
  {
    var j: nat := 0;
    while j <= sectorCount
      invariant j <= sectorCount + 1
      invariant vertices.elems == old(vertices.elems) + RowVertices(m, stackCount, sectorCount, i, j)
      invariant normals.elems == old(normals.elems) + RowVertices(m, stackCount, sectorCount, i, j)
    {
      var sectorAngle := Mul(j as real, sectorStep);
      var x := Mul(xy, Cos(m, sectorAngle));
      var y := Mul(xy, Sin(m, sectorAngle));
      RowVerticesStep(m, stackCount, sectorCount, i, j, xy, z, sectorStep);
      PushThree(vertices, x, y, z);
      PushThree(normals, x, y, z);
      AppendAssoc(old(vertices.elems), RowVertices(m, stackCount, sectorCount, i, j), [x, y, z]);
      AppendAssoc(old(normals.elems), RowVertices(m, stackCount, sectorCount, i, j), [x, y, z]);
      j := j + 1;
    }
  }

  /** The index loop of `generateSphere`, row by row. */
  method AppendIndices(indices: Vector<nat>, sectorCount: nat, stackCount: nat)
    modifies indices
    ensures indices.elems == old(indices.elems) + SphereIndices(stackCount, sectorCount)
  {
    var i: nat := 0;
    while i < stackCount
      invariant i <= stackCount
      invariant indices.elems == old(indices.elems) + Flatten(GridTriangles(stackCount, sectorCount, i))
    {
      var k1 := RowStart(sectorCount, i);
      var k2: nat := k1 + sectorCount + 1;
      AppendIndexRow(indices, sectorCount, stackCount, i, k1, k2);
      FlattenAppend(GridTriangles(stackCount, sectorCount, i), RowTriangles(stackCount, sectorCount, i, sectorCount));
      AppendAssoc(old(indices.elems), Flatten(GridTriangles(stackCount, sectorCount, i)), Flatten(RowTriangles(stackCount, sectorCount, i, sectorCount)));
      i := i + 1;
    }
  }

  /** One pass of the inner `j` loop over the cells of row `i`, with `k1` and `k2`
      starting at the first vertex of rows `i` and `i + 1` and advanced alongside `j`. */
  method AppendIndexRow(indices: Vector<nat>, sectorCount: nat, stackCount: nat, i: nat, k1Start: nat, k2Start: nat)
    requires k1Start == RowStart(sectorCount, i) && k2Start == k1Start + sectorCount + 1
    modifies indices
    ensures indices.elems == old(indices.elems) + Flatten(RowTriangles(stackCount, sectorCount, i, sectorCount))
  {
    var j: nat, k1, k2 := 0, k1Start, k2Start;
    while j < sectorCount
      invariant j <= sectorCount
      invariant k1 == k1Start + j && k2 == k1 + sectorCount + 1
      invariant indices.elems == old(indices.elems) + Flatten(RowTriangles(stackCount, sectorCount, i, j))
    {
      ghost var before := indices.elems;
      ghost var upper := if i != 0 then [k1, k2, k1 + 1] else [];
      ghost var lower := if i != stackCount - 1 then [k1 + 1, k2, k2 + 1] else [];
      if i != 0 {
        PushThree(indices, k1, k2, k1 + 1);
      }
      assert indices.elems == before + upper;
      if i != stackCount - 1 {
        PushThree(indices, k1 + 1, k2, k2 + 1);
      }
      assert indices.elems == before + upper + lower;
      RowIndicesStep(stackCount, sectorCount, i, j, k1, k2);
      AppendAssoc(old(indices.elems), Flatten(RowTriangles(stackCount, sectorCount, i, j)), upper);
      AppendAssoc(old(indices.elems), Flatten(RowTriangles(stackCount, sectorCount, i, j)) + upper, lower);
      j, k1, k2 := j + 1, k1 + 1, k2 + 1;
    }
  }
}
