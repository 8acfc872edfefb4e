/**
 * Procedural mesh generation of the work-graphs sample: the plane, the
 * subdivided box and the UV sphere appended to a mesh's position, normal and
 * 16-bit index lists, and the position/normal interleaving done before upload.
 *
 * Floating-point coordinates are not computed: a stored `float3` is kept as the
 * literal vector or the grid/ring step it is computed from. Every uint16
 * truncation in scene.cpp's generators is reduced modulo 65536 once, where
 * the index is stored; this gives the same value as their step-wise uint16
 * arithmetic (`U16Shift`).
 */
module WorkGraphsMesh {
  import opened CTypes
  import opened Seqs

  /** A `float3` literal of the generators. */
  datatype Vec3 = Vec3(x: real, y: real, z: real)

  /** The arguments of one `GenerateSide` call: the two varying coordinates,
    * the start point, the face normal and the winding sign. */
  datatype Side = Side(coord0: nat, coord1: nat, posInit: Vec3, normal: Vec3, sign: real)

  /** A `float3` stored in the mesh. */
  datatype Float3 =
    | Lit(v: Vec3)                                             // a constant vector
    | GridPoint(side: Side, subdivisions: nat, y: nat, x: nat) // box side grid point (x, y)
    | RingPoint(sides: nat, slices: nat, y: nat, x: nat)       // sphere ring y, step x
    | RingNormal(sides: nat, slices: nat, y: nat, x: nat)      // normalize of that point

  /** MESH_DATA: the three lists the generators append to. */
  class MeshData {
    var positions: seq<Float3>
    var normals: seq<Float3>
    var indices: seq<int>

    constructor ()
      ensures positions == [] && normals == [] && indices == []
    {
      positions, normals, indices := [], [], [];
    }
  }

  /** Adding after a uint16 truncation equals adding before it. */
  lemma U16Shift(n: int, k: int)
    ensures U16(U16(n) + k) == U16(n + k)
  {
    var q := n / U16_LIMIT;
    assert n == q * U16_LIMIT + U16(n);
    var m := U16(n + k);
    var q2 := (n + k) / U16_LIMIT;
    assert U16(n) + k == (q2 - q) * U16_LIMIT + m;
    DivModUnique(U16(n) + k, U16_LIMIT, q2 - q, m);
  }

  /** The guard `GenerateSide` and `GenerateSphere` assert before a block: only the start
    * of the block is compared with 0xFFFF. */
  predicate AssertedBlockGuard(vertexCount: nat)
  {
    vertexCount < 0xFFFF
  }

  // ---------------------------------------------------------------------------
  // Planes (GeneratePlaneInternal / GeneratePlane)

  function PlaneCorners(y: real, sign: real): seq<Float3>
  {
    [Lit(Vec3(-0.5 * sign, y, -0.5)), Lit(Vec3(-0.5 * sign, y, 0.5)),
     Lit(Vec3(0.5 * sign, y, 0.5)), Lit(Vec3(0.5 * sign, y, -0.5))]
  }

  /** Two triangles over the four vertices starting at `base`. */
  function QuadIndices(base: int): seq<int>
  {
    [U16(base), U16(base + 1), U16(base + 2), U16(base + 2), U16(base + 3), U16(base)]
  }

  /** Without wrap-around the quad uses exactly its own four vertices. */
  lemma QuadIndicesInBlock(base: nat)
    requires base + 4 <= U16_LIMIT
    ensures AllIn(QuadIndices(base), base, base + 4)
    ensures base in QuadIndices(base) && base + 1 in QuadIndices(base)
    ensures base + 2 in QuadIndices(base) && base + 3 in QuadIndices(base)
  {
    assert QuadIndices(base) == [base, base + 1, base + 2, base + 2, base + 3, base];
  }

  method GeneratePlaneInternal(y: real, sign: real, mesh: MeshData)
    modifies mesh
    ensures mesh.positions == old(mesh.positions) + PlaneCorners(y, sign)
    ensures mesh.normals == old(mesh.normals) + Repeat(Lit(Vec3(0.0, sign, 0.0)), 4)
    ensures mesh.indices == old(mesh.indices) + QuadIndices(|old(mesh.positions)|)
  {
    var baseVtx := U16(|mesh.positions|);
    var nrm := Lit(Vec3(0.0, sign, 0.0));
    var quad := [U16(baseVtx + 0), U16(baseVtx + 1), U16(baseVtx + 2), U16(baseVtx + 2), U16(baseVtx + 3), U16(baseVtx + 0)];
    assert quad == QuadIndices(|mesh.positions|) by {
      var n := |mesh.positions|;
      U16Shift(n, 0);
      U16Shift(n, 1);
      U16Shift(n, 2);
      U16Shift(n, 3);
    }
    mesh.positions := mesh.positions + PlaneCorners(y, sign);
    mesh.normals := mesh.normals + Repeat(nrm, 4);
    mesh.indices := mesh.indices + quad;
  }

  function PlaneMeshIndices(base: int): seq<int>
  {
    QuadIndices(base) + QuadIndices(base + 4)
  }

  /** A double-sided unit plane: an upward and a downward quad. */
  method GeneratePlane(mesh: MeshData)
    modifies mesh
    ensures mesh.positions == old(mesh.positions) + PlaneCorners(0.0, 1.0) + PlaneCorners(0.0, -1.0)
    ensures mesh.normals == old(mesh.normals) + Repeat(Lit(Vec3(0.0, 1.0, 0.0)), 4) + Repeat(Lit(Vec3(0.0, -1.0, 0.0)), 4)
    ensures mesh.indices == old(mesh.indices) + PlaneMeshIndices(|old(mesh.positions)|)
  {
    GeneratePlaneInternal(0.0, 1.0, mesh);
    GeneratePlaneInternal(0.0, -1.0, mesh);
  }

  // ---------------------------------------------------------------------------
  // Box sides (the GenerateSide lambda of GenerateBox)

  /** The first `n` grid points of row `y`. */
  function GridRow(side: Side, s: nat, y: nat, n: nat): (r: seq<Float3>)
    ensures |r| == n
  {
    if n == 0 then [] else GridRow(side, s, y, n - 1) + [GridPoint(side, s, y, n - 1)]
  }

  /** The first `m` rows of a side's (s+1) x (s+1) grid, row after row. */
  function GridRows(side: Side, s: nat, m: nat): seq<Float3>
  {
    if m == 0 then [] else GridRows(side, s, m - 1) + GridRow(side, s, m - 1, s + 1)
  }

  function SidePositions(side: Side, s: nat): seq<Float3>
  {
    GridRows(side, s, s + 1)
  }

  /** Number of vertices of one side: (s+1)·(s+1). */
  function SideVertexCount(s: nat): nat
  {
    Times(s + 1, s + 1)
  }

  lemma {:induction false} GridRowsLength(side: Side, s: nat, m: nat)
    ensures |GridRows(side, s, m)| == Times(m, s + 1)
  {
    if m > 0 {
      GridRowsLength(side, s, m - 1);
    }
  }

  lemma {:induction false} GridRowAt(side: Side, s: nat, y: nat, n: nat, x: nat)
    requires x < n
    ensures GridRow(side, s, y, n)[x] == GridPoint(side, s, y, x)
  {
    if x < n - 1 { GridRowAt(side, s, y, n - 1, x); }
  }

  /** Row-major layout: grid point (y, x) is vertex y·(s+1)+x of the side,
    * which is the vertex number the side's indices use for it. */
  lemma {:induction false} GridRowsAt(side: Side, s: nat, m: nat, y: nat, x: nat)
    requires y < m && x <= s
    ensures Times(y, s + 1) + x < |GridRows(side, s, m)|
    ensures GridRows(side, s, m)[Times(y, s + 1) + x] == GridPoint(side, s, y, x)
  {
    GridRowsLength(side, s, m - 1);
    if y < m - 1 {
      GridRowsAt(side, s, m - 1, y, x);
    } else {
      GridRowAt(side, s, y, s + 1, x);
    }
  }

  /** The six indices of the grid cell whose lower-left vertex is `f`:
    * triangles (f, f+s+1, f+s+2) and (f+s+2, f+1, f). */
  function SideCell(f: int, s: nat): seq<int>
  {
    [U16(f), U16(f + (s + 1)), U16(f + (s + 1) + 1), U16(f + (s + 1) + 1), U16(f + 1), U16(f)]
  }

  /** The first `n` cells of the row whose first vertex is `rowBase`. */
  function CellRow(rowBase: int, s: nat, n: nat): (r: seq<int>)
    ensures |r| == 6 * n
  {
    if n == 0 then [] else CellRow(rowBase, s, n - 1) + SideCell(rowBase + (n - 1), s)
  }

  lemma CellRowStep(rowBase: int, s: nat, x: nat, f: int)
    requires f == rowBase + x
    ensures CellRow(rowBase, s, x + 1) == CellRow(rowBase, s, x) + SideCell(f, s)
  {
  }

  /** The first `m` cell rows of a side whose first vertex is `base`; row y
    * starts at vertex base + y·(s+1). */
  function CellRows(base: int, s: nat, m: nat): seq<int>
  {
    if m == 0 then [] else CellRows(base, s, m - 1) + CellRow(base + Times(m - 1, s + 1), s, s)
  }

  function SideIndices(base: int, s: nat): seq<int>
  {
    CellRows(base, s, s)
  }

  lemma {:induction false} CellRowsLength(base: int, s: nat, m: nat)
    ensures |CellRows(base, s, m)| == 6 * Times(m, s)
  {
    if m > 0 {
      CellRowsLength(base, s, m - 1);
    }
  }

  lemma SideCellIn(f: int, s: nat, lo: int, hi: int)
    requires 0 <= lo <= f && f + s + 2 < hi <= U16_LIMIT
    ensures AllIn(SideCell(f, s), lo, hi)
  {
  }

  lemma {:induction false} CellRowIn(rowBase: int, s: nat, n: nat, lo: int, hi: int)
    requires 0 <= lo <= rowBase && rowBase + n + s + 1 < hi <= U16_LIMIT
    ensures AllIn(CellRow(rowBase, s, n), lo, hi)
  {
    if n > 0 {
      CellRowIn(rowBase, s, n - 1, lo, hi);
      SideCellIn(rowBase + (n - 1), s, lo, hi);
      AllInConcat(CellRow(rowBase, s, n - 1), SideCell(rowBase + (n - 1), s), lo, hi);
    }
  }

  lemma {:induction false} CellRowsIn(base: int, s: nat, m: nat, lo: int, hi: int)
    requires m <= s
    requires 0 <= lo <= base && base + Times(m + 1, s + 1) <= hi <= U16_LIMIT
    ensures AllIn(CellRows(base, s, m), lo, hi)
  {
    if m > 0 {
      TimesMono(m, m + 1, s + 1);
      CellRowsIn(base, s, m - 1, lo, hi);
      CellRowIn(base + Times(m - 1, s + 1), s, s, lo, hi);
      AllInConcat(CellRows(base, s, m - 1), CellRow(base + Times(m - 1, s + 1), s, s), lo, hi);
    }
  }

  /** A side appends 6s² indices; when its (s+1)² vertices fit below 65536
    * every index names one of the side's own vertices. */
  lemma SideIndicesInBlock(base: nat, s: nat)
    requires base + SideVertexCount(s) <= U16_LIMIT
    ensures |SideIndices(base, s)| == 6 * Times(s, s)
    ensures AllIn(SideIndices(base, s), base, base + SideVertexCount(s))
  {
    CellRowsLength(base, s, s);
    CellRowsIn(base, s, s, base, base + SideVertexCount(s));
  }

  /** The asserted guard admits a side whose indices wrap: with 65534
    * vertices already present and one subdivision, the second index of the
    * first cell is 0, which is not a vertex of the side. */
  lemma SideGuardAdmitsWrap()
    ensures AssertedBlockGuard(65534)
    ensures SideIndices(65534, 1)[1] == 0
    ensures !AllIn(SideIndices(65534, 1), 65534, 65534 + SideVertexCount(1))
  {
    assert SideIndices(65534, 1) == SideCell(65534, 1);
  }

  /** One box side: (s+1)² grid points with the side's normal, then two
    * triangles per grid cell. */
  method GenerateSide(side: Side, s: nat, mesh: MeshData)
    requires AssertedBlockGuard(|mesh.positions|)
    modifies mesh
    ensures mesh.positions == old(mesh.positions) + SidePositions(side, s)
    ensures mesh.normals == old(mesh.normals) + Repeat(Lit(side.normal), SideVertexCount(s))
    ensures mesh.indices == old(mesh.indices) + SideIndices(|old(mesh.positions)|, s)
    ensures |mesh.positions| == |old(mesh.positions)| + SideVertexCount(s)
  {
    var baseVtx := U16(|mesh.positions|);
    GridRowsLength(side, s, s + 1);
    AppendSideGrid(side, s, mesh);
    AppendSideCells(baseVtx, s, mesh);
  }

  /** The vertex loop of a side: grid point (y, x) for every row y and column x. */
  method AppendSideGrid(side: Side, s: nat, mesh: MeshData)
    modifies mesh`positions, mesh`normals
    ensures mesh.positions == old(mesh.positions) + SidePositions(side, s)
    ensures mesh.normals == old(mesh.normals) + Repeat(Lit(side.normal), SideVertexCount(s))
  {
    var nrm := Lit(side.normal);
    ghost var n0 := |mesh.positions|;
    var y := 0;
    while y < s + 1
      invariant 0 <= y <= s + 1
      invariant mesh.positions == old(mesh.positions) + GridRows(side, s, y)
      invariant mesh.normals == old(mesh.normals) + Repeat(nrm, |mesh.positions| - n0)
    {
      var x := 0;
      while x < s + 1
        invariant 0 <= x <= s + 1
        invariant mesh.positions == old(mesh.positions) + GridRows(side, s, y) + GridRow(side, s, y, x)
        invariant mesh.normals == old(mesh.normals) + Repeat(nrm, |mesh.positions| - n0)
      {
        AppendAssoc(old(mesh.positions) + GridRows(side, s, y), GridRow(side, s, y, x), [GridPoint(side, s, y, x)]);
        mesh.positions := mesh.positions + [GridPoint(side, s, y, x)];
        mesh.normals := mesh.normals + [nrm];
        x := x + 1;
      }
      AppendAssoc(old(mesh.positions), GridRows(side, s, y), GridRow(side, s, y, s + 1));
      y := y + 1;
    }
    GridRowsLength(side, s, s + 1);
  }

  /** The index loop of a side whose first vertex is `baseVtx`: one cell per
    * row y < s and column x < s, its first vertex at baseVtx + y(s+1) + x. */
  method AppendSideCells(baseVtx: int, s: nat, mesh: MeshData)
    modifies mesh`indices
    ensures mesh.indices == old(mesh.indices) + CellRows(baseVtx, s, s)
  {
    var yy := 0;
    while yy < s
      invariant 0 <= yy <= s
      invariant mesh.indices == old(mesh.indices) + CellRows(baseVtx, s, yy)
    {
      AppendCellRow(baseVtx, s, yy, mesh);
      AppendAssoc(old(mesh.indices), CellRows(baseVtx, s, yy), CellRow(baseVtx + Times(yy, s + 1), s, s));
      yy := yy + 1;
    }
  }

  /** Row yy of the index loop: the s cells whose first vertices follow
    * baseVtx + yy(s+1). */
  method AppendCellRow(baseVtx: int, s: nat, yy: nat, mesh: MeshData)
    modifies mesh`indices
    ensures mesh.indices == old(mesh.indices) + CellRow(baseVtx + Times(yy, s + 1), s, s)
  {
    TimesValue(yy, s + 1);
    var x := 0;
    while x < s
      invariant 0 <= x <= s
      invariant mesh.indices == old(mesh.indices) + CellRow(baseVtx + Times(yy, s + 1), s, x)
    {
      var faceBaseVtx := baseVtx + yy * (s + 1) + x;
      CellRowStep(baseVtx + Times(yy, s + 1), s, x, faceBaseVtx);
      AppendAssoc(old(mesh.indices), CellRow(baseVtx + Times(yy, s + 1), s, x), SideCell(faceBaseVtx, s));
      mesh.indices := mesh.indices + SideCell(faceBaseVtx, s);
      x := x + 1;
    }
  }

  // ---------------------------------------------------------------------------
  // Box (GenerateBox)

  const FRONT: Side := Side(0, 1, Vec3(0.0, 0.0, -0.5), Vec3(0.0, 0.0, -1.0), 1.0)
  const RIGHT: Side := Side(2, 1, Vec3(0.5, 0.0, 0.0), Vec3(1.0, 0.0, 0.0), 1.0)
  const BACK: Side := Side(0, 1, Vec3(0.0, 0.0, 0.5), Vec3(0.0, 0.0, 1.0), -1.0)
  const LEFT: Side := Side(2, 1, Vec3(-0.5, 0.0, 0.0), Vec3(-1.0, 0.0, 0.0), -1.0)

  function BoxPositions(s: nat): seq<Float3>
  {
    SidePositions(FRONT, s) + SidePositions(RIGHT, s) + SidePositions(BACK, s) + SidePositions(LEFT, s)
      + PlaneCorners(0.5, 1.0) + PlaneCorners(-0.5, -1.0)
  }

  function BoxNormals(s: nat): seq<Float3>
  {
    Repeat(Lit(FRONT.normal), SideVertexCount(s)) + Repeat(Lit(RIGHT.normal), SideVertexCount(s))
      + Repeat(Lit(BACK.normal), SideVertexCount(s)) + Repeat(Lit(LEFT.normal), SideVertexCount(s))
      + Repeat(Lit(Vec3(0.0, 1.0, 0.0)), 4) + Repeat(Lit(Vec3(0.0, -1.0, 0.0)), 4)
  }

  /** First vertex of piece k of a box whose first vertex is `base`: the four
    * sides (k = 0..3) of (s+1)² vertices each, then the top quad (k = 4) and
    * the bottom quad (k = 5). */
  function BoxPieceStart(base: int, s: nat, k: nat): int
  {
    if k <= 4 then base + k * SideVertexCount(s) else base + 4 * SideVertexCount(s) + 4
  }

  function BoxIndices(base: int, s: nat): seq<int>
  {
    SideIndices(BoxPieceStart(base, s, 0), s) + SideIndices(BoxPieceStart(base, s, 1), s)
      + SideIndices(BoxPieceStart(base, s, 2), s) + SideIndices(BoxPieceStart(base, s, 3), s)
      + QuadIndices(BoxPieceStart(base, s, 4)) + QuadIndices(BoxPieceStart(base, s, 5))
  }

  function BoxVertexCount(s: nat): nat
  {
    4 * SideVertexCount(s) + 8
  }

  /** A side starting at vertex `start` inside the range [lo, hi) keeps its
    * indices inside that range. */
  lemma SideInRange(start: int, s: nat, lo: int, hi: int)
    requires 0 <= lo <= start && start + SideVertexCount(s) <= hi <= U16_LIMIT
    ensures |SideIndices(start, s)| == 6 * Times(s, s)
    ensures AllIn(SideIndices(start, s), lo, hi)
  {
    SideIndicesInBlock(start, s);
    AllInWiden(SideIndices(start, s), start, start + SideVertexCount(s), lo, hi);
  }

  /** A quad starting at vertex `start` inside the range [lo, hi) keeps its
    * indices inside that range. */
  lemma QuadInRange(start: int, lo: int, hi: int)
    requires 0 <= lo <= start && start + 4 <= hi <= U16_LIMIT
    ensures AllIn(QuadIndices(start), lo, hi)
  {
    QuadIndicesInBlock(start);
    AllInWiden(QuadIndices(start), start, start + 4, lo, hi);
  }

  /** The box's 4(s+1)²+8 vertices get 24s²+12 indices, and when they fit
    * below 65536 each index names one of the box's own vertices. */
  lemma BoxIndicesInBlock(base: nat, s: nat)
    requires base + BoxVertexCount(s) <= U16_LIMIT
    ensures |BoxIndices(base, s)| == 24 * Times(s, s) + 12
    ensures AllIn(BoxIndices(base, s), base, base + BoxVertexCount(s))
  {
    SideInRange(BoxPieceStart(base, s, 0), s, base, base + BoxVertexCount(s));
    SideInRange(BoxPieceStart(base, s, 1), s, base, base + BoxVertexCount(s));
    SideInRange(BoxPieceStart(base, s, 2), s, base, base + BoxVertexCount(s));
    SideInRange(BoxPieceStart(base, s, 3), s, base, base + BoxVertexCount(s));
    QuadInRange(BoxPieceStart(base, s, 4), base, base + BoxVertexCount(s));
    QuadInRange(BoxPieceStart(base, s, 5), base, base + BoxVertexCount(s));
    AllInConcat6(SideIndices(BoxPieceStart(base, s, 0), s), SideIndices(BoxPieceStart(base, s, 1), s),
                 SideIndices(BoxPieceStart(base, s, 2), s), SideIndices(BoxPieceStart(base, s, 3), s),
                 QuadIndices(BoxPieceStart(base, s, 4)), QuadIndices(BoxPieceStart(base, s, 5)),
                 base, base + BoxVertexCount(s));
  }

  /** The vertex count is the (s+1)²·4+8 that `GenerateBox` reserves; the index
    * count is 12 below the ((s·s)·4+4)·6 it reserves, so the reservation
    * covers the box. */
  lemma BoxCounts(base: int, s: nat)
    ensures |BoxPositions(s)| == |BoxNormals(s)| == (s + 1) * (s + 1) * 4 + 8
    ensures |BoxIndices(base, s)| + 12 == ((s * s) * 4 + 4) * 6
  {
    BoxLengths(base, s);
    BoxCountArithmetic(s, SideVertexCount(s), Times(s, s));
  }

  lemma BoxCountArithmetic(s: nat, q: nat, t: nat)
    requires q == Times(s + 1, s + 1) && t == Times(s, s)
    ensures 4 * q + 8 == (s + 1) * (s + 1) * 4 + 8
    ensures 24 * t + 12 + 12 == ((s * s) * 4 + 4) * 6
  {
    TimesValue(s + 1, s + 1);
    TimesValue(s, s);
  }

  lemma BoxLengths(base: int, s: nat)
    ensures |BoxPositions(s)| == |BoxNormals(s)| == 4 * SideVertexCount(s) + 8
    ensures |BoxIndices(base, s)| == 24 * Times(s, s) + 12
  {
    GridRowsLength(FRONT, s, s + 1);
    GridRowsLength(RIGHT, s, s + 1);
    GridRowsLength(BACK, s, s + 1);
    GridRowsLength(LEFT, s, s + 1);
    CellRowsLength(BoxPieceStart(base, s, 0), s, s);
    CellRowsLength(BoxPieceStart(base, s, 1), s, s);
    CellRowsLength(BoxPieceStart(base, s, 2), s, s);
    CellRowsLength(BoxPieceStart(base, s, 3), s, s);
  }

  /** Appending six pieces one after another appends their concatenation. */
  lemma AppendSix<T>(p: seq<T>, a: seq<T>, b: seq<T>, c: seq<T>, d: seq<T>, e: seq<T>, f: seq<T>)
    ensures p + a + b + c + d + e + f == p + (a + b + c + d + e + f)
  {
    AppendAssoc(p, a, b);
    AppendAssoc(p, a + b, c);
    AppendAssoc(p, a + b + c, d);
    AppendAssoc(p, a + b + c + d, e);
    AppendAssoc(p, a + b + c + d + e, f);
  }

  /** The four sides and the top and bottom quads; the `GenerateSide` lambda
    * asserts its guard before each side, so the last assertion is the one
    * that binds. */
  method GenerateBox(s: nat, mesh: MeshData)
    requires AssertedBlockGuard(|mesh.positions| + 3 * SideVertexCount(s))
    modifies mesh
    ensures mesh.positions == old(mesh.positions) + BoxPositions(s)
    ensures mesh.normals == old(mesh.normals) + BoxNormals(s)
    ensures mesh.indices == old(mesh.indices) + BoxIndices(|old(mesh.positions)|, s)
  {
    ghost var p0, n0, i0 := mesh.positions, mesh.normals, mesh.indices;
    assert |mesh.positions| == BoxPieceStart(|p0|, s, 0);
    GenerateSide(FRONT, s, mesh);
    assert |mesh.positions| == BoxPieceStart(|p0|, s, 1);
    GenerateSide(RIGHT, s, mesh);
    assert |mesh.positions| == BoxPieceStart(|p0|, s, 2);
    GenerateSide(BACK, s, mesh);
    assert |mesh.positions| == BoxPieceStart(|p0|, s, 3);
    GenerateSide(LEFT, s, mesh);
    assert |mesh.positions| == BoxPieceStart(|p0|, s, 4);
    GeneratePlaneInternal(0.5, 1.0, mesh);
    assert |mesh.positions| == BoxPieceStart(|p0|, s, 5);
    GeneratePlaneInternal(-0.5, -1.0, mesh);
    AppendSix(p0, SidePositions(FRONT, s), SidePositions(RIGHT, s), SidePositions(BACK, s), SidePositions(LEFT, s),
              PlaneCorners(0.5, 1.0), PlaneCorners(-0.5, -1.0));
    AppendSix(n0, Repeat(Lit(FRONT.normal), SideVertexCount(s)), Repeat(Lit(RIGHT.normal), SideVertexCount(s)),
              Repeat(Lit(BACK.normal), SideVertexCount(s)), Repeat(Lit(LEFT.normal), SideVertexCount(s)),
              Repeat(Lit(Vec3(0.0, 1.0, 0.0)), 4), Repeat(Lit(Vec3(0.0, -1.0, 0.0)), 4));
    AppendSix(i0, SideIndices(BoxPieceStart(|p0|, s, 0), s), SideIndices(BoxPieceStart(|p0|, s, 1), s),
              SideIndices(BoxPieceStart(|p0|, s, 2), s), SideIndices(BoxPieceStart(|p0|, s, 3), s),
              QuadIndices(BoxPieceStart(|p0|, s, 4)), QuadIndices(BoxPieceStart(|p0|, s, 5)));
  }

  // ---------------------------------------------------------------------------
  // Sphere (GenerateSphere)

  function RingRow(sides: nat, slices: nat, y: nat, n: nat): (r: seq<Float3>)
    ensures |r| == n
  {
    if n == 0 then [] else RingRow(sides, slices, y, n - 1) + [RingPoint(sides, slices, y, n - 1)]
  }

  function RingNormalRow(sides: nat, slices: nat, y: nat, n: nat): (r: seq<Float3>)
    ensures |r| == n
  {
    if n == 0 then [] else RingNormalRow(sides, slices, y, n - 1) + [RingNormal(sides, slices, y, n - 1)]
  }

  /** Ring rows 1..m, `sides` points each. */
  function Rings(sides: nat, slices: nat, m: nat): seq<Float3>
  {
    if m == 0 then [] else Rings(sides, slices, m - 1) + RingRow(sides, slices, m, sides)
  }

  function RingNormals(sides: nat, slices: nat, m: nat): seq<Float3>
  {
    if m == 0 then [] else RingNormals(sides, slices, m - 1) + RingNormalRow(sides, slices, m, sides)
  }

  lemma {:induction false} RingsLength(sides: nat, slices: nat, m: nat)
    ensures |Rings(sides, slices, m)| == |RingNormals(sides, slices, m)| == Times(m, sides)
  {
    if m > 0 {
      RingsLength(sides, slices, m - 1);
    }
  }

  const BOTTOM_POINT: Float3 := Lit(Vec3(0.0, -0.5, 0.0))
  const TOP_POINT: Float3 := Lit(Vec3(0.0, 0.5, 0.0))
  const BOTTOM_NORMAL: Float3 := Lit(Vec3(0.0, -1.0, 0.0))
  const TOP_NORMAL: Float3 := Lit(Vec3(0.0, 1.0, 0.0))

  function SpherePositions(sides: nat, slices: nat): seq<Float3>
    requires slices >= 1
  {
    [BOTTOM_POINT] + Rings(sides, slices, slices - 1) + [TOP_POINT]
  }

  function SphereNormals(sides: nat, slices: nat): seq<Float3>
    requires slices >= 1
  {
    [BOTTOM_NORMAL] + RingNormals(sides, slices, slices - 1) + [TOP_NORMAL]
  }

  /** Number of vertices of a sphere: the two poles and slices−1 rings. */
  function SphereVertexCount(sides: nat, slices: nat): nat
    requires slices >= 1
  {
    2 + Times(slices - 1, sides)
  }

  /** First vertex of ring y+1 of a sphere whose bottom vertex is `base`;
    * for y = slices−1 this is the top vertex. */
  function SliceStart(base: int, sides: nat, y: nat): int
  {
    base + 1 + Times(y, sides)
  }

  /** Bottom cap: the first `n` fan triangles around the bottom vertex `base`. */
  function BottomCap(base: int, sides: nat, n: nat): (r: seq<int>)
    requires sides > 0
    ensures |r| == 3 * n
  {
    if n == 0 then []
    else BottomCap(base, sides, n - 1) + [U16(base + 0), U16(base + 1 + (n - 1)), U16(base + 1 + n % sides)]
  }

  /** The trunk quad at step x between the ring starting at `sb` and the next ring. */
  function TrunkCell(sb: int, sides: nat, x: nat): seq<int>
    requires sides > 0
  {
    var x1 := (x + 1) % sides;
    [U16(sb + x + 0), U16(sb + x + 0 + sides), U16(sb + x1 + sides),
     U16(sb + x1 + sides), U16(sb + x1), U16(sb + x + 0)]
  }

  function TrunkRow(sb: int, sides: nat, n: nat): (r: seq<int>)
    requires sides > 0
    ensures |r| == 6 * n
  {
    if n == 0 then [] else TrunkRow(sb, sides, n - 1) + TrunkCell(sb, sides, n - 1)
  }

  function TrunkRows(base: int, sides: nat, m: nat): seq<int>
    requires sides > 0
  {
    if m == 0 then [] else TrunkRows(base, sides, m - 1) + TrunkRow(SliceStart(base, sides, m - 1), sides, sides)
  }

  /** Top cap: the first `n` fan triangles joining the last ring (starting at
    * `capBase`) to the top vertex `capVtx`. */
  function TopCap(capBase: int, capVtx: int, sides: nat, n: nat): (r: seq<int>)
    requires sides > 0
    ensures |r| == 3 * n
  {
    if n == 0 then []
    else TopCap(capBase, capVtx, sides, n - 1) + [U16(capBase + (n - 1)), U16(capVtx), U16(capBase + n % sides)]
  }

  /** All indices of a sphere whose bottom vertex is `base`; the top vertex
    * is read back as a uint16 vertex count. */
  function SphereIndices(base: int, sides: nat, slices: nat): seq<int>
    requires sides > 0 && slices >= 2
  {
    BottomCap(base, sides, sides) + TrunkRows(base, sides, slices - 2)
      + TopCap(SliceStart(base, sides, slices - 2), U16(SliceStart(base, sides, slices - 1)), sides, sides)
  }

  lemma {:induction false} TrunkRowsLength(base: int, sides: nat, m: nat)
    requires sides > 0
    ensures |TrunkRows(base, sides, m)| == 6 * Times(m, sides)
  {
    if m > 0 {
      TrunkRowsLength(base, sides, m - 1);
    }
  }

  lemma {:induction false} BottomCapIn(base: int, sides: nat, n: nat, lo: int, hi: int)
    requires sides > 0 && n <= sides
    requires 0 <= lo <= base && base + 1 + sides <= hi <= U16_LIMIT
    ensures AllIn(BottomCap(base, sides, n), lo, hi)
  {
    if n > 0 {
      BottomCapIn(base, sides, n - 1, lo, hi);
    }
  }

  lemma {:induction false} TrunkRowIn(sb: int, sides: nat, n: nat, lo: int, hi: int)
    requires sides > 0 && n <= sides
    requires 0 <= lo <= sb && sb + 2 * sides <= hi <= U16_LIMIT
    ensures AllIn(TrunkRow(sb, sides, n), lo, hi)
  {
    if n > 0 {
      TrunkRowIn(sb, sides, n - 1, lo, hi);
      AllInConcat(TrunkRow(sb, sides, n - 1), TrunkCell(sb, sides, n - 1), lo, hi);
    }
  }

  lemma {:induction false} TrunkRowsIn(base: int, sides: nat, m: nat, lo: int, hi: int)
    requires sides > 0
    requires 0 <= lo <= base && SliceStart(base, sides, m + 1) <= hi <= U16_LIMIT
    ensures AllIn(TrunkRows(base, sides, m), lo, hi)
  {
    if m > 0 {
      TimesMono(m, m + 1, sides);
      TrunkRowsIn(base, sides, m - 1, lo, hi);
      TrunkRowIn(SliceStart(base, sides, m - 1), sides, sides, lo, hi);
      AllInConcat(TrunkRows(base, sides, m - 1), TrunkRow(SliceStart(base, sides, m - 1), sides, sides), lo, hi);
    }
  }

  lemma {:induction false} TopCapIn(capBase: int, capVtx: int, sides: nat, n: nat, lo: int, hi: int)
    requires sides > 0 && n <= sides
    requires 0 <= lo <= capBase && capBase + sides <= hi <= U16_LIMIT && lo <= capVtx < hi
    ensures AllIn(TopCap(capBase, capVtx, sides, n), lo, hi)
  {
    if n > 0 {
      TopCapIn(capBase, capVtx, sides, n - 1, lo, hi);
    }
  }

  /** A sphere appends 6·sides·(slices−1) indices, and when its vertices fit
    * below 65536 every index names one of the sphere's own vertices. */
  lemma SphereIndicesInBlock(base: nat, sides: nat, slices: nat)
    requires sides >= 3 && slices >= 2
    requires base + SphereVertexCount(sides, slices) <= U16_LIMIT
    ensures |SphereIndices(base, sides, slices)| == 6 * Times(slices - 1, sides)
    ensures AllIn(SphereIndices(base, sides, slices), base, base + SphereVertexCount(sides, slices))
  {
    var hi := base + SphereVertexCount(sides, slices);
    var capBase := SliceStart(base, sides, slices - 2);
    var capVtx := SliceStart(base, sides, slices - 1);
    TrunkRowsLength(base, sides, slices - 2);
    BottomCapIn(base, sides, sides, base, hi);
    TrunkRowsIn(base, sides, slices - 2, base, hi);
    TopCapIn(capBase, capVtx, sides, sides, base, hi);
    AllInConcat(BottomCap(base, sides, sides), TrunkRows(base, sides, slices - 2), base, hi);
    AllInConcat(BottomCap(base, sides, sides) + TrunkRows(base, sides, slices - 2),
                TopCap(capBase, capVtx, sides, sides), base, hi);
  }

  /** The vertex and index counts of a sphere: 2+(slices−1)·sides and
    * 6·sides·(slices−1). */
  lemma SphereCounts(base: int, sides: nat, slices: nat)
    requires sides > 0 && slices >= 2
    ensures |SpherePositions(sides, slices)| == |SphereNormals(sides, slices)| == 2 + (slices - 1) * sides
    ensures |SphereIndices(base, sides, slices)| == 6 * ((slices - 1) * sides)
  {
    RingsLength(sides, slices, slices - 1);
    TrunkRowsLength(base, sides, slices - 2);
    TimesValue(slices - 1, sides);
  }

  /** The asserted guard admits a sphere whose indices wrap: 65534 vertices
    * already present, three sides and two slices. */
  lemma SphereGuardAdmitsWrap()
    ensures AssertedBlockGuard(65534)
    ensures SphereIndices(65534, 3, 2)[2] == 0
    ensures !AllIn(SphereIndices(65534, 3, 2), 65534, 65534 + SphereVertexCount(3, 2))
  {
    assert BottomCap(65534, 3, 1) == [65534, 65535, 0];
    assert SphereIndices(65534, 3, 2)[2] == BottomCap(65534, 3, 3)[2];
  }

  /** A UV sphere: a bottom vertex, slices−1 rings of `sides` vertices and a
    * top vertex, then the bottom fan, the trunk quads and the top fan. */
  method GenerateSphere(sides: nat, slices: nat, mesh: MeshData)
    requires sides >= 3 && slices >= 2
    requires AssertedBlockGuard(|mesh.positions|)
    modifies mesh
    ensures mesh.positions == old(mesh.positions) + SpherePositions(sides, slices)
    ensures mesh.normals == old(mesh.normals) + SphereNormals(sides, slices)
    ensures mesh.indices == old(mesh.indices) + SphereIndices(|old(mesh.positions)|, sides, slices)
  {
    var baseVtx := U16(|mesh.positions|);
    ghost var i0 := mesh.indices;
    var capVtx := AppendSphereVertices(sides, slices, mesh);
    AppendBottomCap(baseVtx, sides, mesh);
    AppendTrunk(baseVtx, sides, slices, mesh);
    var capBaseVtx := baseVtx + 1 + (slices - 2) * sides;
    TimesValue(slices - 2, sides);
    assert capBaseVtx == SliceStart(baseVtx, sides, slices - 2);
    AppendTopCap(capBaseVtx, capVtx, sides, mesh);
    AppendAssoc(i0, BottomCap(baseVtx, sides, sides), TrunkRows(baseVtx, sides, slices - 2));
  }

  /** The vertex part of a sphere; `capVtx` is the truncated vertex count
    * read just before the top vertex is pushed. */
  method AppendSphereVertices(sides: nat, slices: nat, mesh: MeshData) returns (capVtx: int)
    requires slices >= 1
    modifies mesh`positions, mesh`normals
    ensures mesh.positions == old(mesh.positions) + SpherePositions(sides, slices)
    ensures mesh.normals == old(mesh.normals) + SphereNormals(sides, slices)
    ensures capVtx == U16(SliceStart(|old(mesh.positions)|, sides, slices - 1))
  {
    mesh.positions := mesh.positions + [BOTTOM_POINT];
    mesh.normals := mesh.normals + [BOTTOM_NORMAL];
    var y := 1;
    while y < slices
      invariant 1 <= y <= slices
      invariant mesh.positions == old(mesh.positions) + [BOTTOM_POINT] + Rings(sides, slices, y - 1)
      invariant mesh.normals == old(mesh.normals) + [BOTTOM_NORMAL] + RingNormals(sides, slices, y - 1)
    {
      AppendRing(sides, slices, y, mesh);
      AppendAssoc(old(mesh.positions) + [BOTTOM_POINT], Rings(sides, slices, y - 1), RingRow(sides, slices, y, sides));
      AppendAssoc(old(mesh.normals) + [BOTTOM_NORMAL], RingNormals(sides, slices, y - 1), RingNormalRow(sides, slices, y, sides));
      y := y + 1;
    }
    RingsLength(sides, slices, slices - 1);
    capVtx := U16(|mesh.positions|);
    mesh.positions := mesh.positions + [TOP_POINT];
    mesh.normals := mesh.normals + [TOP_NORMAL];
  }

  /** Ring y of the vertex loop: `sides` points and their normals. */
  method AppendRing(sides: nat, slices: nat, y: nat, mesh: MeshData)
    modifies mesh`positions, mesh`normals
    ensures mesh.positions == old(mesh.positions) + RingRow(sides, slices, y, sides)
    ensures mesh.normals == old(mesh.normals) + RingNormalRow(sides, slices, y, sides)
  {
    var x := 0;
    while x < sides
      invariant 0 <= x <= sides
      invariant mesh.positions == old(mesh.positions) + RingRow(sides, slices, y, x)
      invariant mesh.normals == old(mesh.normals) + RingNormalRow(sides, slices, y, x)
    {
      AppendAssoc(old(mesh.positions), RingRow(sides, slices, y, x), [RingPoint(sides, slices, y, x)]);
      AppendAssoc(old(mesh.normals), RingNormalRow(sides, slices, y, x), [RingNormal(sides, slices, y, x)]);
      mesh.positions := mesh.positions + [RingPoint(sides, slices, y, x)];
      mesh.normals := mesh.normals + [RingNormal(sides, slices, y, x)];
      x := x + 1;
    }
  }

  /** The bottom-cap loop: one fan triangle per side around `baseVtx`. */
  method AppendBottomCap(baseVtx: int, sides: nat, mesh: MeshData)
    requires sides > 0
    modifies mesh`indices
    ensures mesh.indices == old(mesh.indices) + BottomCap(baseVtx, sides, sides)
  {
    var i := 0;
    while i < sides
      invariant 0 <= i <= sides
      invariant mesh.indices == old(mesh.indices) + BottomCap(baseVtx, sides, i)
    {
      AppendAssoc(old(mesh.indices), BottomCap(baseVtx, sides, i), [U16(baseVtx + 0), U16(baseVtx + 1 + i), U16(baseVtx + 1 + (i + 1) % sides)]);
      mesh.indices := mesh.indices + [U16(baseVtx + 0), U16(baseVtx + 1 + i), U16(baseVtx + 1 + (i + 1) % sides)];
      i := i + 1;
    }
  }

  /** The trunk loop: for each of the slices−2 ring pairs, one quad per side. */
  method AppendTrunk(baseVtx: int, sides: nat, slices: nat, mesh: MeshData)
    requires sides > 0 && slices >= 2
    modifies mesh`indices
    ensures mesh.indices == old(mesh.indices) + TrunkRows(baseVtx, sides, slices - 2)
  {
    var yy := 0;
    while yy < slices - 2
      invariant 0 <= yy <= slices - 2
      invariant mesh.indices == old(mesh.indices) + TrunkRows(baseVtx, sides, yy)
    {
      var sliceBaseVtx := baseVtx + 1 + yy * sides;
      TimesValue(yy, sides);
      AppendTrunkRow(sliceBaseVtx, sides, mesh);
      AppendAssoc(old(mesh.indices), TrunkRows(baseVtx, sides, yy), TrunkRow(sliceBaseVtx, sides, sides));
      yy := yy + 1;
    }
  }

  /** One ring pair of the trunk loop: a quad per side between the ring
    * starting at `sliceBaseVtx` and the next one. */
  method AppendTrunkRow(sliceBaseVtx: int, sides: nat, mesh: MeshData)
    requires sides > 0
    modifies mesh`indices
    ensures mesh.indices == old(mesh.indices) + TrunkRow(sliceBaseVtx, sides, sides)
  {
    var x := 0;
    while x < sides
      invariant 0 <= x <= sides
      invariant mesh.indices == old(mesh.indices) + TrunkRow(sliceBaseVtx, sides, x)
    {
      AppendAssoc(old(mesh.indices), TrunkRow(sliceBaseVtx, sides, x), TrunkCell(sliceBaseVtx, sides, x));
      mesh.indices := mesh.indices + TrunkCell(sliceBaseVtx, sides, x);
      x := x + 1;
    }
  }

  /** The top-cap loop: one fan triangle per side joining the last ring,
    * which starts at `capBaseVtx`, to the top vertex `capVtx`. */
  method AppendTopCap(capBaseVtx: int, capVtx: int, sides: nat, mesh: MeshData)
    requires sides > 0
    modifies mesh`indices
    ensures mesh.indices == old(mesh.indices) + TopCap(capBaseVtx, capVtx, sides, sides)
  {
    var i := 0;
    while i < sides
      invariant 0 <= i <= sides
      invariant mesh.indices == old(mesh.indices) + TopCap(capBaseVtx, capVtx, sides, i)
    {
      AppendAssoc(old(mesh.indices), TopCap(capBaseVtx, capVtx, sides, i), [U16(capBaseVtx + i), U16(capVtx), U16(capBaseVtx + (i + 1) % sides)]);
      mesh.indices := mesh.indices + [U16(capBaseVtx + i), U16(capVtx), U16(capBaseVtx + (i + 1) % sides)];
      i := i + 1;
    }
  }

  // ---------------------------------------------------------------------------
  // Upload layout (Scene::CreateAssets)

  /** The interleaved vertex stream: position j, then normal j. */
  function Interleaved(positions: seq<Float3>, normals: seq<Float3>): (r: seq<Float3>)
    requires |positions| <= |normals|
    ensures |r| == 2 * |positions|
  {
    if |positions| == 0 then []
    else Interleaved(positions[..|positions| - 1], normals) + [positions[|positions| - 1], normals[|positions| - 1]]
  }

  /** Vertex j's position sits at 2j and its normal at 2j+1. */
  lemma {:induction false} InterleavedAt(positions: seq<Float3>, normals: seq<Float3>, j: nat)
    requires |positions| <= |normals| && j < |positions|
    ensures Interleaved(positions, normals)[2 * j] == positions[j]
    ensures Interleaved(positions, normals)[2 * j + 1] == normals[j]
  {
    var n := |positions|;
    if j < n - 1 {
      InterleavedAt(positions[..n - 1], normals, j);
    }
  }

  /** Fills a buffer of 2·|positions| float3 slots: slot 2j with position j
    * and slot 2j+1 with normal j. */
  method InterleaveVertices(positions: seq<Float3>, normals: seq<Float3>) returns (vertices: array<Float3>)
    requires |positions| <= |normals|
    ensures fresh(vertices)
    ensures vertices[..] == Interleaved(positions, normals)
  {
    vertices := new Float3[2 * |positions|](_ => Lit(Vec3(0.0, 0.0, 0.0)));
    var j := 0;
    while j < |positions|
      invariant 0 <= j <= |positions|
      invariant vertices[..2 * j] == Interleaved(positions[..j], normals)
    {
      vertices[2 * j] := positions[j];
      vertices[2 * j + 1] := normals[j];
      assert positions[..j + 1][..j] == positions[..j];
      assert vertices[..2 * (j + 1)] == vertices[..2 * j] + [positions[j], normals[j]];
      j := j + 1;
    }
    assert positions[..|positions|] == positions;
  }

  /** Byte size of the vertex buffer: (|positions| + |normals|) float3 values,
    * which is the whole interleaved array when the lists have equal length. */
  function VertexBufferSize(positionCount: nat, normalCount: nat): (bytes: nat)
    ensures positionCount == normalCount ==> bytes == SIZEOF_FLOAT3 * (2 * positionCount)
    ensures bytes % SIZEOF_FLOAT3 == 0
  {
    (positionCount + normalCount) * SIZEOF_FLOAT3
  }

  /** Byte size of the 16-bit index buffer. */
  function IndexBufferSize(indexCount: nat): (bytes: nat)
    ensures bytes / SIZEOF_UINT16 == indexCount && bytes % SIZEOF_UINT16 == 0
  {
    indexCount * SIZEOF_UINT16
  }

  /** The plane of CreateAssets, generated into an empty mesh. */
  method CreatePlaneMesh() returns (plane: MeshData)
    ensures fresh(plane)
    ensures |plane.positions| == |plane.normals| == 8 && |plane.indices| == 12
    ensures AllIn(plane.indices, 0, 8)
  {
    plane := new MeshData();
    GeneratePlane(plane);
    QuadInRange(0, 0, 8);
    QuadInRange(4, 0, 8);
    AllInConcat(QuadIndices(0), QuadIndices(4), 0, 8);
  }

  /** A box generated into an empty mesh: (s+1)²·4+8 vertices, 24s²+12
    * indices, all naming the box's own vertices when they fit below 65536. */
  method CreateBoxMesh(s: nat) returns (box: MeshData)
    requires AssertedBlockGuard(3 * ((s + 1) * (s + 1)))
    ensures fresh(box)
    ensures |box.positions| == |box.normals| == (s + 1) * (s + 1) * 4 + 8
    ensures |box.indices| == 24 * (s * s) + 12
    ensures (s + 1) * (s + 1) * 4 + 8 <= U16_LIMIT ==> AllIn(box.indices, 0, (s + 1) * (s + 1) * 4 + 8)
  {
    box := new MeshData();
    TimesValue(s + 1, s + 1);
    GenerateBox(s, box);
    assert box.indices == BoxIndices(0, s);
    BoxCounts(0, s);
    if (s + 1) * (s + 1) * 4 + 8 <= U16_LIMIT {
      BoxIndicesInBlock(0, s);
    }
  }

  /** A sphere generated into an empty mesh: 2+(slices−1)·sides vertices and
    * 6·(slices−1)·sides indices, all naming the sphere's own vertices when
    * they fit below 65536. */
  method CreateSphereMesh(sides: nat, slices: nat) returns (sphere: MeshData)
    requires sides >= 3 && slices >= 2
    ensures fresh(sphere)
    ensures |sphere.positions| == |sphere.normals| == 2 + (slices - 1) * sides
    ensures |sphere.indices| == 6 * ((slices - 1) * sides)
    ensures 2 + (slices - 1) * sides <= U16_LIMIT ==> AllIn(sphere.indices, 0, 2 + (slices - 1) * sides)
  {
    sphere := new MeshData();
    GenerateSphere(sides, slices, sphere);
    assert sphere.indices == SphereIndices(0, sides, slices);
    SphereCounts(0, sides, slices);
    if 2 + (slices - 1) * sides <= U16_LIMIT {
      TimesValue(slices - 1, sides);
      SphereIndicesInBlock(0, sides, slices);
    }
  }

  const BOX_SUBDIVISIONS: nat := 100
  const SPHERE_SIDES: nat := 100
  const SPHERE_SLICES: nat := 50

  /** The three meshes of CreateAssets: a double-sided plane, a box with 100
    * subdivisions and a sphere with 100 sides and 50 slices, each generated
    * into an empty mesh. Every index is a vertex of its own mesh, so no
    * 16-bit index wraps. */
  method CreateMeshSet() returns (plane: MeshData, box: MeshData, sphere: MeshData)
    ensures |plane.positions| == |plane.normals| == 8 && |plane.indices| == 12
    ensures |box.positions| == |box.normals| == 40812 && |box.indices| == 240012
    ensures |sphere.positions| == |sphere.normals| == 4902 && |sphere.indices| == 29400
    ensures AllIn(plane.indices, 0, 8) && AllIn(box.indices, 0, 40812) && AllIn(sphere.indices, 0, 4902)
  {
    plane := CreatePlaneMesh();
    box := CreateBoxMesh(BOX_SUBDIVISIONS);
    sphere := CreateSphereMesh(SPHERE_SIDES, SPHERE_SLICES);
  }
}
