/**
 * The threaded-rendering sample: six cube faces are recorded into their own
 * command lists, then blitted side by side into the window as an unfolded
 * cube (a 4 x 3 grid of square cells), and all seven lists are submitted.
 */
module ThreadedRendering {
  import opened CTypes
  import Glfw

  /** The cube map has one array slice per face. */
  const CUBE_FACES: nat := 6

  /** Grid cell (column, row) of each face in the unfolded cube. */
  const FACE_LAYOUT: seq<(nat, nat)> := [(3, 1), (1, 1), (2, 0), (2, 2), (2, 1), (0, 1)]

  const GRID_COLUMNS: nat := 4
  const GRID_ROWS: nat := 3

  /** The layout names six different cells, all inside the 4 x 3 grid. */
  lemma FaceLayoutCells()
    ensures |FACE_LAYOUT| == CUBE_FACES
    ensures forall f :: 0 <= f < CUBE_FACES ==> FACE_LAYOUT[f].0 < GRID_COLUMNS && FACE_LAYOUT[f].1 < GRID_ROWS
    ensures forall f, g :: 0 <= f < g < CUBE_FACES ==> FACE_LAYOUT[f] != FACE_LAYOUT[g]
  {
  }

  /** Side of one face cell: the largest square size that fits four across and three down. */
  function FaceSize(width: nat, height: nat): (s: nat)
    ensures GRID_COLUMNS * s <= width && GRID_ROWS * s <= height
    ensures GRID_COLUMNS * (s + 1) > width || GRID_ROWS * (s + 1) > height
  {
    var byWidth := width / 4;
    var byHeight := height / 3;
    if byWidth < byHeight then byWidth else byHeight
  }

  /** A pixel rectangle [minX, maxX) x [minY, maxY); depth runs from 0 to 1. */
  datatype Viewport = Viewport(minX: int, maxX: int, minY: int, maxY: int)

  predicate Overlap(a: Viewport, b: Viewport)
  {
    a.minX < b.maxX && b.minX < a.maxX && a.minY < b.maxY && b.minY < a.maxY
  }

  /** One blit of a cube-map slice into the window. */
  datatype Blit = Blit(target: Viewport, sourceArraySlice: nat)

  function FaceViewport(face: nat, faceSize: nat): Viewport
    requires face < CUBE_FACES
  {
    var minX := FACE_LAYOUT[face].0 * faceSize;
    var minY := FACE_LAYOUT[face].1 * faceSize;
    Viewport(minX, minX + faceSize, minY, minY + faceSize)
  }

  /** Every face viewport is a square of the face size inside the window. */
  lemma FaceViewportInside(face: nat, width: nat, height: nat)
    requires face < CUBE_FACES
    ensures var v := FaceViewport(face, FaceSize(width, height));
      v.maxX - v.minX == FaceSize(width, height) && v.maxY - v.minY == FaceSize(width, height)
      && 0 <= v.minX && v.maxX <= width && 0 <= v.minY && v.maxY <= height
  {
    var s := FaceSize(width, height);
    FaceLayoutCells();
    MulLe(FACE_LAYOUT[face].0 + 1, GRID_COLUMNS, s);
    MulLe(FACE_LAYOUT[face].1 + 1, GRID_ROWS, s);
  }

  /** Cells in different columns or rows cover disjoint pixel ranges. */
  lemma CellsApart(a: nat, b: nat, s: nat)
    requires a < b
    ensures a * s + s <= b * s
  {
    MulLe(a + 1, b, s);
  }

  /** No two faces are drawn over each other. */
  lemma FaceViewportsDisjoint(f: nat, g: nat, faceSize: nat)
    requires f < g < CUBE_FACES
    ensures !Overlap(FaceViewport(f, faceSize), FaceViewport(g, faceSize))
  {
    FaceLayoutCells();
    var (cf, rf) := FACE_LAYOUT[f];
    var (cg, rg) := FACE_LAYOUT[g];
    if cf < cg {
      CellsApart(cf, cg, faceSize);
    } else if cg < cf {
      CellsApart(cg, cf, faceSize);
    } else if rf < rg {
      CellsApart(rf, rg, faceSize);
    } else {
      CellsApart(rg, rf, faceSize);
    }
  }

  /** The command lists of a frame. */
  datatype CommandList = FaceList(face: nat) | MainList

  /** The face lists in face order, then the list holding the blits. */
  function SubmissionOrder(): (r: seq<CommandList>)
    ensures |r| == CUBE_FACES + 1
    ensures forall i :: 0 <= i < CUBE_FACES ==> r[i] == FaceList(i)
    ensures r[CUBE_FACES] == MainList
  {
    [FaceList(0), FaceList(1), FaceList(2), FaceList(3), FaceList(4), FaceList(5), MainList]
  }

  class ThreadedRenderingApp {
    var useThreads: bool

    constructor ()
      ensures useThreads
    {
      useThreads := true;
    }

    /** Space switches between threaded and serial recording; every key also reaches the camera. */
    method KeyboardUpdate(key: int, action: int) returns (handled: bool)
      modifies this`useThreads
      ensures handled
      ensures useThreads == (old(useThreads) != (key == Glfw.KEY_SPACE && action == Glfw.PRESS))
    {
      if key == Glfw.KEY_SPACE && action == Glfw.PRESS {
        useThreads := !useThreads;
      }
      handled := true;
    }

    /**
     * One frame: records the six faces (as tasks when threads are on, in
     * face order otherwise), blits face i from slice i into its cell, and
     * submits the face lists before the main list.
     */
    method Render(width: nat, height: nat)
      returns (recorded: seq<nat>, blits: seq<Blit>, submitted: seq<CommandList>)
      ensures multiset(recorded) == multiset{0, 1, 2, 3, 4, 5}
      ensures !useThreads ==> recorded == [0, 1, 2, 3, 4, 5]
      ensures |blits| == CUBE_FACES
      ensures forall f :: 0 <= f < CUBE_FACES ==>
        blits[f] == Blit(FaceViewport(f, FaceSize(width, height)), f)
      ensures submitted == SubmissionOrder()
    {
      recorded := [];
      for face := 0 to CUBE_FACES
        invariant recorded == seq(face, i => i)
      {
        recorded := recorded + [face];
      }
      assert recorded == [0, 1, 2, 3, 4, 5];

      var faceSize := FaceSize(width, height);
      blits := [];
      for face := 0 to CUBE_FACES
        invariant |blits| == face
        invariant forall f :: 0 <= f < face ==> blits[f] == Blit(FaceViewport(f, faceSize), f)
      {
        var minX := FACE_LAYOUT[face].0 * faceSize;
        var minY := FACE_LAYOUT[face].1 * faceSize;
        var viewport := Viewport(minX, minX + faceSize, minY, minY + faceSize);
        blits := blits + [Blit(viewport, face)];
      }

      submitted := [FaceList(0), FaceList(1), FaceList(2), FaceList(3), FaceList(4), FaceList(5), MainList];
    }
  }
}
