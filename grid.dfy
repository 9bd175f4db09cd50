/** The terrain occupancy as a value.

    A grid is column-major, like the terrain data of the game: `g[x][y]` is the
    cell in column `x` and row `y`, with row 0 at the top of the screen. A cell
    holds 1 (solid) or 0 (empty). The class `Terrain` in module `TerrainField`
    stores the same cells in an `array2<int>` and its methods are proved
    against the functions below.
 */
module Grid {

  type Grid = seq<seq<int>>

  const Empty := 0
  const Solid := 1

  /** The base height of the ground, in rows, before the hills are added. */
  const TerrainHeight := 100

  /** `g` has `w` columns of `h` cells each, every cell 0 or 1. */
  predicate WellFormed(g: Grid, w: nat, h: nat)
  {
    |g| == w &&
    (forall x :: 0 <= x < w ==> |g[x]| == h) &&
    (forall x, y :: 0 <= x < w && 0 <= y < h ==> g[x][y] == Empty || g[x][y] == Solid)
  }

  /** Whether the cell at integer coordinates (x, y) is solid; cells outside the grid are not. */
  predicate SolidAt(g: Grid, x: int, y: int)
  {
    0 <= x < |g| && 0 <= y < |g[x]| && g[x][y] == Solid
  }

  // ---------------------------------------------------------------------------
  // Generation

  /** Whether row `y` of column `x` lies below the hill surface of a terrain
      `h` rows high, where `hill(x)` is the height the hills add to the base. */
  predicate BelowSurface(h: nat, hill: int -> real, x: int, y: int)
  {
    y as real > (h - TerrainHeight) as real - hill(x)
  }

  function GeneratedCell(h: nat, hill: int -> real, x: int, y: int): int
  {
    if BelowSurface(h, hill, x, y) then Solid else Empty
  }

  /** The grid a fresh terrain of `w` by `h` cells holds. */
  function Generate(w: nat, h: nat, hill: int -> real): (g: Grid)
    ensures WellFormed(g, w, h)
  {
    seq(w, x => seq(h, y => GeneratedCell(h, hill, x, y)))
  }

  /** Solid cells of a fresh terrain form a suffix of every column: below a
      solid cell every cell is solid, and above an empty cell every cell is empty. */
  lemma GeneratedColumnsAreBottomSuffixes(w: nat, h: nat, hill: int -> real, x: int, y: int, y': int)
    requires 0 <= x < w && 0 <= y <= y' < h
    ensures SolidAt(Generate(w, h, hill), x, y) ==> SolidAt(Generate(w, h, hill), x, y')
    ensures !SolidAt(Generate(w, h, hill), x, y') ==> !SolidAt(Generate(w, h, hill), x, y)
  {
  }

  // ---------------------------------------------------------------------------
  // Craters

  /** Whether cell (x, y) is removed by a crater of radius `r` centred on the
      integer cell (cx, cy): the carving loops visit the square of side 2r+1
      around the centre and clear a cell when its Euclidean distance to the
      centre is at most r; for an integer r that distance test is exactly
      dx*dx + dy*dy <= r*r. For a negative r the square is empty. */
  predicate InCrater(x: int, y: int, cx: int, cy: int, r: int)
  {
    cx - r <= x <= cx + r && cy - r <= y <= cy + r &&
    (x - cx) * (x - cx) + (y - cy) * (y - cy) <= r * r
  }

  function CarvedCell(v: int, x: int, y: int, cx: int, cy: int, r: int): int
  {
    if InCrater(x, y, cx, cy, r) then Empty else v
  }

  /** The grid after carving a crater of radius `r` centred on (cx, cy). */
  function Carve(g: Grid, cx: int, cy: int, r: int): (c: Grid)
    ensures |c| == |g| && forall x :: 0 <= x < |g| ==> |c[x]| == |g[x]|
  {
    seq(|g|, x requires 0 <= x < |g| => seq(|g[x]|, y requires 0 <= y < |g[x]| => CarvedCell(g[x][y], x, y, cx, cy, r)))
  }

  /** Every cell of the grid inside the crater is empty afterwards. */
  lemma CarveClearsDisc(g: Grid, cx: int, cy: int, r: int, x: int, y: int)
    requires InCrater(x, y, cx, cy, r)
    ensures !SolidAt(Carve(g, cx, cy, r), x, y)
  {
  }

  /** Cells outside the crater keep their content. */
  lemma CarveKeepsOutside(g: Grid, cx: int, cy: int, r: int, x: int, y: int)
    requires 0 <= x < |g| && 0 <= y < |g[x]| && !InCrater(x, y, cx, cy, r)
    ensures Carve(g, cx, cy, r)[x][y] == g[x][y]
  {
  }

  /** Carving never makes a cell solid. */
  lemma CarveIsMonotone(g: Grid, cx: int, cy: int, r: int, x: int, y: int)
    ensures SolidAt(Carve(g, cx, cy, r), x, y) ==> SolidAt(g, x, y)
  {
  }

  /** Carving keeps a grid well formed. */
  lemma CarveWellFormed(g: Grid, w: nat, h: nat, cx: int, cy: int, r: int)
    requires WellFormed(g, w, h)
    ensures WellFormed(Carve(g, cx, cy, r), w, h)
  {
  }

  /** Two grids of the same shape that agree on every cell are equal. */
  lemma GridsEqual(a: Grid, b: Grid)
    requires |a| == |b|
    requires forall x :: 0 <= x < |a| ==> |a[x]| == |b[x]|
    requires forall x, y :: 0 <= x < |a| && 0 <= y < |a[x]| ==> a[x][y] == b[x][y]
    ensures a == b
  {
    forall x | 0 <= x < |a|
      ensures a[x] == b[x]
    {
      assert |a[x]| == |b[x]|;
    }
  }

  /** Carving the same crater twice removes nothing more than carving it once. */
  lemma CarveIdempotent(g: Grid, cx: int, cy: int, r: int)
    ensures Carve(Carve(g, cx, cy, r), cx, cy, r) == Carve(g, cx, cy, r)
  {
    var once := Carve(g, cx, cy, r);
    GridsEqual(Carve(once, cx, cy, r), once);
  }

  /** Overlapping craters remove the union of their discs, whatever their order. */
  lemma CarveCommutes(g: Grid, cx1: int, cy1: int, r1: int, cx2: int, cy2: int, r2: int)
    ensures Carve(Carve(g, cx1, cy1, r1), cx2, cy2, r2) == Carve(Carve(g, cx2, cy2, r2), cx1, cy1, r1)
  {
    GridsEqual(Carve(Carve(g, cx1, cy1, r1), cx2, cy2, r2), Carve(Carve(g, cx2, cy2, r2), cx1, cy1, r1));
  }

  // ---------------------------------------------------------------------------
  // Ground level

  /** The first row at or below `from` whose cell is solid, or |col| if none. */
  function ColumnTop(col: seq<int>, from: nat): (t: nat)
    requires from <= |col|
    ensures from <= t <= |col|
    ensures forall y :: from <= y < t ==> col[y] != Solid
    ensures t < |col| ==> col[t] == Solid
    decreases |col| - from
  {
    if from == |col| then |col|
    else if col[from] == Solid then from
    else ColumnTop(col, from + 1)
  }

  /** The ground level of column `x` of a grid `h` rows high: the topmost solid
      row, or `h` when `x` is outside the grid or the column holds no solid cell. */
  function GroundLevel(g: Grid, x: int, h: nat): (t: int)
    requires forall i :: 0 <= i < |g| ==> |g[i]| == h
    ensures 0 <= t <= h
    ensures !(0 <= x < |g|) ==> t == h
    ensures forall y :: 0 <= y < t ==> !SolidAt(g, x, y)
    ensures t < h ==> SolidAt(g, x, t)
  {
    if 0 <= x < |g| then ColumnTop(g[x], 0) else h
  }

  /** The contract of GroundLevel determines its value: any row that is solid
      and has only empty cells above it is the ground level. */
  lemma GroundLevelUnique(g: Grid, x: int, h: nat, t: int)
    requires forall i :: 0 <= i < |g| ==> |g[i]| == h
    requires 0 <= t <= h
    requires forall y :: 0 <= y < t ==> !SolidAt(g, x, y)
    requires t < h ==> SolidAt(g, x, t)
    ensures t == GroundLevel(g, x, h)
  {
  }

  /** A crater never raises the ground: the ground level of every column after
      carving is at or below the one before. */
  lemma CarveLowersGround(g: Grid, w: nat, h: nat, cx: int, cy: int, r: int, x: int)
    requires WellFormed(g, w, h)
    ensures GroundLevel(Carve(g, cx, cy, r), x, h) >= GroundLevel(g, x, h)
  {
    var c := Carve(g, cx, cy, r);
    CarveWellFormed(g, w, h, cx, cy, r);
    CarveIsMonotone(g, cx, cy, r, x, GroundLevel(c, x, h));
  }

  /** The ground level of a fresh terrain is the first row below the hill
      surface of that column. */
  lemma GeneratedGroundLevel(w: nat, h: nat, hill: int -> real, x: int)
    requires 0 <= x < w
    ensures var t := GroundLevel(Generate(w, h, hill), x, h);
      (t < h ==> BelowSurface(h, hill, x, t)) &&
      (forall y :: 0 <= y < t ==> !BelowSurface(h, hill, x, y))
  {
    var g := Generate(w, h, hill);
    var t := GroundLevel(g, x, h);
    forall y | 0 <= y < t
      ensures !BelowSurface(h, hill, x, y)
    {
      assert !SolidAt(g, x, y);
      assert g[x][y] == GeneratedCell(h, hill, x, y);
    }
  }
}
