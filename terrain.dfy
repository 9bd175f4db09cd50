/** The destructible terrain: a width-by-height occupancy array that craters
    carve in place. Its cells, read as a `Grid.Grid`, are what the functions
    of module `Grid` describe; every method here is proved against them.
 */
module TerrainField {
  import opened Grid
  import opened Combatant

  /** A combatant whose feet are more than this many rows above the ground
      is floating and is pushed down. */
  const FloatTolerance := 10

  /** The downward speed given to a floating combatant. */
  const FallSpeed := 50

  class Terrain {
    const width: nat
    const height: nat
    /** The height the hills add to the base ground, per column. */
    const hill: int -> real
    /** `data[x, y]` is 1 for a solid cell and 0 for an empty one. */
    const data: array2<int>

    ghost predicate Valid()
    {
      data.Length0 == width && data.Length1 == height
    }

    /** The cells as a grid value. */
    ghost function Cells(): (g: Grid)
      reads data
      ensures |g| == data.Length0 && forall x :: 0 <= x < |g| ==> |g[x]| == data.Length1
    {
      seq(data.Length0, x requires 0 <= x < data.Length0 reads data =>
        seq(data.Length1, y requires 0 <= y < data.Length1 reads data => data[x, y]))
    }

    constructor (width: nat, height: nat, hill: int -> real)
      ensures Valid() && fresh(data)
      ensures this.width == width && this.height == height && this.hill == hill
      ensures Cells() == Generate(width, height, hill)
    {
      this.width, this.height, this.hill := width, height, hill;
      data := new int[width, height];
      new;
      GenerateTerrain();
    }

    /** Fills every column: solid below the hill surface, empty above. */
    method GenerateTerrain()
      requires Valid()
      modifies data
      ensures Cells() == Generate(width, height, hill)
    {
      for x := 0 to width
        invariant forall i, j :: 0 <= i < x && 0 <= j < height ==> data[i, j] == GeneratedCell(height, hill, i, j)
      {
        for y := 0 to height
          invariant forall i, j :: 0 <= i < x && 0 <= j < height ==> data[i, j] == GeneratedCell(height, hill, i, j)
          invariant forall j :: 0 <= j < y ==> data[x, j] == GeneratedCell(height, hill, x, j)
        {
          if y as real > (height - TerrainHeight) as real - hill(x) {
            data[x, y] := Solid;
          } else {
            data[x, y] := Empty;
          }
        }
      }
      GridsEqual(Cells(), Generate(width, height, hill));
    }

    /** Regenerates the terrain of a new round: the same grid as a fresh one. */
    method Reset()
      requires Valid()
      modifies data
      ensures Cells() == Generate(width, height, hill)
    {
      GenerateTerrain();
    }

    /** Whether a point hits solid terrain: the cell under its floored
        coordinates is solid; points outside the terrain hit nothing. */
    function CheckCollision(x: real, y: real): (hit: bool)
      requires Valid()
      reads data
      ensures !(0 <= x.Floor < width && 0 <= y.Floor < height) ==> !hit
      ensures hit <==> SolidAt(Cells(), x.Floor, y.Floor)
    {
      var cx, cy := x.Floor, y.Floor;
      if cx < 0 || cx >= width || cy < 0 || cy >= height then false
      else data[cx, cy] == Solid
    }

    /** The topmost solid row of the column under `x`, or `height` when there is none. */
    method FindGroundLevel(x: real) returns (ground: int)
      requires Valid()
      ensures !(0 <= x.Floor < width) ==> ground == height
      ensures 0 <= ground <= height
      ensures forall y :: 0 <= y < ground ==> !SolidAt(Cells(), x.Floor, y)
      ensures ground < height ==> SolidAt(Cells(), x.Floor, ground)
      ensures ground == GroundLevel(Cells(), x.Floor, height)
    {
      var col := x.Floor;
      if col < 0 || col >= width {
        return height;
      }
      ground := height;
      var y := 0;
      while y < height
        invariant 0 <= y <= height
        invariant forall j :: 0 <= j < y ==> data[col, j] != Solid
      {
        if data[col, y] == Solid {
          ground := y;
          break;
        }
        y := y + 1;
      }
      GroundLevelUnique(Cells(), col, height, ground);
    }

    /** Pushes each active combatant that floats more than FloatTolerance rows
        above the ground of its column down at FallSpeed. */
    method CheckPlayerSupport(p1: Player, p2: Player)
      requires Valid()
      modifies p1`velocityY, p2`velocityY
      ensures p2.velocityY == if Floating(p2) then FallSpeed else old(p2.velocityY)
      ensures p1.velocityY == if Floating(p1) then FallSpeed else old(p1.velocityY)
    {
      SupportPlayer(p1);
      SupportPlayer(p2);
    }

    /** Whether `p` is active and more than FloatTolerance rows above the ground. */
    ghost predicate Floating(p: Player)
      requires Valid()
      reads this, data, p
    {
      p.active && p.y < (GroundLevel(Cells(), p.x.Floor, height) - FloatTolerance) as real
    }

    method SupportPlayer(p: Player)
      requires Valid()
      modifies p`velocityY
      ensures p.velocityY == if Floating(p) then FallSpeed else old(p.velocityY)
    {
      if p.active {
        var groundY := FindGroundLevel(p.x);
        if p.y < (groundY - FloatTolerance) as real {
          p.velocityY := FallSpeed;
        }
      }
    }

    /** Clears every cell within `radius` of the floored centre, then lets the
        combatants left floating fall. */
    method CreateCrater(centerX: real, centerY: real, radius: int, p1: Player, p2: Player)
      requires Valid()
      modifies data, p1`velocityY, p2`velocityY
      ensures Cells() == Carve(old(Cells()), centerX.Floor, centerY.Floor, radius)
      ensures p2.velocityY == if Floating(p2) then FallSpeed else old(p2.velocityY)
      ensures p1.velocityY == if Floating(p1) then FallSpeed else old(p1.velocityY)
    {
      var cx, cy := centerX.Floor, centerY.Floor;
      ghost var before := Cells();
      var x := cx - radius;
      while x <= cx + radius
        modifies data
        invariant cx - radius <= x
        invariant forall i, j :: 0 <= i < width && 0 <= j < height ==>
          data[i, j] == if i < x then CarvedCell(before[i][j], i, j, cx, cy, radius) else before[i][j]
      {
        var y := cy - radius;
        while y <= cy + radius
          modifies data
          invariant cy - radius <= y
          invariant forall i, j :: 0 <= i < width && 0 <= j < height ==>
            data[i, j] == if i < x || (i == x && j < y) then CarvedCell(before[i][j], i, j, cx, cy, radius) else before[i][j]
        {
          if 0 <= x < width && 0 <= y < height {
            if (x - cx) * (x - cx) + (y - cy) * (y - cy) <= radius * radius {
              data[x, y] := Empty;
            }
          }
          y := y + 1;
        }
        x := x + 1;
      }
      forall i, j | 0 <= i < width && 0 <= j < height
        ensures data[i, j] == CarvedCell(before[i][j], i, j, cx, cy, radius)
      {
      }
      GridsEqual(Cells(), Carve(before, cx, cy, radius));
      CheckPlayerSupport(p1, p2);
    }
  }
}
