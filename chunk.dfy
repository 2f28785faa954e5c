// The chunk: a fixed 16x16x16 grid of voxels held in one array, its
// accessors, fills and draw pass, and the grid set up by the program's entry
// point.

module Chunks {
  import opened Voxels
  import opened Grid

  class Chunk {
    /** The cells, one slot per flat index. */
    var voxels: array<Voxel>

    predicate Valid()
      reads this
    {
      voxels.Length == Size
    }

    /** A new chunk: the storage is allocated and then filled with Air. */
    constructor ()
      ensures Valid() && fresh(voxels)
      ensures forall i :: 0 <= i < Size ==> voxels[i] == Air
    {
      voxels := new Voxel[Size];
      new;
      MemsetSlotKind(Air);
      Fill(Air);
    }

    /** The cell at flat index `index` (no bounds check in the source). */
    function GetVoxel(index: int): (v: Voxel)
      reads this, voxels
      requires Valid() && 0 <= index < Size
      ensures v == voxels[index]
    {
      voxels[index]
    }

    /** The cell at (x, y, z); it reads the same slot as the flat accessor at
      * Index(x, y, z). */
    function GetVoxelAt(x: int, y: int, z: int): (v: Voxel)
      reads this, voxels
      requires Valid() && InBounds(x, y, z)
      ensures v == GetVoxel(Index(x, y, z))
    {
      voxels[x + z * Width + y * Width * Height]
    }

    /** Write one cell by flat index; nothing else changes. */
    method SetVoxel(index: int, v: Voxel)
      requires Valid() && 0 <= index < Size
      modifies voxels
      ensures Valid() && GetVoxel(index) == v
      ensures forall j :: 0 <= j < Size && j != index ==> voxels[j] == old(voxels[j])
    {
      voxels[index] := v;
    }

    /** Write one cell by coordinates; reading back any cell by coordinates
      * gives `v` at (x, y, z) and the old contents elsewhere. */
    method SetVoxelAt(x: int, y: int, z: int, v: Voxel)
      requires Valid() && InBounds(x, y, z)
      modifies voxels
      ensures Valid() && voxels[..] == old(voxels[..])[Index(x, y, z) := v]
      ensures GetVoxelAt(x, y, z) == v
      ensures forall x', y', z' :: InBounds(x', y', z') && (x', y', z') != (x, y, z) ==>
        GetVoxelAt(x', y', z') == old(GetVoxelAt(x', y', z'))
    {
      voxels[x + z * Width + y * Width * Height] := v;
      forall x', y', z' | InBounds(x', y', z') && (x', y', z') != (x, y, z)
        ensures voxels[Index(x', y', z')] == old(voxels[Index(x', y', z')])
      {
        SetThenGet(old(voxels[..]), x, y, z, v, x', y', z');
      }
    }

    /** Fill every cell with a byte-wise memset of `v`. Each 16-bit slot then
      * holds MemsetSlot(v), which is the value of `v` only for Air (see
      * MemsetSlotKind), so the fill is defined only for that case. */
    method Fill(v: Voxel)
      requires Valid() && MemsetSlot(v) == Ordinal(v)
      modifies voxels
      ensures Valid() && forall i :: 0 <= i < Size ==> voxels[i] == v
    {
      forall i | 0 <= i < voxels.Length {
        voxels[i] := v;
      }
    }

    /** Fill the inclusive box (x1..x2, y1..y2, z1..z2) with `v`, y outermost
      * and x innermost. The bounds are not normalised: a lower bound above
      * its upper bound makes the loop run zero times. The bounds are `int`s
      * and a loop that runs must not step its counter past IntMax. */
    method FillBox(x1: int, y1: int, z1: int, x2: int, y2: int, z2: int, v: Voxel)
      requires Valid() && WritesInBounds(Box(x1, y1, z1, x2, y2, z2))
      requires CountersInRange(Box(x1, y1, z1, x2, y2, z2))
      modifies voxels
      ensures Valid() && voxels[..] == FillBoxSpec(old(voxels[..]), Box(x1, y1, z1, x2, y2, z2), v)
    {
      ghost var b := Box(x1, y1, z1, x2, y2, z2);
      ghost var s := voxels[..];
      FillBoxProgressStart(s, b, v);
      var y := y1;
      while y <= y2
        invariant y1 <= y && IsInt(y)
        invariant voxels[..] == FillBoxProgress(s, b, v, y, z1, x1)
        decreases y2 + 1 - y
      {
        var z := z1;
        while z <= z2
          invariant z1 <= z && IsInt(z)
          invariant voxels[..] == FillBoxProgress(s, b, v, y, z, x1)
          decreases z2 + 1 - z
        {
          var x := x1;
          while x <= x2
            invariant x1 <= x && IsInt(x)
            invariant voxels[..] == FillBoxProgress(s, b, v, y, z, x)
            decreases x2 + 1 - x
          {
            assert InBounds(x, y, z) && Index(x, y, z) == x + z * 16 + y * 256;
            FillBoxProgressStep(s, b, v, x, y, z);
            ghost var before := voxels[..];
            voxels[x + z * Width + y * Width * Height] := v;
            assert voxels[..] == before[Index(x, y, z) := v];
            x := x + 1;
          }
          FillBoxProgressNextRow(s, b, v, y, z, x);
          z := z + 1;
        }
        FillBoxProgressNextLayer(s, b, v, y, z);
        y := y + 1;
      }
      FillBoxProgressDone(s, b, v, y);
    }

    /** Issue one cube per non-Air cell, visiting the cells in storage order. */
    method Draw() returns (cmds: seq<DrawCube>)
      requires Valid()
      ensures cmds == DrawList(voxels[..], Size)
    {
      ghost var s := voxels[..];
      ghost var n := 0;  // cells visited so far, in storage order
      cmds := [];
      var y := 0;
      while y < Height
        invariant 0 <= y <= Height && n == y * 256
        invariant cmds == DrawList(s, n)
      {
        var z := 0;
        while z < Width
          invariant 0 <= z <= Width && n == z * 16 + y * 256
          invariant cmds == DrawList(s, n)
        {
          var x := 0;
          while x < Width
            invariant 0 <= x <= Width && n == x + z * 16 + y * 256
            invariant cmds == DrawList(s, n)
          {
            var voxel := GetVoxelAt(x, y, z);
            assert Index(x, y, z) == n && voxel == s[n];
            DrawListStep(s, x, y, z);
            if voxel != Air {
              cmds := cmds + [DrawCube(x - Width / 2, y - Height / 2, z - Width / 2, Ordinal(voxel))];
            }
            x := x + 1;
            n := n + 1;
          }
          z := z + 1;
        }
        y := y + 1;
      }
    }
  }

  /** The layer (y) at which the program's two box fills meet: (16 - 1) / 2. */
  const MidLayer: int := (Height - 1) / 2

  /** The grid the program's entry point builds before rendering: a fresh
    * chunk, Dirt over layers 0..7, then Grass over layer 7. */
  method MainScenario() returns (cells: seq<Voxel>, cubes: seq<DrawCube>)
    ensures |cells| == Size
    ensures forall x, y, z :: InBounds(x, y, z) ==>
      cells[Index(x, y, z)] == (if y < 7 then Dirt else if y == 7 then Grass else Air)
    ensures CountNonAir(cells) == 1792 + 256 == 2048
    ensures cubes == DrawList(cells, Size) && |cubes| == 2048
  {
    var chunk := new Chunk();
    ghost var s0 := chunk.voxels[..];
    chunk.FillBox(0, 0, 0, Width - 1, MidLayer, Width - 1, Dirt);
    ghost var s1 := chunk.voxels[..];
    chunk.FillBox(0, MidLayer, 0, Width - 1, MidLayer, Width - 1, Grass);
    cells := chunk.voxels[..];
    cubes := chunk.Draw();
    forall x, y, z | InBounds(x, y, z)
      ensures cells[Index(x, y, z)] == (if y < 7 then Dirt else if y == 7 then Grass else Air)
    {
      FillBoxCell(s0, Box(0, 0, 0, Width - 1, MidLayer, Width - 1), Dirt, x, y, z);
      FillBoxCell(s1, Box(0, MidLayer, 0, Width - 1, MidLayer, Width - 1), Grass, x, y, z);
    }
    forall i | 0 <= i < Size
      ensures cells[i] != Air <==> i < 2048
    {
      var c := CoordsOf(i);
      assert cells[Index(c.x, c.y, c.z)] == (if c.y < 7 then Dirt else if c.y == 7 then Grass else Air);
    }
    CountNonAirPrefix(cells, 2048);
    DrawListCount(cells, Size);
    assert cells[..Size] == cells;
  }
}
