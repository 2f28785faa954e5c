// The chunk's fixed geometry and the value-level meaning of its operations:
// the flat-index layout of a 16x16x16 grid, what a box fill does to the cells,
// and which draw commands a pass over the cells issues.

module Grid {
  import opened Voxels

  /** Cells along x and along z. */
  const Width: int := 16
  /** Cells along y. */
  const Height: int := 16
  /** Number of cells in a chunk. */
  const Size: int := Width * Width * Height

  /** The source's y stride is written `kWidth * kHeight`; a y-layer holds
    * `kWidth * kWidth` cells, and the two agree only because both constants
    * are 16. */
  lemma YStrideIsLayerSize()
    ensures Width * Height == Width * Width == 256 && Size == 4096
  {
  }

  datatype Coord = Coord(x: int, y: int, z: int)

  predicate InBounds(x: int, y: int, z: int) {
    0 <= x < Width && 0 <= y < Height && 0 <= z < Width
  }

  /** Flat index of cell (x, y, z): x varies fastest, then z, then y. */
  function Index(x: int, y: int, z: int): (i: int)
    requires InBounds(x, y, z)
    ensures 0 <= i < Size
  {
    x + z * Width + y * Width * Height
  }

  /** The cell stored at flat index `i`; the inverse of Index. */
  function CoordsOf(i: int): (c: Coord)
    requires 0 <= i < Size
    ensures InBounds(c.x, c.y, c.z) && Index(c.x, c.y, c.z) == i
  {
    Coord(i % Width, i / (Width * Height), (i / Width) % Width)
  }

  /** Index is injective on in-bounds cells: CoordsOf recovers the cell. */
  lemma IndexRoundTrip(x: int, y: int, z: int)
    requires InBounds(x, y, z)
    ensures CoordsOf(Index(x, y, z)) == Coord(x, y, z)
  {
    var i := Index(x, y, z);
    assert i / Width == z + y * Width;
  }

  /** Together with CoordsOf's contract: Index is a bijection from the in-bounds
    * cells onto [0, Size). */
  lemma IndexInjective(x1: int, y1: int, z1: int, x2: int, y2: int, z2: int)
    requires InBounds(x1, y1, z1) && InBounds(x2, y2, z2)
    ensures Index(x1, y1, z1) == Index(x2, y2, z2) <==> x1 == x2 && y1 == y2 && z1 == z2
  {
    IndexRoundTrip(x1, y1, z1);
    IndexRoundTrip(x2, y2, z2);
  }

  /** Writing one cell of a grid's contents changes that cell and no other,
    * whichever cell is read back. */
  lemma SetThenGet(s: seq<Voxel>, x: int, y: int, z: int, v: Voxel, x': int, y': int, z': int)
    requires |s| == Size && InBounds(x, y, z) && InBounds(x', y', z')
    ensures s[Index(x, y, z) := v][Index(x', y', z')]
         == if x == x' && y == y' && z == z' then v else s[Index(x', y', z')]
  {
    IndexInjective(x, y, z, x', y', z');
  }

  // ---------------------------------------------------------------------------
  // Box fill

  /** The corners of an inclusive box, as passed to FillBox (no min/max
    * normalisation: a lower bound above its upper bound makes the box empty). */
  datatype Box = Box(x1: int, y1: int, z1: int, x2: int, y2: int, z2: int)

  predicate InBox(b: Box, c: Coord) {
    b.x1 <= c.x <= b.x2 && b.y1 <= c.y <= b.y2 && b.z1 <= c.z <= b.z2
  }

  predicate NonEmpty(b: Box) {
    b.x1 <= b.x2 && b.y1 <= b.y2 && b.z1 <= b.z2
  }

  /** A box fill writes cells only when the box is non-empty; then every
    * corner coordinate must lie inside the chunk. */
  predicate WritesInBounds(b: Box) {
    NonEmpty(b) ==> InBounds(b.x1, b.y1, b.z1) && InBounds(b.x2, b.y2, b.z2)
  }

  /** Largest value of the source's 32-bit `int`. */
  const IntMax: int := 0x7fff_ffff

  /** `n` fits in the source's 32-bit `int`. */
  predicate IsInt(n: int) {
    -IntMax - 1 <= n <= IntMax
  }

  /** The box fill's loop counters stay within `int`: every bound is an `int`,
    * and a y or z loop that runs never steps its counter past IntMax (the
    * final `++` of a loop whose upper bound is IntMax would overflow). The z
    * loop runs only when the y range is non-empty. */
  predicate CountersInRange(b: Box) {
    IsInt(b.x1) && IsInt(b.y1) && IsInt(b.z1) && IsInt(b.x2) && IsInt(b.y2) && IsInt(b.z2) &&
    (b.y1 <= b.y2 ==> b.y2 < IntMax) &&
    (b.y1 <= b.y2 && b.z1 <= b.z2 ==> b.z2 < IntMax)
  }

  /** The grid contents after filling box `b` with `v`. */
  function FillBoxSpec(s: seq<Voxel>, b: Box, v: Voxel): seq<Voxel>
    requires |s| == Size
  {
    seq(Size, i requires 0 <= i < Size => if InBox(b, CoordsOf(i)) then v else s[i])
  }

  /** Cell `c` comes before the cursor (y, z, x) in y-z-x storage order. */
  predicate Before(c: Coord, y: int, z: int, x: int) {
    c.y < y || (c.y == y && (c.z < z || (c.z == z && c.x < x)))
  }

  /** The grid contents part-way through a box fill whose loops stand at
    * (y, z, x): the cells of the box visited so far hold `v`. */
  ghost function FillBoxProgress(s: seq<Voxel>, b: Box, v: Voxel, y: int, z: int, x: int): seq<Voxel>
    requires |s| == Size
  {
    seq(Size, i requires 0 <= i < Size =>
      if InBox(b, CoordsOf(i)) && Before(CoordsOf(i), y, z, x) then v else s[i])
  }

  /** Before the first iteration nothing is written. */
  lemma FillBoxProgressStart(s: seq<Voxel>, b: Box, v: Voxel)
    requires |s| == Size
    ensures FillBoxProgress(s, b, v, b.y1, b.z1, b.x1) == s
  {
  }

  /** The innermost loop's write of the box cell at (x, y, z) advances the
    * cursor by one cell. */
  lemma FillBoxProgressStep(s: seq<Voxel>, b: Box, v: Voxel, x: int, y: int, z: int)
    requires |s| == Size && InBounds(x, y, z) && InBox(b, Coord(x, y, z))
    ensures FillBoxProgress(s, b, v, y, z, x)[Index(x, y, z) := v] == FillBoxProgress(s, b, v, y, z, x + 1)
  {
    IndexRoundTrip(x, y, z);
  }

  /** Leaving the x loop (x past x2) moves on to the next z row. */
  lemma FillBoxProgressNextRow(s: seq<Voxel>, b: Box, v: Voxel, y: int, z: int, x: int)
    requires |s| == Size && x > b.x2
    ensures FillBoxProgress(s, b, v, y, z, x) == FillBoxProgress(s, b, v, y, z + 1, b.x1)
  {
  }

  /** Leaving the z loop (z past z2) moves on to the next y layer. */
  lemma FillBoxProgressNextLayer(s: seq<Voxel>, b: Box, v: Voxel, y: int, z: int)
    requires |s| == Size && z > b.z2
    ensures FillBoxProgress(s, b, v, y, z, b.x1) == FillBoxProgress(s, b, v, y + 1, b.z1, b.x1)
  {
  }

  /** Leaving the y loop (y past y2) has filled the whole box. */
  lemma FillBoxProgressDone(s: seq<Voxel>, b: Box, v: Voxel, y: int)
    requires |s| == Size && y > b.y2
    ensures FillBoxProgress(s, b, v, y, b.z1, b.x1) == FillBoxSpec(s, b, v)
  {
  }

  /** Box-fill containment: a cell holds `v` if it lies in the box and keeps
    * its previous value otherwise. */
  lemma FillBoxCell(s: seq<Voxel>, b: Box, v: Voxel, x: int, y: int, z: int)
    requires |s| == Size && InBounds(x, y, z)
    ensures |FillBoxSpec(s, b, v)| == Size
    ensures FillBoxSpec(s, b, v)[Index(x, y, z)]
         == if InBox(b, Coord(x, y, z)) then v else s[Index(x, y, z)]
  {
    IndexRoundTrip(x, y, z);
  }

  /** On an all-Air grid, a box fill with a non-Air kind makes a cell non-Air
    * exactly when it lies in the box. */
  lemma FillBoxOnEmpty(s: seq<Voxel>, b: Box, v: Voxel, x: int, y: int, z: int)
    requires |s| == Size && (forall i :: 0 <= i < Size ==> s[i] == Air)
    requires v != Air && InBounds(x, y, z)
    ensures FillBoxSpec(s, b, v)[Index(x, y, z)] == v <==> InBox(b, Coord(x, y, z))
    ensures FillBoxSpec(s, b, v)[Index(x, y, z)] != v ==> FillBoxSpec(s, b, v)[Index(x, y, z)] == Air
  {
    FillBoxCell(s, b, v, x, y, z);
  }

  /** Filling the same box with the same kind twice is the same as once. */
  lemma FillBoxIdempotent(s: seq<Voxel>, b: Box, v: Voxel)
    requires |s| == Size
    ensures FillBoxSpec(FillBoxSpec(s, b, v), b, v) == FillBoxSpec(s, b, v)
  {
  }

  /** An empty box (some lower bound above its upper bound) changes nothing. */
  lemma FillBoxEmptyUnchanged(s: seq<Voxel>, b: Box, v: Voxel)
    requires |s| == Size && !NonEmpty(b)
    ensures FillBoxSpec(s, b, v) == s
  {
  }

  // ---------------------------------------------------------------------------
  // Counting and drawing

  /** Number of non-Air cells in `s`. */
  function CountNonAir(s: seq<Voxel>): (n: nat)
    ensures n <= |s|
  {
    if s == [] then 0 else (if s[0] != Air then 1 else 0) + CountNonAir(s[1..])
  }

  lemma {:induction false} CountNonAirSnoc(s: seq<Voxel>, v: Voxel)
    ensures CountNonAir(s + [v]) == CountNonAir(s) + (if v != Air then 1 else 0)
  {
    if s != [] {
      assert (s + [v])[1..] == s[1..] + [v];
      CountNonAirSnoc(s[1..], v);
    }
  }

  /** A sequence whose non-Air cells are exactly its first `m` cells has `m`
    * non-Air cells. */
  lemma {:induction false} CountNonAirPrefix(s: seq<Voxel>, m: nat)
    requires m <= |s|
    requires forall i :: 0 <= i < |s| ==> (s[i] != Air <==> i < m)
    ensures CountNonAir(s) == m
  {
    if s != [] {
      CountNonAirPrefix(s[1..], if m == 0 then 0 else m - 1);
    }
  }

  /** One "draw a unit cube" instruction: the cube's centre and the index of
    * its colour in VoxelColors. */
  datatype DrawCube = DrawCube(x: int, y: int, z: int, color: nat)

  /** The cube drawn for cell `i` holding `v`: the grid is centred on the
    * origin, and the colour index is the kind's ordinal. */
  function CubeAt(i: int, v: Voxel): DrawCube
    requires 0 <= i < Size
  {
    var c := CoordsOf(i);
    DrawCube(c.x - Width / 2, c.y - Height / 2, c.z - Width / 2, Ordinal(v))
  }

  /** The flat index of the cell a cube was drawn for. */
  function CubeIndex(cmd: DrawCube): int {
    (cmd.x + Width / 2) + (cmd.z + Width / 2) * Width + (cmd.y + Height / 2) * Width * Height
  }

  lemma CubeIndexOf(i: int, v: Voxel)
    requires 0 <= i < Size
    ensures CubeIndex(CubeAt(i, v)) == i
  {
  }

  /** The commands a draw pass issues for the first `n` cells of `s`, in
    * storage order: one cube for each non-Air cell. */
  function DrawList(s: seq<Voxel>, n: int): seq<DrawCube>
    requires |s| == Size && 0 <= n <= Size
  {
    if n == 0 then []
    else DrawList(s, n - 1) + (if s[n - 1] == Air then [] else [CubeAt(n - 1, s[n - 1])])
  }

  /** Visiting cell (x, y, z) extends the commands of the cells before it by
    * that cell's cube when it is not Air. */
  lemma DrawListStep(s: seq<Voxel>, x: int, y: int, z: int)
    requires |s| == Size && InBounds(x, y, z)
    ensures Index(x, y, z) + 1 <= Size
    ensures DrawList(s, Index(x, y, z) + 1) == DrawList(s, Index(x, y, z)) +
      (if s[Index(x, y, z)] == Air then []
       else [DrawCube(x - Width / 2, y - Height / 2, z - Width / 2, Ordinal(s[Index(x, y, z)]))])
  {
    IndexRoundTrip(x, y, z);
  }

  /** Exactly as many cubes as non-Air cells. */
  lemma {:induction false} DrawListCount(s: seq<Voxel>, n: int)
    requires |s| == Size && 0 <= n <= Size
    ensures |DrawList(s, n)| == CountNonAir(s[..n])
  {
    if n > 0 {
      DrawListCount(s, n - 1);
      assert s[..n] == s[..n - 1] + [s[n - 1]];
      CountNonAirSnoc(s[..n - 1], s[n - 1]);
    }
  }

  /** Every cube drawn belongs to a non-Air cell, sits at that cell's centred
    * position, and has that cell's kind as colour index. */
  lemma {:induction false} DrawListSound(s: seq<Voxel>, n: int)
    requires |s| == Size && 0 <= n <= Size
    ensures forall cmd :: cmd in DrawList(s, n) ==>
      exists i :: 0 <= i < n && s[i] != Air && cmd == CubeAt(i, s[i])
  {
    if n > 0 {
      DrawListSound(s, n - 1);
    }
  }

  /** Every non-Air cell gets its cube. */
  lemma {:induction false} DrawListComplete(s: seq<Voxel>, n: int)
    requires |s| == Size && 0 <= n <= Size
    ensures forall i :: 0 <= i < n && s[i] != Air ==> CubeAt(i, s[i]) in DrawList(s, n)
  {
    if n > 0 {
      DrawListComplete(s, n - 1);
    }
  }

  /** Cubes come in storage order (y, then z, then x), each cell at most once. */
  lemma {:induction false} DrawListOrdered(s: seq<Voxel>, n: int)
    requires |s| == Size && 0 <= n <= Size
    ensures forall cmd :: cmd in DrawList(s, n) ==> 0 <= CubeIndex(cmd) < n
    ensures forall j, k :: 0 <= j < k < |DrawList(s, n)| ==>
      CubeIndex(DrawList(s, n)[j]) < CubeIndex(DrawList(s, n)[k])
  {
    if n > 0 {
      DrawListOrdered(s, n - 1);
      if s[n - 1] != Air {
        CubeIndexOf(n - 1, s[n - 1]);
      }
    }
  }

  /** Every colour index drawn is inside the colour table, and selects the
    * table colour of the non-Air cell the cube was drawn for, which is never
    * the transparent colour of Air. */
  lemma DrawListColors(s: seq<Voxel>, n: int)
    requires |s| == Size && 0 <= n <= Size
    ensures forall cmd :: cmd in DrawList(s, n) ==>
      cmd.color < |VoxelColors| &&
      exists i :: 0 <= i < n && s[i] != Air && VoxelColors[cmd.color] == ColorOf(s[i]) != Blank
  {
    DrawListSound(s, n);
  }

  /** A chunk filled with one non-Air kind draws one cube per cell. */
  lemma DrawFullGrid(s: seq<Voxel>, v: Voxel)
    requires |s| == Size && v != Air && (forall i :: 0 <= i < Size ==> s[i] == v)
    ensures |DrawList(s, Size)| == Size == 4096
  {
    DrawListCount(s, Size);
    assert s[..Size] == s;
    CountNonAirPrefix(s, Size);
  }
}
