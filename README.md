# Voxel chunk model

A Dafny model of the `Chunk` class of a small raylib voxel demo. A chunk is a
fixed 16 × 16 × 16 grid of voxels. The voxels live in one array of 4096
slots, and cell (x, y, z) is stored at flat index `x + z*16 + y*16*16`. The
chunk can read and write one cell by flat index or by coordinates, fill every
cell, fill an inclusive box, and draw every non-Air cell as a unit cube. The
program's entry point builds one chunk, fills a Dirt band and then a Grass
layer, and draws it every frame.

- `voxel.dfy` (module `Voxels`): the six voxel kinds and their ordinals. It
  also holds the colour table, indexed by ordinal, and the 16-bit value a
  byte-wise `memset` leaves in one voxel slot.
- `grid.dfy` (module `Grid`): the constants `Width = Height = 16`, the flat
  index and its inverse, and proofs that the index is a bijection onto
  `[0, 4096)`. It also gives the meaning of a box fill (`FillBoxSpec`) and of
  a draw pass (`DrawList`) on the grid's contents, with the lemmas about them.
- `chunk.dfy` (module `Chunks`): the class `Chunk`, which owns an
  `array<Voxel>` and has the source's constructor, accessors, `Fill`,
  `FillBox` and `Draw`. `MainScenario` is the grid set-up of the entry point.

The loops of `FillBox` and `Draw` keep the source's y / z / x nesting. `Draw`
returns the sequence of cube commands it would issue instead of calling the
renderer. Each command holds the cube's centre `(x-8, y-8, z-8)` and its
colour index into the table.

Two behaviours of the code are worth stating outright:
- `FillBox` does not swap its bounds. If a lower bound is above its upper
  bound, the fill writes nothing (`Grid.FillBoxEmptyUnchanged`). The one
  exception is an outer loop that still runs up to the largest `int`: with
  `y1 <= y2 == 2147483647` (or, when the y range is non-empty,
  `z1 <= z2 == 2147483647`), the final `++y` or `++z` is signed overflow,
  which is undefined. `FillBox` requires its bounds to be `int`s and excludes
  those calls (`Grid.CountersInRange`).
- The grid `main` builds has 7 × 256 Dirt cells (layers 0–6) plus 256 Grass
  cells (layer 7), so 2048 non-Air cells: the Grass fill overwrites the top
  layer of the Dirt fill rather than adding to it.

## Model

| member | source | states |
|---|---|---|
| Voxels.Ordinal | src/main.cc:8-16 | a kind's underlying value is below the kind count 6 and the colour table length, and is 0 exactly for Air |
| Voxels.FromOrdinal | src/main.cc:8-16 | an integer names a kind exactly when it is in [0, 6), and then it is that kind's ordinal |
| Voxels.OrdinalRoundTrip | src/main.cc:8-16 | ordinal and decoding are inverse, so the enumeration is a bijection with [0, 6) |
| Voxels.ColorOf | src/main.cc:18-25 | the colour looked up by ordinal is the transparent BLANK exactly for Air |
| Voxels.MemsetSlot | src/main.cc:58-60 | a memset leaves the kind's low byte in both bytes of each 16-bit slot |
| Voxels.MemsetSlotKind | src/main.cc:58-60 | the memset slot decodes back to the requested kind only for Air; any other kind k leaves k*257, which is no kind |
| Grid.YStrideIsLayerSize | src/main.cc:29-31 | the y stride `kWidth*kHeight` equals the layer size `kWidth*kWidth` (256), and the chunk has 4096 cells |
| Grid.Index | src/main.cc:47 | every in-bounds (x, y, z) maps to a flat index in [0, 4096) |
| Grid.CoordsOf | src/main.cc:47 | every flat index in [0, 4096) is the index of some in-bounds cell (the mapping is onto) |
| Grid.IndexRoundTrip | src/main.cc:47 | decoding the flat index of a cell gives back that cell |
| Grid.IndexInjective | src/main.cc:46-56 | two in-bounds cells share a flat index if and only if they are the same cell |
| Grid.SetThenGet | src/main.cc:54-56 | writing a cell by coordinates and reading any cell back gives the written kind at that cell and the old kind everywhere else |
| Grid.FillBoxCell | src/main.cc:77-85 | after a box fill a cell holds the kind if it is inside the inclusive box and keeps its old kind otherwise |
| Grid.FillBoxOnEmpty | src/main.cc:77-85 | on an all-Air grid, a fill with a non-Air kind leaves that kind in a cell if and only if the cell is in the box, and Air elsewhere |
| Grid.FillBoxIdempotent | src/main.cc:77-85 | the same box fill applied twice gives the same grid as applied once |
| Grid.FillBoxEmptyUnchanged | src/main.cc:78-80 | with x1>x2, y1>y2 or z1>z2 the fill leaves the grid unchanged |
| Grid.DrawListStep | src/main.cc:96-102 | visiting a cell appends one cube at the cell's centred position with its kind's colour index when it is not Air, and nothing when it is Air |
| Grid.DrawListCount | src/main.cc:93-106 | a draw pass issues exactly as many cubes as there are non-Air cells |
| Grid.DrawListSound | src/main.cc:97-101 | every cube drawn belongs to a non-Air cell, at that cell's position offset by -8, with that cell's ordinal as colour index |
| Grid.DrawListComplete | src/main.cc:97-101 | every non-Air cell has its cube among those drawn |
| Grid.DrawListOrdered | src/main.cc:94-96 | cubes come in storage order (y, then z, then x), so no cell is drawn twice |
| Grid.DrawListColors | src/main.cc:18-25 | every colour index drawn is inside the six-entry table and selects the table colour of the non-Air cell drawn, never Air's BLANK |
| Grid.DrawFullGrid | src/main.cc:93-106 | a chunk filled with one non-Air kind draws 4096 cubes |
| Chunks.Chunk.constructor | src/main.cc:33-36 | a new chunk owns fresh storage of 4096 cells, all Air |
| Chunks.Chunk.GetVoxel | src/main.cc:42-44 | reads the slot at the given flat index |
| Chunks.Chunk.GetVoxelAt | src/main.cc:46-48 | the coordinate getter reads the same slot as the flat getter at the cell's flat index |
| Chunks.Chunk.SetVoxel | src/main.cc:50-52 | writing by flat index sets that slot and leaves every other slot unchanged |
| Chunks.Chunk.SetVoxelAt | src/main.cc:54-56 | writing by coordinates sets that cell, read back by coordinates, and leaves every other cell unchanged |
| Chunks.Chunk.Fill | src/main.cc:58-60 | when the memset value is the kind's own value (Air only), every cell holds the kind afterwards |
| Chunks.Chunk.FillBox | src/main.cc:77-85 | the y/z/x triple loop leaves exactly the box-filled grid, for in-range or empty boxes whose `int` loop counters do not overflow |
| Chunks.Chunk.Draw | src/main.cc:93-106 | the y/z/x triple loop issues exactly the draw list of the chunk's cells |
| Chunks.MainScenario | src/main.cc:116-122 | after the two box fills on a new chunk, layers 0–6 are Dirt, layer 7 is Grass and layers 8–15 are Air: 2048 non-Air cells and 2048 cubes drawn |

## Left out

- Window, camera, frame loop and FPS overlay (src/main.cc:113-143) are graphics-library input/output and are not modelled; `Draw` returns its commands instead of calling `DrawCube`.
- The RGBA values of the raylib colours are library constants. The table is modelled by colour names, and a draw command carries the colour's index.
- The `Vector3` overload of `FillBox` (src/main.cc:87-91) only truncates floats to int and delegates. Float truncation is not modelled; `MainScenario` passes the integers the entry point's whole-number floats truncate to.
- The commented-out memset-based `FillBox` (src/main.cc:62-75) is dead code.
- The destructor and the `new[]`/`delete[]` lifetime (src/main.cc:34, 38-40): storage is one Dafny array allocated in the constructor.
- A flat index outside [0, 4096) is undefined behaviour in the source; the flat accessors require an index inside it.
- The coordinate accessors and `FillBox` only compute the flat index `x + z*16 + y*256` (src/main.cc:47, 55, 81). An out-of-range coordinate whose index still lands in [0, 4096) reads or writes another cell: `GetVoxel(16, 0, 0)` reads cell (0, 0, 1), and `SetVoxel(-1, 0, 1, v)` writes cell (15, 0, 0). The model does not capture this aliasing: its coordinate accessors and `FillBox` require every coordinate they touch to be within its axis bound.
- Values of the 16-bit enumeration outside the six kinds, including the `kCount` sentinel, are not voxels in this model. In the source, storing one would make `Draw` read past the colour table.
- Chunks.Chunk.Fill: requires the memset value to equal the kind's own value, which holds only for Air, because for any other kind the memset leaves the value k*257, which is no voxel kind (see `Voxels.MemsetSlotKind`).
