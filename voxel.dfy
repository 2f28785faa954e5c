// The voxel kinds of the chunk, their colour table, and what a byte-wise
// memset leaves in one 16-bit voxel slot.

module Voxels {

  datatype Option<T> = None | Some(value: T)

  /** The materials a cell can hold. The enumeration is backed by a 16-bit
    * unsigned integer whose value is the constructor's ordinal; Air (0) is the
    * empty cell. The source's trailing `kCount` enumerator only counts the
    * kinds and is not a material, so it is the constant VoxelCount here. */
  datatype Voxel = Air | Dirt | Grass | Stone | Sand | Water

  /** Number of voxel kinds (the source's `kCount`). */
  const VoxelCount: nat := 6

  /** The raylib colour constants of the table; their RGBA values belong to
    * the graphics library and are not modelled. */
  datatype Color = Blank | Brown | Green | Gray | Beige | Blue

  /** The colour table, indexed by a kind's ordinal. */
  const VoxelColors: seq<Color> := [Blank, Brown, Green, Gray, Beige, Blue]

  /** The underlying integer of a kind: below the colour table's length, and
    * zero exactly for Air. */
  function Ordinal(v: Voxel): (n: nat)
    ensures n < VoxelCount && n < |VoxelColors|
    ensures n == 0 <==> v == Air
  {
    match v
    case Air => 0
    case Dirt => 1
    case Grass => 2
    case Stone => 3
    case Sand => 4
    case Water => 5
  }

  /** The kind whose underlying integer is `n`, if there is one. */
  function FromOrdinal(n: int): (r: Option<Voxel>)
    ensures r.Some? <==> 0 <= n < VoxelCount
    ensures r.Some? ==> Ordinal(r.value) == n
  {
    if n == 0 then Some(Air)
    else if n == 1 then Some(Dirt)
    else if n == 2 then Some(Grass)
    else if n == 3 then Some(Stone)
    else if n == 4 then Some(Sand)
    else if n == 5 then Some(Water)
    else None
  }

  /** The ordinal encoding is a bijection between the kinds and [0, VoxelCount). */
  lemma OrdinalRoundTrip(v: Voxel, n: int)
    ensures FromOrdinal(Ordinal(v)) == Some(v)
    ensures 0 <= n < VoxelCount ==> Ordinal(FromOrdinal(n).value) == n
  {
    match v
    case Air =>
    case Dirt =>
    case Grass =>
    case Stone =>
    case Sand =>
    case Water =>
  }

  /** The colour a kind is drawn with. Air maps to the transparent Blank and
    * no other kind does. */
  function ColorOf(v: Voxel): (c: Color)
    ensures c == Blank <==> v == Air
  {
    VoxelColors[Ordinal(v)]
  }

  /** The 16-bit value a byte-wise memset leaves in one voxel slot when asked
    * to fill with `v`: memset converts its argument to an unsigned byte and
    * writes that byte into both bytes of the slot. */
  function MemsetSlot(v: Voxel): (slot: nat)
    ensures slot < 0x1_0000
    ensures slot % 256 == slot / 256 == Ordinal(v) % 256
  {
    var b := Ordinal(v) % 256;
    b * 256 + b
  }

  /** Only Air survives the memset: every other kind k becomes k * 257,
    * which is not the value of any kind. */
  lemma MemsetSlotKind(v: Voxel)
    ensures FromOrdinal(MemsetSlot(v)) == Some(v) <==> v == Air
    ensures v != Air ==> MemsetSlot(v) == 257 * Ordinal(v) && FromOrdinal(MemsetSlot(v)) == None
  {
  }
}
