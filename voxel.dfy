/**
 * The voxel layer of one sector: blocks, bounds-checked local coordinates
 * with their six neighbours, the flat 32x32x32 block list, its iterator and
 * the sector that owns a block list and, once meshed, a model.
 */
module Voxel {
  import opened Wrappers

  /** Edge length of a cubic sector, in blocks. */
  const SectorSize: int := 32

  /** Number of blocks in a sector: SectorSize cubed. */
  const SectorLen: int := 32768

  /** A block in the world; `Air` is the only block that is not solid. */
  datatype Block = Air | Limestone | Loam | Grass | Tree | Leaves
  {
    function IsAir(): (r: bool)
      ensures r <==> this == Air
    {
      match this
      case Air => true
      case _ => false
    }

    /** A block must be drawn exactly when it is not air. */
    function NeedsRendering(): (r: bool)
      ensures r <==> this != Air
    {
      !IsAir()
    }
  }

  /** A coordinate triple; as a cursor of the iterator x may also be -1. */
  datatype Coords = Coords(x: int, y: int, z: int)

  predicate InSector(v: int) {
    0 <= v < SectorSize
  }

  /** Sector space coordinates: every component lies in [0, SectorSize). */
  type LocalCoords = c: Coords | InSector(c.x) && InSector(c.y) && InSector(c.z)
    witness Coords(0, 0, 0)

  /** Builds a local coordinate; an out-of-range component is a panic in the source. */
  function New(x: int, y: int, z: int): (c: LocalCoords)
    requires InSector(x) && InSector(y) && InSector(z)
    ensures c.x == x && c.y == y && c.z == z
  {
    Coords(x, y, z)
  }

  /** The block behind `c` (z - 1), or None on the z = 0 face. */
  function Back(c: LocalCoords): (r: Option<LocalCoords>)
    ensures r.None? <==> c.z == 0
    ensures r.Some? ==> r.value == Coords(c.x, c.y, c.z - 1)
  {
    if c.z > 0 then Some(New(c.x, c.y, c.z - 1)) else None
  }

  /** The block in front of `c` (z + 1), or None on the z = 31 face. */
  function Front(c: LocalCoords): (r: Option<LocalCoords>)
    ensures r.None? <==> c.z == SectorSize - 1
    ensures r.Some? ==> r.value == Coords(c.x, c.y, c.z + 1)
  {
    if c.z < SectorSize - 1 then Some(New(c.x, c.y, c.z + 1)) else None
  }

  /** The block above `c` (y + 1), or None on the y = 31 face. */
  function Top(c: LocalCoords): (r: Option<LocalCoords>)
    ensures r.None? <==> c.y == SectorSize - 1
    ensures r.Some? ==> r.value == Coords(c.x, c.y + 1, c.z)
  {
    if c.y < SectorSize - 1 then Some(New(c.x, c.y + 1, c.z)) else None
  }

  /** The block below `c` (y - 1), or None on the y = 0 face. */
  function Bottom(c: LocalCoords): (r: Option<LocalCoords>)
    ensures r.None? <==> c.y == 0
    ensures r.Some? ==> r.value == Coords(c.x, c.y - 1, c.z)
  {
    if c.y > 0 then Some(New(c.x, c.y - 1, c.z)) else None
  }

  /** The block left of `c` (x - 1), or None on the x = 0 face. */
  function Left(c: LocalCoords): (r: Option<LocalCoords>)
    ensures r.None? <==> c.x == 0
    ensures r.Some? ==> r.value == Coords(c.x - 1, c.y, c.z)
  {
    if c.x > 0 then Some(New(c.x - 1, c.y, c.z)) else None
  }

  /** The block right of `c` (x + 1), or None on the x = 31 face. */
  function Right(c: LocalCoords): (r: Option<LocalCoords>)
    ensures r.None? <==> c.x == SectorSize - 1
    ensures r.Some? ==> r.value == Coords(c.x + 1, c.y, c.z)
  {
    if c.x < SectorSize - 1 then Some(New(c.x + 1, c.y, c.z)) else None
  }

  /** Opposite neighbours undo each other: each axis pair is one relation read both ways. */
  lemma NeighboursAreInverse(c: LocalCoords, d: LocalCoords)
    ensures Back(c) == Some(d) <==> Front(d) == Some(c)
    ensures Bottom(c) == Some(d) <==> Top(d) == Some(c)
    ensures Left(c) == Some(d) <==> Right(d) == Some(c)
  {
  }

  /** Position of a coordinate in the flat block list, x varying fastest. */
  function Index(c: LocalCoords): (i: int)
    ensures 0 <= i < SectorLen
  {
    c.x + c.y * 32 + c.z * 32 * 32
  }

  /** The coordinate stored at flat position `i`: the inverse of Index. */
  function CoordsOf(i: int): (c: LocalCoords)
    requires 0 <= i < SectorLen
    ensures c.x + c.y * 32 + c.z * 32 * 32 == i
  {
    Coords(i % 32, (i / 32) % 32, i / (32 * 32))
  }

  /** Division by 32 is determined by quotient and remainder. */
  lemma DivMod32(n: int, q: int, r: int)
    requires 0 <= r < 32 && n == 32 * q + r
    ensures n / 32 == q && n % 32 == r
  {
  }

  /** Index followed by CoordsOf is the identity on valid coordinates. */
  lemma {:induction false} IndexRoundTrip(c: LocalCoords)
    ensures CoordsOf(Index(c)) == c
  {
    var i := Index(c);
    DivMod32(i, c.y + 32 * c.z, c.x);
    DivMod32(c.y + 32 * c.z, c.z, c.y);
    DivMod32(i / 32, c.z, c.y);
    assert i / (32 * 32) == (i / 32) / 32 by {
      DivMod32(i / 32, c.z, c.y);
    }
  }

  /** Index is a bijection between valid coordinates and [0, SectorLen). */
  lemma IndexBijective()
    ensures forall c: LocalCoords, d: LocalCoords :: Index(c) == Index(d) ==> c == d
    ensures forall i :: 0 <= i < SectorLen ==> Index(CoordsOf(i)) == i
  {
    forall c: LocalCoords, d: LocalCoords | Index(c) == Index(d)
      ensures c == d
    {
      IndexRoundTrip(c);
      IndexRoundTrip(d);
    }
  }

  /** A sector's content when every block is air. */
  function AllAir(): (s: seq<Block>)
    ensures |s| == SectorLen
  {
    seq(SectorLen, _ => Air)
  }

  /** True iff some block of the list must be drawn. */
  predicate AnyNeedsRendering(s: seq<Block>) {
    exists i :: 0 <= i < |s| && s[i].NeedsRendering()
  }

  /** An all-air list needs no rendering; making any one block solid changes that. */
  lemma AirThenOneSolid(p: LocalCoords, b: Block)
    ensures !AnyNeedsRendering(AllAir())
    ensures AnyNeedsRendering(AllAir()[Index(p) := b]) <==> b != Air
  {
    var s := AllAir()[Index(p) := b];
    if b != Air {
      assert s[Index(p)].NeedsRendering();
    } else {
      assert s == AllAir();
    }
  }

  /** Writing one block changes what reads at that coordinate and nothing else. */
  lemma SetThenGet(s: seq<Block>, p: LocalCoords, q: LocalCoords, b: Block)
    requires |s| == SectorLen
    ensures s[Index(p) := b][Index(q)] == if q == p then b else s[Index(q)]
  {
    if q != p {
      IndexRoundTrip(p);
      IndexRoundTrip(q);
    }
  }

  /** The flat array of a sector's blocks, indexed by Index. */
  class BlockList {
    var cells: array<Block>

    ghost predicate Valid()
      reads this
    {
      cells.Length == SectorLen
    }

    /** Takes over a full list of blocks. */
    constructor (blocks: seq<Block>)
      requires |blocks| == SectorLen
      ensures Valid() && fresh(cells)
      ensures cells[..] == blocks
    {
      cells := new Block[SectorLen](i requires 0 <= i < SectorLen => blocks[i]);
    }

    /** A list filled with air. */
    constructor NewAir()
      ensures Valid() && fresh(cells)
      ensures cells[..] == AllAir()
    {
      cells := new Block[SectorLen](_ => Air);
    }

    /** The block stored at `p`. */
    function Get(p: LocalCoords): Block
      reads this, cells
      requires Valid()
    {
      cells[Index(p)]
    }

    method Set(p: LocalCoords, b: Block)
      requires Valid()
      modifies cells
      ensures Valid()
      ensures cells[..] == old(cells[..])[Index(p) := b]
      ensures Get(p) == b
      ensures forall q: LocalCoords :: q != p ==> Get(q) == old(Get(q))
    {
      cells[Index(p)] := b;
      forall q: LocalCoords | q != p
        ensures Get(q) == old(Get(q))
      {
        SetThenGet(old(cells[..]), p, q, b);
      }
    }

    /** Scans the list and stops at the first block that must be drawn. */
    method NeedsRendering() returns (r: bool)
      requires Valid()
      ensures r <==> AnyNeedsRendering(cells[..])
    {
      var i := 0;
      while i < cells.Length
        invariant 0 <= i <= cells.Length
        invariant forall j :: 0 <= j < i ==> !cells[j].NeedsRendering()
      {
        if cells[i].NeedsRendering() {
          assert cells[..][i].NeedsRendering();
          return true;
        }
        i := i + 1;
      }
      return false;
    }
  }

  /**
   * Reading a list: the block at `p` is the one at its flat index, and a
   * block read there that must be drawn makes the whole list need rendering.
   */
  lemma GetReadsIndex(list: BlockList, p: LocalCoords)
    requires list.Valid()
    ensures list.Get(p) == list.cells[..][Index(p)]
    ensures list.Get(p).NeedsRendering() ==> AnyNeedsRendering(list.cells[..])
  {
    assert list.cells[..][Index(p)] == list.cells[Index(p)];
  }

  /** The states an iterator cursor can take; x is -1 only before the first step. */
  predicate CursorOk(c: Coords) {
    -1 <= c.x < SectorSize && InSector(c.y) && InSector(c.z)
  }

  /** The cursor `into_iter` starts from. */
  const Start: Coords := Coords(-1, 0, 0)

  /**
   * One call of the iterator's `next` on cursor `c`: the new cursor and the
   * coordinate yielded, or None after the last block. The cursor is left at
   * (0, 0, 31) then, so the iterator is not fused.
   */
  function Advance(c: Coords): (r: (Coords, Option<LocalCoords>))
    requires CursorOk(c)
    ensures CursorOk(r.0) && 0 <= r.0.x
    ensures r.1.Some? ==> r.1.value == r.0
    ensures r.1.None? <==> c.x >= SectorSize - 1 && c.y == SectorSize - 1 && c.z == SectorSize - 1
  {
    if c.x + 1 < SectorSize then
      (Coords(c.x + 1, c.y, c.z), Some(New(c.x + 1, c.y, c.z)))
    else if c.y + 1 < SectorSize then
      (Coords(0, c.y + 1, c.z), Some(New(0, c.y + 1, c.z)))
    else if c.z + 1 < SectorSize then
      (Coords(0, 0, c.z + 1), Some(New(0, 0, c.z + 1)))
    else
      (Coords(0, 0, c.z), None)
  }

  /** The item a call yields for coordinate `o` of the list with contents `s`. */
  function Yield(s: seq<Block>, o: Option<LocalCoords>): (item: Option<(LocalCoords, Block)>)
    requires |s| == SectorLen
    ensures item.None? <==> o.None?
    ensures item.Some? ==> item.value.0 == o.value && item.value.1 == s[Index(o.value)]
  {
    match o
    case None => None
    case Some(p) => Some((p, s[Index(p)]))
  }

  /** The cursor after `n` calls of `next` from cursor `c`. */
  function After(c: Coords, n: nat): (d: Coords)
    requires CursorOk(c)
    ensures CursorOk(d)
  {
    if n == 0 then c else Advance(After(c, n - 1)).0
  }

  /** What call number `n` (counting from 0) yields from cursor `c` over a list with contents `s`. */
  function NthItem(s: seq<Block>, c: Coords, n: nat): Option<(LocalCoords, Block)>
    requires |s| == SectorLen && CursorOk(c)
  {
    Yield(s, Advance(After(c, n)).1)
  }

  /** From a cursor on a block, one call moves to the next flat index. */
  lemma AdvanceSteps(c: LocalCoords)
    ensures Index(c) < SectorLen - 1 ==> Advance(c).0 == CoordsOf(Index(c) + 1)
    ensures Index(c) < SectorLen - 1 ==> Advance(c).1 == Some(CoordsOf(Index(c) + 1))
    ensures Index(c) == SectorLen - 1 ==> Advance(c).0 == Coords(0, 0, SectorSize - 1)
    ensures Index(c) == SectorLen - 1 ==> Advance(c).1 == None
  {
    if Index(c) < SectorLen - 1 {
      var d := Advance(c).0;
      assert d.x == 0 || d.x == c.x + 1;
      var e: LocalCoords := d;
      assert Index(e) == Index(c) + 1;
      IndexRoundTrip(e);
    }
  }

  /** After k + 1 calls from `into_iter` the cursor stands on flat index k. */
  lemma {:induction false} CursorAfter(k: int)
    requires 0 <= k < SectorLen
    ensures After(Start, k + 1) == CoordsOf(k)
  {
    if k == 0 {
      assert Advance(Start).0 == Coords(0, 0, 0);
    } else {
      CursorAfter(k - 1);
      AdvanceSteps(CoordsOf(k - 1));
    }
  }

  /** Call k (counting from 0) from `into_iter` yields flat index k with its block. */
  lemma NthItemIsIndex(s: seq<Block>, k: int)
    requires |s| == SectorLen && 0 <= k < SectorLen
    ensures NthItem(s, Start, k) == Some((CoordsOf(k), s[k]))
  {
    if k == 0 {
      assert Advance(Start).1 == Some(Coords(0, 0, 0));
    } else {
      CursorAfter(k - 1);
      AdvanceSteps(CoordsOf(k - 1));
    }
  }

  /**
   * Iterating a block list with contents `s` from `into_iter`: call k
   * (counting from 0) yields coordinate CoordsOf(k), so x varies fastest, then
   * y, then z, together with the block stored there.
   */
  lemma EnumeratesInOrder(s: seq<Block>)
    requires |s| == SectorLen
    ensures forall k :: 0 <= k < SectorLen ==> NthItem(s, Start, k) == Some((CoordsOf(k), s[k]))
  {
    forall k | 0 <= k < SectorLen
      ensures NthItem(s, Start, k) == Some((CoordsOf(k), s[k]))
    {
      NthItemIsIndex(s, k);
    }
  }

  /**
   * Call number `n` + 1, with `n` the sector length, returns None and leaves
   * the cursor at (0, 0, 31).
   */
  lemma IterationEnds(s: seq<Block>, n: int)
    requires |s| == SectorLen && n == SectorLen
    ensures NthItem(s, Start, n) == None
    ensures After(Start, n + 1) == Coords(0, 0, SectorSize - 1)
  {
    CursorAfter(n - 1);
    AdvanceSteps(CoordsOf(n - 1));
  }

  /** The iterator is not fused: the call after the None yields (1, 0, 31) again. */
  lemma IterationRestarts(s: seq<Block>, n: int)
    requires |s| == SectorLen && n == SectorLen
    ensures NthItem(s, Start, n + 1) == Some((Coords(1, 0, SectorSize - 1), s[Index(Coords(1, 0, SectorSize - 1))]))
  {
    IterationEnds(s, n);
  }

  /**
   * The first 32769 calls from `into_iter` visit every coordinate exactly
   * once, starting at (0, 0, 0), before the None.
   */
  lemma EnumeratesEachOnce(s: seq<Block>)
    requires |s| == SectorLen
    ensures forall c: LocalCoords :: NthItem(s, Start, Index(c)) == Some((c, s[Index(c)]))
    ensures forall i, j :: 0 <= i < j <= SectorLen ==> NthItem(s, Start, i) != NthItem(s, Start, j)
    ensures NthItem(s, Start, 0) == Some((Coords(0, 0, 0), s[0]))
  {
    forall c: LocalCoords
      ensures NthItem(s, Start, Index(c)) == Some((c, s[Index(c)]))
    {
      IndexRoundTrip(c);
      NthItemIsIndex(s, Index(c));
    }
    forall i, j | 0 <= i < j <= SectorLen
      ensures NthItem(s, Start, i) != NthItem(s, Start, j)
    {
      ItemsDistinct(s, i, j);
    }
    EnumeratesInOrder(s);
  }

  /** Two different calls among the first 32769 yield different results. */
  lemma ItemsDistinct(s: seq<Block>, i: int, j: int)
    requires |s| == SectorLen && 0 <= i < j <= SectorLen
    ensures NthItem(s, Start, i) != NthItem(s, Start, j)
  {
    NthItemIsIndex(s, i);
    if j < SectorLen {
      NthItemIsIndex(s, j);
      assert Index(CoordsOf(i)) != Index(CoordsOf(j));
    } else {
      IterationEnds(s, j);
    }
  }

  /** Iterator over a block list, a counter state machine over (x, y, z). */
  class BlockListIter {
    const list: BlockList
    var x: int
    var y: int
    var z: int

    ghost predicate Valid()
      reads this, list
    {
      list.Valid() && CursorOk(Coords(x, y, z))
    }

    /** `into_iter`: x starts at -1 because `Next` increments before it yields. */
    constructor (list: BlockList)
      requires list.Valid()
      ensures Valid() && this.list == list
      ensures Coords(x, y, z) == Start
    {
      this.list := list;
      x, y, z := -1, 0, 0;
    }

    method Next() returns (item: Option<(LocalCoords, Block)>)
      requires Valid()
      modifies this
      ensures Valid()
      ensures Coords(x, y, z) == Advance(old(Coords(x, y, z))).0
      ensures item.None? <==> Advance(old(Coords(x, y, z))).1.None?
      ensures item.Some? ==> item.value.0 == Advance(old(Coords(x, y, z))).1.value
      ensures item.Some? ==> item.value.1 == list.Get(item.value.0)
    {
      if x + 1 < SectorSize {
        x := x + 1;
      } else {
        x := 0;
        if y + 1 < SectorSize {
          y := y + 1;
        } else {
          y := 0;
          if z + 1 < SectorSize {
            z := z + 1;
          } else {
            return None;
          }
        }
      }
      var coords := New(x, y, z);
      item := Some((coords, list.Get(coords)));
    }
  }

  /** A renderable model, opaque to this layer. */
  datatype ModelHandle = ModelHandle(id: nat)

  /** The contents of a block list: exactly one block per coordinate of the sector. */
  type Blocks = s: seq<Block> | |s| == SectorLen
    witness seq(SectorLen, _ => Air)

  /** A sector: its blocks and, once meshed, its model. */
  datatype Sector = Sector(blocks: Blocks, model: Option<ModelHandle>)

  /**
   * The four-argument constructor of the voxel layer: it builds the model
   * eagerly, and only for a sector with something to draw.
   */
  function NewEagerSector(blocks: Blocks, model: ModelHandle): (s: Sector)
    ensures s.blocks == blocks
    ensures s.model.Some? <==> AnyNeedsRendering(blocks)
    ensures s.model.Some? ==> s.model.value == model
  {
    Sector(blocks, if AnyNeedsRendering(blocks) then Some(model) else None)
  }
}
