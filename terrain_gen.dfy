/**
 * The generator side of terrain streaming: one cycle of the worker queries
 * every sector of a 7 x 5 x 7 box around the observer's sector, centre
 * first, then answers every pending Need with a generated block list.
 */
module TerrainGen {
  import opened Voxel
  import opened Terrain

  /** Offsets along x and z, nearest first. */
  const GenerateOrder: seq<int> := [0, -1, 1, -2, 2, 3, -3]

  /** Render radius along x and z, in sectors. */
  const RenderDistAxis: int := 2

  /** The world generator: a sector coordinate to its blocks. */
  type Generate = SectorCoord -> Blocks

  function Abs(v: int): nat {
    if v < 0 then -v else v
  }

  /** Whether the sector at offset (dx, dy, dz) from the observer's sector is to be drawn. */
  predicate ShouldRender(dx: int, dy: int, dz: int) {
    Abs(dx) <= RenderDistAxis && Abs(dy) <= 1 && Abs(dz) <= RenderDistAxis
  }

  /** The query for the sector at offset (dx, dy, dz) from `o`. */
  function QueryAt(o: SectorCoord, dx: int, dy: int, dz: int): Nearby {
    Query((o.0 + dx, o.1 + dy, o.2 + dz), ShouldRender(dx, dy, dz))
  }

  /** Reading a position back as its three loop indices. */
  lemma SlotDecode(i: int, j: int, k: int)
    requires 0 <= i < 7 && 0 <= j < 5 && 0 <= k < 7
    ensures var a := 35 * i + 7 * j + k; a / 35 == i && (a % 35) / 7 == j && (a % 35) % 7 == k
  {
    var a := 35 * i + 7 * j + k;
    assert a % 35 == 7 * j + k && a / 35 == i;
    assert (7 * j + k) / 7 == j && (7 * j + k) % 7 == k;
  }

  /**
   * The queries of one cycle around the observer's sector `o`, in the order
   * they are sent: position 35 i + 7 j + k holds the sector at
   * dx = GenerateOrder[i], dy = j - 2, dz = GenerateOrder[k].
   */
  function CycleQueries(o: SectorCoord): (qs: seq<Nearby>)
    ensures |qs| == 245
  {
    seq(245, a requires 0 <= a < 245 =>
      QueryAt(o, GenerateOrder[a / 35], (a % 35) / 7 - 2, GenerateOrder[(a % 35) % 7]))
  }

  /** Query 35 i + 7 j + k of a cycle is the sector at dx = GenerateOrder[i], dy = j - 2, dz = GenerateOrder[k]. */
  lemma CycleAtSlot(o: SectorCoord, i: int, j: int, k: int)
    requires 0 <= i < 7 && 0 <= j < 5 && 0 <= k < 7
    ensures CycleQueries(o)[35 * i + 7 * j + k] == QueryAt(o, GenerateOrder[i], j - 2, GenerateOrder[k])
  {
    SlotDecode(i, j, k);
  }

  /** Sending query 35 i + 7 j + k extends the prefix of the cycle sent so far by one. */
  lemma CycleStep(o: SectorCoord, i: int, j: int, k: int)
    requires 0 <= i < 7 && 0 <= j < 5 && 0 <= k < 7
    ensures var a := 35 * i + 7 * j + k;
      CycleQueries(o)[..a + 1] == CycleQueries(o)[..a] + [QueryAt(o, GenerateOrder[i], j - 2, GenerateOrder[k])]
  {
    var qs := CycleQueries(o);
    var a := 35 * i + 7 * j + k;
    CycleAtSlot(o, i, j, k);
    assert qs[..a + 1] == qs[..a] + [qs[a]];
  }

  /** Query `a` of a cycle is the one of the slot (i, j, k) with a = 35 i + 7 j + k. */
  lemma CycleAt(o: SectorCoord, a: int) returns (i: int, j: int, k: int)
    requires 0 <= a < 245
    ensures 0 <= i < 7 && 0 <= j < 5 && 0 <= k < 7 && a == 35 * i + 7 * j + k
    ensures CycleQueries(o)[a] == QueryAt(o, GenerateOrder[i], j - 2, GenerateOrder[k])
  {
    var r := a % 35;
    i, j, k := a / 35, r / 7, r % 7;
    assert a == 35 * i + r && r == 7 * j + k;
  }

  /** Distinct slots of GenerateOrder hold distinct offsets, and every offset in [-3, 3] has a slot. */
  lemma GenerateOrderIsPermutation()
    ensures forall i, i' :: 0 <= i < 7 && 0 <= i' < 7 && GenerateOrder[i] == GenerateOrder[i'] ==> i == i'
    ensures forall d :: -3 <= d <= 3 ==> d in GenerateOrder
    ensures forall i :: 0 <= i < 7 ==> Abs(GenerateOrder[i]) <= 3
  {
  }

  /** The slot of GenerateOrder holding offset `d`. */
  lemma OrderSlot(d: int) returns (i: int)
    requires Abs(d) <= 3
    ensures 0 <= i < 7 && GenerateOrder[i] == d
  {
    i := if d == 0 then 0 else if d == -1 then 1 else if d == 1 then 2
      else if d == -2 then 3 else if d == 2 then 4 else if d == 3 then 5 else 6;
  }

  /**
   * A cycle queries every sector of the box [-3, 3] x [-2, 2] x [-3, 3]
   * around `o`, each exactly once and nothing else.
   */
  lemma CycleCoversBoxOnce(o: SectorCoord)
    ensures forall dx, dy, dz :: Abs(dx) <= 3 && Abs(dy) <= 2 && Abs(dz) <= 3 ==>
      QueryAt(o, dx, dy, dz) in CycleQueries(o)
    ensures forall a :: 0 <= a < 245 ==> InBox(CycleQueries(o)[a].sector, o)
    ensures forall a, b :: 0 <= a < b < 245 ==> CycleQueries(o)[a].sector != CycleQueries(o)[b].sector
  {
    forall dx, dy, dz | Abs(dx) <= 3 && Abs(dy) <= 2 && Abs(dz) <= 3
      ensures QueryAt(o, dx, dy, dz) in CycleQueries(o)
    {
      OffsetQueried(o, dx, dy, dz);
    }
    forall a | 0 <= a < 245
      ensures InBox(CycleQueries(o)[a].sector, o)
    {
      var i, j, k := CycleAt(o, a);
    }
    forall a, b | 0 <= a < b < 245
      ensures CycleQueries(o)[a].sector != CycleQueries(o)[b].sector
    {
      SlotsDistinct(o, a, b);
    }
  }

  lemma OffsetQueried(o: SectorCoord, dx: int, dy: int, dz: int)
    requires Abs(dx) <= 3 && Abs(dy) <= 2 && Abs(dz) <= 3
    ensures QueryAt(o, dx, dy, dz) in CycleQueries(o)
  {
    var i := OrderSlot(dx);
    var k := OrderSlot(dz);
    CycleAtSlot(o, i, dy + 2, k);
  }

  lemma SlotsDistinct(o: SectorCoord, a: int, b: int)
    requires 0 <= a < b < 245
    ensures CycleQueries(o)[a].sector != CycleQueries(o)[b].sector
  {
    GenerateOrderIsPermutation();
    var i, j, k := CycleAt(o, a);
    var i', j', k' := CycleAt(o, b);
  }

  /** `c` lies in the box [-3, 3] x [-2, 2] x [-3, 3] around `o`. */
  predicate InBox(c: SectorCoord, o: SectorCoord) {
    Abs(c.0 - o.0) <= 3 && Abs(c.1 - o.1) <= 2 && Abs(c.2 - o.2) <= 3
  }

  /**
   * The observer's own column comes first: the first 35 queries keep dx = 0,
   * the observer's sector itself is query 14 and is to be rendered, and no
   * later query has dx = 0.
   */
  lemma CentreColumnFirst(o: SectorCoord)
    ensures CycleQueries(o)[0] == Query((o.0, o.1 - 2, o.2), false)
    ensures CycleQueries(o)[14] == Query(o, true)
    ensures forall a :: 0 <= a < 35 ==> CycleQueries(o)[a].sector.0 == o.0
    ensures forall a :: 35 <= a < 245 ==> CycleQueries(o)[a].sector.0 != o.0
  {
    var qs := CycleQueries(o);
    GenerateOrderIsPermutation();
    forall a | 0 <= a < 245
      ensures (a < 35) == (qs[a].sector.0 == o.0)
    {
      var i, j, k := CycleAt(o, a);
    }
  }

  /**
   * Every query of a cycle asks for rendering exactly when its sector lies
   * within the render box: two sectors along x and z, one along y.
   */
  lemma RenderBox(o: SectorCoord)
    ensures forall a :: 0 <= a < 245 ==>
      var q := CycleQueries(o)[a];
      q.Query? && (q.shouldRender <==> Abs(q.sector.0 - o.0) <= 2 && Abs(q.sector.1 - o.1) <= 1 && Abs(q.sector.2 - o.2) <= 2)
  {
    forall a | 0 <= a < 245
      ensures var q := CycleQueries(o)[a];
        q.Query? && (q.shouldRender <==> Abs(q.sector.0 - o.0) <= 2 && Abs(q.sector.1 - o.1) <= 1 && Abs(q.sector.2 - o.2) <= 2)
    {
      var i, j, k := CycleAt(o, a);
    }
  }

  /** Every sector within three sectors across, two up or down and three along of `o` is queried by its cycle. */
  lemma BoxQueried(o: SectorCoord, n: SectorCoord)
    requires Abs(n.0 - o.0) <= 3 && Abs(n.1 - o.1) <= 2 && Abs(n.2 - o.2) <= 3
    ensures n in QueriedIn(CycleQueries(o))
  {
    var i := OrderSlot(n.0 - o.0);
    var k := OrderSlot(n.2 - o.2);
    SlotQueried(o, i, n.1 - o.1 + 2, k);
  }

  /** The sector of slot 35 i + 7 j + k is among those a cycle queries. */
  lemma SlotQueried(o: SectorCoord, i: int, j: int, k: int)
    requires 0 <= i < 7 && 0 <= j < 5 && 0 <= k < 7
    ensures (o.0 + GenerateOrder[i], o.1 + j - 2, o.2 + GenerateOrder[k]) in QueriedIn(CycleQueries(o))
  {
    CycleAtSlot(o, i, j, k);
    QueriedAt(CycleQueries(o), 35 * i + 7 * j + k);
  }

  lemma QueriedAt(msgs: seq<Nearby>, b: int)
    requires 0 <= b < |msgs| && msgs[b].Query?
    ensures msgs[b].sector in QueriedIn(msgs)
  {
  }

  /** A neighbour of a sector query `a` asks to render is queried somewhere in the same cycle. */
  lemma NeighbourQueried(o: SectorCoord, a: int, n: SectorCoord)
    requires 0 <= a < 245
    requires CycleQueries(o)[a].Query? && CycleQueries(o)[a].shouldRender
    requires n in Neighbours(CycleQueries(o)[a].sector)
    ensures n in QueriedIn(CycleQueries(o))
  {
    var i, j, k := CycleAt(o, a);
    var c := CycleQueries(o)[a].sector;
    assert Abs(c.0 - o.0) <= 2 && Abs(c.1 - o.1) <= 1 && Abs(c.2 - o.2) <= 2;
    BoxQueried(o, n);
  }

  /**
   * Every neighbour of a sector a cycle asks to render is itself queried in
   * the same cycle, so its Need is sent and it can be generated.
   */
  lemma RenderedNeighboursQueried(o: SectorCoord)
    ensures forall a, n ::
      0 <= a < 245 && CycleQueries(o)[a].Query? && CycleQueries(o)[a].shouldRender && n in Neighbours(CycleQueries(o)[a].sector) ==>
        n in QueriedIn(CycleQueries(o))
  {
    forall a, n | 0 <= a < 245 && CycleQueries(o)[a].Query? && CycleQueries(o)[a].shouldRender
      && n in Neighbours(CycleQueries(o)[a].sector)
      ensures n in QueriedIn(CycleQueries(o))
    {
      NeighbourQueried(o, a, n);
    }
  }

  /** No sector a cycle queries is far enough from the observer's sector to be evicted. */
  lemma QueriedNotEvicted(o: SectorCoord)
    ensures forall a :: 0 <= a < 245 ==> SqDist(CycleQueries(o)[a].sector, o) <= 22 < EvictDistSq
  {
    CycleCoversBoxOnce(o);
    forall a | 0 <= a < 245
      ensures SqDist(CycleQueries(o)[a].sector, o) <= 22
    {
      var c := CycleQueries(o)[a].sector;
      SmallSquare(c.0 - o.0, 3);
      SmallSquare(c.1 - o.1, 2);
      SmallSquare(c.2 - o.2, 3);
    }
  }

  lemma SmallSquare(d: int, m: nat)
    requires Abs(d) <= m
    ensures d * d <= m * m
  {
    if d < 0 {
      assert d * d == (-d) * (-d);
    }
  }

  /** The Generated answers to `needs`, in order. */
  function Serviced(needs: seq<SectorCoord>, generate: Generate): (out: seq<Nearby>)
    ensures |out| == |needs|
    ensures forall i :: 0 <= i < |needs| ==> out[i] == Generated(needs[i], generate(needs[i]))
  {
    if needs == [] then [] else [Generated(needs[0], generate(needs[0]))] + Serviced(needs[1..], generate)
  }

  /**
   * One cycle of the worker: read the observer position, send the queries
   * of the box around its sector, then take every pending Need off the
   * channel and send the generated sector for it.
   */
  method WorkerCycle(t: Terrain, generate: Generate)
    modifies t
    ensures t.nearby == old(t.nearby) + CycleQueries(SectorAt(old(t.playerPos))) + Serviced(old(t.needed), generate)
    ensures t.needed == []
    ensures t.sectors == old(t.sectors) && t.playerPos == old(t.playerPos)
  {
    SendCycle(t);
    ServiceNeeds(t, generate);
  }

  /** The query half of a cycle: the 245 queries of the box, in loop order. */
  method SendCycle(t: Terrain)
    modifies t
    ensures t.nearby == old(t.nearby) + CycleQueries(SectorAt(old(t.playerPos)))
    ensures t.needed == old(t.needed) && t.sectors == old(t.sectors) && t.playerPos == old(t.playerPos)
  {
    var sector := SectorAt(t.playerPos);
    ghost var qs := CycleQueries(sector);
    ghost var start := t.nearby;
    ghost var needed, sectors, pos := t.needed, t.sectors, t.playerPos;
    for i := 0 to 7
      invariant t.nearby == start + qs[..35 * i]
      invariant t.needed == needed && t.sectors == sectors && t.playerPos == pos
    {
      for j := 0 to 5
        invariant t.nearby == start + qs[..35 * i + 7 * j]
        invariant t.needed == needed && t.sectors == sectors && t.playerPos == pos
      {
        SendColumn(t, sector, i, j, start);
      }
    }
    assert qs[..245] == qs;
  }

  /** The innermost loop of a cycle: the seven queries along z at one (dx, dy). */
  method SendColumn(t: Terrain, sector: SectorCoord, i: int, j: int, ghost start: seq<Nearby>)
    requires 0 <= i < 7 && 0 <= j < 5
    requires t.nearby == start + CycleQueries(sector)[..35 * i + 7 * j]
    modifies t
    ensures t.nearby == start + CycleQueries(sector)[..35 * i + 7 * j + 7]
    ensures t.needed == old(t.needed) && t.sectors == old(t.sectors) && t.playerPos == old(t.playerPos)
  {
    ghost var needed, sectors, pos := t.needed, t.sectors, t.playerPos;
    var dx := GenerateOrder[i];
    var dy := j - 2;
    for k := 0 to 7
      invariant t.nearby == start + CycleQueries(sector)[..35 * i + 7 * j + k]
      invariant t.needed == needed && t.sectors == sectors && t.playerPos == pos
    {
      var dz := GenerateOrder[k];
      var c := (sector.0 + dx, sector.1 + dy, sector.2 + dz);
      var shouldRender := Abs(dx) <= RenderDistAxis && Abs(dy) <= 1 && Abs(dz) <= RenderDistAxis;
      CycleStep(sector, i, j, k);
      assert Query(c, shouldRender) == QueryAt(sector, dx, dy, dz);
      t.nearby := t.nearby + [Query(c, shouldRender)];
    }
  }

  /** The Need half of a cycle: every pending Need is taken and answered with its generated sector. */
  method ServiceNeeds(t: Terrain, generate: Generate)
    modifies t
    ensures t.nearby == old(t.nearby) + Serviced(old(t.needed), generate)
    ensures t.needed == []
    ensures t.sectors == old(t.sectors) && t.playerPos == old(t.playerPos)
  {
    ghost var needs := t.needed;
    ghost var queried := t.nearby;
    ghost var out := Serviced(needs, generate);
    ghost var sectors, pos := t.sectors, t.playerPos;
    var taken := 0;
    while t.needed != []
      invariant 0 <= taken <= |needs| && t.needed == needs[taken..]
      invariant t.nearby == queried + out[..taken]
      invariant t.sectors == sectors && t.playerPos == pos
      decreases |t.needed|
    {
      var c := t.needed[0];
      t.needed := t.needed[1..];
      assert out[..taken + 1] == out[..taken] + [out[taken]];
      t.nearby := t.nearby + [Generated(c, generate(c))];
      taken := taken + 1;
    }
    assert out[..taken] == out;
  }

  /**
   * On a cache holding none of the queried sectors, with the budget never
   * running out, a drain of queries sends Need for each of them in order and
   * leaves the cache as it was.
   */
  lemma {:induction false} DrainMissingQueries(sectors: Cache, msgs: seq<Nearby>, done: nat, timeUp: nat -> bool, mesh: CreateModel)
    requires forall i :: 0 <= i < |msgs| ==> msgs[i].Query? && msgs[i].sector !in sectors
    requires forall n :: done < n <= done + |msgs| ==> !timeUp(n)
    ensures var d := Drain(sectors, msgs, done, timeUp, mesh);
      && d.sectors == sectors
      && d.consumed == done + |msgs|
      && |d.need| == |msgs|
      && (forall i :: 0 <= i < |msgs| ==> d.need[i] == msgs[i].sector)
    decreases |msgs|
  {
    if msgs != [] {
      DrainMissingQueries(sectors, msgs[1..], done + 1, timeUp, mesh);
      var rest := Drain(sectors, msgs[1..], done + 1, timeUp, mesh);
      var d := Drain(sectors, msgs, done, timeUp, mesh);
      assert d.need == [msgs[0].sector] + rest.need;
      forall i | 1 <= i < |msgs|
        ensures d.need[i] == msgs[i].sector
      {
        assert d.need[i] == rest.need[i - 1] && msgs[1..][i - 1] == msgs[i];
      }
    }
  }

  /**
   * The first frame after the first cycle: with an empty cache and time to
   * spare, the consumer asks for all 245 queried sectors, in query order,
   * and caches nothing yet.
   */
  lemma FirstFrameNeedsWholeBox(o: SectorCoord, timeUp: nat -> bool, mesh: CreateModel)
    requires forall n :: 0 < n <= 245 ==> !timeUp(n)
    ensures var d := Drain(map[], CycleQueries(o), 0, timeUp, mesh);
      && d.sectors == map[] && d.consumed == 245
      && |d.need| == 245
      && (forall a :: 0 <= a < 245 ==> d.need[a] == CycleQueries(o)[a].sector)
  {
    var qs := CycleQueries(o);
    forall a | 0 <= a < 245
      ensures qs[a].Query?
    {
      var i, j, k := CycleAt(o, a);
    }
    DrainMissingQueries(map[], qs, 0, timeUp, mesh);
  }
}
