/**
 * The consumer side of terrain streaming: the sector cache keyed by sector
 * coordinate, the per-frame update that drains the worker's messages
 * (answering queries, gating meshing on the six neighbours, inserting
 * generated sectors first-writer-wins) and the distance-based eviction.
 */
module Terrain {
  import opened Wrappers
  import opened Voxel

  /** A sector's position in the world lattice, in sector units. */
  type SectorCoord = (int, int, int)

  /** An observer position in world space, already integral. */
  type Position = (int, int, int)

  /** A sector is kept while its squared sector distance to the observer is below this. */
  const EvictDistSq: int := 280

  /** The cache: at most one sector per coordinate. */
  type Cache = map<SectorCoord, Sector>

  /** Messages on the worker-to-consumer channel. */
  datatype Nearby =
    | Query(sector: SectorCoord, shouldRender: bool)
    | Generated(sector: SectorCoord, blocks: Blocks)

  /** The enclosing sector of a world position: floor division by the sector size on each axis. */
  function SectorAt(pos: Position): (c: SectorCoord)
    ensures 32 * c.0 <= pos.0 < 32 * c.0 + 32
    ensures 32 * c.1 <= pos.1 < 32 * c.1 + 32
    ensures 32 * c.2 <= pos.2 < 32 * c.2 + 32
  {
    (pos.0 / SectorSize, pos.1 / SectorSize, pos.2 / SectorSize)
  }

  /** Squared Euclidean distance between two sector coordinates. */
  function SqDist(a: SectorCoord, b: SectorCoord): int {
    (a.0 - b.0) * (a.0 - b.0) + (a.1 - b.1) * (a.1 - b.1) + (a.2 - b.2) * (a.2 - b.2)
  }

  /** Back, front, top, bottom, left and right of `c`: one unit along z, y and x. */
  function Neighbours(c: SectorCoord): (ns: seq<SectorCoord>)
    ensures |ns| == 6
  {
    [(c.0, c.1, c.2 - 1), (c.0, c.1, c.2 + 1),
     (c.0, c.1 + 1, c.2), (c.0, c.1 - 1, c.2),
     (c.0 - 1, c.1, c.2), (c.0 + 1, c.1, c.2)]
  }

  lemma SquareFacts(d: int)
    ensures d * d >= 0
    ensures d * d == 0 ==> d == 0
    ensures d * d == 1 ==> d == 1 || d == -1
    ensures (d >= 2 || d <= -2) ==> d * d >= 4
  {
    if d >= 2 {
      assert d * d >= 2 * d;
    } else if d <= -2 {
      assert d * d >= -2 * d;
    }
  }

  /** The six neighbours are exactly the coordinates at unit distance. */
  lemma NeighboursAtUnitDistance(c: SectorCoord, n: SectorCoord)
    ensures n in Neighbours(c) <==> SqDist(c, n) == 1
  {
    SquareFacts(c.0 - n.0);
    SquareFacts(c.1 - n.1);
    SquareFacts(c.2 - n.2);
  }

  /** The read-only view of the six neighbours handed to meshing. */
  datatype AdjacentSectors = AdjacentSectors(
    back: Sector, front: Sector, top: Sector, bottom: Sector, left: Sector, right: Sector)

  /** The opaque meshing step: target coordinate, target sector and its neighbours to a model. */
  type CreateModel = (SectorCoord, Sector, AdjacentSectors) -> ModelHandle

  predicate NeighboursCached(sectors: Cache, c: SectorCoord) {
    forall n :: n in Neighbours(c) ==> n in sectors
  }

  /**
   * The gate in front of meshing: the sector is cached, has something to
   * draw, has no model yet, and all six neighbours are cached.
   */
  predicate CanMesh(sectors: Cache, c: SectorCoord) {
    && c in sectors
    && AnyNeedsRendering(sectors[c].blocks)
    && sectors[c].model.None?
    && NeighboursCached(sectors, c)
  }

  function Adjacent(sectors: Cache, c: SectorCoord): AdjacentSectors
    requires NeighboursCached(sectors, c)
  {
    var ns := Neighbours(c);
    AdjacentSectors(sectors[ns[0]], sectors[ns[1]], sectors[ns[2]], sectors[ns[3]], sectors[ns[4]], sectors[ns[5]])
  }

  /** The effect of one received message; `stop` is a `break` out of the drain. */
  datatype Handled = Handled(sectors: Cache, need: seq<SectorCoord>, stop: bool)

  /**
   * Handles one message. A query for a missing sector asks the worker for it;
   * a query for a cached sector either meshes it, when it is to be rendered and
   * passes the gate, or ends the drain. A generated sector is inserted only if
   * none is cached at its coordinate.
   */
  function Receive(sectors: Cache, msg: Nearby, mesh: CreateModel): (r: Handled)
    ensures r.need == if msg.Query? && msg.sector !in sectors then [msg.sector] else []
    ensures r.stop <==> msg.Query? && msg.sector in sectors && !(msg.shouldRender && CanMesh(sectors, msg.sector))
    ensures r.stop ==> r.sectors == sectors
    ensures msg.Query? ==> r.sectors.Keys == sectors.Keys
    ensures msg.Generated? ==> r.sectors == if msg.sector in sectors then sectors else sectors[msg.sector := Sector(msg.blocks, None)]
  {
    match msg
    case Query(c, shouldRender) =>
      if c !in sectors then
        Handled(sectors, [c], false)
      else if shouldRender && CanMesh(sectors, c) then
        var model := mesh(c, sectors[c], Adjacent(sectors, c));
        Handled(sectors[c := sectors[c].(model := Some(model))], [], false)
      else
        Handled(sectors, [], true)
    case Generated(c, blocks) =>
      Handled(if c in sectors then sectors else sectors[c := Sector(blocks, None)], [], false)
  }

  /**
   * One message never changes a cached sector's blocks and never replaces a
   * model; the only cached sector it can change is the one a render query
   * meshes, and then only its model.
   */
  lemma ReceiveFrame(sectors: Cache, msg: Nearby, mesh: CreateModel)
    ensures var r := Receive(sectors, msg, mesh);
      && (forall k :: k in sectors ==> k in r.sectors && r.sectors[k].blocks == sectors[k].blocks)
      && (forall k :: k in sectors && sectors[k].model.Some? ==> r.sectors[k] == sectors[k])
      && (forall k :: k in sectors && r.sectors[k] != sectors[k] ==>
            msg == Query(k, true) && CanMesh(sectors, k) && r.sectors[k] == sectors[k].(model := r.sectors[k].model))
  {
  }

  /**
   * A render query for a sector that passes the gate attaches the model built
   * from the sector and its six neighbours, continues the drain and sends
   * nothing.
   */
  lemma ReceiveMeshes(sectors: Cache, c: SectorCoord, mesh: CreateModel)
    requires CanMesh(sectors, c)
    ensures var r := Receive(sectors, Query(c, true), mesh);
      && r.sectors == sectors[c := sectors[c].(model := Some(mesh(c, sectors[c], Adjacent(sectors, c))))]
      && r.need == [] && !r.stop
  {
  }

  /** What a drain did: the cache, the needs sent, and how many messages it took off the channel. */
  datatype Drained = Drained(sectors: Cache, need: seq<SectorCoord>, consumed: nat)

  /**
   * Drains `msgs` in order, `done` having been taken already. After each
   * message that does not end the drain, `timeUp` is asked with the number
   * of messages taken so far; it stands for the wall-clock budget.
   */
  function Drain(sectors: Cache, msgs: seq<Nearby>, done: nat, timeUp: nat -> bool, mesh: CreateModel): (d: Drained)
    ensures done <= d.consumed <= done + |msgs|
    ensures msgs != [] ==> done < d.consumed
    decreases |msgs|
  {
    if msgs == [] then
      Drained(sectors, [], done)
    else
      var r := Receive(sectors, msgs[0], mesh);
      if r.stop || timeUp(done + 1) then
        Drained(r.sectors, r.need, done + 1)
      else
        var d := Drain(r.sectors, msgs[1..], done + 1, timeUp, mesh);
        Drained(d.sectors, r.need + d.need, d.consumed)
  }

  /**
   * A query for a cached sector that is not to be rendered, or fails the
   * gate, ends the drain: the message is consumed, nothing is sent and the
   * cache is unchanged.
   */
  lemma QueryStopsDrain(sectors: Cache, msgs: seq<Nearby>, done: nat, timeUp: nat -> bool, mesh: CreateModel)
    requires msgs != [] && msgs[0].Query? && msgs[0].sector in sectors
    requires !(msgs[0].shouldRender && CanMesh(sectors, msgs[0].sector))
    ensures Drain(sectors, msgs, done, timeUp, mesh) == Drained(sectors, [], done + 1)
  {
  }

  /**
   * A render query for a sector that passes the gate meshes it: whatever the
   * drain does afterwards, the sector leaves it with the model built from
   * itself and its six neighbours, and with its blocks unchanged.
   */
  lemma QueryMeshes(sectors: Cache, c: SectorCoord, rest: seq<Nearby>, done: nat, timeUp: nat -> bool, mesh: CreateModel)
    requires CanMesh(sectors, c)
    ensures var d := Drain(sectors, [Query(c, true)] + rest, done, timeUp, mesh);
      && c in d.sectors
      && d.sectors[c].blocks == sectors[c].blocks
      && d.sectors[c].model == Some(mesh(c, sectors[c], Adjacent(sectors, c)))
  {
    var msgs := [Query(c, true)] + rest;
    assert msgs[0] == Query(c, true) && msgs[1..] == rest;
    var r := Receive(sectors, msgs[0], mesh);
    ReceiveMeshes(sectors, c, mesh);
    if !timeUp(done + 1) {
      DrainKeepsCached(r.sectors, rest, done + 1, timeUp, mesh);
    }
  }

  /** A drain's result with `sent` already sent before it. */
  function AfterSent(sent: seq<SectorCoord>, d: Drained): Drained {
    Drained(d.sectors, sent + d.need, d.consumed)
  }

  /** How a drain in progress resumes after handling its next message. */
  lemma DrainResume(total: Drained, sent: seq<SectorCoord>, sectors: Cache, msgs: seq<Nearby>, done: nat,
                    timeUp: nat -> bool, mesh: CreateModel)
    requires msgs != []
    requires total == AfterSent(sent, Drain(sectors, msgs, done, timeUp, mesh))
    ensures var r := Receive(sectors, msgs[0], mesh);
      if r.stop || timeUp(done + 1) then total == Drained(r.sectors, sent + r.need, done + 1)
      else total == AfterSent(sent + r.need, Drain(r.sectors, msgs[1..], done + 1, timeUp, mesh))
  {
    var r := Receive(sectors, msgs[0], mesh);
    if !(r.stop || timeUp(done + 1)) {
      var d := Drain(r.sectors, msgs[1..], done + 1, timeUp, mesh);
      assert sent + (r.need + d.need) == sent + r.need + d.need;
    }
  }

  /** The coordinates of the generated sectors among `msgs`. */
  function GeneratedIn(msgs: seq<Nearby>): set<SectorCoord> {
    set i | 0 <= i < |msgs| && msgs[i].Generated? :: msgs[i].sector
  }

  /** The coordinates the queries among `msgs` ask about, in order. */
  function QueriedIn(msgs: seq<Nearby>): set<SectorCoord> {
    set i | 0 <= i < |msgs| && msgs[i].Query? :: msgs[i].sector
  }

  /** The messages a drain took, split into the first and the rest's share. */
  lemma TakenSplit(msgs: seq<Nearby>, m: nat)
    requires 1 <= m <= |msgs|
    ensures GeneratedIn(msgs[..m]) == GeneratedIn([msgs[0]]) + GeneratedIn(msgs[1..][..m - 1])
    ensures QueriedIn(msgs[..m]) == QueriedIn([msgs[0]]) + QueriedIn(msgs[1..][..m - 1])
    ensures GeneratedIn([msgs[0]]) == if msgs[0].Generated? then {msgs[0].sector} else {}
    ensures QueriedIn([msgs[0]]) == if msgs[0].Query? then {msgs[0].sector} else {}
  {
    assert msgs[..m] == [msgs[0]] + msgs[1..][..m - 1];
    GeneratedInAppend([msgs[0]], msgs[1..][..m - 1]);
    QueriedInAppend([msgs[0]], msgs[1..][..m - 1]);
  }

  /**
   * A drain only adds keys, and only those of sectors generated in the
   * messages it took.
   */
  lemma {:induction false} DrainKeys(sectors: Cache, msgs: seq<Nearby>, done: nat, timeUp: nat -> bool, mesh: CreateModel)
    ensures var d := Drain(sectors, msgs, done, timeUp, mesh);
      sectors.Keys <= d.sectors.Keys <= sectors.Keys + GeneratedIn(msgs[..d.consumed - done])
    decreases |msgs|
  {
    if msgs != [] {
      var r := Receive(sectors, msgs[0], mesh);
      var d := Drain(sectors, msgs, done, timeUp, mesh);
      TakenSplit(msgs, d.consumed - done);
      if !(r.stop || timeUp(done + 1)) {
        DrainKeys(r.sectors, msgs[1..], done + 1, timeUp, mesh);
      }
    }
  }

  /**
   * A drain never changes a cached sector's blocks and never replaces a
   * model that is already attached.
   */
  lemma {:induction false} DrainKeepsCached(sectors: Cache, msgs: seq<Nearby>, done: nat, timeUp: nat -> bool, mesh: CreateModel)
    ensures var d := Drain(sectors, msgs, done, timeUp, mesh);
      && (forall k :: k in sectors ==> k in d.sectors && d.sectors[k].blocks == sectors[k].blocks)
      && (forall k :: k in sectors && sectors[k].model.Some? ==> d.sectors[k] == sectors[k])
    decreases |msgs|
  {
    if msgs != [] {
      var r := Receive(sectors, msgs[0], mesh);
      ReceiveFrame(sectors, msgs[0], mesh);
      if !(r.stop || timeUp(done + 1)) {
        DrainKeepsCached(r.sectors, msgs[1..], done + 1, timeUp, mesh);
      }
    }
  }

  /** Need is sent only for coordinates that a taken query asked about and that were not cached. */
  lemma {:induction false} DrainNeedsQueried(sectors: Cache, msgs: seq<Nearby>, done: nat, timeUp: nat -> bool, mesh: CreateModel)
    ensures var d := Drain(sectors, msgs, done, timeUp, mesh);
      forall n :: n in d.need ==> n in QueriedIn(msgs[..d.consumed - done]) && n !in sectors
    decreases |msgs|
  {
    if msgs != [] {
      var r := Receive(sectors, msgs[0], mesh);
      var d := Drain(sectors, msgs, done, timeUp, mesh);
      TakenSplit(msgs, d.consumed - done);
      if !(r.stop || timeUp(done + 1)) {
        DrainNeedsQueried(r.sectors, msgs[1..], done + 1, timeUp, mesh);
      }
    }
  }

  lemma GeneratedInAppend(a: seq<Nearby>, b: seq<Nearby>)
    ensures GeneratedIn(a + b) == GeneratedIn(a) + GeneratedIn(b)
  {
    var ab := a + b;
    forall x | x in GeneratedIn(ab) ensures x in GeneratedIn(a) + GeneratedIn(b) {
      var i :| 0 <= i < |ab| && ab[i].Generated? && ab[i].sector == x;
      if i >= |a| {
        assert b[i - |a|] == ab[i];
      }
    }
    forall x | x in GeneratedIn(a) ensures x in GeneratedIn(ab) {
      var i :| 0 <= i < |a| && a[i].Generated? && a[i].sector == x;
      assert ab[i] == a[i];
    }
    forall x | x in GeneratedIn(b) ensures x in GeneratedIn(ab) {
      var i :| 0 <= i < |b| && b[i].Generated? && b[i].sector == x;
      assert ab[|a| + i] == b[i];
    }
  }

  lemma QueriedInAppend(a: seq<Nearby>, b: seq<Nearby>)
    ensures QueriedIn(a + b) == QueriedIn(a) + QueriedIn(b)
  {
    var ab := a + b;
    forall x | x in QueriedIn(ab) ensures x in QueriedIn(a) + QueriedIn(b) {
      var i :| 0 <= i < |ab| && ab[i].Query? && ab[i].sector == x;
      if i >= |a| {
        assert b[i - |a|] == ab[i];
      }
    }
    forall x | x in QueriedIn(a) ensures x in QueriedIn(ab) {
      var i :| 0 <= i < |a| && a[i].Query? && a[i].sector == x;
      assert ab[i] == a[i];
    }
    forall x | x in QueriedIn(b) ensures x in QueriedIn(ab) {
      var i :| 0 <= i < |b| && b[i].Query? && b[i].sector == x;
      assert ab[|a| + i] == b[i];
    }
  }

  /**
   * A sector that leaves a drain with a model it did not have before went
   * through the gate: it has something to draw and all six neighbours are
   * cached. A sector with a missing neighbour is therefore never meshed.
   */
  lemma {:induction false} DrainMeshesOnlyThroughGate(sectors: Cache, msgs: seq<Nearby>, done: nat, timeUp: nat -> bool, mesh: CreateModel)
    ensures var d := Drain(sectors, msgs, done, timeUp, mesh);
      forall k :: k in d.sectors && d.sectors[k].model.Some? && (k !in sectors || sectors[k].model.None?) ==>
        AnyNeedsRendering(d.sectors[k].blocks) && NeighboursCached(d.sectors, k)
    decreases |msgs|
  {
    if msgs != [] {
      var r := Receive(sectors, msgs[0], mesh);
      var d := Drain(sectors, msgs, done, timeUp, mesh);
      if !(r.stop || timeUp(done + 1)) {
        DrainMeshesOnlyThroughGate(r.sectors, msgs[1..], done + 1, timeUp, mesh);
        DrainKeepsCached(r.sectors, msgs[1..], done + 1, timeUp, mesh);
        forall k | k in d.sectors && d.sectors[k].model.Some? && (k !in sectors || sectors[k].model.None?)
          ensures AnyNeedsRendering(d.sectors[k].blocks) && NeighboursCached(d.sectors, k)
        {
          if k in r.sectors && r.sectors[k].model.Some? {
            assert NeighboursCached(r.sectors, k);
          }
        }
      }
    }
  }

  /** Eviction: keep exactly the sectors within the squared distance bound of `o`, unchanged. */
  function Evict(sectors: Cache, o: SectorCoord): (r: Cache)
    ensures forall k :: k in r <==> k in sectors && SqDist(k, o) < EvictDistSq
    ensures forall k :: k in r ==> r[k] == sectors[k]
  {
    map k | k in sectors && SqDist(k, o) < EvictDistSq :: sectors[k]
  }

  /** A sector 17 or more units away on any one axis is always evicted. */
  lemma EvictsFarAxis(sectors: Cache, o: SectorCoord, k: SectorCoord)
    requires k.0 - o.0 >= 17 || o.0 - k.0 >= 17 || k.1 - o.1 >= 17 || o.1 - k.1 >= 17 || k.2 - o.2 >= 17 || o.2 - k.2 >= 17
    ensures k !in Evict(sectors, o)
  {
    var dx, dy, dz := k.0 - o.0, k.1 - o.1, k.2 - o.2;
    SquareFacts(dx);
    SquareFacts(dy);
    SquareFacts(dz);
    if dx >= 17 || dx <= -17 {
      assert dx * dx >= 17 * 17 by { AtLeast17(dx); }
    } else if dy >= 17 || dy <= -17 {
      assert dy * dy >= 17 * 17 by { AtLeast17(dy); }
    } else {
      assert dz * dz >= 17 * 17 by { AtLeast17(dz); }
    }
  }

  lemma AtLeast17(d: int)
    requires d >= 17 || d <= -17
    ensures d * d >= 289
  {
    if d >= 17 {
      assert d * d >= 17 * d;
    } else {
      assert d * d >= -17 * d;
    }
  }

  /**
   * The consumer's state: the cache, the messages waiting on the channel from
   * the worker, the coordinates waiting on the channel to it, and the
   * observer position shared with it.
   */
  class Terrain {
    var sectors: Cache
    var nearby: seq<Nearby>
    var needed: seq<SectorCoord>
    var playerPos: Position

    /** Starts with an empty cache, empty channels and the observer at the origin. */
    constructor ()
      ensures sectors == map[] && nearby == [] && needed == [] && playerPos == (0, 0, 0)
    {
      sectors := map[];
      nearby := [];
      needed := [];
      playerPos := (0, 0, 0);
    }

    /**
     * Handles one message taken off the nearby channel against the cache;
     * `stop` reports that the drain must end here.
     */
    method Handle(msg: Nearby, mesh: CreateModel) returns (stop: bool)
      modifies this
      ensures var r := Receive(old(sectors), msg, mesh);
        sectors == r.sectors && needed == old(needed) + r.need && stop == r.stop
      ensures nearby == old(nearby) && playerPos == old(playerPos)
    {
      match msg {
        case Query(c, shouldRender) =>
          if c !in sectors {
            needed := needed + [c];
            return false;
          }
          if !shouldRender {
            return true;
          }
          var sector := sectors[c];
          if !AnyNeedsRendering(sector.blocks) || sector.model.Some? {
            return true;
          }
          var back := (c.0, c.1, c.2 - 1);
          var front := (c.0, c.1, c.2 + 1);
          var top := (c.0, c.1 + 1, c.2);
          var bottom := (c.0, c.1 - 1, c.2);
          var left := (c.0 - 1, c.1, c.2);
          var right := (c.0 + 1, c.1, c.2);
          if back !in sectors || front !in sectors || top !in sectors
            || bottom !in sectors || left !in sectors || right !in sectors
          {
            return true;
          }
          var adjacent := AdjacentSectors(sectors[back], sectors[front], sectors[top],
                                          sectors[bottom], sectors[left], sectors[right]);
          var model := mesh(c, sector, adjacent);
          sectors := sectors[c := sector.(model := Some(model))];
          return false;
        case Generated(c, blocks) =>
          if c !in sectors {
            sectors := sectors[c := Sector(blocks, None)];
          }
          return false;
      }
    }

    /**
     * The drain loop of a frame: take messages off the nearby channel until it
     * is empty, a message ends the drain or the budget runs out; `consumed`
     * counts the messages taken.
     */
    method DrainNearby(timeUp: nat -> bool, mesh: CreateModel) returns (consumed: nat)
      modifies this
      ensures var d := Drain(old(sectors), old(nearby), 0, timeUp, mesh);
        && consumed == d.consumed
        && sectors == d.sectors
        && needed == old(needed) + d.need
        && nearby == old(nearby)[d.consumed..]
      ensures playerPos == old(playerPos)
    {
      ghost var total := Drain(sectors, nearby, 0, timeUp, mesh);
      ghost var queue0, needed0, sent := nearby, needed, [];
      consumed := 0;
      while nearby != []
        invariant playerPos == old(playerPos)
        invariant consumed <= |queue0| && nearby == queue0[consumed..]
        invariant needed == needed0 + sent
        invariant total == AfterSent(sent, Drain(sectors, nearby, consumed, timeUp, mesh))
        decreases |nearby|
      {
        ghost var before, queue := sectors, nearby;
        var msg := nearby[0];
        nearby := nearby[1..];
        consumed := consumed + 1;
        var stop := Handle(msg, mesh);
        DrainResume(total, sent, before, queue, consumed - 1, timeUp, mesh);
        sent := sent + Receive(before, msg, mesh).need;
        if stop || timeUp(consumed) {
          break;
        }
      }
    }

    /**
     * One frame: publish the observer position, drain the nearby channel,
     * then evict every sector too far from the observer's sector.
     */
    method Update(pos: Position, timeUp: nat -> bool, mesh: CreateModel)
      modifies this
      ensures playerPos == pos
      ensures var d := Drain(old(sectors), old(nearby), 0, timeUp, mesh);
        && sectors == Evict(d.sectors, SectorAt(pos))
        && needed == old(needed) + d.need
        && nearby == old(nearby)[d.consumed..]
    {
      playerPos := pos;
      var _ := DrainNearby(timeUp, mesh);
      sectors := Evict(sectors, SectorAt(pos));
    }
  }
}
