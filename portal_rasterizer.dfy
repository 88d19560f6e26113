/**
 * Carving portal markers into a generated chunk. Each marker is raised by its
 * extent; the voxels of a flat frame around the raised centre become the
 * structure block where they lie in the chunk region, and the voxels inside
 * the frame become the portal block and carry a portal component whose
 * destination the rasterizer's destination policy gives for that voxel.
 *
 * Positions are absolute world positions; the chunk's block store and the
 * per-voxel block entities are maps from position.
 */
module Rasterization {
  import opened Geometry
  import opened Wrappers

  /** A block type, identified by its name. */
  datatype Block = Block(name: string)

  /**
   * The portal component a carved voxel's entity carries, as the rasterizer
   * uses it: the constructor sets only the destination, so the location may be
   * unset, and the destination is an integer voxel, since the rasterizer
   * assigns a Vector3i to it. The runtime (`PortalRuntime.PortalComponent`)
   * treats the same field as a float vector; the two source files disagree
   * about its type, so each side has its own datatype.
   */
  datatype PortalComponent = PortalComponent(location: Option<Vec3>, destination: Vec3)

  /** The entity attached to a voxel's block: its portal component, if any, and the names of its other components. */
  datatype BlockEntity = BlockEntity(portal: Option<PortalComponent>, otherComponents: set<string>)

  /** A portal marker of the facet: its surface position and its integer extent. */
  datatype Marker = Marker(position: Vec3, extent: int)

  /** The rasterizer's blocks and its destination policy (the overridden getDestination). */
  datatype PortalRasterizer = PortalRasterizer(structureBlock: Block, portalBlock: Block, getDestination: Vec3 -> Vec3)

  /** The chunk contents the rasterizer changes. */
  datatype Voxels = Voxels(blocks: map<Vec3, Block>, entities: map<Vec3, BlockEntity>)

  /** What one position holds. */
  datatype Cell = Cell(block: Option<Block>, entity: Option<BlockEntity>)

  function CellAt(v: Voxels, p: Vec3): Cell
  {
    Cell(if p in v.blocks then Some(v.blocks[p]) else None,
         if p in v.entities then Some(v.entities[p]) else None)
  }

  // ---------------------------------------------------------------------------
  // The structure of one marker
  // ---------------------------------------------------------------------------

  /** The marker's position raised by its extent. */
  function Centre(m: Marker): Vec3
  {
    m.position.Plus(Vec3(0, m.extent, 0))
  }

  function Walls(m: Marker): Box
  {
    FromCenterExtents(Centre(m), Vec3(m.extent, m.extent, 0))
  }

  function Inside(m: Marker): Box
  {
    FromCenterExtents(Centre(m), Vec3(m.extent - 1, m.extent - 1, 0))
  }

  /**
   * Both boxes lie in the marker's z plane, share its raised centre, and the
   * inside lies within the walls; the walls minus the inside is the frame of
   * voxels whose larger offset from the centre equals the extent.
   */
  lemma MarkerGeometry(m: Marker)
    ensures forall p :: Walls(m).Encompasses(p) ==> p.z == m.position.z
    ensures forall p :: Inside(m).Encompasses(p) ==> Walls(m).Encompasses(p)
    ensures Walls(m).min.y + Walls(m).max.y == 2 * (m.position.y + m.extent) == Inside(m).min.y + Inside(m).max.y
    ensures Walls(m).min.x + Walls(m).max.x == 2 * m.position.x == Inside(m).min.x + Inside(m).max.x
    ensures forall p :: Walls(m).Encompasses(p) && !Inside(m).Encompasses(p) <==>
      && p.z == m.position.z
      && -m.extent <= p.x - m.position.x <= m.extent
      && -m.extent <= p.y - Centre(m).y <= m.extent
      && (p.x - m.position.x == m.extent || m.position.x - p.x == m.extent
          || p.y - Centre(m).y == m.extent || Centre(m).y - p.y == m.extent)
  {
  }

  /** The second clause of `MarkerGeometry` for one voxel, as a cheap step for the proofs below. */
  lemma InsideWithinWalls(m: Marker, q: Vec3)
    ensures Inside(m).Encompasses(q) ==> Walls(m).Encompasses(q)
  {
  }

  /** The first clause of `MarkerGeometry` for one voxel, as a cheap step for the proofs below. */
  lemma WallsInMarkerPlane(m: Marker, q: Vec3)
    ensures Walls(m).Encompasses(q) ==> q.z == m.position.z
  {
  }

  // ---------------------------------------------------------------------------
  // One voxel
  // ---------------------------------------------------------------------------

  /**
   * The entity of a portal voxel after carving. A voxel without an entity
   * gets a new one holding only a fresh portal component; an entity with a
   * portal component has its destination overwritten; an entity without one
   * gets a fresh portal component added.
   */
  function Attach(e: Option<BlockEntity>, destination: Vec3): (r: BlockEntity)
    ensures r.portal.Some? && r.portal.value.destination == destination
    ensures e.Some? ==> r.otherComponents == e.value.otherComponents
    ensures e.Some? && e.value.portal.Some? ==> r.portal.value.location == e.value.portal.value.location
  {
    match e
    case None => BlockEntity(Some(PortalComponent(None, destination)), {})
    case Some(be) =>
      if be.portal.Some? then be.(portal := Some(be.portal.value.(destination := destination)))
      else be.(portal := Some(PortalComponent(None, destination)))
  }

  /** Attaching twice with the same destination is attaching once. */
  lemma AttachIdempotent(e: Option<BlockEntity>, destination: Vec3)
    ensures Attach(Some(Attach(e, destination)), destination) == Attach(e, destination)
  {
  }

  /** What carving the walls position `p` of marker `m` does to one voxel, stated on its cell. */
  function CarveCell(r: PortalRasterizer, chunkRegion: Box, m: Marker, p: Vec3, c: Cell): Cell
  {
    if chunkRegion.Encompasses(p) && !Inside(m).Encompasses(p) then c.(block := Some(r.structureBlock))
    else if Inside(m).Encompasses(p) then Cell(Some(r.portalBlock), Some(Attach(c.entity, r.getDestination(p))))
    else c
  }

  /** The effect of carving the walls position `p` of marker `m` on the chunk. */
  function CarveVoxel(r: PortalRasterizer, chunkRegion: Box, m: Marker, v: Voxels, p: Vec3): Voxels
  {
    if chunkRegion.Encompasses(p) && !Inside(m).Encompasses(p) then
      v.(blocks := v.blocks[p := r.structureBlock])
    else if Inside(m).Encompasses(p) then
      Voxels(v.blocks[p := r.portalBlock],
             v.entities[p := Attach(if p in v.entities then Some(v.entities[p]) else None, r.getDestination(p))])
    else v
  }

  /** Carving a position changes that position's cell as CarveCell says and no other cell. */
  lemma CarveVoxelAt(r: PortalRasterizer, chunkRegion: Box, m: Marker, v: Voxels, p: Vec3, q: Vec3)
    ensures CellAt(CarveVoxel(r, chunkRegion, m, v, p), q)
         == if q == p then CarveCell(r, chunkRegion, m, p, CellAt(v, p)) else CellAt(v, q)
  {
  }

  /** Carving a cell twice is carving it once. */
  lemma CarveCellIdempotent(r: PortalRasterizer, chunkRegion: Box, m: Marker, p: Vec3, c: Cell)
    ensures CarveCell(r, chunkRegion, m, p, CarveCell(r, chunkRegion, m, p, c)) == CarveCell(r, chunkRegion, m, p, c)
  {
    AttachIdempotent(c.entity, r.getDestination(p));
  }

  // ---------------------------------------------------------------------------
  // Whole markers and whole facets
  // ---------------------------------------------------------------------------

  /** Carving a sequence of walls positions of one marker, in order. */
  function CarveVoxels(r: PortalRasterizer, chunkRegion: Box, m: Marker, v: Voxels, ps: seq<Vec3>): Voxels
    decreases |ps|
  {
    if ps == [] then v
    else CarveVoxel(r, chunkRegion, m, CarveVoxels(r, chunkRegion, m, v, ps[..|ps| - 1]), ps[|ps| - 1])
  }

  /** Carving every walls position of one marker. */
  function CarveMarker(r: PortalRasterizer, chunkRegion: Box, v: Voxels, m: Marker): Voxels
  {
    CarveVoxels(r, chunkRegion, m, v, Positions(Walls(m)))
  }

  /** Carving the facet's markers in iteration order. */
  function Rasterize(r: PortalRasterizer, chunkRegion: Box, v: Voxels, markers: seq<Marker>): Voxels
    decreases |markers|
  {
    if markers == [] then v
    else CarveMarker(r, chunkRegion, Rasterize(r, chunkRegion, v, markers[..|markers| - 1]), markers[|markers| - 1])
  }

  /** What one marker does to the cell at q. */
  function MarkerCell(r: PortalRasterizer, chunkRegion: Box, m: Marker, q: Vec3, c: Cell): Cell
  {
    if Walls(m).Encompasses(q) then CarveCell(r, chunkRegion, m, q, c) else c
  }

  /** Reference definition, cell by cell: what the markers, in order, do to the cell at q. */
  function MarkersCell(r: PortalRasterizer, chunkRegion: Box, markers: seq<Marker>, q: Vec3, c: Cell): Cell
    decreases |markers|
  {
    if markers == [] then c
    else MarkerCell(r, chunkRegion, markers[|markers| - 1], q, MarkersCell(r, chunkRegion, markers[..|markers| - 1], q, c))
  }

  /** Carving a list of positions changes exactly the listed cells, each as CarveCell says. */
  lemma {:induction false} CarveVoxelsAt(r: PortalRasterizer, chunkRegion: Box, m: Marker, v: Voxels, ps: seq<Vec3>, q: Vec3)
    ensures CellAt(CarveVoxels(r, chunkRegion, m, v, ps), q)
         == if q in ps then CarveCell(r, chunkRegion, m, q, CellAt(v, q)) else CellAt(v, q)
    decreases |ps|
  {
    if ps != [] {
      var init := ps[..|ps| - 1];
      var last := ps[|ps| - 1];
      assert ps == init + [last];
      CarveVoxelsAt(r, chunkRegion, m, v, init, q);
      CarveVoxelAt(r, chunkRegion, m, CarveVoxels(r, chunkRegion, m, v, init), last, q);
      if q == last && q in init {
        CarveCellIdempotent(r, chunkRegion, m, q, CellAt(v, q));
      }
    }
  }

  /** Carving a marker changes exactly the cells of its walls box, each as CarveCell says. */
  lemma CarveMarkerAt(r: PortalRasterizer, chunkRegion: Box, v: Voxels, m: Marker, q: Vec3)
    ensures CellAt(CarveMarker(r, chunkRegion, v, m), q) == MarkerCell(r, chunkRegion, m, q, CellAt(v, q))
  {
    CarveVoxelsAt(r, chunkRegion, m, v, Positions(Walls(m)), q);
  }

  /** The chunk after rasterizing, read cell by cell, is the reference definition. */
  lemma {:induction false} RasterizeAt(r: PortalRasterizer, chunkRegion: Box, v: Voxels, markers: seq<Marker>, q: Vec3)
    ensures CellAt(Rasterize(r, chunkRegion, v, markers), q) == MarkersCell(r, chunkRegion, markers, q, CellAt(v, q))
    decreases |markers|
  {
    if markers != [] {
      var init := markers[..|markers| - 1];
      RasterizeAt(r, chunkRegion, v, init, q);
      CarveMarkerAt(r, chunkRegion, Rasterize(r, chunkRegion, v, init), markers[|markers| - 1], q);
    }
  }

  /** Two chunk states that agree on every cell are equal. */
  lemma CellsDetermineVoxels(v1: Voxels, v2: Voxels)
    requires forall q :: CellAt(v1, q) == CellAt(v2, q)
    ensures v1 == v2
  {
    assert v1.blocks.Keys == v2.blocks.Keys by {
      forall q ensures q in v1.blocks <==> q in v2.blocks {
        assert CellAt(v1, q) == CellAt(v2, q);
      }
    }
    forall q | q in v1.blocks ensures v1.blocks[q] == v2.blocks[q] {
      assert CellAt(v1, q) == CellAt(v2, q);
    }
    assert v1.entities.Keys == v2.entities.Keys by {
      forall q ensures q in v1.entities <==> q in v2.entities {
        assert CellAt(v1, q) == CellAt(v2, q);
      }
    }
    forall q | q in v1.entities ensures v1.entities[q] == v2.entities[q] {
      assert CellAt(v1, q) == CellAt(v2, q);
    }
  }

  // ---------------------------------------------------------------------------
  // Properties of carving one marker
  // ---------------------------------------------------------------------------

  /**
   * Shell versus interior, over absolute positions. A frame voxel inside the
   * chunk region becomes the structure block and keeps its entity; a frame
   * voxel outside the chunk region is left untouched; every inside voxel, in
   * the chunk region or not, becomes the portal block and ends with one portal
   * component whose destination is the policy's destination for that voxel.
   * The chunk-relative wrapping of the write position is not modelled, so an
   * inside voxel outside the chunk region is written at itself here.
   */
  lemma MarkerShellAndInterior(r: PortalRasterizer, chunkRegion: Box, v: Voxels, m: Marker, q: Vec3)
    ensures var c := CellAt(CarveMarker(r, chunkRegion, v, m), q);
      && (Walls(m).Encompasses(q) && !Inside(m).Encompasses(q) && chunkRegion.Encompasses(q) ==>
            c == CellAt(v, q).(block := Some(r.structureBlock)))
      && (Walls(m).Encompasses(q) && !Inside(m).Encompasses(q) && !chunkRegion.Encompasses(q) ==>
            c == CellAt(v, q))
      && (Inside(m).Encompasses(q) ==>
            && c.block == Some(r.portalBlock)
            && c.entity.Some? && c.entity.value.portal.Some?
            && c.entity.value.portal.value.destination == r.getDestination(q))
      && (!Walls(m).Encompasses(q) ==> c == CellAt(v, q))
  {
    CarveMarkerAt(r, chunkRegion, v, m, q);
    InsideWithinWalls(m, q);
  }

  // ---------------------------------------------------------------------------
  // Properties of rasterizing a whole facet
  // ---------------------------------------------------------------------------

  /** A voxel outside every marker's walls box keeps its block and its entity. */
  lemma {:induction false} UntouchedOutsideWalls(r: PortalRasterizer, chunkRegion: Box, markers: seq<Marker>, q: Vec3, c: Cell)
    requires forall i :: 0 <= i < |markers| ==> !Walls(markers[i]).Encompasses(q)
    ensures MarkersCell(r, chunkRegion, markers, q, c) == c
    decreases |markers|
  {
    if markers != [] {
      UntouchedOutsideWalls(r, chunkRegion, markers[..|markers| - 1], q, c);
    }
  }

  /** The last marker, in iteration order, that writes a block at q, and that block; None when none does. */
  function LastBlockWrite(r: PortalRasterizer, chunkRegion: Box, markers: seq<Marker>, q: Vec3): Option<Block>
    decreases |markers|
  {
    if markers == [] then None
    else
      var m := markers[|markers| - 1];
      if Walls(m).Encompasses(q) && chunkRegion.Encompasses(q) && !Inside(m).Encompasses(q) then Some(r.structureBlock)
      else if Walls(m).Encompasses(q) && Inside(m).Encompasses(q) then Some(r.portalBlock)
      else LastBlockWrite(r, chunkRegion, markers[..|markers| - 1], q)
  }

  /** Whether q is an inside voxel of some marker. */
  predicate InsideSome(markers: seq<Marker>, q: Vec3)
  {
    exists i :: 0 <= i < |markers| && Inside(markers[i]).Encompasses(q)
  }

  /** Whether q is inside some marker of `init + [m]`, split into the prefix and the last marker. */
  lemma InsideSomeSnoc(markers: seq<Marker>, q: Vec3)
    requires markers != []
    ensures InsideSome(markers, q)
        <==> InsideSome(markers[..|markers| - 1], q) || Inside(markers[|markers| - 1]).Encompasses(q)
  {
    var init := markers[..|markers| - 1];
    if InsideSome(markers, q) {
      var i :| 0 <= i < |markers| && Inside(markers[i]).Encompasses(q);
      if i < |init| { assert init[i] == markers[i]; }
    }
    if InsideSome(init, q) {
      var i :| 0 <= i < |init| && Inside(init[i]).Encompasses(q);
      assert markers[i] == init[i];
    }
  }

  /** The closed form of the cell after the markers, for an explicit last block write and inside flag. */
  function ClosedCell(r: PortalRasterizer, q: Vec3, w: Option<Block>, inside: bool, c: Cell): Cell
  {
    Cell(if w.Some? then w else c.block, if inside then Some(Attach(c.entity, r.getDestination(q))) else c.entity)
  }

  /** One more marker keeps the cell in closed form. */
  lemma MarkerCellStep(r: PortalRasterizer, chunkRegion: Box, m: Marker, q: Vec3, w: Option<Block>, inside: bool, c: Cell)
    ensures var w' := if Walls(m).Encompasses(q) && chunkRegion.Encompasses(q) && !Inside(m).Encompasses(q) then Some(r.structureBlock)
                      else if Walls(m).Encompasses(q) && Inside(m).Encompasses(q) then Some(r.portalBlock)
                      else w;
      MarkerCell(r, chunkRegion, m, q, ClosedCell(r, q, w, inside, c))
        == ClosedCell(r, q, w', inside || Inside(m).Encompasses(q), c)
  {
    InsideWithinWalls(m, q);
    AttachIdempotent(c.entity, r.getDestination(q));
  }

  /**
   * The cell at q after all markers: the block written last, if any marker
   * writes one, else the old block; and, if q is inside any marker, the old
   * entity with the portal component attached, else the old entity.
   */
  lemma {:induction false} MarkersCellClosedForm(r: PortalRasterizer, chunkRegion: Box, markers: seq<Marker>, q: Vec3, c: Cell)
    ensures MarkersCell(r, chunkRegion, markers, q, c)
         == ClosedCell(r, q, LastBlockWrite(r, chunkRegion, markers, q), InsideSome(markers, q), c)
    decreases |markers|
  {
    if markers != [] {
      var init := markers[..|markers| - 1];
      var m := markers[|markers| - 1];
      MarkersCellClosedForm(r, chunkRegion, init, q, c);
      InsideSomeSnoc(markers, q);
      MarkerCellStep(r, chunkRegion, m, q, LastBlockWrite(r, chunkRegion, init, q), InsideSome(init, q), c);
    }
  }

  /**
   * Every voxel inside some marker ends with exactly one portal component whose
   * destination is the policy's destination for that voxel, whatever the
   * iteration order and whichever branch created or refreshed the entity.
   */
  lemma InteriorCarriesOwnDestination(r: PortalRasterizer, chunkRegion: Box, v: Voxels, markers: seq<Marker>, q: Vec3)
    requires InsideSome(markers, q)
    ensures var c := CellAt(Rasterize(r, chunkRegion, v, markers), q);
      c.entity.Some? && c.entity.value.portal.Some? && c.entity.value.portal.value.destination == r.getDestination(q)
  {
    RasterizeAt(r, chunkRegion, v, markers, q);
    MarkersCellClosedForm(r, chunkRegion, markers, q, CellAt(v, q));
  }

  /** A voxel outside every marker's walls box keeps its block and entity after rasterizing. */
  lemma RasterizeKeepsOutside(r: PortalRasterizer, chunkRegion: Box, v: Voxels, markers: seq<Marker>, q: Vec3)
    requires forall i :: 0 <= i < |markers| ==> !Walls(markers[i]).Encompasses(q)
    ensures CellAt(Rasterize(r, chunkRegion, v, markers), q) == CellAt(v, q)
  {
    RasterizeAt(r, chunkRegion, v, markers, q);
    UntouchedOutsideWalls(r, chunkRegion, markers, q, CellAt(v, q));
  }

  /** Every voxel the rasterizer changes lies in the z plane of some marker. */
  lemma ChangedVoxelsLieInMarkerPlanes(r: PortalRasterizer, chunkRegion: Box, v: Voxels, markers: seq<Marker>, q: Vec3)
    requires CellAt(Rasterize(r, chunkRegion, v, markers), q) != CellAt(v, q)
    ensures exists i :: 0 <= i < |markers| && q.z == markers[i].position.z
  {
    if forall i :: 0 <= i < |markers| ==> !Walls(markers[i]).Encompasses(q) {
      RasterizeKeepsOutside(r, chunkRegion, v, markers, q);
    } else {
      var i :| 0 <= i < |markers| && Walls(markers[i]).Encompasses(q);
      WallsInMarkerPlane(markers[i], q);
    }
  }

  /** Running the rasterizer twice on the same facet gives the blocks and entities of running it once. */
  lemma RasterizeIdempotent(r: PortalRasterizer, chunkRegion: Box, v: Voxels, markers: seq<Marker>)
    ensures Rasterize(r, chunkRegion, Rasterize(r, chunkRegion, v, markers), markers) == Rasterize(r, chunkRegion, v, markers)
  {
    var once := Rasterize(r, chunkRegion, v, markers);
    var twice := Rasterize(r, chunkRegion, once, markers);
    forall q ensures CellAt(twice, q) == CellAt(once, q) {
      RasterizeAt(r, chunkRegion, v, markers, q);
      RasterizeAt(r, chunkRegion, once, markers, q);
      MarkersCellClosedForm(r, chunkRegion, markers, q, CellAt(v, q));
      MarkersCellClosedForm(r, chunkRegion, markers, q, CellAt(once, q));
      if InsideSome(markers, q) {
        AttachIdempotent(CellAt(v, q).entity, r.getDestination(q));
      }
    }
    CellsDetermineVoxels(twice, once);
  }

  // ---------------------------------------------------------------------------
  // The chunk being generated
  // ---------------------------------------------------------------------------

  /** A chunk's blocks and the entities attached to them, updated in place. */
  class Chunk {
    var blocks: map<Vec3, Block>
    var entities: map<Vec3, BlockEntity>

    function State(): Voxels
      reads this
    {
      Voxels(blocks, entities)
    }

    constructor (blocks: map<Vec3, Block>, entities: map<Vec3, BlockEntity>)
      ensures State() == Voxels(blocks, entities)
    {
      this.blocks := blocks;
      this.entities := entities;
    }

    /** Sets the block at `p` and returns the block that was there. */
    method SetBlock(p: Vec3, b: Block) returns (previous: Option<Block>)
      modifies this`blocks
      ensures blocks == old(blocks)[p := b]
      ensures previous == if p in old(blocks) then Some(old(blocks)[p]) else None
    {
      previous := if p in blocks then Some(blocks[p]) else None;
      blocks := blocks[p := b];
    }
  }

  /** Carves the walls position `p` of marker `m`, whose inside box is `inside`. */
  method CarvePosition(r: PortalRasterizer, chunk: Chunk, chunkRegion: Box, m: Marker, inside: Box, p: Vec3)
    requires inside == Inside(m)
    modifies chunk
    ensures chunk.State() == CarveVoxel(r, chunkRegion, m, old(chunk.State()), p)
  {
    if chunkRegion.Encompasses(p) && !inside.Encompasses(p) {
      var _ := chunk.SetBlock(p, r.structureBlock);
    } else if inside.Encompasses(p) {
      var _ := chunk.SetBlock(p, r.portalBlock);
      var destination := r.getDestination(p);
      if p !in chunk.entities {
        chunk.entities := chunk.entities[p := BlockEntity(Some(PortalComponent(None, destination)), {})];
      } else if chunk.entities[p].portal.Some? {
        var e := chunk.entities[p];
        chunk.entities := chunk.entities[p := e.(portal := Some(e.portal.value.(destination := destination)))];
      } else {
        var e := chunk.entities[p];
        chunk.entities := chunk.entities[p := e.(portal := Some(PortalComponent(None, destination)))];
      }
    }
  }

  /** Carves one marker: builds its walls and inside boxes and carves every walls position. */
  method CarveMarkerInto(r: PortalRasterizer, chunk: Chunk, chunkRegion: Box, m: Marker)
    modifies chunk
    ensures chunk.State() == CarveMarker(r, chunkRegion, old(chunk.State()), m)
  {
    ghost var before := chunk.State();
    var centerHousePosition := m.position.Plus(Vec3(0, m.extent, 0));
    var walls := FromCenterExtents(centerHousePosition, Vec3(m.extent, m.extent, 0));
    var inside := FromCenterExtents(centerHousePosition, Vec3(m.extent - 1, m.extent - 1, 0));
    assert walls == Walls(m) && inside == Inside(m);
    var ps := Positions(walls);
    for j := 0 to |ps|
      invariant chunk.State() == CarveVoxels(r, chunkRegion, m, before, ps[..j])
    {
      assert ps[..j + 1][..j] == ps[..j];
      CarvePosition(r, chunk, chunkRegion, m, inside, ps[j]);
    }
    assert ps[..|ps|] == ps;
  }

  /**
   * Carves every marker of the chunk's portal facet, given in iteration order,
   * into the chunk.
   */
  method GenerateChunk(r: PortalRasterizer, chunk: Chunk, chunkRegion: Box, markers: seq<Marker>)
    modifies chunk
    ensures chunk.State() == Rasterize(r, chunkRegion, old(chunk.State()), markers)
  {
    ghost var initial := chunk.State();
    for i := 0 to |markers|
      invariant chunk.State() == Rasterize(r, chunkRegion, initial, markers[..i])
    {
      assert markers[..i + 1][..i] == markers[..i];
      CarveMarkerInto(r, chunk, chunkRegion, markers[i]);
    }
    assert markers[..|markers|] == markers;
  }
}
