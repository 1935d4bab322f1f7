/**
 * The world as the modelled blocks use it: the verbs Block, SetBlock,
 * ScheduleBlockUpdate, Liquid and Viewers, over a map from positions to
 * blocks. World storage, chunking and update dispatch (server/world) are not
 * part of this model; what the world would do next (neighbour updates, the
 * scheduled tick) is only recorded in the event log.
 */
module Worlds {
  import opened Wrappers
  import opened Cube
  import opened Items
  import opened Events
  import opened Blocks

  datatype Liquid = Water(depth: int) | Lava(depth: int)

  class World {
    var blocks: map<Pos, Block>
    var liquids: map<Pos, Liquid>
    var events: seq<Event>

    /** The vertical range of the world (world.Range). */
    const minY: int
    const maxY: int

    // Capability queries answered by code that is not part of this model.
    /** The sessions that can see a position (World.Viewers). */
    const viewersOf: Pos -> seq<Viewer>
    /** supportsVegetation(plant, soil). */
    const supportsVegetation: (Block, Block) -> bool
    /** Model().FaceSolid of a block on one of its faces. */
    const faceSolid: (Block, int) -> bool
    /** Whether a block may be replaced by another one being placed. */
    const replaceableBy: (Block, Block) -> bool

    constructor (minY: int, maxY: int, viewersOf: Pos -> seq<Viewer>,
                 supportsVegetation: (Block, Block) -> bool,
                 faceSolid: (Block, int) -> bool,
                 replaceableBy: (Block, Block) -> bool)
      ensures blocks == map[] && liquids == map[] && events == []
      ensures this.minY == minY && this.maxY == maxY && this.viewersOf == viewersOf
      ensures this.supportsVegetation == supportsVegetation && this.faceSolid == faceSolid
      ensures this.replaceableBy == replaceableBy
    {
      blocks, liquids, events := map[], map[], [];
      this.minY, this.maxY := minY, maxY;
      this.viewersOf := viewersOf;
      this.supportsVegetation := supportsVegetation;
      this.faceSolid := faceSolid;
      this.replaceableBy := replaceableBy;
    }

    /** World.Block: a position never written holds air. */
    function BlockAt(p: Pos): Block
      reads this
    {
      if p in blocks then blocks[p] else Air
    }

    /** World.Liquid. */
    function LiquidAt(p: Pos): Option<Liquid>
      reads this
    {
      if p in liquids then Some(liquids[p]) else None
    }

    /** World.Viewers. */
    function Viewers(p: Pos): seq<Viewer> {
      viewersOf(p)
    }

    /** World.SetBlock; a nil block is Air and nil options are NoOpts. */
    method SetBlock(p: Pos, b: Block, opts: SetOpts)
      modifies this
      ensures blocks == old(blocks)[p := b]
      ensures liquids == old(liquids)
      ensures events == old(events) + [BlockSet(p, opts)]
    {
      blocks := blocks[p := b];
      events := events + [BlockSet(p, opts)];
    }

    /** Record effects that do not change any block. */
    method Emit(es: seq<Event>)
      modifies this`events
      ensures events == old(events) + es
    {
      events := events + es;
    }
  }
}
