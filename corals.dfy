/**
 * Coral (server/block/coral.go): a plant that needs a solid block below it
 * and dies once no water touches it.
 */
module Corals {
  import opened Wrappers
  import opened Cube
  import opened Items
  import opened Events
  import opened Blocks
  import opened Worlds

  /** The full-water depth a coral may be placed into. */
  const FullWaterDepth: int := 8
  /** The delay before a living coral checks for water again: 5/2 seconds. */
  const DryingDelayMillis: int := 2500

  /** Whether the block below offers a solid top face. */
  predicate Supported(w: World, pos: Pos)
    reads w
  {
    w.faceSolid(w.BlockAt(pos.Side(FaceDown)), FaceUp)
  }

  predicate IsWater(l: Option<Liquid>) {
    l.Some? && l.value.Water?
  }

  /** Whether a position lies inside the world's vertical range. */
  predicate InRange(w: World, p: Pos)
  {
    w.minY <= p.y <= w.maxY
  }

  /** Is there water on one of the six sides of pos, within the world's range? */
  predicate AdjacentWater(w: World, pos: Pos)
    reads w
  {
    exists i :: 0 <= i < 6 && InRange(w, pos.Side(Faces()[i])) && IsWater(w.LiquidAt(pos.Side(Faces()[i])))
  }

  /**
   * UseOnBlock at the resolved position: refused without support below, or
   * when the position holds water that is not full; otherwise placed.
   */
  method UseOnBlock(c: Block, pos: Pos, w: World) returns (used: bool)
    requires c.Coral?
    modifies w
    ensures used <==> old(Supported(w, pos)) &&
                      !(old(IsWater(w.LiquidAt(pos))) && old(w.LiquidAt(pos)).value.depth != FullWaterDepth)
    ensures used ==> w.blocks == old(w.blocks)[pos := c] && w.events == old(w.events) + [BlockSet(pos, NoOpts)]
    ensures !used ==> w.blocks == old(w.blocks) && w.events == old(w.events)
    ensures used ==> Supported(w, pos)
    ensures w.liquids == old(w.liquids)
  {
    if !w.faceSolid(w.BlockAt(pos.Side(FaceDown)), FaceUp) {
      return false;
    }
    var liquid := w.LiquidAt(pos);
    if liquid.Some? && liquid.value.Water? && liquid.value.depth != FullWaterDepth {
      return false;
    }
    w.SetBlock(pos, c, NoOpts);
    return true;
  }

  /**
   * NeighbourUpdateTick: without support the coral breaks (no drop);
   * a living coral otherwise schedules a water check.
   */
  method NeighbourUpdateTick(c: Block, pos: Pos, w: World)
    requires c.Coral?
    modifies w
    ensures !old(Supported(w, pos)) ==>
      w.blocks == old(w.blocks)[pos := Air] &&
      w.events == old(w.events) + [BlockSet(pos, NoOpts), BreakParticle(pos)]
    ensures old(Supported(w, pos)) ==> w.blocks == old(w.blocks)
    ensures old(Supported(w, pos)) && c.dead ==> w.events == old(w.events)
    ensures old(Supported(w, pos)) && !c.dead ==>
      w.events == old(w.events) + [UpdateScheduled(pos, DryingDelayMillis)]
    ensures w.liquids == old(w.liquids)
  {
    if !w.faceSolid(w.BlockAt(pos.Side(FaceDown)), FaceUp) {
      w.SetBlock(pos, Air, NoOpts);
      w.Emit([BreakParticle(pos)]);
      return;
    }
    if c.dead {
      return;
    }
    w.Emit([UpdateScheduled(pos, DryingDelayMillis)]);
  }

  /** ScheduledTick: a living coral with no water beside it dies in place. */
  method ScheduledTick(c: Block, pos: Pos, w: World)
    requires c.Coral?
    modifies w
    ensures c.dead || old(AdjacentWater(w, pos)) ==> w.blocks == old(w.blocks) && w.events == old(w.events)
    ensures !c.dead && !old(AdjacentWater(w, pos)) ==>
      w.blocks == old(w.blocks)[pos := c.(dead := true)] &&
      w.events == old(w.events) + [BlockSet(pos, NoOpts)]
    ensures w.liquids == old(w.liquids)
  {
    if c.dead {
      return;
    }
    var adjacentWater := false;
    var faces := Faces();
    for i := 0 to |faces|
      invariant adjacentWater <==>
        exists j :: 0 <= j < i && InRange(w, pos.Side(faces[j])) && IsWater(w.LiquidAt(pos.Side(faces[j])))
    {
      var neighbour := pos.Side(faces[i]);
      if w.minY <= neighbour.y <= w.maxY {
        var liquid := w.LiquidAt(neighbour);
        if liquid.Some? && liquid.value.Water? {
          adjacentWater := true;
        }
      }
    }
    if !adjacentWater {
      w.SetBlock(pos, c.(dead := true), NoOpts);
    }
  }

  /** A coral in range of water never dies; one without water dies after one scheduled tick. */
  lemma WaterKeepsCoralAlive(w: World, pos: Pos, f: int)
    requires IsFace(f) && InRange(w, pos.Side(f)) && IsWater(w.LiquidAt(pos.Side(f)))
    ensures AdjacentWater(w, pos)
  {
    var i := if f == FaceDown then 0 else if f == FaceUp then 1 else if f == FaceNorth then 2
             else if f == FaceSouth then 3 else if f == FaceWest then 4 else 5;
    assert Faces()[i] == f;
  }

  /** The name shared by EncodeBlock and EncodeItem. */
  function Name(c: Block): (s: string)
    requires c.Coral?
    ensures c.dead ==> s == "minecraft:dead_" + c.coralType.name + "_coral"
    ensures !c.dead ==> s == "minecraft:" + c.coralType.name + "_coral"
  {
    if c.dead then "minecraft:dead_" + c.coralType.name + "_coral"
    else "minecraft:" + c.coralType.name + "_coral"
  }

  /** EncodeBlock: no properties. */
  function EncodeBlock(c: Block): (s: BlockState)
    requires c.Coral?
    ensures s == BlockState(Name(c), map[])
  {
    BlockState(Name(c), map[])
  }

  /** EncodeItem: meta 0. */
  function EncodeItem(c: Block): (it: Item)
    requires c.Coral?
    ensures it == Plain(Name(c), 0)
  {
    Plain(Name(c), 0)
  }

  /**
   * Type names are put between fixed affixes, so a living and a dead coral
   * never share a name and names determine the type.
   */
  lemma NameInjective(c: Block, d: Block)
    requires c.Coral? && d.Coral?
    requires c.coralType.name != [] && d.coralType.name != []
    requires c.coralType.name[0] != 'd' && d.coralType.name[0] != 'd'
    ensures Name(c) == Name(d) <==> c.dead == d.dead && c.coralType.name == d.coralType.name
  {
    var prefix := "minecraft:";
    if Name(c) == Name(d) {
      assert Name(c)[..|prefix|] == prefix && Name(d)[..|prefix|] == prefix;
      assert Name(c)[|prefix|] == (if c.dead then 'd' else c.coralType.name[0]);
      assert Name(d)[|prefix|] == (if d.dead then 'd' else d.coralType.name[0]);
      assert c.dead == d.dead;
      var pre := if c.dead then "minecraft:dead_" else prefix;
      assert c.coralType.name == Name(c)[|pre|..|pre| + |c.coralType.name|];
      assert d.coralType.name == Name(d)[|pre|..|pre| + |d.coralType.name|];
      assert |c.coralType.name| == |d.coralType.name|;
    }
  }

  /** allCoral over the given types (CoralTypes): every dead coral, then every living one. */
  function AllCoral(types: seq<CoralType>): (bs: seq<Block>)
    ensures |bs| == 2 * |types|
    ensures forall i :: 0 <= i < |types| ==> bs[i] == Coral(types[i], true) && bs[|types| + i] == Coral(types[i], false)
  {
    seq(|types|, i requires 0 <= i < |types| => Coral(types[i], true)) +
    seq(|types|, i requires 0 <= i < |types| => Coral(types[i], false))
  }
}
