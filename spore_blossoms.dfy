/**
 * Spore blossom (server/block/spore_blossom.go): a flower that hangs from
 * the solid underside of the block above it.
 */
module SporeBlossoms {
  import opened Cube
  import opened Items
  import opened Events
  import opened Blocks
  import opened Worlds

  const Name: string := "minecraft:spore_blossom"

  /** HasLiquidDrops: a blossom washed away by liquid drops its item. */
  function HasLiquidDrops(): (b: bool)
    ensures b
  {
    true
  }

  /** Whether the block above offers a solid bottom face to hang from. */
  predicate Hanging(w: World, pos: Pos)
    reads w
  {
    w.faceSolid(w.BlockAt(pos.Side(FaceUp)), FaceDown)
  }

  /** NeighbourUpdateTick: without a ceiling the blossom breaks, leaving a particle and no drop. */
  method NeighbourUpdateTick(pos: Pos, w: World)
    modifies w
    ensures !old(Hanging(w, pos)) ==>
      w.blocks == old(w.blocks)[pos := Air] &&
      w.events == old(w.events) + [BlockSet(pos, NoOpts), BreakParticle(pos)]
    ensures old(Hanging(w, pos)) ==> w.blocks == old(w.blocks) && w.events == old(w.events)
    ensures w.liquids == old(w.liquids)
  {
    if !w.faceSolid(w.BlockAt(pos.Side(FaceUp)), FaceDown) {
      w.SetBlock(pos, Air, NoOpts);
      w.Emit([BreakParticle(pos)]);
    }
  }

  /**
   * UseOnBlock at the resolved position: placed exactly when there is a
   * ceiling. Either way the use is reported, because the bare return
   * without a ceiling hands back the `used` that firstReplaceable has
   * already set.
   */
  method UseOnBlock(pos: Pos, w: World) returns (used: bool)
    modifies w
    ensures used
    ensures old(Hanging(w, pos)) ==>
      w.blocks == old(w.blocks)[pos := SporeBlossom] && w.events == old(w.events) + [BlockSet(pos, NoOpts)]
    ensures !old(Hanging(w, pos)) ==> w.blocks == old(w.blocks) && w.events == old(w.events)
    ensures w.BlockAt(pos) == SporeBlossom ==> Hanging(w, pos) || old(w.BlockAt(pos)) == SporeBlossom
    ensures w.liquids == old(w.liquids)
  {
    if !w.faceSolid(w.BlockAt(pos.Side(FaceUp)), FaceDown) {
      return true;
    }
    w.SetBlock(pos, SporeBlossom, NoOpts);
    return true;
  }

  /** EncodeItem and EncodeBlock share the one name, with meta 0 and no properties. */
  function EncodeItem(): (it: Item)
    ensures it.Plain? && it.name == Name && it.meta == 0
  {
    Plain(Name, 0)
  }

  function EncodeBlock(): (s: BlockState)
    ensures s.name == Name && s.properties == map[]
  {
    BlockState(Name, map[])
  }
}
