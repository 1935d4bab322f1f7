/**
 * Carpet (server/block/carpet.go): a thin coloured block that cannot rest on air.
 */
module Carpets {
  import opened Cube
  import opened Items
  import opened Events
  import opened Blocks
  import opened Worlds

  /** The name shared by EncodeItem and EncodeBlock. */
  function Name(c: Block): (s: string)
    requires c.Carpet?
    ensures |s| == |c.colour.name| + 17
    ensures s[..10] == "minecraft:" && s[|s| - 7..] == "_carpet"
    ensures s[10..|s| - 7] == c.colour.name
  {
    var s := "minecraft:" + c.colour.name + "_carpet";
    assert s[10..|s| - 7] == c.colour.name;
    s
  }

  /** The colour can be read back from the name. */
  lemma NameInjective(c: Block, d: Block)
    requires c.Carpet? && d.Carpet?
    ensures Name(c) == Name(d) <==> c.colour == d.colour
  {
  }

  function EncodeItem(c: Block): (it: Item)
    requires c.Carpet?
    ensures it == Plain(Name(c), 0)
  {
    Plain(Name(c), 0)
  }

  function EncodeBlock(c: Block): (s: BlockState)
    requires c.Carpet?
    ensures s == BlockState(Name(c), map[])
  {
    BlockState(Name(c), map[])
  }

  /** NeighbourUpdateTick: over air the carpet is removed and drops itself (no particle). */
  method NeighbourUpdateTick(c: Block, pos: Pos, w: World)
    requires c.Carpet?
    modifies w
    ensures old(w.BlockAt(pos.Side(FaceDown))).Air? ==>
      w.blocks == old(w.blocks)[pos := Air] &&
      w.events == old(w.events) + [BlockSet(pos, NoOpts), ItemDropped(pos, Stack(EncodeItem(c), 1))]
    ensures !old(w.BlockAt(pos.Side(FaceDown))).Air? ==> w.blocks == old(w.blocks) && w.events == old(w.events)
    ensures w.liquids == old(w.liquids)
  {
    if w.BlockAt(pos.Side(FaceDown)).Air? {
      w.SetBlock(pos, Air, NoOpts);
      w.Emit([ItemDropped(pos, Stack(EncodeItem(c), 1))]);
    }
  }

  /**
   * UseOnBlock at the resolved position: nothing is placed over air,
   * otherwise the carpet is placed. Either way the use is reported, because
   * the bare return over air hands back the `used` that firstReplaceable
   * has already set.
   */
  method UseOnBlock(c: Block, pos: Pos, w: World) returns (used: bool)
    requires c.Carpet?
    modifies w
    ensures used
    ensures old(w.BlockAt(pos.Side(FaceDown))).Air? ==> w.blocks == old(w.blocks) && w.events == old(w.events)
    ensures !old(w.BlockAt(pos.Side(FaceDown))).Air? ==>
      w.blocks == old(w.blocks)[pos := c] && w.events == old(w.events) + [BlockSet(pos, NoOpts)]
    ensures w.BlockAt(pos) == c ==> !w.BlockAt(pos.Side(FaceDown)).Air? || old(w.BlockAt(pos)) == c
    ensures w.liquids == old(w.liquids)
  {
    if w.BlockAt(pos.Side(FaceDown)).Air? {
      return true;
    }
    w.SetBlock(pos, c, NoOpts);
    return true;
  }

  /** allCarpet over the given colours (item.Colours): one carpet per colour, in order. */
  function AllCarpet(colours: seq<Colour>): (bs: seq<Block>)
    ensures |bs| == |colours|
    ensures forall i :: 0 <= i < |bs| ==> bs[i] == Carpet(colours[i])
  {
    seq(|colours|, i requires 0 <= i < |colours| => Carpet(colours[i]))
  }
}
