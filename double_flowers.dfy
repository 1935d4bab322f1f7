/**
 * Double flowers (server/block/double_flower.go): a two-block plant whose
 * halves break when the other half or the supporting block goes missing.
 */
module DoubleFlowers {
  import opened Cube
  import opened Items
  import opened Nbt
  import opened Events
  import opened Blocks
  import opened Worlds

  /** The item a double flower drops, as its EncodeItem names it. */
  function ItemOf(d: Block): (it: Item)
    requires d.DoubleFlower?
    ensures it == Plain("minecraft:double_plant", d.doubleType.id)
  {
    Plain("minecraft:double_plant", d.doubleType.id)
  }

  /** The other half an upper or lower half needs. */
  predicate HasPartner(d: Block, other: Block)
    requires d.DoubleFlower?
  {
    other.DoubleFlower? && other.doubleType == d.doubleType && other.upperPart == !d.upperPart
  }

  /**
   * Whether a neighbour update leaves the half in place: an upper half needs
   * its lower half below; a lower half needs its upper half above and a
   * supporting block below.
   */
  function Stays(d: Block, w: World, pos: Pos): (r: bool)
    requires d.DoubleFlower?
    reads w
    ensures d.upperPart ==> (r <==> HasPartner(d, w.BlockAt(pos.Side(FaceDown))))
    ensures !d.upperPart ==> (r <==> HasPartner(d, w.BlockAt(pos.Side(FaceUp))) &&
                                     w.supportsVegetation(d, w.BlockAt(pos.Side(FaceDown))))
  {
    if d.upperPart then HasPartner(d, w.BlockAt(pos.Side(FaceDown)))
    else HasPartner(d, w.BlockAt(pos.Side(FaceUp))) && w.supportsVegetation(d, w.BlockAt(pos.Side(FaceDown)))
  }

  /**
   * NeighbourUpdateTick. A half that cannot stay is removed with a break
   * particle; only an upper half also drops the flower.
   */
  method NeighbourUpdateTick(d: Block, pos: Pos, w: World)
    requires d.DoubleFlower?
    modifies w
    ensures old(Stays(d, w, pos)) ==> w.blocks == old(w.blocks) && w.events == old(w.events)
    ensures !old(Stays(d, w, pos)) ==> w.blocks == old(w.blocks)[pos := Air]
    ensures !old(Stays(d, w, pos)) ==>
      w.events == old(w.events) + [BlockSet(pos, NoOpts), BreakParticle(pos)] +
                  (if d.upperPart then [ItemDropped(pos, Stack(ItemOf(d), 1))] else [])
    ensures w.liquids == old(w.liquids)
  {
    if d.upperPart {
      var bottom := w.BlockAt(pos.Side(FaceDown));
      if !bottom.DoubleFlower? || bottom.doubleType != d.doubleType || bottom.upperPart {
        w.SetBlock(pos, Air, NoOpts);
        w.Emit([BreakParticle(pos), ItemDropped(pos, Stack(ItemOf(d), 1))]);
      }
      return;
    }
    var upper := w.BlockAt(pos.Side(FaceUp));
    if !upper.DoubleFlower? || upper.doubleType != d.doubleType || !upper.upperPart {
      w.SetBlock(pos, Air, NoOpts);
      w.Emit([BreakParticle(pos)]);
      return;
    }
    if !w.supportsVegetation(d, w.BlockAt(pos.Side(FaceDown))) {
      w.SetBlock(pos, Air, NoOpts);
      w.Emit([BreakParticle(pos)]);
    }
  }

  /**
   * UseOnBlock at the resolved position: the block above must be replaceable
   * by the flower and the block below must support it; then the flower
   * itself and a matching upper half are placed. When the flower placed is a
   * lower half (as the item form is), each half then keeps the other in place.
   */
  method UseOnBlock(d: Block, pos: Pos, w: World) returns (used: bool)
    requires d.DoubleFlower?
    modifies w
    ensures used == old(w.replaceableBy(w.BlockAt(pos.Side(FaceUp)), d) && w.supportsVegetation(d, w.BlockAt(pos.Side(FaceDown))))
    ensures !used ==> w.blocks == old(w.blocks) && w.events == old(w.events)
    ensures used ==> w.blocks == old(w.blocks)[pos := d][pos.Side(FaceUp) := DoubleFlower(true, d.doubleType)]
    ensures used ==> w.events == old(w.events) + [BlockSet(pos, NoOpts), BlockSet(pos.Side(FaceUp), NoOpts)]
    ensures used && !d.upperPart ==> Stays(d, w, pos) && Stays(DoubleFlower(true, d.doubleType), w, pos.Side(FaceUp))
    ensures w.liquids == old(w.liquids)
  {
    if !w.replaceableBy(w.BlockAt(pos.Side(FaceUp)), d) {
      return false;
    }
    if !w.supportsVegetation(d, w.BlockAt(pos.Side(FaceDown))) {
      return false;
    }
    w.SetBlock(pos, d, NoOpts);
    w.SetBlock(pos.Side(FaceUp), DoubleFlower(true, d.doubleType), NoOpts);
    assert pos.Side(FaceUp).Side(FaceDown) == pos;
    return true;
  }

  /** BoneMeal: always succeeds, dropping one flower. */
  method BoneMeal(d: Block, pos: Pos, w: World) returns (ok: bool)
    requires d.DoubleFlower?
    modifies w`events
    ensures ok && w.events == old(w.events) + [ItemDropped(pos, Stack(ItemOf(d), 1))]
  {
    w.Emit([ItemDropped(pos, Stack(ItemOf(d), 1))]);
    return true;
  }

  /** EncodeBlock. */
  function EncodeBlock(d: Block): (s: BlockState)
    requires d.DoubleFlower?
    ensures s.name == "minecraft:double_plant"
    ensures s.properties == map["double_plant_type" := Str(d.doubleType.name), "upper_block_bit" := Bool(d.upperPart)]
  {
    BlockState("minecraft:double_plant",
      map["double_plant_type" := Str(d.doubleType.name), "upper_block_bit" := Bool(d.upperPart)])
  }

  /** Types with distinct names give distinct block states for distinct halves. */
  lemma EncodeBlockInjective(d: Block, e: Block)
    requires d.DoubleFlower? && e.DoubleFlower?
    ensures EncodeBlock(d) == EncodeBlock(e) <==> d.doubleType.name == e.doubleType.name && d.upperPart == e.upperPart
  {
    if EncodeBlock(d) == EncodeBlock(e) {
      assert EncodeBlock(d).properties["double_plant_type"] == EncodeBlock(e).properties["double_plant_type"];
      assert EncodeBlock(d).properties["upper_block_bit"] == EncodeBlock(e).properties["upper_block_bit"];
    }
  }

  /** allDoubleFlowers over the given types (DoubleFlowerTypes): the upper half, then the lower half. */
  function AllDoubleFlowers(types: seq<DoubleFlowerType>): (bs: seq<Block>)
    ensures |bs| == 2 * |types|
    ensures forall i :: 0 <= i < |bs| ==> bs[i] == DoubleFlower(i % 2 == 0, types[i / 2])
    ensures forall t, u :: t in types ==> DoubleFlower(u, t) in bs
  {
    var bs := seq(2 * |types|, i requires 0 <= i < 2 * |types| => DoubleFlower(i % 2 == 0, types[i / 2]));
    assert forall t, u :: t in types ==> DoubleFlower(u, t) in bs by {
      forall t, u | t in types ensures DoubleFlower(u, t) in bs {
        var k :| 0 <= k < |types| && types[k] == t;
        assert bs[2 * k + (if u then 0 else 1)] == DoubleFlower(u, t);
      }
    }
    bs
  }
}
