/** Hoppers (server/block/hopper.go): the block-state codec and the state list. */
module Hoppers {
  import opened Cube
  import opened Nbt
  import opened Blocks

  /** EncodeBlock. */
  function EncodeBlock(h: Block): (s: BlockState)
    requires h.Hopper?
    ensures s.name == "minecraft:hopper"
    ensures s.properties.Keys == {"facing_direction", "toggle_bit"}
    ensures s.properties["facing_direction"] == Int(FacingCode(h.face))
    ensures s.properties["toggle_bit"] == Bool(h.toggled)
  {
    BlockState("minecraft:hopper",
      map["facing_direction" := Int(FacingCode(h.face)), "toggle_bit" := Bool(h.toggled)])
  }

  /** Distinct valid hopper states encode to distinct block states. */
  lemma EncodeBlockInjective(h: Block, k: Block)
    requires h.Hopper? && k.Hopper? && IsFace(h.face) && IsFace(k.face)
    ensures EncodeBlock(h) == EncodeBlock(k) <==> h == k
  {
    if EncodeBlock(h) == EncodeBlock(k) {
      assert EncodeBlock(h).properties["facing_direction"] == EncodeBlock(k).properties["facing_direction"];
      assert EncodeBlock(h).properties["toggle_bit"] == EncodeBlock(k).properties["toggle_bit"];
    }
  }

  /** allHoppers: for each face, an untoggled and then a toggled state. */
  function AllHoppers(): (bs: seq<Block>)
    ensures |bs| == 2 * |Faces()|
    ensures forall i :: 0 <= i < |bs| ==> bs[i] == Hopper(Faces()[i / 2], i % 2 == 1)
    ensures forall f, t :: IsFace(f) ==> Hopper(f, t) in bs
  {
    var fs := Faces();
    var bs := seq(2 * |fs|, i requires 0 <= i < 2 * |fs| => Hopper(fs[i / 2], i % 2 == 1));
    assert forall f, t :: IsFace(f) ==> Hopper(f, t) in bs by {
      forall f, t | IsFace(f) ensures Hopper(f, t) in bs {
        var k :| 0 <= k < |fs| && fs[k] == f;
        assert bs[2 * k + (if t then 1 else 0)] == Hopper(f, t);
      }
    }
    bs
  }
}
