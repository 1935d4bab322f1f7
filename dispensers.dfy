/**
 * Dispensers (server/block/dispenser.go): a nine-slot container with a
 * viewer set that, unlike a chest's, triggers no animation; its block state
 * and its saved record.
 */
module Dispensers {
  import opened Wrappers
  import opened Cube
  import opened Items
  import opened Nbt
  import opened Events
  import opened Inventories
  import opened Blocks
  import opened Worlds

  /** The slot count NewDispenser uses (the Inventory doc comment says 5). */
  const DispenserSize: nat := 9

  predicate Initialised(d: Block) {
    d.Dispenser? && d.inventory != null && d.viewers != null
  }

  /** NewDispenser: a fresh 9-slot inventory reporting to a fresh, empty viewer set. */
  method NewDispenser() returns (d: Block)
    ensures Initialised(d) && fresh(d.inventory) && fresh(d.viewers)
    ensures d.inventory.slots == Empties(DispenserSize)
    ensures d.inventory.viewers == d.viewers && d.viewers.members == {}
    ensures d.customName == "" && d.face == FaceDown && !d.triggered
  {
    var v := new ViewerSet();
    var inv := new Inventory(DispenserSize, v);
    d := Dispenser("", FaceDown, false, inv, v);
  }

  /** AddViewer: insert the viewer, with no side effect on the world. */
  method AddViewer(d: Block, v: Viewer)
    requires d.Dispenser? && d.viewers != null
    modifies d.viewers
    ensures d.viewers.members == old(d.viewers.members) + {v}
  {
    d.viewers.members := d.viewers.members + {v};
  }

  /**
   * RemoveViewer: nothing on an empty set, otherwise delete exactly that
   * viewer; both cases leave the set without `v` and with every other member.
   */
  method RemoveViewer(d: Block, v: Viewer)
    requires d.Dispenser? && d.viewers != null
    modifies d.viewers
    ensures old(d.viewers.members) == {} ==> d.viewers.members == {}
    ensures d.viewers.members == old(d.viewers.members) - {v}
  {
    if d.viewers.members == {} {
      return;
    }
    d.viewers.members := d.viewers.members - {v};
  }

  /** EncodeBlock. */
  function EncodeBlock(d: Block): (s: BlockState)
    requires d.Dispenser?
    ensures s.name == "minecraft:dispenser"
    ensures s.properties.Keys == {"facing_direction", "triggered_bit"}
    ensures s.properties["facing_direction"] == Int(FacingCode(d.face))
    ensures s.properties["triggered_bit"] == Bool(d.triggered)
  {
    BlockState("minecraft:dispenser",
      map["facing_direction" := Int(FacingCode(d.face)), "triggered_bit" := Bool(d.triggered)])
  }

  /** Distinct valid dispenser states encode to distinct block states. */
  lemma EncodeBlockInjective(d: Block, e: Block)
    requires d.Dispenser? && e.Dispenser? && IsFace(d.face) && IsFace(e.face)
    ensures EncodeBlock(d) == EncodeBlock(e) <==> d.face == e.face && d.triggered == e.triggered
  {
    if EncodeBlock(d) == EncodeBlock(e) {
      assert EncodeBlock(d).properties["facing_direction"] == EncodeBlock(e).properties["facing_direction"];
      assert EncodeBlock(d).properties["triggered_bit"] == EncodeBlock(e).properties["triggered_bit"];
    }
  }

  /** The slots EncodeNBT saves: a missing inventory is a fresh 9-slot one. */
  function SavedSlots(d: Block): (s: seq<Stack>)
    requires d.Dispenser?
    reads d.inventory
    ensures d.inventory == null ==> s == Empties(DispenserSize)
    ensures d.inventory != null ==> s == d.inventory.slots
  {
    if d.inventory == null then Empties(DispenserSize) else d.inventory.slots
  }

  /** EncodeNBT. */
  function EncodeNBT(d: Block): (m: Record)
    requires d.Dispenser?
    reads d.inventory
    ensures "id" in m && m["id"] == Str("Dispenser")
    ensures "Items" in m && m["Items"] == ItemList(SavedSlots(d))
    ensures "CustomName" in m <==> d.customName != ""
    ensures "CustomName" in m ==> m["CustomName"] == Str(d.customName)
    ensures forall k :: k in m ==> k in {"id", "Items", "CustomName"}
  {
    var base := map["Items" := ItemList(SavedSlots(d)), "id" := Str("Dispenser")];
    if d.customName != "" then base["CustomName" := Str(d.customName)] else base
  }

  /**
   * DecodeNBT: a fresh dispenser with the receiver's facing, the record's
   * name and items; `triggered` is not part of the record and starts false.
   */
  method DecodeNBT(d: Block, data: Record) returns (r: Block)
    requires d.Dispenser?
    ensures Initialised(r) && fresh(r.inventory) && fresh(r.viewers)
    ensures r.face == d.face && !r.triggered
    ensures r.customName == GetString(data, "CustomName")
    ensures r.inventory.slots == FillSlots(DispenserSize, GetItems(data, "Items"))
    ensures r.viewers.members == {} && r.inventory.viewers == r.viewers
  {
    var face := d.face;
    r := NewDispenser();
    r := r.(face := face, customName := GetString(data, "CustomName"));
    r.inventory.slots := FillSlots(DispenserSize, GetItems(data, "Items"));
  }

  /** Saving and loading a dispenser gives back its name and its nine slots. */
  lemma {:induction false} RecordRoundTrip(d: Block)
    requires d.Dispenser?
    requires d.inventory != null ==> |d.inventory.slots| == DispenserSize
    ensures GetString(EncodeNBT(d), "CustomName") == d.customName
    ensures FillSlots(DispenserSize, GetItems(EncodeNBT(d), "Items")) == SavedSlots(d)
  {
    FillSlotsOfSameSize(SavedSlots(d));
  }

  /** allDispensers: for each face, an untriggered and then a triggered state. */
  function AllDispensers(): (bs: seq<Block>)
    ensures |bs| == 2 * |Faces()|
    ensures forall i :: 0 <= i < |bs| ==>
      && bs[i].Dispenser? && bs[i].face == Faces()[i / 2] && bs[i].triggered == (i % 2 == 1)
      && bs[i].customName == "" && bs[i].inventory == null && bs[i].viewers == null
    ensures forall f, t :: IsFace(f) ==> Dispenser("", f, t, null, null) in bs
  {
    var fs := Faces();
    var bs := seq(2 * |fs|, i requires 0 <= i < 2 * |fs| => Dispenser("", fs[i / 2], i % 2 == 1, null, null));
    assert forall f, t :: IsFace(f) ==> Dispenser("", f, t, null, null) in bs by {
      forall f, t | IsFace(f) ensures Dispenser("", f, t, null, null) in bs {
        var k :| 0 <= k < |fs| && fs[k] == f;
        var i := 2 * k + (if t then 1 else 0);
        assert bs[i] == Dispenser("", f, t, null, null);
      }
    }
    bs
  }

  /** Activate: the same rule as a chest's (Blocks.ActivateContainer). */
  function Activate(isOpener: bool, aboveDiffusion: Option<int>): (r: Activation)
    ensures r == ActivateContainer(isOpener, aboveDiffusion)
    ensures !isOpener ==> !r.handled && !r.opens
  {
    ActivateContainer(isOpener, aboveDiffusion)
  }

  /**
   * UseOnBlock at the resolved position: a new dispenser with the given face
   * (the user's rotation turned around, which is not part of this model)
   * replaces the block there.
   */
  method UseOnBlock(pos: Pos, w: World, face: int) returns (used: bool, d: Block)
    modifies w
    ensures used && Initialised(d) && fresh(d.inventory) && fresh(d.viewers)
    ensures d.inventory.slots == Empties(DispenserSize) && d.inventory.viewers == d.viewers && d.viewers.members == {}
    ensures d.face == face && d.customName == "" && !d.triggered
    ensures w.blocks == old(w.blocks)[pos := d] && w.events == old(w.events) + [BlockSet(pos, NoOpts)]
    ensures w.liquids == old(w.liquids)
  {
    d := NewDispenser();
    d := Dispenser(d.customName, face, d.triggered, d.inventory, d.viewers);
    w.SetBlock(pos, d, NoOpts);
    used := true;
  }
}
