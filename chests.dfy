/**
 * Chests (server/block/chest.go): the viewer set with edge-triggered
 * open/close animations, pairing of two neighbouring chests into one
 * double-chest inventory and unpairing, and the saved record.
 */
module Chests {
  import opened Wrappers
  import opened Ints
  import opened Cube
  import opened Items
  import opened Nbt
  import opened Events
  import opened Inventories
  import opened Blocks
  import opened Worlds

  const ChestTypeSingle: nat := 27
  const ChestTypeDouble: nat := 54

  /** A chest made by NewChest: the zero Chest has neither inventory nor viewers. */
  predicate Initialised(c: Block) {
    c.Chest? && c.inventory != null && c.viewers != null
  }

  /**
   * NewChest: a chest with a fresh inventory of `chestType` slots whose
   * slot-change callback reports to the chest's own, fresh, viewer set.
   */
  method NewChest(chestType: nat) returns (c: Block)
    ensures Initialised(c) && fresh(c.inventory) && fresh(c.viewers)
    ensures c.inventory.slots == Empties(chestType)
    ensures c.inventory.viewers == c.viewers && c.viewers.members == {}
    ensures c.customName == "" && c.facing == North
    ensures !c.paired && c.pairX == 0 && c.pairZ == 0
  {
    var v := new ViewerSet();
    var inv := new Inventory(chestType, v);
    c := Chest("", North, false, 0, 0, inv, v);
  }

  // ---------------------------------------------------------------------
  // Viewers (chest.go:100-140)

  /** One block action per session that can see the chest, in the world's order. */
  function ActionEvents(vs: seq<Viewer>, pos: Pos, a: Action): (es: seq<Event>)
    ensures |es| == |vs|
    ensures forall i :: 0 <= i < |vs| ==> es[i] == ViewBlockAction(vs[i], pos, a)
  {
    seq(|vs|, i requires 0 <= i < |vs| => ViewBlockAction(vs[i], pos, a))
  }

  /** What open (or close) shows: the lid animation to every viewer of the position, then the sound. */
  function Animation(vs: seq<Viewer>, pos: Pos, a: Action): (es: seq<Event>)
    ensures |es| == |vs| + 1 && es[..|vs|] == ActionEvents(vs, pos, a)
    ensures es[|vs|] == SoundPlayed(pos, if a == OpenAction then ChestOpen else ChestClose)
  {
    ActionEvents(vs, pos, a) + [SoundPlayed(pos, if a == OpenAction then ChestOpen else ChestClose)]
  }

  /** open and close: one ViewBlockAction per viewer of the position, then the sound. */
  method Animate(w: World, pos: Pos, a: Action)
    modifies w`events
    ensures w.events == old(w.events) + Animation(w.Viewers(pos), pos, a)
  {
    var vs := w.Viewers(pos);
    for i := 0 to |vs|
      invariant w.events == old(w.events) + ActionEvents(vs[..i], pos, a)
    {
      assert ActionEvents(vs[..i + 1], pos, a) == ActionEvents(vs[..i], pos, a) + [ViewBlockAction(vs[i], pos, a)];
      w.Emit([ViewBlockAction(vs[i], pos, a)]);
    }
    assert vs[..|vs|] == vs;
    w.Emit([SoundPlayed(pos, if a == OpenAction then ChestOpen else ChestClose)]);
  }

  /** A change to a viewer set. */
  datatype ViewerOp = AddOp(v: Viewer) | RemoveOp(v: Viewer)

  /**
   * The viewer-set automaton of AddViewer and RemoveViewer: the next set and
   * the animation that the change triggers, if any.
   */
  function Step(members: set<Viewer>, op: ViewerOp): (r: (set<Viewer>, seq<Action>))
    ensures op.AddOp? ==> r.0 == members + {op.v}
    ensures op.RemoveOp? ==> r.0 == members - {op.v}
    ensures r.1 == [OpenAction] <==> members == {} && r.0 != {}
    ensures r.1 == [CloseAction] <==> members != {} && r.0 == {}
    ensures r.1 == [] <==> (members == {}) == (r.0 == {})
  {
    match op
    case AddOp(v) => (members + {v}, if members == {} then [OpenAction] else [])
    case RemoveOp(v) =>
      if members == {} then (members, [])
      else (members - {v}, if members - {v} == {} then [CloseAction] else [])
  }

  /** The world events an automaton step's actions stand for. */
  function StepEvents(acts: seq<Action>, vs: seq<Viewer>, pos: Pos): seq<Event> {
    if acts == [] then [] else Animation(vs, pos, acts[0])
  }

  /** AddViewer: open the chest when the first viewer arrives, then insert. */
  method AddViewer(c: Block, v: Viewer, w: World, pos: Pos)
    requires c.Chest? && c.viewers != null
    modifies c.viewers, w`events
    ensures c.viewers.members == Step(old(c.viewers.members), AddOp(v)).0
    ensures w.events == old(w.events) + StepEvents(Step(old(c.viewers.members), AddOp(v)).1, w.Viewers(pos), pos)
  {
    if c.viewers.members == {} {
      Animate(w, pos, OpenAction);
    }
    c.viewers.members := c.viewers.members + {v};
  }

  /** RemoveViewer: nothing on an empty set; otherwise delete, and close once the set is empty. */
  method RemoveViewer(c: Block, v: Viewer, w: World, pos: Pos)
    requires c.Chest? && c.viewers != null
    modifies c.viewers, w`events
    ensures c.viewers.members == Step(old(c.viewers.members), RemoveOp(v)).0
    ensures w.events == old(w.events) + StepEvents(Step(old(c.viewers.members), RemoveOp(v)).1, w.Viewers(pos), pos)
  {
    if c.viewers.members == {} {
      return;
    }
    c.viewers.members := c.viewers.members - {v};
    if c.viewers.members == {} {
      Animate(w, pos, CloseAction);
    }
  }

  /** The final set and every animation of a run of viewer changes. */
  function Run(members: set<Viewer>, ops: seq<ViewerOp>): (set<Viewer>, seq<Action>)
    decreases |ops|
  {
    if ops == [] then (members, [])
    else
      var r := Step(members, ops[0]);
      var rest := Run(r.0, ops[1..]);
      (rest.0, r.1 + rest.1)
  }

  /** Animations alternate, starting with open when the chest was closed. */
  ghost predicate Alternates(acts: seq<Action>, wasOpen: bool) {
    forall i :: 0 <= i < |acts| ==> acts[i] == if (i % 2 == 0) == wasOpen then CloseAction else OpenAction
  }

  /**
   * Whatever sequence of viewer changes a chest goes through, its open and
   * close animations strictly alternate, and the chest ends up open (it has
   * viewers) exactly when an odd number of animations flipped its state.
   */
  lemma {:induction false} RunAlternates(members: set<Viewer>, ops: seq<ViewerOp>)
    ensures Alternates(Run(members, ops).1, members != {})
    ensures (Run(members, ops).0 != {}) == ((members != {}) != (|Run(members, ops).1| % 2 == 1))
    decreases |ops|
  {
    if ops != [] {
      var r := Step(members, ops[0]);
      RunAlternates(r.0, ops[1..]);
      var rest := Run(r.0, ops[1..]).1;
      var acts := Run(members, ops).1;
      assert acts == r.1 + rest;
      if r.1 != [] {
        assert (r.0 != {}) == (members == {});
        forall i | 0 <= i < |acts|
          ensures acts[i] == if (i % 2 == 0) == (members != {}) then CloseAction else OpenAction
        {
          if i > 0 {
            assert acts[i] == rest[i - 1];
          }
        }
      }
    }
  }

  /** Adding viewers one after another to a closed chest opens it exactly once. */
  lemma {:induction false} AddingViewersOpensOnce(members: set<Viewer>, vs: seq<Viewer>)
    requires vs != []
    ensures Run(members, seq(|vs|, i requires 0 <= i < |vs| => AddOp(vs[i]))).1
            == if members == {} then [OpenAction] else []
    decreases |vs|
  {
    var ops := seq(|vs|, i requires 0 <= i < |vs| => AddOp(vs[i]));
    var r := Step(members, ops[0]);
    assert r.0 != {};
    if |vs| > 1 {
      var tail := seq(|vs| - 1, i requires 0 <= i < |vs| - 1 => AddOp(vs[1..][i]));
      assert ops[1..] == tail;
      AddingViewersOpensOnce(r.0, vs[1..]);
    } else {
      assert ops[1..] == [];
    }
  }

  /**
   * The inventory callback built by NewChest: a slot change reaches every
   * current viewer of the chest exactly once.
   */
  method SetSlot(c: Block, slot: int, s: Stack) returns (sent: seq<Event>)
    requires Initialised(c) && c.inventory.viewers == c.viewers
    requires 0 <= slot < |c.inventory.slots|
    modifies c.inventory
    ensures c.inventory.slots == old(c.inventory.slots)[slot := s]
    ensures |sent| == |c.viewers.members|
    ensures forall e :: e in sent ==> e.ViewSlotChange? && e.slot == slot && e.stack == s
    ensures forall v :: v in c.viewers.members <==> exists i :: 0 <= i < |sent| && sent[i].viewer == v
  {
    ghost var order;
    sent, order := c.inventory.SetItem(slot, s);
    EnumeratesSize(order, c.viewers.members);
    forall v ensures v in c.viewers.members <==> exists i :: 0 <= i < |sent| && sent[i].viewer == v {
      if v in c.viewers.members {
        var i :| 0 <= i < |order| && order[i] == v;
        assert sent[i].viewer == v;
      }
    }
  }

  // ---------------------------------------------------------------------
  // Pairing (chest.go:168-236)

  datatype Reaction = Ignore | Unpair | Pair

  /** Where a paired chest believes its partner is: its stored x and z at its own height. */
  function PartnerPos(c: Block, pos: Pos): Pos
    requires c.Chest?
  {
    Pos(c.pairX, pos.y, c.pairZ)
  }

  /** What NeighbourUpdateTick does, given the chest, both positions and the neighbouring block. */
  function ReactionTo(c: Block, pos: Pos, neighbour: Pos, b: Block): (r: Reaction)
    requires c.Chest?
    ensures r == Unpair <==> pos != neighbour && b.Air? && c.paired && PartnerPos(c, pos) == neighbour
    ensures r == Pair <==>
      && pos != neighbour && b.Chest? && c.facing == b.facing && !c.paired && !b.paired
  {
    if pos == neighbour then Ignore
    else if b.Air? && c.paired then (if PartnerPos(c, pos) == neighbour then Unpair else Ignore)
    else if !b.Chest? then Ignore
    else if c.facing != b.facing then Ignore
    else if c.paired || b.paired then Ignore
    else Pair
  }

  /** The double-chest inventory after the initiator's items were added one by one. */
  function Packed(items: seq<Stack>, size: nat): (slots: seq<Stack>)
    requires |items| <= size
    ensures |slots| == size
    ensures slots[..|items|] == items
    ensures forall i :: |items| <= i < size ==> slots[i] == EmptyStack
  {
    items + Empties(size - |items|)
  }

  lemma FirstEmptyOfPacked(items: seq<Stack>, size: nat)
    requires |items| <= size
    requires forall i :: 0 <= i < |items| ==> !Empty(items[i])
    ensures FirstEmpty(Packed(items, size)) == |items|
  {
    var p := Packed(items, size);
    assert forall j :: 0 <= j < |items| ==> p[j] == items[j];
    if |items| < size {
      assert Empty(p[|items|]);
    }
  }

  /** The first `n` stacks of `items`. */
  function Truncate(items: seq<Stack>, n: nat): (r: seq<Stack>)
    ensures |r| <= n && r <= items
    ensures |items| <= n ==> r == items
  {
    if |items| <= n then items else items[..n]
  }

  /**
   * NeighbourUpdateTick. A self-update or any neighbour other than the
   * partner's Air or an eligible chest changes nothing. The partner being
   * broken clears `paired` only. Two unpaired chests facing the same way are
   * paired: the initiator is rebuilt by NewChest (so it loses its facing,
   * name and viewers) with a 54-slot inventory the initiator's items are
   * drained into; the partner keeps its fields but gets the shared inventory,
   * and its own inventory is dropped.
   */
  method NeighbourUpdateTick(c: Block, pos: Pos, neighbour: Pos, w: World)
    requires c.Chest?
    requires ReactionTo(c, pos, neighbour, w.BlockAt(neighbour)) == Pair ==> c.inventory != null
    modifies w, c.inventory
    ensures var b := old(w.BlockAt(neighbour));
      ReactionTo(c, pos, neighbour, b) == Ignore ==>
        w.blocks == old(w.blocks) && w.events == old(w.events) &&
        (c.inventory != null ==> c.inventory.slots == old(c.inventory.slots))
    ensures var b := old(w.BlockAt(neighbour));
      ReactionTo(c, pos, neighbour, b) == Unpair ==>
        w.blocks == old(w.blocks)[pos := c.(paired := false)] &&
        w.events == old(w.events) + [BlockSet(pos, NoOpts)] &&
        (c.inventory != null ==> c.inventory.slots == old(c.inventory.slots))
    ensures var b := old(w.BlockAt(neighbour));
      ReactionTo(c, pos, neighbour, b) == Pair ==>
        var a := w.BlockAt(pos);
        var p := w.BlockAt(neighbour);
        && w.blocks == old(w.blocks)[pos := a][neighbour := p]
        && w.events == old(w.events) + [BlockSet(pos, NoOpts), BlockSet(neighbour, NoOpts)]
        && Initialised(a) && fresh(a.inventory) && fresh(a.viewers)
        && a == Chest("", North, true, Int32(neighbour.x), Int32(neighbour.z), a.inventory, a.viewers)
        && a.viewers.members == {} && a.inventory.viewers == a.viewers
        && p == b.(paired := true, pairX := Int32(pos.x), pairZ := Int32(pos.z), inventory := a.inventory)
        && a.inventory.slots == Packed(Truncate(NonEmpty(old(c.inventory.slots)), ChestTypeDouble), ChestTypeDouble)
        && c.inventory.slots == Empties(|old(c.inventory.slots)|)
    ensures w.liquids == old(w.liquids)
  {
    if pos == neighbour {
      return;
    }
    var b := w.BlockAt(neighbour);
    if b.Air? && c.paired {
      var n := PartnerPos(c, pos);
      if n == neighbour {
        w.SetBlock(pos, c.(paired := false), NoOpts);
      }
      return;
    }
    if !b.Chest? || c.facing != b.facing || c.paired || b.paired {
      return;
    }
    var inv := c.inventory;
    var d := NewChest(ChestTypeDouble);
    var items := inv.Clear();
    // A drained stack that does not fit is refused by AddItem.
    var i := 0;
    var added: seq<Stack> := [];
    while i < |items|
      invariant 0 <= i <= |items|
      invariant |added| <= ChestTypeDouble
      invariant added == items[..if i <= ChestTypeDouble then i else ChestTypeDouble]
      invariant d.inventory.slots == Packed(added, ChestTypeDouble)
      invariant d.viewers.members == {} && inv.slots == Empties(|old(c.inventory.slots)|)
      invariant fresh(d.inventory) && fresh(d.viewers)
      invariant w.blocks == old(w.blocks) && w.liquids == old(w.liquids) && w.events == old(w.events)
    {
      FirstEmptyOfPacked(added, ChestTypeDouble);
      var ok, sent := d.inventory.AddItem(items[i]);
      if ok {
        assert d.inventory.slots == Packed(added + [items[i]], ChestTypeDouble);
        added := added + [items[i]];
      }
      w.Emit(sent);
      i := i + 1;
    }
    var pair := b.(paired := true, pairX := Int32(pos.x), pairZ := Int32(pos.z), inventory := d.inventory);
    d := d.(paired := true, pairX := Int32(neighbour.x), pairZ := Int32(neighbour.z));
    w.SetBlock(pos, d, NoOpts);
    w.SetBlock(neighbour, pair, NoOpts);
  }

  /** Once two chests are paired, each one's stored coordinates name the other. */
  lemma PairIsSymmetric(a: Block, pos: Pos, p: Block, neighbour: Pos)
    requires a.Chest? && p.Chest? && pos.y == neighbour.y
    requires InInt32(pos.x) && InInt32(pos.z) && InInt32(neighbour.x) && InInt32(neighbour.z)
    requires a.pairX == Int32(neighbour.x) && a.pairZ == Int32(neighbour.z)
    requires p.pairX == Int32(pos.x) && p.pairZ == Int32(pos.z)
    ensures PartnerPos(a, pos) == neighbour && PartnerPos(p, neighbour) == pos
  {
  }

  /**
   * After pairing, the partner's own neighbour update about the initiator is
   * ignored, and breaking either chest unpairs the other.
   */
  lemma PairedChestsStayPaired(a: Block, pos: Pos, p: Block, neighbour: Pos)
    requires a.Chest? && p.Chest? && a.paired && p.paired && pos != neighbour
    requires PartnerPos(a, pos) == neighbour && PartnerPos(p, neighbour) == pos
    ensures ReactionTo(p, neighbour, pos, a) == Ignore && ReactionTo(a, pos, neighbour, p) == Ignore
    ensures ReactionTo(a, pos, neighbour, Air) == Unpair && ReactionTo(p, neighbour, pos, Air) == Unpair
  {
  }

  /**
   * Nothing restricts pairing to horizontal neighbours: a chest placed on top
   * of an unpaired chest facing the same way pairs with it, and because the
   * partner position is taken at the chest's own height, breaking the upper
   * chest never unpairs the lower one.
   */
  lemma VerticalNeighboursPair(c: Block, pos: Pos, above: Block, paired: Block)
    requires c.Chest? && above.Chest? && !c.paired && !above.paired && c.facing == above.facing
    requires paired.Chest? && paired.paired && paired.pairX == Int32(pos.x) && paired.pairZ == Int32(pos.z)
    ensures ReactionTo(c, pos, pos.Side(FaceUp), above) == Pair
    ensures ReactionTo(paired, pos, pos.Side(FaceUp), Air) == Ignore
  {
  }

  /** A chest whose old inventory has no more than 54 slots loses no item in the drain. */
  lemma DrainKeepsEveryItem(slots: seq<Stack>)
    requires |slots| <= ChestTypeDouble
    ensures Truncate(NonEmpty(slots), ChestTypeDouble) == NonEmpty(slots)
  {
  }

  // ---------------------------------------------------------------------
  // The saved record (chest.go:253-303)

  /** What a chest record restores. */
  datatype ChestData = ChestData(customName: string, paired: bool, pairX: int, pairZ: int, slots: seq<Stack>)

  /** The slots EncodeNBT saves: a missing inventory is a fresh one of the paired or single size. */
  function SavedSlots(c: Block): (s: seq<Stack>)
    requires c.Chest?
    reads c.inventory
    ensures c.inventory == null ==> s == Empties(if c.paired then ChestTypeDouble else ChestTypeSingle)
  {
    if c.inventory == null then Empties(if c.paired then ChestTypeDouble else ChestTypeSingle)
    else c.inventory.slots
  }

  /**
   * Whether EncodeNBT saves the pairing: a chest without an inventory is
   * first replaced by a fresh NewChest, which is unpaired, so only a chest
   * that has an inventory and is paired writes its coordinates.
   */
  predicate SavesPairing(c: Block)
    requires c.Chest?
  {
    c.paired && c.inventory != null
  }

  /** EncodeNBT. */
  function EncodeNBT(c: Block): (m: Record)
    requires c.Chest?
    reads c.inventory
    ensures "id" in m && m["id"] == Str("Chest")
    ensures "Items" in m && m["Items"] == ItemList(SavedSlots(c))
    ensures "CustomName" in m <==> c.customName != ""
    ensures "CustomName" in m ==> m["CustomName"] == Str(c.customName)
    ensures "pairx" in m <==> c.paired && c.inventory != null
    ensures "pairz" in m <==> c.paired && c.inventory != null
    ensures c.paired && c.inventory != null ==> m["pairx"] == Int(c.pairX) && m["pairz"] == Int(c.pairZ)
    ensures forall k :: k in m ==> k in {"id", "Items", "CustomName", "pairx", "pairz"}
  {
    var base := map["Items" := ItemList(SavedSlots(c)), "id" := Str("Chest")];
    var named := if c.customName != "" then base["CustomName" := Str(c.customName)] else base;
    if SavesPairing(c) then named["pairx" := Int(c.pairX)]["pairz" := Int(c.pairZ)] else named
  }

  /**
   * What DecodeNBT restores from a record. A `pairz` entry makes a paired
   * 54-slot chest; its coordinates must then be stored as 32-bit integers,
   * or the source's type assertions panic.
   */
  function DecodeData(data: Record): (r: Result<ChestData>)
    ensures r.Failure? <==> "pairz" in data && !("pairx" in data && data["pairx"].Int? && data["pairz"].Int?)
    ensures r.Success? ==> r.value.paired == ("pairz" in data)
    ensures r.Success? ==> |r.value.slots| == if "pairz" in data then ChestTypeDouble else ChestTypeSingle
    ensures r.Success? ==> r.value.customName == GetString(data, "CustomName")
    ensures r.Success? ==> r.value.slots == FillSlots(|r.value.slots|, GetItems(data, "Items"))
    ensures r.Success? && r.value.paired ==> r.value.pairX == data["pairx"].i32 && r.value.pairZ == data["pairz"].i32
    ensures r.Success? && !r.value.paired ==> r.value.pairX == 0 && r.value.pairZ == 0
  {
    var name := GetString(data, "CustomName");
    var items := GetItems(data, "Items");
    if "pairz" in data then
      if "pairx" in data && data["pairx"].Int? && data["pairz"].Int? then
        Success(ChestData(name, true, data["pairx"].i32, data["pairz"].i32, FillSlots(ChestTypeDouble, items)))
      else Failure("interface conversion: pair coordinate is not int32")
    else Success(ChestData(name, false, 0, 0, FillSlots(ChestTypeSingle, items)))
  }

  /** The fields of an initialised chest that its record stores. */
  function DataOf(c: Block): ChestData
    requires Initialised(c)
    reads c.inventory
  {
    ChestData(c.customName, c.paired, c.pairX, c.pairZ, c.inventory.slots)
  }

  /** DecodeNBT: a fresh chest facing like the receiver, filled from the record. */
  method DecodeNBT(c: Block, data: Record) returns (r: Result<Block>)
    requires c.Chest?
    ensures r.Success? <==> DecodeData(data).Success?
    ensures r.Success? ==>
      && Initialised(r.value) && fresh(r.value.inventory) && fresh(r.value.viewers)
      && r.value.facing == c.facing
      && DataOf(r.value) == DecodeData(data).value
      && r.value.viewers.members == {} && r.value.inventory.viewers == r.value.viewers
  {
    var facing := c.facing;
    var d: Block;
    if "pairz" in data {
      d := NewChest(ChestTypeDouble);
      if !("pairx" in data && data["pairx"].Int? && data["pairz"].Int?) {
        return Failure("interface conversion: pair coordinate is not int32");
      }
      d := d.(paired := true, pairX := data["pairx"].i32, pairZ := data["pairz"].i32);
    } else {
      d := NewChest(ChestTypeSingle);
    }
    d := d.(facing := facing, customName := GetString(data, "CustomName"));
    d.inventory.slots := FillSlots(|d.inventory.slots|, GetItems(data, "Items"));
    r := Success(d);
  }

  /**
   * Saving and loading a chest whose inventory has its type's size gives back
   * its name, its pairing and its items; an unpaired chest's coordinates come
   * back as zero. A chest without an inventory comes back as an empty,
   * unpaired single chest, even when it was paired.
   */
  lemma {:induction false} RecordRoundTrip(c: Block)
    requires c.Chest?
    requires c.inventory != null ==> |c.inventory.slots| == if c.paired then ChestTypeDouble else ChestTypeSingle
    ensures c.inventory != null ==>
      DecodeData(EncodeNBT(c)) ==
        Success(ChestData(c.customName, c.paired, if c.paired then c.pairX else 0,
                          if c.paired then c.pairZ else 0, c.inventory.slots))
    ensures c.inventory == null ==>
      DecodeData(EncodeNBT(c)) == Success(ChestData(c.customName, false, 0, 0, Empties(ChestTypeSingle)))
  {
    var m := EncodeNBT(c);
    FillSlotsOfSameSize(SavedSlots(c));
    if c.customName == "" {
      assert "CustomName" !in m;
    }
    if c.inventory == null {
      assert "pairz" !in m && GetItems(m, "Items") == SavedSlots(c);
      var r := DecodeData(m).value.slots;
      assert forall i :: 0 <= i < ChestTypeSingle ==> r[i] == EmptyStack;
      assert r == Empties(ChestTypeSingle);
    }
  }

  /**
   * Because unpairing keeps the 54-slot inventory but not the `paired` flag,
   * saving and loading an unpaired double chest keeps only its first 27 slots.
   */
  lemma {:induction false} UnpairedDoubleChestLosesUpperHalf(c: Block)
    requires Initialised(c) && !c.paired && |c.inventory.slots| == ChestTypeDouble
    ensures DecodeData(EncodeNBT(c)).Success?
    ensures DecodeData(EncodeNBT(c)).value.slots == c.inventory.slots[..ChestTypeSingle]
  {
    var r := DecodeData(EncodeNBT(c)).value.slots;
    assert forall i :: 0 <= i < ChestTypeSingle ==> r[i] == c.inventory.slots[i];
  }

  /** allChests: one uninitialised chest per horizontal direction. */
  function AllChests(): (bs: seq<Block>)
    ensures |bs| == 4
    ensures forall i :: 0 <= i < |bs| ==>
      && bs[i].Chest? && !Initialised(bs[i]) && bs[i].inventory == null && bs[i].viewers == null
      && bs[i].customName == "" && !bs[i].paired && bs[i].pairX == 0 && bs[i].pairZ == 0
    ensures forall d :: d in Directions() <==> exists i :: 0 <= i < |bs| && bs[i].facing == d
    ensures forall i, j :: 0 <= i < j < |bs| ==> bs[i].facing != bs[j].facing
  {
    var ds := Directions();
    var bs := seq(|ds|, i requires 0 <= i < |ds| => Chest("", ds[i], false, 0, 0, null, null));
    assert forall i :: 0 <= i < |ds| ==> bs[i].facing == ds[i];
    bs
  }

  /** EncodeBlock: the facing, by name, is the only block state. */
  function EncodeBlock(c: Block): (s: BlockState)
    requires c.Chest? && IsDirection(c.facing)
    ensures s.name == "minecraft:chest"
    ensures s.properties.Keys == {"minecraft:cardinal_direction"}
    ensures s.properties["minecraft:cardinal_direction"] == Str(String(c.facing))
  {
    BlockState("minecraft:chest", map["minecraft:cardinal_direction" := Str(String(c.facing))])
  }

  /** Chests facing different ways have different block states. */
  lemma EncodeBlockInjective(c: Block, d: Block)
    requires c.Chest? && IsDirection(c.facing) && d.Chest? && IsDirection(d.facing)
    ensures EncodeBlock(c) == EncodeBlock(d) <==> c.facing == d.facing
  {
    if EncodeBlock(c) == EncodeBlock(d) {
      assert EncodeBlock(c).properties["minecraft:cardinal_direction"] == EncodeBlock(d).properties["minecraft:cardinal_direction"];
      StringInjective(c.facing, d.facing);
    }
  }

  /** Activate: see Blocks.ActivateContainer. */
  function Activate(isOpener: bool, aboveDiffusion: Option<int>): (r: Activation)
    ensures r == ActivateContainer(isOpener, aboveDiffusion)
    ensures r.opens ==> aboveDiffusion.Some? && aboveDiffusion.value <= 2
  {
    ActivateContainer(isOpener, aboveDiffusion)
  }

  /**
   * UseOnBlock at the resolved position: a new single chest, facing the
   * user, replaces the block there.
   */
  method UseOnBlock(pos: Pos, w: World, userDirection: int) returns (used: bool, c: Block)
    requires IsDirection(userDirection)
    modifies w
    ensures used && Initialised(c) && fresh(c.inventory) && fresh(c.viewers)
    ensures c.inventory.slots == Empties(ChestTypeSingle) && c.inventory.viewers == c.viewers && c.viewers.members == {}
    ensures c.facing == Opposite(userDirection) && c.customName == "" && !c.paired && c.pairX == 0 && c.pairZ == 0
    ensures w.blocks == old(w.blocks)[pos := c] && w.events == old(w.events) + [BlockSet(pos, NoOpts)]
    ensures w.liquids == old(w.liquids)
  {
    c := NewChest(ChestTypeSingle);
    c := Chest(c.customName, Opposite(userDirection), c.paired, c.pairX, c.pairZ, c.inventory, c.viewers);
    w.SetBlock(pos, c, NoOpts);
    used := true;
  }
}
