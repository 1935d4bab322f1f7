/**
 * The viewer set and the inventory of a container block. Both are shared by
 * reference in the source (a chest value is copied, the inventory it refers to and its
 * viewer map are not), so they are classes here.
 */
module Inventories {
  import opened Items
  import opened Events

  /** The viewers of a container: Go's map[ContainerViewer]struct{}. */
  class ViewerSet {
    var members: set<Viewer>

    constructor ()
      ensures members == {}
    {
      members := {};
    }
  }

  /** `order` lists every member of `vs` exactly once. */
  ghost predicate Enumerates(order: seq<Viewer>, vs: set<Viewer>) {
    && (forall v :: v in vs <==> v in order)
    && (forall i, j :: 0 <= i < j < |order| ==> order[i] != order[j])
  }

  /** A viewer listing names each member once, so it is as long as the set is large. */
  lemma {:induction false} EnumeratesSize(order: seq<Viewer>, vs: set<Viewer>)
    requires Enumerates(order, vs)
    ensures |order| == |vs|
  {
    if order == [] {
      assert vs == {};
    } else {
      var n := |order| - 1;
      var last := order[n];
      var front := order[..n];
      assert forall v :: v in front ==> v != last by {
        forall v | v in front ensures v != last {
          var k :| 0 <= k < n && front[k] == v;
          assert order[k] == v;
        }
      }
      assert forall v :: v in vs - {last} <==> v in front by {
        forall v ensures v in vs - {last} <==> v in front {
          assert v in order <==> v in front || v == last;
        }
      }
      EnumeratesSize(front, vs - {last});
    }
  }

  /** One ViewSlotChange per viewer of `order`, in that order. */
  function SlotChanges(order: seq<Viewer>, slot: int, s: Stack): (es: seq<Event>)
    ensures |es| == |order|
    ensures forall i :: 0 <= i < |order| ==> es[i] == ViewSlotChange(order[i], slot, s)
  {
    seq(|order|, i requires 0 <= i < |order| => ViewSlotChange(order[i], slot, s))
  }

  /** The index of the first empty slot, or |slots| when every slot is taken. */
  function FirstEmpty(slots: seq<Stack>): (i: nat)
    ensures i <= |slots|
    ensures i < |slots| ==> Empty(slots[i])
    ensures forall j :: 0 <= j < i ==> !Empty(slots[j])
  {
    if slots == [] then 0
    else if Empty(slots[0]) then 0
    else 1 + FirstEmpty(slots[1..])
  }

  /**
   * An inventory with a fixed number of slots. `viewers` is the viewer set
   * that the slot-change callback given to inventory.New closes over.
   */
  class Inventory {
    var slots: seq<Stack>
    const viewers: ViewerSet

    constructor (size: nat, viewers: ViewerSet)
      ensures slots == Empties(size) && this.viewers == viewers
    {
      slots := Empties(size);
      this.viewers := viewers;
    }

    /**
     * Store a stack in a slot; the callback then tells every viewer of the
     * set about the new stack, one call each, in the set's iteration order.
     */
    method SetItem(slot: int, s: Stack) returns (sent: seq<Event>, ghost order: seq<Viewer>)
      requires 0 <= slot < |slots|
      modifies this
      ensures slots == old(slots)[slot := s]
      ensures Enumerates(order, viewers.members)
      ensures sent == SlotChanges(order, slot, s)
    {
      slots := slots[slot := s];
      var rest := viewers.members;
      sent, order := [], [];
      while rest != {}
        invariant rest <= viewers.members
        invariant forall v :: v in viewers.members <==> v in rest || v in order
        invariant forall v :: v in rest ==> v !in order
        invariant forall i, j :: 0 <= i < j < |order| ==> order[i] != order[j]
        invariant sent == SlotChanges(order, slot, s)
        decreases rest
      {
        var v :| v in rest;
        sent := sent + [ViewSlotChange(v, slot, s)];
        order := order + [v];
        rest := rest - {v};
      }
    }

    /** Empty every slot and hand back the stacks that were there, in slot order. */
    method Clear() returns (items: seq<Stack>)
      modifies this
      ensures items == NonEmpty(old(slots))
      ensures slots == Empties(|old(slots)|)
    {
      items := NonEmpty(slots);
      slots := Empties(|slots|);
    }

    /**
     * Put a stack into the first empty slot. An empty stack is accepted
     * without a change; a full inventory refuses the stack.
     */
    method AddItem(s: Stack) returns (ok: bool, sent: seq<Event>)
      modifies this
      ensures ok == (Empty(s) || FirstEmpty(old(slots)) < |old(slots)|)
      ensures Empty(s) || !ok ==> slots == old(slots) && sent == []
      ensures !Empty(s) && ok ==> slots == old(slots)[FirstEmpty(old(slots)) := s]
      ensures !Empty(s) && ok && viewers.members == {} ==> sent == []
    {
      if Empty(s) {
        return true, [];
      }
      var i := FirstEmpty(slots);
      if i == |slots| {
        return false, [];
      }
      ghost var order;
      sent, order := SetItem(i, s);
      EnumeratesSize(order, viewers.members);
      ok := true;
    }
  }
}
