/**
 * Items and item stacks, as far as the modelled blocks look at them
 * (server/item/inventory and item.Stack are not part of this model).
 */
module Items {

  /**
   * An item: none at all (Go's nil item), a book a lectern can read, or any
   * other item, named by its encoded name and meta value.
   */
  datatype Item =
    | NoItem
    | Readable(title: string, totalPages: nat)
    | Plain(name: string, meta: int)

  datatype Stack = Stack(item: Item, count: int)

  const EmptyStack: Stack := Stack(NoItem, 0)

  /** item.Stack.Empty: no count or no item. */
  predicate Empty(s: Stack) {
    s.count == 0 || s.item == NoItem
  }

  /** A readable book (the lectern's readableBook interface). */
  predicate IsReadable(it: Item) {
    it.Readable?
  }

  /** A sequence of `n` empty slots. */
  function Empties(n: nat): (s: seq<Stack>)
    ensures |s| == n
    ensures forall i :: 0 <= i < n ==> s[i] == EmptyStack
  {
    seq(n, _ => EmptyStack)
  }

  /** The non-empty stacks of `slots`, in slot order. */
  function NonEmpty(slots: seq<Stack>): (r: seq<Stack>)
    ensures |r| <= |slots|
    ensures forall i :: 0 <= i < |r| ==> !Empty(r[i]) && r[i] in slots
  {
    if slots == [] then []
    else if Empty(slots[0]) then NonEmpty(slots[1..])
    else [slots[0]] + NonEmpty(slots[1..])
  }
}
