/**
 * The generic key/value record block entities are saved to, and the typed
 * getters the blocks read it with (server/internal/nbtconv is not part of
 * this model: a getter yields the value when the key is present with the
 * expected type and the type's zero value otherwise).
 */
module Nbt {
  import opened Items

  /**
   * A record value. ItemList and ItemValue stand for nbtconv's encoding of an
   * inventory and of a single stack, whose layout is not modelled.
   */
  datatype Value =
    | Byte(u8: int)
    | Short(i16: int)
    | Int(i32: int)
    | Bool(flag: bool)
    | Str(text: string)
    | List(elems: seq<Value>)
    | Compound(fields: map<string, Value>)
    | ItemList(stacks: seq<Stack>)
    | ItemValue(stack: Stack)

  type Record = map<string, Value>

  function GetString(m: Record, k: string): (s: string)
    ensures k in m && m[k].Str? ==> s == m[k].text
    ensures !(k in m && m[k].Str?) ==> s == ""
  {
    if k in m && m[k].Str? then m[k].text else ""
  }

  function GetUint8(m: Record, k: string): (v: int)
    ensures k in m && m[k].Byte? ==> v == m[k].u8
    ensures !(k in m && m[k].Byte?) ==> v == 0
  {
    if k in m && m[k].Byte? then m[k].u8 else 0
  }

  function GetInt16(m: Record, k: string): (v: int)
    ensures k in m && m[k].Short? ==> v == m[k].i16
    ensures !(k in m && m[k].Short?) ==> v == 0
  {
    if k in m && m[k].Short? then m[k].i16 else 0
  }

  function GetInt32(m: Record, k: string): (v: int)
    ensures k in m && m[k].Int? ==> v == m[k].i32
    ensures !(k in m && m[k].Int?) ==> v == 0
  {
    if k in m && m[k].Int? then m[k].i32 else 0
  }

  /** nbtconv.Slice followed by InvFromNBT's input: no list reads as empty. */
  function GetItems(m: Record, k: string): (s: seq<Stack>)
    ensures k in m && m[k].ItemList? ==> s == m[k].stacks
    ensures !(k in m && m[k].ItemList?) ==> s == []
  {
    if k in m && m[k].ItemList? then m[k].stacks else []
  }

  /** nbtconv.MapItem: no stored stack reads as the empty stack. */
  function GetItem(m: Record, k: string): (s: Stack)
    ensures k in m && m[k].ItemValue? ==> s == m[k].stack
    ensures !(k in m && m[k].ItemValue?) ==> s == EmptyStack
  {
    if k in m && m[k].ItemValue? then m[k].stack else EmptyStack
  }

  /**
   * InvFromNBT into a fresh inventory of `size` slots: slot i receives the
   * i-th stored stack, slots beyond the stored list stay empty and stored
   * stacks beyond `size` are dropped.
   */
  function FillSlots(size: nat, stored: seq<Stack>): (slots: seq<Stack>)
    ensures |slots| == size
    ensures forall i :: 0 <= i < size ==> slots[i] == if i < |stored| then stored[i] else EmptyStack
  {
    seq(size, i requires 0 <= i < size => if i < |stored| then stored[i] else EmptyStack)
  }

  lemma FillSlotsOfSameSize(slots: seq<Stack>)
    ensures FillSlots(|slots|, slots) == slots
  {
    var r := FillSlots(|slots|, slots);
    assert forall i :: 0 <= i < |slots| ==> r[i] == slots[i];
  }
}
