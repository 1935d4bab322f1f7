/**
 * Smokers (server/block/smoker.go): the lit write-back of Tick, the block
 * state, and the saved record, which stores durations in game ticks of 50 ms.
 */
module Smokers {
  import opened Wrappers
  import opened Ints
  import opened Cube
  import opened Items
  import opened Nbt
  import opened Events
  import opened Blocks
  import opened Worlds

  const NanosPerMilli: int := 1_000_000
  const MillisPerTick: int := 50

  /**
   * The smelter newSmelter creates (smelter.go is not part of this model):
   * no fuel, no progress, no experience and three empty slots.
   */
  const FreshSmelter: Smelter := Smelter(0, 0, 0, 0, Empties(3))

  /** NewSmoker. */
  function NewSmoker(facing: int): (s: Block)
    ensures s == Smoker(facing, false, Some(FreshSmelter))
  {
    Smoker(facing, false, Some(FreshSmelter))
  }

  /** int16(d.Milliseconds() / 50) for a duration of `d` nanoseconds, with Go's truncating division. */
  function Ticks(d: int): (t: int)
    ensures InInt16(t)
    ensures 0 <= d < 50 * NanosPerMilli ==> t == 0
  {
    Int16(GoDiv(GoDiv(d, NanosPerMilli), MillisPerTick))
  }

  /** nbtconv.TickDuration: a tick count as nanoseconds. */
  function TickDuration(t: int): (d: int)
    ensures d == t * (MillisPerTick * NanosPerMilli)
  {
    t * MillisPerTick * NanosPerMilli
  }

  /** A whole number of ticks survives the conversion to ticks unchanged. */
  lemma {:induction false} TicksOfTickDuration(t: int)
    requires InInt16(t)
    ensures Ticks(TickDuration(t)) == t
  {
    var d := TickDuration(t);
    if t >= 0 {
      assert d == (t * MillisPerTick) * NanosPerMilli;
      DivOfMultiple(t * MillisPerTick, NanosPerMilli);
      DivOfMultiple(t, MillisPerTick);
    } else {
      assert -d == (-t * MillisPerTick) * NanosPerMilli;
      DivOfMultiple(-t * MillisPerTick, NanosPerMilli);
      assert GoDiv(d, NanosPerMilli) == t * MillisPerTick;
      assert -(t * MillisPerTick) == -t * MillisPerTick;
      DivOfMultiple(-t, MillisPerTick);
    }
  }

  /** The smelter EncodeNBT saves: a missing one is a fresh smoker's. */
  function SavedSmelter(s: Block): (m: Smelter)
    requires s.Smoker?
    ensures s.smelter.None? ==> m == FreshSmelter
    ensures s.smelter.Some? ==> m == s.smelter.value
  {
    if s.smelter.None? then FreshSmelter else s.smelter.value
  }

  /** EncodeNBT. */
  function EncodeNBT(s: Block): (m: Record)
    requires s.Smoker?
    ensures m.Keys == {"BurnTime", "CookTime", "BurnDuration", "StoredXPInt", "Items", "id"}
    ensures m["BurnTime"] == Short(Ticks(SavedSmelter(s).remaining))
    ensures m["CookTime"] == Short(Ticks(SavedSmelter(s).cook))
    ensures m["BurnDuration"] == Short(Ticks(SavedSmelter(s).maximum))
    ensures m["StoredXPInt"] == Short(Int16(SavedSmelter(s).experience))
    ensures m["Items"] == ItemList(SavedSmelter(s).slots) && m["id"] == Str("Smoker")
  {
    var sm := SavedSmelter(s);
    map["BurnTime" := Short(Ticks(sm.remaining)),
        "CookTime" := Short(Ticks(sm.cook)),
        "BurnDuration" := Short(Ticks(sm.maximum)),
        "StoredXPInt" := Short(Int16(sm.experience)),
        "Items" := ItemList(sm.slots),
        "id" := Str("Smoker")]
  }

  /** DecodeNBT: a fresh smoker with the receiver's facing and lit state, filled from the record. */
  function DecodeNBT(s: Block, data: Record): (r: Block)
    requires s.Smoker?
    ensures r.Smoker? && r.facing == s.facing && r.lit == s.lit && r.smelter.Some?
    ensures r.smelter.value.remaining == TickDuration(GetInt16(data, "BurnTime"))
    ensures r.smelter.value.maximum == TickDuration(GetInt16(data, "BurnDuration"))
    ensures r.smelter.value.cook == TickDuration(GetInt16(data, "CookTime"))
    ensures r.smelter.value.experience == GetInt16(data, "StoredXPInt")
    ensures r.smelter.value.slots == FillSlots(|FreshSmelter.slots|, GetItems(data, "Items"))
  {
    var sm := Smelter(TickDuration(GetInt16(data, "BurnTime")),
                      TickDuration(GetInt16(data, "BurnDuration")),
                      TickDuration(GetInt16(data, "CookTime")),
                      GetInt16(data, "StoredXPInt"),
                      FillSlots(|FreshSmelter.slots|, GetItems(data, "Items")));
    NewSmoker(s.facing).(lit := s.lit, smelter := Some(sm))
  }

  /** A smelter whose durations are whole 16-bit tick counts and whose experience fits 16 bits. */
  predicate Storable(sm: Smelter) {
    && WholeTicks(sm.remaining) && WholeTicks(sm.maximum) && WholeTicks(sm.cook)
    && InInt16(sm.experience) && |sm.slots| == |FreshSmelter.slots|
  }

  /** A duration that is a 16-bit number of whole ticks. */
  predicate WholeTicks(d: int) {
    d % (MillisPerTick * NanosPerMilli) == 0 && InInt16(d / (MillisPerTick * NanosPerMilli))
  }

  lemma {:induction false} TicksRoundTrip(d: int)
    requires WholeTicks(d)
    ensures TickDuration(Ticks(d)) == d
  {
    var t := d / (MillisPerTick * NanosPerMilli);
    assert d == TickDuration(t);
    TicksOfTickDuration(t);
  }

  /** Saving and loading a smoker with a storable smelter gives back the same smoker. */
  lemma {:induction false} RecordRoundTrip(s: Block)
    requires s.Smoker? && s.smelter.Some? && Storable(s.smelter.value)
    ensures DecodeNBT(s, EncodeNBT(s)) == s
  {
    var sm := s.smelter.value;
    TicksRoundTrip(sm.remaining);
    TicksRoundTrip(sm.maximum);
    TicksRoundTrip(sm.cook);
    FillSlotsOfSameSize(sm.slots);
  }

  /** EncodeBlock. */
  function EncodeBlock(s: Block): (b: BlockState)
    requires s.Smoker? && IsDirection(s.facing)
    ensures b.name == if s.lit then "minecraft:lit_smoker" else "minecraft:smoker"
    ensures b.properties == map["minecraft:cardinal_direction" := Str(String(s.facing))]
  {
    var props := map["minecraft:cardinal_direction" := Str(String(s.facing))];
    if s.lit then BlockState("minecraft:lit_smoker", props) else BlockState("minecraft:smoker", props)
  }

  /** The block state tells the facing and the lit state apart. */
  lemma EncodeBlockInjective(s: Block, t: Block)
    requires s.Smoker? && t.Smoker? && IsDirection(s.facing) && IsDirection(t.facing)
    ensures EncodeBlock(s) == EncodeBlock(t) <==> s.facing == t.facing && s.lit == t.lit
  {
    if EncodeBlock(s) == EncodeBlock(t) {
      assert EncodeBlock(s).properties["minecraft:cardinal_direction"] == EncodeBlock(t).properties["minecraft:cardinal_direction"];
      StringInjective(s.facing, t.facing);
    }
  }

  /**
   * Tick. `crackle` is whether the random draw fell at or below 0.016 and
   * `lit` is the lit state the smelter's tickSmelting reports; the block is
   * written back, with that lit state, only when it changes.
   */
  method Tick(s: Block, pos: Pos, w: World, crackle: bool, lit: bool)
    requires s.Smoker?
    modifies w
    ensures w.blocks == if lit != s.lit then old(w.blocks)[pos := s.(lit := lit)] else old(w.blocks)
    ensures w.events == old(w.events)
      + (if s.lit && crackle then [SoundPlayed(pos, SmokerCrackle)] else [])
      + (if lit != s.lit then [BlockSet(pos, NoOpts)] else [])
    ensures w.liquids == old(w.liquids)
  {
    if s.lit && crackle {
      w.Emit([SoundPlayed(pos, SmokerCrackle)]);
    }
    if s.lit != lit {
      w.SetBlock(pos, s.(lit := lit), NoOpts);
    }
  }

  /** allSmokers: for each horizontal direction, an unlit and then a lit smoker without a smelter. */
  function AllSmokers(): (bs: seq<Block>)
    ensures |bs| == 2 * |Directions()|
    ensures forall i :: 0 <= i < |bs| ==> bs[i] == Smoker(Directions()[i / 2], i % 2 == 1, None)
    ensures forall d, l :: d in Directions() ==> Smoker(d, l, None) in bs
  {
    var ds := Directions();
    var bs := seq(2 * |ds|, i requires 0 <= i < 2 * |ds| => Smoker(ds[i / 2], i % 2 == 1, None));
    assert forall d, l :: d in ds ==> Smoker(d, l, None) in bs by {
      forall d, l | d in ds ensures Smoker(d, l, None) in bs {
        var k :| 0 <= k < |ds| && ds[k] == d;
        assert bs[2 * k + (if l then 1 else 0)] == Smoker(d, l, None);
      }
    }
    bs
  }

  /** Activate: any user able to open containers opens the smoker, whatever is above it. */
  function Activate(isOpener: bool): (r: Activation)
    ensures r.handled <==> isOpener
    ensures r.opens <==> isOpener
  {
    Activation(isOpener, isOpener)
  }

  /** UseOnBlock at the resolved position: a new smoker facing the user is placed. */
  method UseOnBlock(pos: Pos, w: World, userDirection: int) returns (used: bool)
    requires IsDirection(userDirection)
    modifies w
    ensures used
    ensures w.blocks == old(w.blocks)[pos := Smoker(Opposite(userDirection), false, Some(FreshSmelter))]
    ensures w.events == old(w.events) + [BlockSet(pos, NoOpts)]
    ensures w.liquids == old(w.liquids)
  {
    w.SetBlock(pos, NewSmoker(Opposite(userDirection)), NoOpts);
    return true;
  }
}
