/**
 * Cacti (server/block/cactus.go): ageing and growth on random ticks,
 * breaking when a neighbour is not air, and the recursive survival check.
 */
module Cacti {
  import opened Wrappers
  import opened Ints
  import Nbt
  import opened Cube
  import opened Items
  import opened Events
  import opened Blocks
  import opened Worlds

  const MaxAge: int := 15

  /** A cactus as an item, named by its EncodeItem. */
  const CactusItem: Item := Plain("minecraft:cactus", 0)

  /** The position `n` blocks below `pos`. */
  function Below(pos: Pos, n: int): (p: Pos)
    ensures p.x == pos.x && p.z == pos.z && p.y == pos.y - n
  {
    Pos(pos.x, pos.y - n, pos.z)
  }

  /** Every horizontal neighbour of `pos` is air. */
  predicate AirAround(w: World, pos: Pos)
    reads w
  {
    forall f :: f in HorizontalFaces() ==> w.BlockAt(pos.Side(f)).Air?
  }

  /** The written blocks lying lower than height `y`: what a descent through the column uses up. */
  function Lower(w: World, y: int): set<Pos>
    reads w
  {
    set k | k in w.blocks && k.y < y
  }

  lemma StrictSubsetSmaller(a: set<Pos>, b: set<Pos>, x: Pos)
    requires a <= b && x in b && x !in a
    ensures |a| < |b|
  {
    assert b == a + (b - a);
    assert x in b - a;
  }

  /**
   * canGrowHere: every horizontal neighbour must be air; in recursive mode
   * the check descends through the cacti below, and otherwise the block
   * below must support vegetation.
   */
  function CanGrowHere(c: Block, w: World, pos: Pos, recursive: bool): (r: bool)
    reads w
    ensures !AirAround(w, pos) ==> !r
    ensures AirAround(w, pos) && !(recursive && w.BlockAt(Below(pos, 1)).Cactus?) ==>
      r == w.supportsVegetation(c, w.BlockAt(Below(pos, 1)))
    decreases |Lower(w, pos.y)|
  {
    var below := pos.Side(FaceDown);
    if !AirAround(w, pos) then false
    else if w.BlockAt(below).Cactus? && recursive then
      assert below in Lower(w, pos.y) && below !in Lower(w, below.y);
      StrictSubsetSmaller(Lower(w, below.y), Lower(w, pos.y), below);
      CanGrowHere(c, w, below, recursive)
    else w.supportsVegetation(c, w.BlockAt(below))
  }

  /**
   * An independent reading of the recursive check: the cactus column
   * reaching `n` blocks down from `pos` has air around every block, and it
   * stands on a supporting block that is not a cactus.
   */
  ghost predicate Column(c: Block, w: World, pos: Pos, n: nat)
    reads w
  {
    && (forall i :: 0 <= i <= n ==> AirAround(w, Below(pos, i)))
    && (forall i :: 1 <= i <= n ==> w.BlockAt(Below(pos, i)).Cactus?)
    && !w.BlockAt(Below(pos, n + 1)).Cactus?
    && w.supportsVegetation(c, w.BlockAt(Below(pos, n + 1)))
  }

  lemma {:induction false} ColumnShift(c: Block, w: World, pos: Pos, n: nat)
    requires AirAround(w, pos) && w.BlockAt(Below(pos, 1)).Cactus?
    ensures Column(c, w, pos, n + 1) <==> Column(c, w, Below(pos, 1), n)
  {
    assert forall i :: Below(Below(pos, 1), i) == Below(pos, i + 1);
    if Column(c, w, Below(pos, 1), n) {
      forall i | 0 <= i <= n + 1 ensures AirAround(w, Below(pos, i)) {
        if i > 0 {
          assert Below(pos, i) == Below(Below(pos, 1), i - 1);
        }
      }
      forall i | 1 <= i <= n + 1 ensures w.BlockAt(Below(pos, i)).Cactus? {
        if i > 1 {
          assert Below(pos, i) == Below(Below(pos, 1), i - 1);
        }
      }
    }
  }

  /** The recursive check holds exactly when such a column exists. */
  lemma {:induction false} CanGrowHereIffColumn(c: Block, w: World, pos: Pos)
    ensures CanGrowHere(c, w, pos, true) <==> exists n: nat :: Column(c, w, pos, n)
    decreases |Lower(w, pos.y)|
  {
    var below := Below(pos, 1);
    assert below == pos.Side(FaceDown);
    if !AirAround(w, pos) {
      forall n: nat ensures !Column(c, w, pos, n) {
        assert Below(pos, 0) == pos;
      }
    } else if w.BlockAt(below).Cactus? {
      assert below in Lower(w, pos.y) && below !in Lower(w, below.y);
      StrictSubsetSmaller(Lower(w, below.y), Lower(w, pos.y), below);
      CanGrowHereIffColumn(c, w, below);
      if CanGrowHere(c, w, pos, true) {
        var n: nat :| Column(c, w, below, n);
        ColumnShift(c, w, pos, n);
      }
      if exists n: nat :: Column(c, w, pos, n) {
        var n: nat :| Column(c, w, pos, n);
        assert n != 0;
        ColumnShift(c, w, pos, n - 1);
      }
    } else {
      if CanGrowHere(c, w, pos, true) {
        assert Below(pos, 0) == pos;
        assert Column(c, w, pos, 0);
      }
      if exists n: nat :: Column(c, w, pos, n) {
        var n: nat :| Column(c, w, pos, n);
        assert n == 0;
      }
    }
  }

  /** The age after a random tick: one more below 15, and 15 wraps to 0. */
  function NextAge(age: int): (r: int)
    ensures 0 <= age <= MaxAge ==> 0 <= r <= MaxAge
    ensures age < MaxAge ==> r == age + 1
    ensures age == MaxAge ==> r == 0
    ensures age > MaxAge ==> r == age
  {
    if age < MaxAge then age + 1 else if age == MaxAge then 0 else age
  }

  /**
   * Where a mature cactus grows: directly above if that is air, or two above
   * if the block above is a cactus and the one above that is air.
   */
  function GrowthTarget(w: World, pos: Pos): (r: Option<Pos>)
    reads w
    ensures r.Some? ==> r.value == Below(pos, -1) || r.value == Below(pos, -2)
    ensures r == Some(Below(pos, -1)) <==> w.BlockAt(Below(pos, -1)).Air?
    ensures r == Some(Below(pos, -2)) <==>
      w.BlockAt(Below(pos, -1)).Cactus? && w.BlockAt(Below(pos, -2)).Air?
    ensures r.Some? ==> w.BlockAt(r.value).Air?
  {
    if w.BlockAt(Below(pos, -1)).Air? then Some(Below(pos, -1))
    else if w.BlockAt(Below(pos, -1)).Cactus? && w.BlockAt(Below(pos, -2)).Air? then Some(Below(pos, -2))
    else None
  }

  /** Whether a random tick grows a new cactus: only from age 15, and only where the block below could hold one. */
  function Grows(c: Block, w: World, pos: Pos): bool
    requires c.Cactus?
    reads w
  {
    c.age == MaxAge && CanGrowHere(c.(age := 0), w, pos.Side(FaceDown), false) && GrowthTarget(w, pos).Some?
  }

  /**
   * RandomTick: the cactus ages; a mature one may grow one new cactus of age
   * 0 above it; the cactus is always written back with its new age.
   */
  method RandomTick(c: Block, pos: Pos, w: World)
    requires c.Cactus?
    modifies w
    ensures var grown := if old(Grows(c, w, pos)) then old(w.blocks)[old(GrowthTarget(w, pos)).value := Cactus(0)] else old(w.blocks);
      w.blocks == grown[pos := Cactus(NextAge(c.age))]
    ensures w.events == old(w.events)
      + (if old(Grows(c, w, pos)) then [BlockSet(old(GrowthTarget(w, pos)).value, NoOpts)] else [])
      + [BlockSet(pos, NoOpts)]
    ensures w.liquids == old(w.liquids)
  {
    var d := c;
    if d.age < MaxAge {
      d := d.(age := d.age + 1);
    } else if d.age == MaxAge {
      d := d.(age := 0);
      if CanGrowHere(d, w, pos.Side(FaceDown), false) {
        ghost var target := GrowthTarget(w, pos);
        var y := 1;
        while y < 3
          invariant 1 <= y <= 3
          invariant w.blocks == old(w.blocks) && w.events == old(w.events) && w.liquids == old(w.liquids)
          invariant y == 2 ==> w.BlockAt(Below(pos, -1)).Cactus?
          invariant y == 3 ==> target.None?
          decreases 3 - y
        {
          var p := pos.Add(Pos(0, y, 0));
          assert p == Below(pos, -y);
          if w.BlockAt(p).Air? {
            w.SetBlock(p, Cactus(0), NoOpts);
            break;
          } else if !w.BlockAt(p).Cactus? {
            break;
          }
          y := y + 1;
        }
      }
    }
    w.SetBlock(pos, d, NoOpts);
  }

  /** NeighbourUpdateTick: a cactus that cannot stay breaks, dropping one cactus. */
  method NeighbourUpdateTick(c: Block, pos: Pos, w: World)
    requires c.Cactus?
    modifies w
    ensures old(CanGrowHere(c, w, pos, true)) ==> w.blocks == old(w.blocks) && w.events == old(w.events)
    ensures !old(CanGrowHere(c, w, pos, true)) ==>
      w.blocks == old(w.blocks)[pos := Air] &&
      w.events == old(w.events) + [BlockSet(pos, NoOpts), BreakParticle(pos), ItemDropped(pos, Stack(CactusItem, 1))]
    ensures w.liquids == old(w.liquids)
  {
    if !CanGrowHere(c, w, pos, true) {
      w.SetBlock(pos, Air, NoOpts);
      w.Emit([BreakParticle(pos), ItemDropped(pos, Stack(CactusItem, 1))]);
    }
  }

  /** UseOnBlock at the resolved position: refused where the cactus could not stay. */
  method UseOnBlock(c: Block, pos: Pos, w: World) returns (used: bool)
    requires c.Cactus?
    modifies w
    ensures used == old(CanGrowHere(c, w, pos, true))
    ensures !used ==> w.blocks == old(w.blocks) && w.events == old(w.events)
    ensures used ==> w.blocks == old(w.blocks)[pos := c] && w.events == old(w.events) + [BlockSet(pos, NoOpts)]
    ensures w.liquids == old(w.liquids)
  {
    if !CanGrowHere(c, w, pos, true) {
      return false;
    }
    w.SetBlock(pos, c, NoOpts);
    return true;
  }

  /** allCactus: the sixteen ages. */
  function AllCactus(): (bs: seq<Block>)
    ensures |bs| == MaxAge + 1
    ensures forall i :: 0 <= i < |bs| ==> bs[i].Cactus? && 0 <= bs[i].age <= MaxAge
    ensures forall a :: 0 <= a <= MaxAge ==> Cactus(a) in bs
    ensures forall i, j :: 0 <= i < j < |bs| ==> bs[i] != bs[j]
  {
    var bs := seq(MaxAge + 1, i requires 0 <= i <= MaxAge => Cactus(i));
    assert forall a :: 0 <= a <= MaxAge ==> bs[a] == Cactus(a);
    bs
  }

  /** EncodeBlock: the age, as an int32, is the only block state. */
  function EncodeBlock(c: Block): (s: BlockState)
    requires c.Cactus?
    ensures s.name == "minecraft:cactus" && s.properties.Keys == {"age"}
    ensures 0 <= c.age <= MaxAge ==> s.properties["age"] == Nbt.Int(c.age)
  {
    BlockState("minecraft:cactus", map["age" := Nbt.Int(Int32(c.age))])
  }

  /** Every cactus state of AllCactus has its own block state. */
  lemma EncodeBlockInjective(c: Block, d: Block)
    requires c.Cactus? && d.Cactus? && 0 <= c.age <= MaxAge && 0 <= d.age <= MaxAge
    ensures EncodeBlock(c) == EncodeBlock(d) <==> c == d
  {
    if EncodeBlock(c) == EncodeBlock(d) {
      assert EncodeBlock(c).properties["age"] == EncodeBlock(d).properties["age"];
    }
  }
}
