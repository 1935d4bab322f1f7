/**
 * Flowers (server/block/flower.go): single-block plants that need vegetation
 * support and that bone meal spreads onto nearby grass.
 */
module Flowers {
  import opened Cube
  import opened Items
  import opened Events
  import opened Blocks
  import opened Worlds

  /** The number of spread attempts one use of bone meal makes. */
  const Attempts: int := 8

  /**
   * One spread attempt's random draws: the offset (three rand.Intn calls)
   * and whether rand.Float64 fell below 0.1.
   */
  datatype Draw = Draw(offset: Pos, swap: bool)

  /** What rand.Intn(7)-3, rand.Intn(3)-1, rand.Intn(7)-3 can produce. */
  predicate ValidDraw(d: Draw) {
    -3 <= d.offset.x <= 3 && -1 <= d.offset.y <= 1 && -3 <= d.offset.z <= 3
  }

  /** A block in a map of written positions; positions never written hold air. */
  function At(m: map<Pos, Block>, p: Pos): Block {
    if p in m then m[p] else Air
  }

  /** The type a spread flower takes: a swap exchanges dandelion and poppy and keeps any other type. */
  function Swapped(t: FlowerType, swap: bool): (r: FlowerType)
    ensures !swap ==> r == t
    ensures swap && t == Dandelion ==> r == Poppy
    ensures swap && t == Poppy ==> r == Dandelion
    ensures t != Dandelion && t != Poppy ==> r == t
  {
    if swap && t == Dandelion then Poppy
    else if swap && t == Poppy then Dandelion
    else t
  }

  /** Whether a flower may spread onto p: it holds air and grass lies below. */
  predicate Fertile(m: map<Pos, Block>, p: Pos) {
    At(m, p).Air? && At(m, p.Side(FaceDown)).Grass?
  }

  /** The blocks after a number of spread attempts, and the positions planted, in order. */
  datatype Spread = Spread(blocks: map<Pos, Block>, planted: seq<Pos>)

  /** The attempts are applied one after the other, each seeing the flowers of the ones before. */
  function SpreadOf(m: map<Pos, Block>, pos: Pos, t: FlowerType, ds: seq<Draw>): Spread
    decreases |ds|
  {
    if ds == [] then Spread(m, [])
    else
      var s := SpreadOf(m, pos, t, ds[..|ds| - 1]);
      var d := ds[|ds| - 1];
      var p := pos.Add(d.offset);
      if Fertile(s.blocks, p) then Spread(s.blocks[p := Flower(Swapped(t, d.swap))], s.planted + [p])
      else s
  }

  /** The block updates a spread writes, in order. */
  function PlantEvents(ps: seq<Pos>): (es: seq<Event>)
    ensures |es| == |ps| && forall i :: 0 <= i < |ps| ==> es[i] == BlockSet(ps[i], NoOpts)
  {
    seq(|ps|, i requires 0 <= i < |ps| => BlockSet(ps[i], NoOpts))
  }

  /**
   * BoneMeal. A wither rose does not spread. Otherwise every one of the
   * eight attempts that lands on air above grass plants a flower there, and
   * the use succeeds when at least one was planted.
   */
  method BoneMeal(f: Block, pos: Pos, w: World, draws: seq<Draw>) returns (success: bool)
    requires f.Flower? && |draws| == Attempts
    modifies w
    ensures f.flowerType == WitherRose ==> !success && w.blocks == old(w.blocks) && w.events == old(w.events)
    ensures f.flowerType != WitherRose ==>
      var s := SpreadOf(old(w.blocks), pos, f.flowerType, draws);
      w.blocks == s.blocks && w.events == old(w.events) + PlantEvents(s.planted) && (success <==> s.planted != [])
    ensures w.liquids == old(w.liquids)
  {
    if f.flowerType == WitherRose {
      return false;
    }
    success := false;
    for i := 0 to Attempts
      invariant w.blocks == SpreadOf(old(w.blocks), pos, f.flowerType, draws[..i]).blocks
      invariant w.events == old(w.events) + PlantEvents(SpreadOf(old(w.blocks), pos, f.flowerType, draws[..i]).planted)
      invariant success <==> SpreadOf(old(w.blocks), pos, f.flowerType, draws[..i]).planted != []
      invariant w.liquids == old(w.liquids)
    {
      assert draws[..i + 1][..i] == draws[..i];
      var p := pos.Add(draws[i].offset);
      if !w.BlockAt(p).Air? {
        continue;
      }
      if !w.BlockAt(p.Side(FaceDown)).Grass? {
        continue;
      }
      var flowerType := Swapped(f.flowerType, draws[i].swap);
      ghost var before := SpreadOf(old(w.blocks), pos, f.flowerType, draws[..i]).planted;
      w.SetBlock(p, Flower(flowerType), NoOpts);
      assert PlantEvents(before + [p]) == PlantEvents(before) + [BlockSet(p, NoOpts)];
      success := true;
    }
    assert draws[..Attempts] == draws;
  }

  /**
   * A spread changes only positions that held air above grass before it,
   * and turns each into a flower of the bone-mealed type or its swap.
   */
  lemma {:induction false} SpreadFillsOnlyAirAboveGrass(m: map<Pos, Block>, pos: Pos, t: FlowerType, ds: seq<Draw>, q: Pos)
    requires At(SpreadOf(m, pos, t, ds).blocks, q) != At(m, q)
    ensures Fertile(m, q)
    ensures At(SpreadOf(m, pos, t, ds).blocks, q) in {Flower(t), Flower(Swapped(t, true))}
    decreases |ds|
  {
    var s := SpreadOf(m, pos, t, ds[..|ds| - 1]);
    var d := ds[|ds| - 1];
    var p := pos.Add(d.offset);
    if At(s.blocks, q) != At(m, q) {
      SpreadFillsOnlyAirAboveGrass(m, pos, t, ds[..|ds| - 1], q);
      if q == p && Fertile(s.blocks, p) {
        assert false;
      }
    } else {
      assert q == p && Fertile(s.blocks, p);
      if At(s.blocks, p.Side(FaceDown)) != At(m, p.Side(FaceDown)) {
        SpreadFillsOnlyAirAboveGrass(m, pos, t, ds[..|ds| - 1], p.Side(FaceDown));
      }
    }
  }

  /**
   * Every attempt plants at most once, every planted position lies within
   * the draws' box around pos, and no position is planted twice.
   */
  lemma {:induction false} SpreadIsBounded(m: map<Pos, Block>, pos: Pos, t: FlowerType, ds: seq<Draw>)
    requires forall i :: 0 <= i < |ds| ==> ValidDraw(ds[i])
    ensures |SpreadOf(m, pos, t, ds).planted| <= |ds|
    ensures forall p :: p in SpreadOf(m, pos, t, ds).planted ==>
      -3 <= p.x - pos.x <= 3 && -1 <= p.y - pos.y <= 1 && -3 <= p.z - pos.z <= 3
    ensures forall p :: p in SpreadOf(m, pos, t, ds).planted ==> At(SpreadOf(m, pos, t, ds).blocks, p).Flower?
    ensures forall i, j :: 0 <= i < j < |SpreadOf(m, pos, t, ds).planted| ==>
      SpreadOf(m, pos, t, ds).planted[i] != SpreadOf(m, pos, t, ds).planted[j]
    decreases |ds|
  {
    if ds != [] {
      SpreadIsBounded(m, pos, t, ds[..|ds| - 1]);
    }
  }

  /** A wither rose keeps its type under any swap draw, and a non-swap draw keeps every type. */
  lemma SwapOnlyExchangesDandelionAndPoppy(t: FlowerType)
    ensures Swapped(Swapped(t, true), true) == t
    ensures Swapped(WitherRose, true) == WitherRose
  {
  }

  /** Whether the block below supports the flower. */
  predicate Supported(f: Block, w: World, pos: Pos)
    reads w
  {
    w.supportsVegetation(f, w.BlockAt(pos.Side(FaceDown)))
  }

  /** NeighbourUpdateTick: an unsupported flower breaks with a particle and drops itself. */
  method NeighbourUpdateTick(f: Block, pos: Pos, w: World)
    requires f.Flower?
    modifies w
    ensures !old(Supported(f, w, pos)) ==>
      w.blocks == old(w.blocks)[pos := Air] &&
      w.events == old(w.events) + [BlockSet(pos, NoOpts), BreakParticle(pos), ItemDropped(pos, Stack(EncodeItem(f), 1))]
    ensures old(Supported(f, w, pos)) ==> w.blocks == old(w.blocks) && w.events == old(w.events)
    ensures w.liquids == old(w.liquids)
  {
    if !w.supportsVegetation(f, w.BlockAt(pos.Side(FaceDown))) {
      w.SetBlock(pos, Air, NoOpts);
      w.Emit([BreakParticle(pos), ItemDropped(pos, Stack(EncodeItem(f), 1))]);
    }
  }

  /**
   * UseOnBlock at the resolved position: placed exactly when supported; a
   * flower so placed survives the next neighbour update.
   */
  method UseOnBlock(f: Block, pos: Pos, w: World) returns (used: bool)
    requires f.Flower?
    modifies w
    ensures used <==> old(Supported(f, w, pos))
    ensures used ==> w.blocks == old(w.blocks)[pos := f] && w.events == old(w.events) + [BlockSet(pos, NoOpts)]
    ensures !used ==> w.blocks == old(w.blocks) && w.events == old(w.events)
    ensures used ==> Supported(f, w, pos)
    ensures w.liquids == old(w.liquids)
  {
    if !w.supportsVegetation(f, w.BlockAt(pos.Side(FaceDown))) {
      return false;
    }
    w.SetBlock(pos, f, NoOpts);
    return true;
  }

  /** The name shared by EncodeItem and EncodeBlock. */
  function Name(f: Block): (s: string)
    requires f.Flower?
    ensures |s| == 10 + |f.flowerType.name| && s[..10] == "minecraft:" && s[10..] == f.flowerType.name
  {
    "minecraft:" + f.flowerType.name
  }

  function EncodeItem(f: Block): (it: Item)
    requires f.Flower?
    ensures it == Plain(Name(f), 0)
  {
    Plain(Name(f), 0)
  }

  function EncodeBlock(f: Block): (s: BlockState)
    requires f.Flower?
    ensures s == BlockState(Name(f), map[])
  {
    BlockState(Name(f), map[])
  }

  /** allFlowers over the given types (FlowerTypes): one flower per type, in order. */
  function AllFlowers(types: seq<FlowerType>): (bs: seq<Block>)
    ensures |bs| == |types|
    ensures forall i :: 0 <= i < |bs| ==> bs[i] == Flower(types[i])
  {
    seq(|types|, i requires 0 <= i < |types| => Flower(types[i]))
  }
}
