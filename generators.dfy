/**
 * The void world generator (server/world/generator/void.go): it writes no
 * blocks and only fills a chunk's biome cells with one biome.
 */
module Generators {
  import opened Ints

  /** A biome cell of a chunk: a column (x, z) in 0..15 and an absolute height y. */
  datatype Cell = Cell(x: int, y: int, z: int)

  /**
   * The biome storage of one chunk (chunk.Chunk is not part of this model;
   * its block storage is left out because the generator never writes it).
   */
  class Chunk {
    var biomes: map<Cell, int>
    /** chunk.Range(): the lowest and highest height of the chunk. */
    const min: int
    const max: int

    constructor (min: int, max: int)
      ensures biomes == map[] && this.min == min && this.max == max
    {
      biomes := map[];
      this.min, this.max := min, max;
    }

    /** SetBiome. */
    method SetBiome(x: int, y: int, z: int, biome: int)
      modifies this
      ensures biomes == old(biomes)[Cell(x, y, z) := biome]
    {
      biomes := biomes[Cell(x, y, z) := biome];
    }
  }

  /**
   * NewVoid returns a Flat generator, not a Void one: Flat and its chunk
   * generation are not part of this model.
   */
  datatype Generator = FlatGenerator(biome: int) | VoidGenerator(biome: int)

  /** NewVoid: the biome's encoding, narrowed to a uint32, in a Flat generator. */
  function NewVoid(encodedBiome: int): (g: Generator)
    ensures g.FlatGenerator?
    ensures 0 <= g.biome < TwoTo32
    ensures 0 <= encodedBiome < TwoTo32 ==> g.biome == encodedBiome
  {
    FlatGenerator(Uint32(encodedBiome))
  }

  /** The cells of columns 0..15 × 0..15 with heights lo..hi. */
  predicate Target(c: Cell, lo: int, hi: int) {
    0 <= c.x < 16 && 0 <= c.z < 16 && lo <= c.y <= hi
  }

  /** The target cells visited before (x, z, y) in x, then z, then y order. */
  predicate Visited(c: Cell, lo: int, hi: int, x: int, z: int, y: int) {
    Target(c, lo, hi) && (c.x < x || (c.x == x && (c.z < z || (c.z == z && c.y < y))))
  }

  /** after is before with every visited cell set to b. */
  ghost predicate Filled(before: map<Cell, int>, after: map<Cell, int>, b: int,
                         lo: int, hi: int, x: int, z: int, y: int) {
    forall c :: (c in after <==> c in before || Visited(c, lo, hi, x, z, y)) &&
                (c in after ==> after[c] == if Visited(c, lo, hi, x, z, y) then b else before[c])
  }

  /**
   * The biome-fill loop of GenerateChunk over heights lo..hi: every cell in
   * that box gets the biome and no other cell changes.
   */
  method Fill(chunk: Chunk, lo: int, hi: int, biome: int)
    modifies chunk
    ensures forall c :: c in chunk.biomes <==> c in old(chunk.biomes) || Target(c, lo, hi)
    ensures forall c :: Target(c, lo, hi) ==> chunk.biomes[c] == biome
    ensures forall c :: c in old(chunk.biomes) && !Target(c, lo, hi) ==> chunk.biomes[c] == old(chunk.biomes)[c]
  {
    ghost var start := chunk.biomes;
    var x := 0;
    while x < 16
      invariant 0 <= x <= 16
      invariant Filled(start, chunk.biomes, biome, lo, hi, x, 0, lo)
    {
      var z := 0;
      while z < 16
        invariant 0 <= z <= 16
        invariant Filled(start, chunk.biomes, biome, lo, hi, x, z, lo)
      {
        var y := lo;
        while y <= hi
          invariant lo <= y && (lo <= hi ==> y <= hi + 1)
          invariant Filled(start, chunk.biomes, biome, lo, hi, x, z, y)
          decreases hi - y
        {
          chunk.SetBiome(x, y, z, biome);
          y := y + 1;
        }
        z := z + 1;
      }
      x := x + 1;
    }
  }

  /**
   * GenerateChunk as written: the range is narrowed to int16 and the loop
   * writes min+y for y in 0..max, that is heights min..min+max. The range
   * stays inside int16 without wrapping because world ranges start at or
   * below 0, and because a loop `y <= max` over an int16 never ends when max
   * is the largest int16.
   */
  method GenerateChunk(g: Generator, chunk: Chunk)
    requires g.VoidGenerator?
    requires InInt16(chunk.min) && InInt16(chunk.max) && chunk.min <= 0 && chunk.max < 0x7fff
    modifies chunk
    ensures forall c :: c in chunk.biomes <==> c in old(chunk.biomes) || Target(c, chunk.min, chunk.min + chunk.max)
    ensures forall c :: Target(c, chunk.min, chunk.min + chunk.max) ==> chunk.biomes[c] == g.biome
    ensures forall c :: c in old(chunk.biomes) && !Target(c, chunk.min, chunk.min + chunk.max) ==>
      chunk.biomes[c] == old(chunk.biomes)[c]
  {
    var min, max := Int16(chunk.min), Int16(chunk.max);
    Fill(chunk, min, min + max, g.biome);
  }

  /**
   * With the overworld's range -64..319 the heights 256..319 keep no biome:
   * a fresh chunk generated by the Void generator has one at height 255 but
   * none at height 300.
   */
  method GenerateChunkMissesTopHeights(biome: int) returns (chunk: Chunk)
    ensures fresh(chunk) && chunk.min == -64 && chunk.max == 319
    ensures Cell(0, 255, 0) in chunk.biomes && chunk.biomes[Cell(0, 255, 0)] == biome
    ensures Cell(0, 300, 0) !in chunk.biomes
  {
    chunk := new Chunk(-64, 319);
    GenerateChunk(VoidGenerator(biome), chunk);
    assert Target(Cell(0, 255, 0), -64, -64 + 319);
    assert !Target(Cell(0, 300, 0), -64, -64 + 319);
  }

  /** GenerateChunk as evidently intended: every height of the chunk's range. */
  method GenerateChunkIntended(g: Generator, chunk: Chunk)
    requires g.VoidGenerator?
    requires InInt16(chunk.min) && InInt16(chunk.max)
    modifies chunk
    ensures forall c :: c in chunk.biomes <==> c in old(chunk.biomes) || Target(c, chunk.min, chunk.max)
    ensures forall c :: Target(c, chunk.min, chunk.max) ==> chunk.biomes[c] == g.biome
    ensures forall c :: c in old(chunk.biomes) && !Target(c, chunk.min, chunk.max) ==>
      chunk.biomes[c] == old(chunk.biomes)[c]
  {
    var min, max := Int16(chunk.min), Int16(chunk.max);
    Fill(chunk, min, max, g.biome);
  }

  /** The corrected generation reaches the top of a -64..319 chunk, unlike GenerateChunk. */
  method IntendedCoversTopHeights(biome: int) returns (chunk: Chunk)
    ensures fresh(chunk) && chunk.min == -64 && chunk.max == 319
    ensures Cell(0, 255, 0) in chunk.biomes && chunk.biomes[Cell(0, 255, 0)] == biome
    ensures Cell(0, 300, 0) in chunk.biomes && chunk.biomes[Cell(0, 300, 0)] == biome
  {
    chunk := new Chunk(-64, 319);
    GenerateChunkIntended(VoidGenerator(biome), chunk);
    assert Target(Cell(0, 255, 0), -64, 319);
    assert Target(Cell(0, 300, 0), -64, 319);
  }
}
