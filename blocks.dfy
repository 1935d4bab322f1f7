/**
 * The blocks the modelled code reads and writes, as one closed union in place
 * of the source's world.Block interface. A block is a value (Go structs are
 * copied); the inventory and viewer set of a container are shared references.
 */
module Blocks {
  import opened Wrappers
  import opened Cube
  import opened Items
  import opened Inventories
  import opened Nbt

  // Variant enumerations whose definitions (colour.go, coral_type.go,
  // flower_type.go, double_flower_type.go) are not part of this model: a
  // variant is identified by the name its String method returns.
  datatype Colour = Colour(name: string)
  datatype CoralType = CoralType(name: string)
  datatype FlowerType = FlowerType(name: string)
  datatype DoubleFlowerType = DoubleFlowerType(id: int, name: string)

  const Dandelion: FlowerType := FlowerType("dandelion")
  const Poppy: FlowerType := FlowerType("poppy")
  const WitherRose: FlowerType := FlowerType("wither_rose")

  /**
   * The furnace state behind a smoker (smelter.go is not part of this model):
   * remaining, maximum and cook durations in nanoseconds, stored experience
   * and the smelter's slots.
   */
  datatype Smelter = Smelter(remaining: int, maximum: int, cook: int, experience: int, slots: seq<Stack>)

  datatype Block =
    | Air
    | Grass
    | EnderChest
    | Chest(customName: string, facing: int, paired: bool, pairX: int, pairZ: int,
            inventory: Inventory?, viewers: ViewerSet?)
    | Dispenser(customName: string, face: int, triggered: bool,
                inventory: Inventory?, viewers: ViewerSet?)
    | Hopper(face: int, toggled: bool)
    | Smoker(facing: int, lit: bool, smelter: Option<Smelter>)
    | Lectern(facing: int, book: Stack, page: int)
    | Note(pitch: int)
    | Cactus(age: int)
    | DoubleFlower(upperPart: bool, doubleType: DoubleFlowerType)
    | Coral(coralType: CoralType, dead: bool)
    | Carpet(colour: Colour)
    | Flower(flowerType: FlowerType)
    | SporeBlossom
    | Other(name: string)

  /** What EncodeBlock returns: a block name and its state properties (nil is the empty map). */
  datatype BlockState = BlockState(name: string, properties: map<string, Value>)

  /**
   * The `facing_direction` code of a dispenser or hopper face: the switch
   * numbers Down, Up, North, South, West, East as 0..5 and leaves any other
   * value at Go's zero.
   */
  function FacingCode(f: int): (code: int)
    ensures 0 <= code < 6
    ensures IsFace(f) ==> code == f
    ensures !IsFace(f) ==> code == 0
  {
    if f == FaceDown then 0
    else if f == FaceUp then 1
    else if f == FaceNorth then 2
    else if f == FaceSouth then 3
    else if f == FaceWest then 4
    else if f == FaceEast then 5
    else 0
  }

  lemma FacingCodeInjective(f: int, g: int)
    requires IsFace(f) && IsFace(g)
    ensures FacingCode(f) == FacingCode(g) <==> f == g
  {
  }

  /** What activating a container block did: whether it was handled, and whether the container opened. */
  datatype Activation = Activation(handled: bool, opens: bool)

  /**
   * Activate of a chest or a dispenser. Only a user able to open containers
   * handles it; the container opens only when the block above diffuses light
   * at level 2 or less. `aboveDiffusion` is that block's diffusion level, or
   * None when it is not a light diffuser.
   */
  function ActivateContainer(isOpener: bool, aboveDiffusion: Option<int>): (r: Activation)
    ensures r.handled <==> isOpener
    ensures r.opens <==> isOpener && aboveDiffusion.Some? && aboveDiffusion.value <= 2
    ensures r.opens ==> r.handled
  {
    Activation(isOpener, isOpener && aboveDiffusion.Some? && aboveDiffusion.value <= 2)
  }
}
