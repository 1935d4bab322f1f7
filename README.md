# Dragonfly block entities, orientation and small codecs, in Dafny

This project models part of the Dragonfly Minecraft Bedrock server, written in Go. It covers:

- **Container blocks.** The chest covers its viewer set with open/close animations, the pairing of two chests into one 54-slot double chest, unpairing, and its saved record. The dispenser and smoker cover their saved records and block-state codecs, and the hopper its block-state codec.
- **Other block entities.** The lectern has a book and page state machine and a packet validator. The note block cycles its pitch.
- **Orientation algebra.** `cube.Direction` and the attachment bit-packing.
- **Legacy block-id upgrade.** A table lookup with a meta-0 fallback.
- **Plant survival and growth rules.** Cactus, double flower, coral, carpet, flower and spore blossom, written against an abstract world.
- **Six enchantments.** Their cost ranges and compatibility rules.
- **Small codecs, dispatchers and registries.** The firework flight codec, container-close dispatch, the console's line splitting and `format`, the server's handler registry and guards, and the void generator's biome fill.

The world is the class `Worlds.World`. It has:

- a map from block position to block, where an absent position is air;
- a map of liquids;
- a log of events, which is only ever appended to: block writes, sounds, drops, viewer actions, scheduled updates.

The world queries that this model cannot see are constant function fields of `World`:

- whether a block supports vegetation;
- whether a face is solid;
- whether a block may be replaced;
- who views a position.

A block is a value of the one datatype `Blocks.Block`, because Go copies block structs. The chest's and the dispenser's inventory and viewer set are objects the source shares by reference, so they are the classes `Inventories.Inventory` and `Inventories.ViewerSet`. The smoker's `*smelter` is shared by reference too, but the model holds it as a value, `Option<Smelter>`, because smelting is left out.

Conventions:

- A Go panic on a bad direction becomes a precondition. The server's panics on a second `Start` and on `Close` before `Start` become a `false` result that changes nothing.
- Integer conversions the source performs (`int16(...)`, `int32(...)`, `uint8(...)`, `uint32(...)`) are written out as wrap-around functions in `Ints`.
- Randomness, the clock and the network are parameters of the operations that use them.

Two quirks are modelled as they are written:

- `attachment.go` implements `RotateRight` with `RotateLeft`.
- The void generator fills heights `min..min+max`.

Each has a corrected definition beside it (see "## Findings").

The console's reset suffix is the four bytes `C3 82 C2 A7` followed by `r`, exactly as the source file holds them. That is `§r` encoded as UTF-8 twice, and `Console.ConsoleLog.SendMessage` is modelled with those characters.

## Model

| member | source | states |
|---|---|---|
| Cube.Face | server/block/cube/direction.go:26-28 | the face of a direction is the direction's number shifted by two, so North..East map to the North..East faces |
| Cube.Opposite | server/block/cube/direction.go:31-51 | defined on exactly the 8 directions; the result is a different direction of the same kind (cardinal or diagonal) |
| Cube.RotateRight | server/block/cube/direction.go:54-74 | defined on exactly the 8 directions; the result is a different direction of the same kind |
| Cube.RotateLeft | server/block/cube/direction.go:77-97 | defined on exactly the 8 directions; the result is a different direction of the same kind |
| Cube.String | server/block/cube/direction.go:100-120 | defined on the 8 directions; at least four characters |
| Cube.Directions | server/block/cube/direction.go:125-127 | four cardinal directions starting at North, each one RotateRight of the one before |
| Cube.AllDirections | server/block/cube/direction.go:129-131 | every direction exactly once, eight in all |
| Cube.OppositeInvolution | server/block/cube/direction.go:31-51 | Opposite applied twice is the identity |
| Cube.RotateLeftUndoesRotateRight | server/block/cube/direction.go:54-97 | RotateLeft and RotateRight are inverse to each other on all 8 directions |
| Cube.RotateRightTwiceIsOpposite | server/block/cube/direction.go:54-74 | two right turns are Opposite and four are the identity |
| Cube.StringInjective | server/block/cube/direction.go:100-120 | two directions have the same name exactly when they are equal |
| Attachments.WallAttachment | server/block/attachment.go:14-16 | a hanging attachment with the given facing |
| Attachments.StandingAttachment | server/block/attachment.go:19-21 | a standing attachment with the given orientation |
| Attachments.Uint8 | server/block/attachment.go:24-29 | a byte: twice the facing for a hanging attachment, and twice the orientation plus one for a standing one with an orientation below 128 |
| Attachments.FaceUint8 | server/block/attachment.go:32-37 | 1 for a standing attachment, otherwise the same value as Uint8 |
| Attachments.LowBitIsStanding | server/block/attachment.go:24-29 | the low bit of Uint8 is set exactly when the attachment is standing |
| Attachments.Uint8Injective | server/block/attachment.go:24-29 | within one kind, two attachments pack alike exactly when their facing (hanging) or orientation below 128 (standing) is equal |
| Attachments.KindsDoNotCollide | server/block/attachment.go:24-29 | a hanging and a standing attachment never pack to the same byte |
| Attachments.RotateLeft | server/block/attachment.go:40-42 | keeps the kind, turns the facing left and the orientation with the given orientation turn |
| Attachments.RotateRight | server/block/attachment.go:45-47 | as written: keeps the kind and turns the facing LEFT |
| Attachments.RotateRightTurnsLeft | server/block/attachment.go:45-47 | a wall attachment facing North rotated "right" faces West, although Direction.RotateRight of North is East, and RotateRight equals RotateLeft on every attachment |
| Attachments.RotateRightIntended | server/block/attachment.go:45-47 | the corrected rotation: keeps the kind and turns the facing right |
| Attachments.RotationsAreInverse | server/block/attachment.go:40-47 | RotateLeft and the corrected RotateRight undo each other whenever the orientation turns do |
| Blocks.FacingCode | server/block/dispenser.go:56-78 | facing_direction code of a face: 0..5 in the order Down, Up, North, South, West, East, and 0 for a value outside them |
| Blocks.FacingCodeInjective | server/block/hopper.go:25-41 | distinct faces get distinct facing_direction codes |
| Blocks.ActivateContainer | server/block/chest.go:143-152 | handled exactly when the user can open containers; opens exactly when, in addition, the block above diffuses light at level 2 or less |
| Chests.NewChest | server/block/chest.go:52-66 | a chest with a fresh inventory of the requested size, all empty, whose slot-change callback sends to the chest's own fresh, empty viewer set |
| Chests.Animate | server/block/chest.go:101-115 | sends the open or close action to every viewer of the position, then plays the chest sound |
| Chests.Step | server/block/chest.go:118-140 | adding inserts and removing deletes the viewer; the open animation happens exactly when the set goes from empty to non-empty and the close animation exactly when it goes from non-empty to empty; otherwise there is none |
| Chests.AddViewer | server/block/chest.go:118-126 | inserts the viewer and appends the open animation exactly when the set was empty before |
| Chests.RemoveViewer | server/block/chest.go:130-140 | on an empty set, nothing changes; otherwise deletes the viewer and appends the close animation exactly when the set becomes empty |
| Chests.RunAlternates | server/block/chest.go:118-140 | over any sequence of adds and removes, open and close animations strictly alternate (starting with open on a closed chest), and an odd number of animations leaves the chest in the opposite state (open or closed) to the one it started in, an even number in the same one |
| Chests.AddingViewersOpensOnce | server/block/chest.go:118-126 | adding one or more viewers to a closed chest animates opening once, and to an open chest not at all |
| Chests.SetSlot | server/block/chest.go:56-62 | a slot change updates that slot and is sent to each current viewer exactly once |
| Chests.ReactionTo | server/block/chest.go:169-211 | unpair exactly when the update is not a self-update, the neighbour is air, the chest is paired and the neighbour is its partner; pair exactly when the neighbour is an unpaired chest facing the same way as an unpaired chest; in every other case, ignore |
| Chests.FirstEmptyOfPacked | server/block/chest.go:215-223 | after the initiator's non-empty stacks are added in order, the first free slot is right after them |
| Chests.NeighbourUpdateTick | server/block/chest.go:169-236 | accepts any chest, with or without an inventory, except on the pairing path. Ignored cases change nothing; unpairing clears only `paired`. Pairing rebuilds the initiator as a fresh chest (name empty, facing North, no viewers) that stores the neighbour's coordinates. The partner keeps its own fields but stores the initiator's coordinates and shares the initiator's new 54-slot inventory. That inventory holds the initiator's non-empty stacks in order, and the initiator's old inventory is cleared |
| Chests.PairIsSymmetric | server/block/chest.go:225-235 | for chests at the same height with int32 coordinates: after pairing, each chest's stored partner position is the other chest |
| Chests.PairedChestsStayPaired | server/block/chest.go:180-211 | two paired partners ignore each other's updates, and each unpairs when the other becomes air |
| Chests.VerticalNeighboursPair | server/block/chest.go:194-211 | the pairing check does not look at the neighbour's height, so a chest above with the same facing pairs; a paired chest with air above does not unpair |
| Chests.DrainKeepsEveryItem | server/block/chest.go:215-223 | draining at most 54 stacks into the double inventory keeps every non-empty stack |
| Chests.SavedSlots | server/block/chest.go:279-293 | a chest without an inventory is saved as the empty slots of its type |
| Chests.EncodeNBT | server/block/chest.go:279-303 | always writes `id` = "Chest" and `Items`; writes `CustomName` exactly when the name is not empty and `pairx`/`pairz` exactly when the chest is paired and has an inventory (a chest without one is replaced by an unpaired NewChest first); writes no other key |
| Chests.DecodeData | server/block/chest.go:254-276 | fails exactly when `pairz` is present but the coordinates are not int32; otherwise paired exactly when `pairz` is present, with 54 slots if so and 27 if not, and the name and items restored |
| Chests.DecodeNBT | server/block/chest.go:254-276 | succeeds exactly when DecodeData does; the result is a fresh chest with the receiver's facing and the decoded data |
| Chests.RecordRoundTrip | server/block/chest.go:254-303 | for a chest with an inventory of its type's size, encoding then decoding gives back the name, pairing and items, and an unpaired chest's coordinates come back as zero; a chest without an inventory comes back as an empty, unpaired single chest with its name, even when it was paired |
| Chests.UnpairedDoubleChestLosesUpperHalf | server/block/chest.go:180-303 | a chest unpaired while holding 54 slots is reloaded with its first 27 slots only |
| Chests.AllChests | server/block/chest.go:316-321 | one uninitialised, unpaired chest per cardinal direction, all distinct |
| Chests.EncodeBlock | server/block/chest.go:311-313 | "minecraft:chest" whose only property is the facing's name |
| Chests.EncodeBlockInjective | server/block/chest.go:311-313 | two chests' states are equal exactly when their facings are |
| Chests.Activate | server/block/chest.go:143-152 | the container activation rule; it opens only under a block whose diffusion is at most 2 |
| Chests.UseOnBlock | server/block/chest.go:155-166 | places a fresh single (27-slot) chest facing opposite the user and writes nothing else |
| Dispensers.NewDispenser | server/block/dispenser.go:33-48 | a fresh 9-slot inventory with a fresh, empty viewer set it reports to; facing down, not triggered, unnamed |
| Dispensers.AddViewer | server/block/dispenser.go:87-91 | only inserts the viewer |
| Dispensers.RemoveViewer | server/block/dispenser.go:95-102 | removes exactly that viewer; an empty set stays empty |
| Dispensers.EncodeBlock | server/block/dispenser.go:56-78 | "minecraft:dispenser" with the face's facing_direction code and triggered_bit equal to Triggered, and no other property |
| Dispensers.EncodeBlockInjective | server/block/dispenser.go:56-78 | two dispensers' states are equal exactly when their faces and triggered flags are |
| Dispensers.SavedSlots | server/block/dispenser.go:144-159 | a dispenser without an inventory is saved as 9 empty slots |
| Dispensers.EncodeNBT | server/block/dispenser.go:144-159 | writes `id` = "Dispenser" and `Items`, plus `CustomName` exactly when the name is not empty |
| Dispensers.DecodeNBT | server/block/dispenser.go:131-141 | a fresh dispenser keeping the receiver's face, with the stored name and items |
| Dispensers.RecordRoundTrip | server/block/dispenser.go:131-159 | encoding then decoding gives back the name and the items |
| Dispensers.AllDispensers | server/block/dispenser.go:162-168 | two states per face, untriggered then triggered, and every such state occurs |
| Dispensers.Activate | server/block/dispenser.go:105-113 | the same activation rule as the chest's; a user who cannot open containers is not handled |
| Dispensers.UseOnBlock | server/block/dispenser.go:116-128 | places a fresh dispenser with the given face and writes nothing else |
| Hoppers.EncodeBlock | server/block/hopper.go:25-47 | "minecraft:hopper" with the face's facing_direction code and toggle_bit equal to Toggled |
| Hoppers.EncodeBlockInjective | server/block/hopper.go:25-47 | two hoppers' states are equal exactly when the hoppers are |
| Hoppers.AllHoppers | server/block/hopper.go:50-56 | two states per face, untoggled then toggled, and every such state occurs |
| Smokers.NewSmoker | server/block/smoker.go:30-35 | an unlit smoker with the given facing and a fresh smelter |
| Smokers.Ticks | server/block/smoker.go:95-99 | a duration as int16 ticks of 50 ms; under one tick it is 0 |
| Smokers.TickDuration | server/block/smoker.go:107-110 | ticks back to a duration of 50 ms each |
| Smokers.TicksOfTickDuration | server/block/smoker.go:95-110 | an int16 tick count survives conversion to a duration and back |
| Smokers.TicksRoundTrip | server/block/smoker.go:95-110 | a duration that is a whole number of ticks (within int16) survives conversion to ticks and back |
| Smokers.SavedSmelter | server/block/smoker.go:91-94 | a smoker without a smelter is saved as a fresh one |
| Smokers.EncodeNBT | server/block/smoker.go:90-104 | exactly the keys BurnTime, CookTime and BurnDuration (remaining, cook and maximum durations in ticks), StoredXPInt (experience as int16), Items and `id` = "Smoker" |
| Smokers.DecodeNBT | server/block/smoker.go:107-122 | keeps facing and lit, and sets the durations, experience and items from the record |
| Smokers.RecordRoundTrip | server/block/smoker.go:90-122 | a smoker whose durations are whole ticks and whose values fit int16 is decoded back to itself |
| Smokers.EncodeBlock | server/block/smoker.go:56-61 | "minecraft:lit_smoker" when lit and "minecraft:smoker" otherwise, with the facing's name as its only property |
| Smokers.EncodeBlockInjective | server/block/smoker.go:56-61 | two smokers' states are equal exactly when their facing and lit state are |
| Smokers.Tick | server/block/smoker.go:38-48 | plays the crackle only when lit and the draw fell, and writes the block back, with the new lit state, exactly when that state changes |
| Smokers.AllSmokers | server/block/smoker.go:125-131 | an unlit and a lit state per cardinal direction, and every such state occurs |
| Smokers.Activate | server/block/smoker.go:81-87 | handled, and the smoker opened, exactly when the user can open containers |
| Smokers.UseOnBlock | server/block/smoker.go:64-72 | places a fresh unlit smoker facing opposite the user |
| Lecterns.Drops | server/block/lectern.go:47-53 | the lectern item, followed by the book when one is present |
| Lecterns.Activate | server/block/lectern.go:76-94 | succeeds exactly when the lectern is empty and the held item is readable; then sets the book, resets the page to 0, consumes one item and plays the sound; otherwise nothing changes |
| Lecterns.Punch | server/block/lectern.go:97-108 | nothing on an empty lectern; otherwise drops the book and clears it |
| Lecterns.PageCheck | server/block/lectern.go:111-121 | turning to the current page is never an error, even on an empty lectern; otherwise an empty lectern is an error, and a readable book rejects pages outside [0, total pages) |
| Lecterns.TurnPage | server/block/lectern.go:111-125 | returns exactly PageCheck's verdict; on success with a new page it stores the page and writes the block; in every other case it writes nothing |
| Lecterns.OperationsKeepConsistent | server/block/lectern.go:76-125 | Activate, Punch and a successful TurnPage keep the page within the book, and keep it 0 without one |
| Lecterns.EncodeNBT | server/block/lectern.go:128-139 | hasBook is whether a book is present; page is always written; book and totalPages only for a readable book; no other key |
| Lecterns.DecodeNBT | server/block/lectern.go:142-146 | keeps the facing and reads the book and the page |
| Lecterns.RecordRoundTrip | server/block/lectern.go:128-146 | a lectern that is empty or holds a readable book, with an int32 page, decodes back to itself |
| Lecterns.OtherBooksAreLost | server/block/lectern.go:128-139 | a book that is not readable is not saved |
| Lecterns.BlockPosFromProtocol | server/session/handler_lectern_update.go:16 | the packet's coordinates, unchanged |
| Lecterns.Handle | server/session/handler_lectern_update.go:14-24 | an unreachable position is rejected first, then a block that is not a lectern; otherwise the packet's page is passed on for that position, and only then |
| Lecterns.ReachCheckedFirst | server/session/handler_lectern_update.go:17-19 | for an unreachable position, the result does not depend on the world's blocks |
| Lecterns.EncodeBlock | server/block/lectern.go:154-159 | "minecraft:lectern" with the facing's name and powered_bit 0 |
| Lecterns.EncodeBlockInjective | server/block/lectern.go:154-159 | two lecterns' states are equal exactly when their facings are |
| Lecterns.AllLecterns | server/block/lectern.go:162-167 | one empty lectern per cardinal direction, all distinct |
| Lecterns.UseOnBlock | server/block/lectern.go:56-64 | places the lectern facing opposite the user |
| Notes.NextPitch | server/block/note.go:55 | pitches 0..24 stay in 0..24; each steps up by one and 24 wraps to 0 |
| Notes.ActivationsAdd | server/block/note.go:55 | k activations from pitch p give (p + k) mod 25 |
| Notes.FullCycle | server/block/note.go:55 | 25 activations restore the pitch and no smaller positive number does |
| Notes.Activate | server/block/note.go:51-59 | succeeds exactly when the block above is air; then it writes the next pitch without block updates or liquid displacement and plays the note; otherwise nothing changes |
| Notes.EncodeNBT | server/block/note.go:46-48 | the only key is `note`, the pitch as a byte |
| Notes.DecodeNBT | server/block/note.go:40-43 | the pitch is the stored byte |
| Notes.RecordRoundTrip | server/block/note.go:40-48 | every pitch that fits a byte round-trips |
| Notes.EncodeBlock | server/block/note.go:77-79 | "minecraft:noteblock" without properties, so the pitch is not part of the state |
| Conversion.Upgrade | server/world/chunk/conversion.go:23-30 | an exact entry wins; otherwise the meta-0 entry for the name; found exactly when either exists |
| Conversion.Decoded | server/world/chunk/conversion.go:39-44 | the longest run of entries decoded before the first failure |
| Conversion.InTableIffMapped | server/world/chunk/conversion.go:39-44 | a legacy entry is in the table exactly when some decoded mapping has it |
| Conversion.LastMappingWins | server/world/chunk/conversion.go:43 | the table holds the entry of the last mapping for a key, later mappings overwriting earlier ones |
| Conversion.BuildTable | server/world/chunk/conversion.go:33-45 | the loop builds the table of the mappings decoded before the first failure |
| Conversion.DecodedPrefix | server/world/chunk/conversion.go:39-44 | an entry decoded before the first failure is kept |
| Conversion.DecodedStops | server/world/chunk/conversion.go:40-42 | nothing after the first failure is kept |
| Fireworks.Flight | server/item/firework.go:59 | the flight duration as a byte |
| Fireworks.FlightDuration | server/item/firework.go:73 | a stored flight of t means (t + 1) half-seconds |
| Fireworks.FlightRoundTrip | server/item/firework.go:59-73 | every byte flight survives decoding and re-encoding |
| Fireworks.EncodeNBT | server/item/firework.go:52-61 | a Fireworks compound holding exactly Flight and Explosions, one encoded explosion per explosion in order |
| Fireworks.DecodeExplosions | server/item/firework.go:67-70 | fails exactly when some element is not a compound; otherwise decodes each element in order |
| Fireworks.DecodeNBT | server/item/firework.go:64-77 | without a Fireworks compound the firework is unchanged; otherwise flight and explosions are read from it |
| Fireworks.ExplosionsRoundTrip | server/item/firework.go:52-77 | encoded explosions decode back to the same list when each explosion round-trips |
| Fireworks.Use | server/item/firework.go:23-38 | used exactly while gliding: plays the launch sound, launches and consumes one; otherwise nothing |
| Fireworks.UseOnBlock | server/item/firework.go:41-49 | always launches, plays the sound and consumes one |
| Cacti.CanGrowHere | server/block/cactus.go:66-76 | false unless all four sides are air; otherwise, when recursion is off or the block below is not a cactus, true exactly when the block below supports the cactus |
| Cacti.ColumnShift | server/block/cactus.go:66-76 | a column of n + 1 cacti from here, resting on a block that supports the cactus, is a column of n from the block below |
| Cacti.CanGrowHereIffColumn | server/block/cactus.go:66-76 | a cactus can stand here exactly when some column of cacti, each with air around it, rests on a block that supports the cactus |
| Cacti.NextAge | server/block/cactus.go:46-63 | ages 0..15 step up by one and 15 wraps to 0 |
| Cacti.GrowthTarget | server/block/cactus.go:46-63 | the first air among the one or two blocks above, if any |
| Cacti.RandomTick | server/block/cactus.go:46-63 | the cactus is written back one age older (15 wraps to 0); at age 15, when the block below could hold a cactus, a new one of age 0 grows into the first air above it, over at most one cactus |
| Cacti.NeighbourUpdateTick | server/block/cactus.go:37-43 | a cactus that cannot stand is broken, with particles and a drop; otherwise nothing changes |
| Cacti.UseOnBlock | server/block/cactus.go:23-34 | placed exactly when it can stand there |
| Cacti.AllCactus | server/block/cactus.go:111-116 | ages 0..15 once each |
| Cacti.EncodeBlock | server/block/cactus.go:101-103 | "minecraft:cactus" whose only property is the age |
| Cacti.EncodeBlockInjective | server/block/cactus.go:101-103 | two cacti's states are equal exactly when their ages are |
| DoubleFlowers.ItemOf | server/block/double_flower.go:88-90 | the double plant item with the type's id as meta |
| DoubleFlowers.Stays | server/block/double_flower.go:34-52 | an upper half stays exactly when its lower half is below; a lower half stays exactly when its upper half is above and the ground supports vegetation |
| DoubleFlowers.NeighbourUpdateTick | server/block/double_flower.go:34-52 | a half that does not stay becomes air with particles, and the upper half also drops the item; otherwise nothing changes |
| DoubleFlowers.UseOnBlock | server/block/double_flower.go:55-70 | placed exactly when the block above may be replaced and the ground supports vegetation; then both halves are written, and when the flower placed is a lower half each of them stays |
| DoubleFlowers.BoneMeal | server/block/double_flower.go:28-31 | always drops one more of the item and succeeds |
| DoubleFlowers.EncodeBlock | server/block/double_flower.go:93-95 | "minecraft:double_plant" with the type name and upper_block_bit |
| DoubleFlowers.EncodeBlockInjective | server/block/double_flower.go:93-95 | two states are equal exactly when the type name and half are |
| DoubleFlowers.AllDoubleFlowers | server/block/double_flower.go:98-104 | an upper and a lower half per type, and every one of them occurs |
| Corals.UseOnBlock | server/block/coral.go:28-46 | placed exactly when the block below has a solid top face and the position holds no water of a depth other than 8 |
| Corals.NeighbourUpdateTick | server/block/coral.go:59-69 | unsupported coral is broken with particles; supported live coral schedules a check 2.5 s later |
| Corals.ScheduledTick | server/block/coral.go:72-89 | live coral with no water on any of its six sides (within the world's heights) dies; otherwise nothing changes |
| Corals.WaterKeepsCoralAlive | server/block/coral.go:72-89 | one side touching water is enough to keep coral alive |
| Corals.Name | server/block/coral.go:97-110 | "minecraft:dead_<type>_coral" for dead coral and "minecraft:<type>_coral" for live coral |
| Corals.EncodeBlock | server/block/coral.go:97-102 | the coral's name without properties |
| Corals.EncodeItem | server/block/coral.go:105-110 | the coral's name as an item with meta 0 |
| Corals.NameInjective | server/block/coral.go:97-110 | names are equal exactly when life and type are, for type names not beginning with "d" |
| Corals.AllCoral | server/block/coral.go:113-122 | every type dead, then every type alive |
| Carpets.Name | server/block/carpet.go:36-43 | "minecraft:<colour>_carpet" |
| Carpets.NameInjective | server/block/carpet.go:36-43 | names are equal exactly when colours are |
| Carpets.EncodeItem | server/block/carpet.go:36-38 | the carpet's name as an item with meta 0 |
| Carpets.EncodeBlock | server/block/carpet.go:41-43 | the carpet's name without properties |
| Carpets.NeighbourUpdateTick | server/block/carpet.go:51-56 | a carpet over air is removed and dropped, without particles; otherwise nothing changes |
| Carpets.UseOnBlock | server/block/carpet.go:59-71 | always reports the use, since the bare return over air gives back the `used` that `firstReplaceable` set; the carpet is placed exactly when the block below is not air, and over air nothing changes |
| Carpets.AllCarpet | server/block/carpet.go:74-79 | one carpet per colour, in order |
| Flowers.Swapped | server/block/flower.go:49-54 | a swap exchanges dandelion and poppy and leaves every other type alone |
| Flowers.PlantEvents | server/block/flower.go:55-57 | one block write per planted position, in order |
| Flowers.BoneMeal | server/block/flower.go:37-62 | a wither rose does nothing; otherwise the eight draws plant flowers exactly as SpreadOf says, and success means something was planted |
| Flowers.SpreadFillsOnlyAirAboveGrass | server/block/flower.go:44-58 | every block the spread changes was air above grass and becomes this flower or its swapped type |
| Flowers.SpreadIsBounded | server/block/flower.go:42-58 | at most one flower per draw, all distinct, each within the ±3/±1/±3 box around the flower and each now a flower |
| Flowers.SwapOnlyExchangesDandelionAndPoppy | server/block/flower.go:49-54 | swapping twice is the identity and a wither rose never swaps |
| Flowers.NeighbourUpdateTick | server/block/flower.go:65-71 | a flower whose ground does not support it is broken with particles and a drop; otherwise nothing changes |
| Flowers.UseOnBlock | server/block/flower.go:74-85 | placed exactly when the ground supports it |
| Flowers.Name | server/block/flower.go:108-115 | "minecraft:" followed by the type name |
| Flowers.EncodeItem | server/block/flower.go:108-110 | the flower's name as an item with meta 0 |
| Flowers.EncodeBlock | server/block/flower.go:113-115 | the flower's name without properties |
| Flowers.AllFlowers | server/block/flower.go:118-123 | one flower per type, in order |
| SporeBlossoms.NeighbourUpdateTick | server/block/spore_blossom.go:23-28 | a blossom without a solid face above it is broken with particles; otherwise nothing changes |
| SporeBlossoms.UseOnBlock | server/block/spore_blossom.go:31-42 | always reports the use, since the bare return without a ceiling gives back the `used` that `firstReplaceable` set; the blossom is placed exactly when the block above has a solid bottom face, and otherwise nothing changes |
| SporeBlossoms.EncodeItem | server/block/spore_blossom.go:60-62 | "minecraft:spore_blossom" with meta 0 |
| SporeBlossoms.EncodeBlock | server/block/spore_blossom.go:65-67 | "minecraft:spore_blossom" without properties |
| Enchantments.Name | server/item/enchantment/thorns.go:12-14 | each of the six types' names, a non-empty capitalised string |
| Enchantments.NamesAreDistinct | server/item/enchantment/protection.go:12-14 | the six names are distinct: Protection, Fire Protection, Thorns, Mending, Infinity and Flame |
| Enchantments.ThornsDamageSource | server/item/enchantment/thorns.go:49-51 | thorns damage is reduced by resistance, not by armour, and is not fire damage |
| Enchantments.Treasure | server/item/enchantment/mending.go:33-35 | of the six, exactly Mending is a treasure enchantment |
| Enchantments.ConsumesArrows | server/item/enchantment/infinity.go:32-34 | a bow with Infinity consumes no arrows |
| SporeBlossoms.HasLiquidDrops | server/block/spore_blossom.go:18-20 | a spore blossom removed by liquid drops its item |
| Enchantments.MaxLevel | server/item/enchantment/protection.go:17-19 | 4 for protection and fire protection, 3 for thorns, 1 for mending, infinity and flame |
| Enchantments.Cost | server/item/enchantment/protection.go:22-25 | the level's cost range: protection from 1 + 11(l-1) spanning 11, fire protection from 10 + 8(l-1) spanning 8, thorns from 10 + 20(l-1) spanning 50, mending from 25l spanning 50, infinity and flame 20..50 |
| Enchantments.CompatibleWithEnchantment | server/item/enchantment/protection.go:38-43 | protection excludes the other three protections, fire protection excludes blast, projectile and plain protection, mending and infinity exclude each other, and thorns and flame exclude nothing |
| Enchantments.CompatibleWithItem | server/item/enchantment/protection.go:46-49 | the protections and thorns go on armour, mending on durable items, and infinity and flame on bows |
| Enchantments.IncompatibilityIsSymmetric | server/item/enchantment/mending.go:38-41 | among the modelled enchantments, compatibility is symmetric |
| Enchantments.CompatibleWithItself | server/item/enchantment/fire_protection.go:37-43 | every modelled enchantment is compatible with itself |
| Enchantments.CostRangesAreContiguous | server/item/enchantment/fire_protection.go:22-25 | for the two protections, each level's range ends where the next one starts |
| Enchantments.MinimumCostIncreases | server/item/enchantment/thorns.go:22-25 | for levelled enchantments, the minimum cost strictly increases with the level |
| Enchantments.ThornsRangesOverlap | server/item/enchantment/thorns.go:22-25 | consecutive thorns ranges overlap |
| Enchantments.CostRangesNonEmpty | server/item/enchantment/infinity.go:22-24 | at every valid level the range is positive and not empty |
| Enchantments.FlameBurnDuration | server/item/enchantment/flame.go:34-36 | a hundred seconds at every level |
| Generators.NewVoid | server/world/generator/void.go:18-22 | a flat generator (whose own generation is not part of this model) over the biome as uint32 |
| Generators.Fill | server/world/generator/void.go:29-35 | every column cell of the 16×16 chunk within the given heights gets the biome, the cells already set stay, and nothing else is written |
| Generators.GenerateChunk | server/world/generator/void.go:26-36 | as written, for the Void generator: fills heights min..min+max and no others |
| Generators.GenerateChunkMissesTopHeights | server/world/generator/void.go:31-33 | a fresh chunk spanning -64..319, generated by GenerateChunk, has the biome at height 255 but none at height 300 |
| Generators.GenerateChunkIntended | server/world/generator/void.go:26-36 | corrected, for the Void generator: fills heights min..max |
| Generators.IntendedCoversTopHeights | server/world/generator/void.go:31-33 | a fresh chunk spanning -64..319, generated by GenerateChunkIntended, has the biome at heights 255 and 300 |
| Sessions.OutcomeOf | server/session/handler_container_close.go:14-40 | window 0 closes the inventory; the opened window (compared as a byte) closes the container, a real one for a chest or ender chest and a fake one otherwise; 0xff, when it is not the opened window, is the ignored crafting grid; any other window is unexpected |
| Sessions.Session.HandleContainerClose | server/session/handler_container_close.go:14-40 | records the actions of OutcomeOf's case, clears the "inventory opened" flag for window 0, and returns an error exactly for an unexpected window |
| Sessions.InventoryWindowTakesPrecedence | server/session/handler_container_close.go:19-23 | window 0 closes the inventory even when a container is open as window 0 |
| Sessions.OpenedWindowIsNeverUnexpected | server/session/handler_container_close.go:24-37 | windows 0 and 0xff and the opened window are never reported |
| Server.Server.Start | server/server.go:103-114 | succeeds exactly once; a second start, where the source panics, returns false and changes nothing |
| Server.Server.Close | server/server.go:226-232 | before start, where the source panics, returns false and changes nothing; otherwise marks the server closed |
| Server.Server.RegisterHandler | server/server.go:118-125 | a new key is registered and returns true; a taken key leaves the registry as it was |
| Server.Server.UnregisterHandler | server/server.go:129-131 | removes exactly that key |
| Server.RegisterThenUnregister | server/server.go:118-131 | registering a new key and then unregistering it restores the registry |
| Server.Server.MaxPlayerCount | server/server.go:156-161 | a configured limit when one is set; otherwise one more than the players online |
| Server.Server.DimensionWorld | server/server.go:443-452 | the nether and the end pick their worlds and the overworld its own |
| Server.Server.HandleSessionClose | server/server.go:472-487 | removes the player; a player that was online is saved once and releases one pending wait, and an unknown id changes nothing else |
| Console.TrimLeft | server/console.go:25-36 | removes exactly the leading whitespace |
| Console.TrimRight | server/console.go:25-36 | removes exactly the trailing whitespace |
| Console.TrimSpace | server/console.go:26 | the input with the leading and trailing whitespace removed |
| Console.TrimPrefix | server/console.go:29 | removes the prefix when present and otherwise returns the input |
| Console.FirstField | server/console.go:27 | the longest prefix without a space |
| Console.HandleLine | server/console.go:25-36 | a blank line is ignored; otherwise the text up to the first space names the command, which is executed under that name exactly when a command answers to it, and an unknown name is reported as "Could not find command '<name>'" |
| Console.LineSplitsAtFirstSpace | server/console.go:27-29 | the name, a space where there are arguments, and the arguments make up the trimmed line; the arguments are empty exactly when the trimmed line is the name alone |
| Console.Format | server/console.go:76-78 | removes at most two trailing newlines, and only newlines |
| Console.FormatUndoesSprintln | server/console.go:62-78 | formatting a printed line gives the message back when it does not end in a newline |
| Console.ConsoleLog.SendCommandOutput | server/console.go:51-58 | logs every error in order, then every message in order |
| Console.ConsoleLog.SendMessage | server/console.go:61-64 | logs the formatted message followed by the reset code |

## Left out

- Locks and goroutines: `sync.Mutex` around viewer sets and inventories, the server's listener goroutines and wait groups. The model is sequential.
- Inventory internals: `inventory.go` is not part of this model. `Inventories.Inventory.AddItem` puts a stack in the first empty slot and does not merge stacks. `Clear` sends no slot notifications.
- The `nbtconv` readers are not part of this model. A missing or mistyped key reads as the type's zero value. The item-list codec is one `ItemList` value, and decoding fills the first slots.
- Smelting itself is out: `tickSmelting` becomes the `lit` input of `Smokers.Tick`, and a fresh smelter's three slots are a constant.
- Block placement helpers are out: `firstReplaceable` and `place` become a given target position that is always written.
- World capabilities are constants of the world: `SupportsVegetation`, face solidity and `ReplaceableBy`.
- Light diffusion becomes an optional level given to `Activate`.
- Randomness becomes inputs: flower offsets and swaps, the smoker crackle draw, the cactus ageing moment. `Firework.RandomisedDuration` is out.
- Floats are out, as are entity positions other than block positions, the user's rotation (given as a direction or a face), enchantment `Modifier` and `Rarity`, and the thorns damage amount.
- The note block's instrument and sound are one event.
- The chest's `println` on open and `EntityInside` are out, as is the session's `println` when it closes the main inventory.
- `BreakInfo` hardness, flammability, compost and fuel constants are out, except the lectern's drops.
- Attachment orientation rotation on standing attachments is out: `cube.Orientation` is not part of this model, so its left and right turns are parameters.
- Server configuration, listeners, player joining, the `close()` body and `pwg.Add` are out. `HandleSessionClose` records a save and decrements the pending count.
- The session's `closeCurrentContainer` and `CloseFakeContainer` bodies are out. Their calls become recorded actions.
- Console input is out: reading stdin, the command registry (`cmd.ByAlias` becomes `isCommand`), running the command, and `SendMessagef`. `text.ANSI` is a parameter. `IsSpace` covers only characters below U+0100.
- The decoder in the conversion table's `init` reuses one entry value: a field absent from a later record keeps the earlier value. The model decodes each record whole.
- The default branch of `dimension` returns the overworld, and the model's three dimensions never reach it.
- Generators.GenerateChunk: requires min <= 0 and max < 32767, so that `int16(min+max)` does not wrap; the wrapping case is not modelled.
- The dispenser's documentation says it holds 5 slots, but the code creates 9; the model follows the code.
- Chests.NeighbourUpdateTick: requires an inventory on the pairing path only. In the source, an uninitialised chest (such as those `allChests` lists) that reaches pairing panics on a nil inventory at `inv.Clear()`, and that panic is not modelled.
- A chest unpaired while holding 54 slots keeps them, and its upper half is lost on save (`Chests.UnpairedDoubleChestLosesUpperHalf`).
- Chests pair vertically too, because the pairing check ignores height (`Chests.VerticalNeighboursPair`).

## Findings

| source | as written | input that shows it | evidently intended | confidence | as-written member | corrected member |
|---|---|---|---|---|---|---|
| server/block/attachment.go:45-47 | `RotateRight` turns the facing with `RotateLeft` | a wall attachment facing North rotated right faces West, where Direction.RotateRight gives East | turn the facing right, so that the two rotations are inverses | high, not executed | Attachments.RotateRightTurnsLeft | Attachments.RotationsAreInverse |
| server/world/generator/void.go:31-33 | the height loop runs from `min` to `min+max` | a chunk spanning -64..319 gets no biome at heights 256..319, e.g. 300 | fill every height from `min` to `max` | medium, not executed | Generators.GenerateChunkMissesTopHeights | Generators.GenerateChunkIntended |
