/**
 * What the modelled code does to the outside world besides writing blocks:
 * viewer callbacks, sounds, particles, item drops and scheduled updates.
 * The world records each of these, in order, in an append-only log.
 */
module Events {
  import opened Cube
  import opened Items

  /** An opaque handle for a subscribed player session. */
  type Viewer = nat

  datatype Action = OpenAction | CloseAction

  datatype Sound =
    | ChestOpen
    | ChestClose
    | LecternBookPlace
    | AttackSound
    | NoteSound(pitch: int)
    | SmokerCrackle
    | FireworkLaunch

  /** world.SetOpts; a nil *SetOpts is NoOpts. */
  datatype SetOpts = SetOpts(disableBlockUpdates: bool, disableLiquidDisplacement: bool)

  const NoOpts: SetOpts := SetOpts(false, false)

  /** Positions are block positions; the source's float offsets are dropped. */
  datatype Event =
    | BlockSet(pos: Pos, opts: SetOpts)
    | UpdateScheduled(pos: Pos, delayMillis: int)
    | ViewBlockAction(viewer: Viewer, pos: Pos, action: Action)
    | ViewSlotChange(viewer: Viewer, slot: int, stack: Stack)
    | SoundPlayed(pos: Pos, sound: Sound)
    | BreakParticle(pos: Pos)
    | NoteParticle(pos: Pos, pitch: int)
    | ItemDropped(pos: Pos, stack: Stack)
    | FireworkLaunched(pos: Pos)
}
