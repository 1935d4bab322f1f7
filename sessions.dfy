/**
 * The ContainerClose packet handler (server/session/handler_container_close.go).
 */
module Sessions {
  import opened Wrappers
  import opened Ints
  import opened Blocks

  /** What the handler asks of the session and its connection, in order. */
  datatype SessionAction =
    | EmptiedUIInventory
    | SentContainerClose(windowID: int)
    | ClosedCurrentContainer
    | ClosedFakeContainer

  /** How a close request for a window is answered. */
  datatype CloseOutcome =
    | CloseInventory
    | CloseContainer
    | CloseFake
    | IgnoreCraftingGrid
    | Unexpected

  /**
   * The window-id switch: 0 is the player's own inventory and is matched
   * first; then the opened window (narrowed to a byte), which is a real
   * container for a chest or ender chest and a fake one otherwise; then
   * 0xff, the crafting grid; anything else is unexpected.
   */
  function OutcomeOf(windowID: int, openedWindowID: int, openedBlock: Block): (o: CloseOutcome)
    requires 0 <= windowID < TwoTo8
    ensures o == CloseInventory <==> windowID == 0
    ensures o == CloseContainer <==> windowID != 0 && windowID == Uint8(openedWindowID) && (openedBlock.Chest? || openedBlock.EnderChest?)
    ensures o == CloseFake <==> windowID != 0 && windowID == Uint8(openedWindowID) && !openedBlock.Chest? && !openedBlock.EnderChest?
    ensures o == IgnoreCraftingGrid <==> windowID == 0xff && Uint8(openedWindowID) != 0xff
    ensures o == Unexpected <==> windowID != 0 && windowID != Uint8(openedWindowID) && windowID != 0xff
  {
    if windowID == 0 then CloseInventory
    else if windowID == Uint8(openedWindowID) then
      (if openedBlock.Chest? || openedBlock.EnderChest? then CloseContainer else CloseFake)
    else if windowID == 0xff then IgnoreCraftingGrid
    else Unexpected
  }

  /** The window that was not opened, carried by the handler's error. */
  datatype CloseError = UnexpectedCloseRequest(windowID: int)

  /** The session state the handler reads and writes (Session is not otherwise part of this model). */
  class Session {
    var invOpened: bool
    /** openedWindowID, an atomic uint32. */
    var openedWindowID: int
    var actions: seq<SessionAction>

    constructor (invOpened: bool, openedWindowID: int)
      ensures this.invOpened == invOpened && this.openedWindowID == openedWindowID && actions == []
    {
      this.invOpened, this.openedWindowID := invOpened, openedWindowID;
      actions := [];
    }

    /**
     * Handle: the UI inventory is emptied first, whatever the window; then
     * the outcome's action runs. Only closing window 0 clears invOpened, and
     * only an unexpected window is an error.
     */
    method HandleContainerClose(windowID: int, openedBlock: Block) returns (err: Option<CloseError>)
      requires 0 <= windowID < TwoTo8
      modifies this`invOpened, this`actions
      ensures var o := OutcomeOf(windowID, old(openedWindowID), openedBlock);
        actions == old(actions) + [EmptiedUIInventory] +
          (match o
           case CloseInventory => [SentContainerClose(0)]
           case CloseContainer => [ClosedCurrentContainer]
           case CloseFake => [ClosedFakeContainer]
           case _ => []) &&
        invOpened == (if o == CloseInventory then false else old(invOpened)) &&
        err == (if o == Unexpected then Some(UnexpectedCloseRequest(windowID)) else None)
    {
      actions := actions + [EmptiedUIInventory];
      if windowID == 0 {
        actions := actions + [SentContainerClose(0)];
        invOpened := false;
      } else if windowID == Uint8(openedWindowID) {
        if openedBlock.Chest? {
          actions := actions + [ClosedCurrentContainer];
        } else if openedBlock.EnderChest? {
          actions := actions + [ClosedCurrentContainer];
        } else {
          actions := actions + [ClosedFakeContainer];
        }
      } else if windowID == 0xff {
      } else {
        return Some(UnexpectedCloseRequest(windowID));
      }
      return None;
    }
  }

  /** Window 0 closes the inventory even when it is also the opened window's id. */
  lemma InventoryWindowTakesPrecedence(openedWindowID: int, openedBlock: Block)
    requires Uint8(openedWindowID) == 0
    ensures OutcomeOf(0, openedWindowID, openedBlock) == CloseInventory
  {
  }

  /** The opened window is never an error, and neither is 0 or 0xff. */
  lemma OpenedWindowIsNeverUnexpected(windowID: int, openedWindowID: int, openedBlock: Block)
    requires 0 <= windowID < TwoTo8
    requires windowID == 0 || windowID == 0xff || windowID == Uint8(openedWindowID)
    ensures OutcomeOf(windowID, openedWindowID, openedBlock) != Unexpected
  {
  }
}
