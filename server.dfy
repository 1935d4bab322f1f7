/**
 * The server's bookkeeping (server/server.go): the player handler registry,
 * the player map, the start/close guards, the maximum player count and the
 * choice of world per dimension. Listening, sessions and world storage are
 * not part of this model.
 */
module Server {

  /** world.Dimension. */
  datatype Dimension = Overworld | Nether | End

  /** A player's UUID. */
  type Uuid = nat

  /**
   * The state the modelled methods use. H is a player handler, P a player,
   * W a world; the player data written on leaving is recorded in saves.
   */
  class Server<H, P, W> {
    var handlers: map<string, H>
    var players: map<Uuid, P>
    var started: bool
    /** Whether close has run (sync.Once). */
    var closed: bool
    /** pwg: players whose data is still to be saved. */
    var pending: int
    /** The UUIDs saved through the player provider, in order. */
    var saves: seq<Uuid>

    /** The configured MaxPlayers. */
    const maxPlayers: int
    const overworld: W
    const nether: W
    const end: W

    constructor (maxPlayers: int, overworld: W, nether: W, end: W)
      ensures handlers == map[] && players == map[] && !started && !closed && pending == 0 && saves == []
      ensures this.maxPlayers == maxPlayers
      ensures this.overworld == overworld && this.nether == nether && this.end == end
    {
      handlers, players := map[], map[];
      started, closed, pending, saves := false, false, 0, [];
      this.maxPlayers := maxPlayers;
      this.overworld, this.nether, this.end := overworld, nether, end;
    }

    /** Start: a second start is refused (the source panics) and changes nothing. */
    method Start() returns (ok: bool)
      modifies this`started
      ensures ok <==> !old(started)
      ensures started
    {
      if started {
        return false;
      }
      started := true;
      return true;
    }

    /** Close: refused before Start (the source panics); close itself runs at most once. */
    method Close() returns (ok: bool)
      modifies this`closed
      ensures ok <==> started
      ensures closed == (old(closed) || started)
    {
      if !started {
        return false;
      }
      closed := true;
      return true;
    }

    /** RegisterHandler: an existing key is kept and reported; a new one is added. */
    method RegisterHandler(key: string, h: H) returns (ok: bool)
      modifies this`handlers
      ensures ok <==> key !in old(handlers)
      ensures !ok ==> handlers == old(handlers)
      ensures ok ==> handlers == old(handlers)[key := h]
    {
      if key in handlers {
        return false;
      }
      handlers := handlers[key := h];
      return true;
    }

    /** UnregisterHandler: the key is gone afterwards, whether or not it was there. */
    method UnregisterHandler(key: string)
      modifies this`handlers
      ensures handlers == old(handlers) - {key}
    {
      handlers := handlers - {key};
    }

    /** MaxPlayerCount: a configured 0 means one more than the players online. */
    function MaxPlayerCount(): (n: int)
      reads this
      ensures maxPlayers == 0 ==> n == |players| + 1
      ensures maxPlayers != 0 ==> n == maxPlayers
      ensures maxPlayers == 0 ==> n > |players|
    {
      if maxPlayers == 0 then |players| + 1 else maxPlayers
    }

    /** dimension: the nether and end worlds by name, the overworld otherwise. */
    function DimensionWorld(d: Dimension): (w: W)
      ensures d.Nether? ==> w == nether
      ensures d.End? ==> w == end
      ensures d.Overworld? ==> w == overworld
    {
      match d
      case Nether => nether
      case End => end
      case Overworld => overworld
    }

    /**
     * handleSessionClose: the UUID leaves the player map; only a player that
     * was there has its data saved and its pending count released.
     */
    method HandleSessionClose(id: Uuid)
      modifies this`players, this`saves, this`pending
      ensures players == old(players) - {id}
      ensures id in old(players) ==> saves == old(saves) + [id] && pending == old(pending) - 1
      ensures id !in old(players) ==> saves == old(saves) && pending == old(pending)
    {
      var ok := id in players;
      players := players - {id};
      if !ok {
        return;
      }
      saves := saves + [id];
      pending := pending - 1;
    }
  }

  /** Registering a new key and unregistering it again leaves the registry as it was. */
  lemma RegisterThenUnregister<H>(handlers: map<string, H>, key: string, h: H)
    requires key !in handlers
    ensures handlers[key := h] - {key} == handlers
  {
  }
}
