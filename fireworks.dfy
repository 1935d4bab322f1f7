/**
 * Firework rockets (server/item/firework.go): using one while gliding, and
 * the saved record, which stores the flight duration as a tick count.
 * FireworkExplosion is not part of this model: explosions are of any type
 * `E`, with their own record codec passed in.
 */
module Fireworks {
  import opened Wrappers
  import opened Ints
  import opened Cube
  import opened Nbt
  import opened Events
  import opened Worlds

  /** Duration in nanoseconds, as Go's time.Duration. */
  datatype Firework<E> = Firework(duration: int, explosions: seq<E>)

  const Millisecond: int := 1_000_000

  /** Flight: uint8(((Duration/10 - 50ms).Milliseconds()) / 50), with Go's truncating division. */
  function Flight(d: int): (t: int)
    ensures 0 <= t < TwoTo8
  {
    Uint8(GoDiv(GoDiv(GoDiv(d, 10) - 50 * Millisecond, Millisecond), 50))
  }

  /** The duration DecodeNBT derives from a Flight value: (ticks·50ms + 50ms)·10. */
  function FlightDuration(t: int): (d: int)
    ensures d == (t + 1) * 500 * Millisecond
  {
    (t * 50 * Millisecond + 50 * Millisecond) * 10
  }

  /** Every Flight value 0..255 comes back unchanged through its duration. */
  lemma {:induction false} FlightRoundTrip(t: int)
    requires 0 <= t < TwoTo8
    ensures Flight(FlightDuration(t)) == t
  {
    var d := FlightDuration(t);
    assert d == ((t + 1) * 50 * Millisecond) * 10;
    DivOfMultiple((t + 1) * 50 * Millisecond, 10);
    assert GoDiv(d, 10) - 50 * Millisecond == (t * 50) * Millisecond;
    DivOfMultiple(t * 50, Millisecond);
    DivOfMultiple(t, 50);
  }

  /** EncodeNBT. */
  function EncodeNBT<E>(f: Firework<E>, encodeExplosion: E -> Record): (m: Record)
    ensures m.Keys == {"Fireworks"} && m["Fireworks"].Compound?
    ensures m["Fireworks"].fields.Keys == {"Explosions", "Flight"}
    ensures m["Fireworks"].fields["Flight"] == Byte(Flight(f.duration))
    ensures m["Fireworks"].fields["Explosions"].List?
    ensures |m["Fireworks"].fields["Explosions"].elems| == |f.explosions|
    ensures forall i :: 0 <= i < |f.explosions| ==>
      m["Fireworks"].fields["Explosions"].elems[i] == Compound(encodeExplosion(f.explosions[i]))
  {
    var es := seq(|f.explosions|, i requires 0 <= i < |f.explosions| => Compound(encodeExplosion(f.explosions[i])));
    map["Fireworks" := Compound(map["Explosions" := List(es), "Flight" := Byte(Flight(f.duration))])]
  }

  /**
   * The explosion list DecodeNBT builds, or a failure when an element is not
   * a record (the source's type assertion panics).
   */
  function DecodeExplosions<E>(elems: seq<Value>, decodeExplosion: Record -> E): (r: Result<seq<E>>)
    ensures r.Failure? <==> exists i :: 0 <= i < |elems| && !elems[i].Compound?
    ensures r.Success? ==> |r.value| == |elems|
    ensures r.Success? ==> forall i :: 0 <= i < |elems| ==> r.value[i] == decodeExplosion(elems[i].fields)
  {
    if exists i :: 0 <= i < |elems| && !elems[i].Compound? then Failure("interface conversion: explosion is not a map")
    else Success(seq(|elems|, i requires 0 <= i < |elems| => decodeExplosion(elems[i].fields)))
  }

  /**
   * DecodeNBT. Without a Fireworks record the firework is unchanged; a
   * missing or mistyped Explosions list or Flight byte leaves that field
   * unchanged. The explosions are decoded one by one into a list of the
   * encoded list's length.
   */
  method DecodeNBT<E>(f: Firework<E>, data: Record, decodeExplosion: Record -> E) returns (r: Result<Firework<E>>)
    ensures !("Fireworks" in data && data["Fireworks"].Compound?) ==> r == Success(f)
    ensures "Fireworks" in data && data["Fireworks"].Compound? ==>
      var fw := data["Fireworks"].fields;
      var ex := if "Explosions" in fw && fw["Explosions"].List? then DecodeExplosions(fw["Explosions"].elems, decodeExplosion)
                else Success(f.explosions);
      && (r.Failure? <==> ex.Failure?)
      && (r.Success? ==> r.value.explosions == ex.value)
      && (r.Success? ==> r.value.duration == if "Flight" in fw && fw["Flight"].Byte? then FlightDuration(fw["Flight"].u8) else f.duration)
  {
    if !("Fireworks" in data && data["Fireworks"].Compound?) {
      return Success(f);
    }
    var fw := data["Fireworks"].fields;
    var explosions := f.explosions;
    if "Explosions" in fw && fw["Explosions"].List? {
      var elems := fw["Explosions"].elems;
      var out: seq<E> := [];
      for i := 0 to |elems|
        invariant |out| == i
        invariant forall j :: 0 <= j < i ==> elems[j].Compound? && out[j] == decodeExplosion(elems[j].fields)
      {
        if !elems[i].Compound? {
          return Failure("interface conversion: explosion is not a map");
        }
        out := out + [decodeExplosion(elems[i].fields)];
      }
      explosions := out;
    }
    var duration := f.duration;
    if "Flight" in fw && fw["Flight"].Byte? {
      duration := FlightDuration(fw["Flight"].u8);
    }
    return Success(Firework(duration, explosions));
  }

  /**
   * Decoding an encoded firework's explosion list gives back as many
   * explosions, and, when the explosion codec round-trips, the same ones.
   */
  lemma {:induction false} ExplosionsRoundTrip<E>(f: Firework<E>, encodeExplosion: E -> Record, decodeExplosion: Record -> E)
    requires forall e :: decodeExplosion(encodeExplosion(e)) == e
    ensures var fw := EncodeNBT(f, encodeExplosion)["Fireworks"].fields;
      DecodeExplosions(fw["Explosions"].elems, decodeExplosion) == Success(f.explosions)
  {
    var elems := EncodeNBT(f, encodeExplosion)["Fireworks"].fields["Explosions"].elems;
    var r := DecodeExplosions(elems, decodeExplosion);
    assert r.Success?;
    assert forall i :: 0 <= i < |elems| ==> r.value[i] == f.explosions[i];
    assert r.value == f.explosions;
  }

  /**
   * Use: a firework is launched only by a gliding user; it plays the launch
   * sound, spawns the rocket and takes one item.
   */
  method Use<E>(f: Firework<E>, w: World, gliding: bool, pos: Pos) returns (ok: bool, consumed: nat)
    modifies w`events
    ensures ok == gliding
    ensures !ok ==> w.events == old(w.events) && consumed == 0
    ensures ok ==> w.events == old(w.events) + [SoundPlayed(pos, FireworkLaunch), FireworkLaunched(pos)] && consumed == 1
  {
    if !gliding {
      return false, 0;
    }
    w.Emit([SoundPlayed(pos, FireworkLaunch), FireworkLaunched(pos)]);
    return true, 1;
  }

  /**
   * UseOnBlock: launched from the clicked block whoever the user is; the
   * rocket is spawned before the sound plays, and one item is taken.
   */
  method UseOnBlock<E>(f: Firework<E>, w: World, pos: Pos) returns (ok: bool, consumed: nat)
    modifies w`events
    ensures ok && consumed == 1
    ensures w.events == old(w.events) + [FireworkLaunched(pos), SoundPlayed(pos, FireworkLaunch)]
  {
    w.Emit([FireworkLaunched(pos), SoundPlayed(pos, FireworkLaunch)]);
    return true, 1;
  }
}
