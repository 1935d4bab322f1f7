/** Note blocks (server/block/note.go): pitch cycling and the saved record. */
module Notes {
  import opened Ints
  import opened Cube
  import opened Nbt
  import opened Events
  import opened Blocks
  import opened Worlds

  const PitchCount: int := 25

  /** The pitch after one activation, with Go's truncating remainder. */
  function NextPitch(p: int): (r: int)
    ensures 0 <= p < PitchCount ==> 0 <= r < PitchCount
    ensures 0 <= p < PitchCount - 1 ==> r == p + 1
    ensures p == PitchCount - 1 ==> r == 0
  {
    GoRem(p + 1, PitchCount)
  }

  /** The pitch after `k` activations. */
  function Activations(p: int, k: nat): int
    decreases k
  {
    if k == 0 then p else Activations(NextPitch(p), k - 1)
  }

  lemma {:induction false} ActivationsAdd(p: int, k: nat)
    requires 0 <= p < PitchCount
    ensures Activations(p, k) == (p + k) % PitchCount
    decreases k
  {
    if k > 0 {
      ActivationsAdd(NextPitch(p), k - 1);
      if p == PitchCount - 1 {
        assert (p + k) % PitchCount == (k - 1) % PitchCount by {
          assert p + k == (k - 1) + PitchCount;
        }
      }
    }
  }

  /** Twenty-five activations bring a pitch in 0..24 back to where it was. */
  lemma FullCycle(p: int)
    requires 0 <= p < PitchCount
    ensures Activations(p, PitchCount as nat) == p
    ensures forall k: nat :: 0 < k < PitchCount ==> Activations(p, k) != p
  {
    ActivationsAdd(p, PitchCount as nat);
    forall k: nat | 0 < k < PitchCount ensures Activations(p, k) != p {
      ActivationsAdd(p, k);
    }
  }

  /**
   * Activate: refused unless the block above is Air; otherwise the pitch
   * advances, the note sounds, and the block is written back with block
   * updates and liquid displacement disabled.
   */
  method Activate(n: Block, pos: Pos, w: World) returns (ok: bool)
    requires n.Note?
    modifies w
    ensures ok <==> old(w.BlockAt(pos.Side(FaceUp))).Air?
    ensures !ok ==> w.blocks == old(w.blocks) && w.events == old(w.events)
    ensures ok ==> w.blocks == old(w.blocks)[pos := Note(NextPitch(n.pitch))]
    ensures ok ==>
      w.events == old(w.events) + [SoundPlayed(pos, NoteSound(NextPitch(n.pitch))),
                                   NoteParticle(pos, NextPitch(n.pitch)), BlockSet(pos, SetOpts(true, true))]
    ensures w.liquids == old(w.liquids)
  {
    if !w.BlockAt(pos.Side(FaceUp)).Air? {
      return false;
    }
    var p := NextPitch(n.pitch);
    w.Emit([SoundPlayed(pos, NoteSound(p)), NoteParticle(pos, p)]);
    w.SetBlock(pos, Note(p), SetOpts(true, true));
    return true;
  }

  /** EncodeNBT: the pitch as a byte. */
  function EncodeNBT(n: Block): (m: Record)
    requires n.Note?
    ensures m.Keys == {"note"} && m["note"] == Byte(Uint8(n.pitch))
  {
    map["note" := Byte(Uint8(n.pitch))]
  }

  /** DecodeNBT. */
  function DecodeNBT(m: Record): (n: Block)
    ensures n == Note(GetUint8(m, "note"))
  {
    Note(GetUint8(m, "note"))
  }

  /** Every pitch that fits a byte, and so every pitch in 0..24, survives saving and loading. */
  lemma RecordRoundTrip(n: Block)
    requires n.Note? && 0 <= n.pitch < TwoTo8
    ensures DecodeNBT(EncodeNBT(n)) == n
  {
  }

  /** EncodeBlock: the pitch is not part of the block state. */
  function EncodeBlock(n: Block): (s: BlockState)
    requires n.Note?
    ensures s == BlockState("minecraft:noteblock", map[])
  {
    BlockState("minecraft:noteblock", map[])
  }
}
