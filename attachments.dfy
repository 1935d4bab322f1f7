/**
 * Attachments (server/block/attachment.go): how a block hangs on a wall
 * with a facing direction or stands on the ground with an orientation, its
 * one-byte encoding and its rotations. cube.Orientation is not part of this
 * model: an orientation is an `int` and its rotations are parameters.
 */
module Attachments {
  import Ints
  import opened Cube

  datatype Attachment = Attachment(hanging: bool, facing: int, o: int)

  /** WallAttachment. */
  function WallAttachment(facing: int): (a: Attachment)
    ensures a.hanging && a.facing == facing && a.o == 0
  {
    Attachment(true, facing, 0)
  }

  /** StandingAttachment: the facing keeps its zero value, North. */
  function StandingAttachment(o: int): (a: Attachment)
    ensures !a.hanging && a.o == o && a.facing == North
  {
    Attachment(false, North, o)
  }

  /** uint8(x) << 1 on a byte: the shift drops the top bit. */
  function ShiftedByte(x: int): (b: int)
    ensures 0 <= b < Ints.TwoTo8 && b % 2 == 0
    ensures 0 <= x < 128 ==> b == 2 * x
  {
    (2 * Ints.Uint8(x)) % Ints.TwoTo8
  }

  /**
   * Attachment.Uint8: the low bit says standing; the orientation or facing
   * sits above it. Or-ing 1 into an even byte adds 1.
   */
  function Uint8(a: Attachment): (b: int)
    ensures 0 <= b < Ints.TwoTo8
    ensures a.hanging && IsDirection(a.facing) ==> b == 2 * a.facing
    ensures !a.hanging && 0 <= a.o < 128 ==> b == 2 * a.o + 1
  {
    if !a.hanging then 1 + ShiftedByte(a.o) else ShiftedByte(a.facing)
  }

  /** Attachment.FaceUint8. */
  function FaceUint8(a: Attachment): (b: int)
    ensures !a.hanging ==> b == 1
    ensures a.hanging ==> b == Uint8(a)
  {
    if !a.hanging then 1 else ShiftedByte(a.facing)
  }

  lemma LowBitIsStanding(a: Attachment)
    ensures Uint8(a) % 2 == 1 <==> !a.hanging
  {
  }

  /**
   * Within each kind the encoding is injective: wall attachments by facing
   * and standing ones by any orientation below 128.
   */
  lemma Uint8Injective(a: Attachment, b: Attachment)
    requires a.hanging == b.hanging
    requires a.hanging ==> IsDirection(a.facing) && IsDirection(b.facing)
    requires !a.hanging ==> 0 <= a.o < 128 && 0 <= b.o < 128
    ensures Uint8(a) == Uint8(b) <==> if a.hanging then a.facing == b.facing else a.o == b.o
  {
  }

  /** A wall attachment and a standing one never share a byte. */
  lemma KindsDoNotCollide(a: Attachment, b: Attachment)
    requires a.hanging && !b.hanging
    ensures Uint8(a) != Uint8(b)
  {
    LowBitIsStanding(a);
    LowBitIsStanding(b);
  }

  /** Attachment.RotateLeft, with `oLeft` for cube.Orientation.RotateLeft. */
  function RotateLeft(a: Attachment, oLeft: int -> int): (r: Attachment)
    requires IsDirection(a.facing)
    ensures r.hanging == a.hanging && IsDirection(r.facing)
    ensures r.facing == Cube.RotateLeft(a.facing) && r.o == oLeft(a.o)
  {
    Attachment(a.hanging, Cube.RotateLeft(a.facing), oLeft(a.o))
  }

  /** Attachment.RotateRight as written: it rotates the facing and the orientation left. */
  function RotateRight(a: Attachment, oLeft: int -> int): (r: Attachment)
    requires IsDirection(a.facing)
    ensures r.hanging == a.hanging && IsDirection(r.facing)
    ensures r.facing == Cube.RotateLeft(a.facing) && r.o == oLeft(a.o)
  {
    Attachment(a.hanging, Cube.RotateLeft(a.facing), oLeft(a.o))
  }

  /** RotateRight as written turns a north-facing wall attachment west, where a right turn gives east. */
  lemma RotateRightTurnsLeft(oLeft: int -> int)
    ensures RotateRight(WallAttachment(North), oLeft).facing == West
    ensures Cube.RotateRight(North) == East
    ensures forall a: Attachment :: IsDirection(a.facing) ==>
      RotateRight(a, oLeft) == RotateLeft(a, oLeft) && RotateRight(a, oLeft).facing != Cube.RotateRight(a.facing)
  {
    forall a: Attachment | IsDirection(a.facing)
      ensures RotateRight(a, oLeft).facing != Cube.RotateRight(a.facing)
    {
      RotateRightTwiceIsOpposite(Cube.RotateLeft(a.facing));
      RotateLeftUndoesRotateRight(a.facing);
    }
  }

  /** The right turn RotateRight is meant to be, with `oRight` for cube.Orientation.RotateRight. */
  function RotateRightIntended(a: Attachment, oRight: int -> int): (r: Attachment)
    requires IsDirection(a.facing)
    ensures r.hanging == a.hanging && IsDirection(r.facing)
    ensures r.facing == Cube.RotateRight(a.facing) && r.o == oRight(a.o)
  {
    Attachment(a.hanging, Cube.RotateRight(a.facing), oRight(a.o))
  }

  /** The intended right turn is undone by the left turn, and the other way round. */
  lemma {:induction false} RotationsAreInverse(a: Attachment, oLeft: int -> int, oRight: int -> int)
    requires IsDirection(a.facing)
    requires oLeft(oRight(a.o)) == a.o && oRight(oLeft(a.o)) == a.o
    ensures RotateLeft(RotateRightIntended(a, oRight), oLeft) == a
    ensures RotateRightIntended(RotateLeft(a, oLeft), oRight) == a
  {
    RotateLeftUndoesRotateRight(a.facing);
  }
}
