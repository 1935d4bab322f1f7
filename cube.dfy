/**
 * Horizontal directions, block faces and block positions
 * (server/block/cube/direction.go).
 *
 * A direction is an `int`, as in the source; the source panics on a value
 * outside 0..7, so every operation requires IsDirection.
 */
module Cube {

  // Directions, numbered in the order they are declared.
  const North: int := 0
  const South: int := 1
  const West: int := 2
  const East: int := 3
  const NorthEast: int := 4
  const NorthWest: int := 5
  const SouthEast: int := 6
  const SouthWest: int := 7

  predicate IsDirection(d: int) { 0 <= d < 8 }

  // Faces, numbered in the order cube.Face declares them (face.go is not part
  // of this model): Down, Up, then the four horizontal faces.
  const FaceDown: int := 0
  const FaceUp: int := 1
  const FaceNorth: int := 2
  const FaceSouth: int := 3
  const FaceWest: int := 4
  const FaceEast: int := 5

  predicate IsFace(f: int) { 0 <= f < 6 }

  /** The face a horizontal direction points at. */
  function Face(d: int): (f: int)
    ensures d == North ==> f == FaceNorth
    ensures d == South ==> f == FaceSouth
    ensures d == West ==> f == FaceWest
    ensures d == East ==> f == FaceEast
    ensures f - d == FaceNorth - North
  {
    d + 2
  }

  function Opposite(d: int): (r: int)
    requires IsDirection(d)
    ensures IsDirection(r) && r != d
    ensures (d < 4) == (r < 4)
  {
    if d == North then South
    else if d == South then North
    else if d == West then East
    else if d == East then West
    else if d == NorthEast then SouthWest
    else if d == NorthWest then SouthEast
    else if d == SouthEast then NorthWest
    else NorthEast
  }

  function RotateRight(d: int): (r: int)
    requires IsDirection(d)
    ensures IsDirection(r) && r != d
    ensures (d < 4) == (r < 4)
  {
    if d == North then East
    else if d == East then South
    else if d == South then West
    else if d == West then North
    else if d == NorthEast then SouthEast
    else if d == NorthWest then NorthEast
    else if d == SouthEast then SouthWest
    else NorthWest
  }

  function RotateLeft(d: int): (r: int)
    requires IsDirection(d)
    ensures IsDirection(r) && r != d
    ensures (d < 4) == (r < 4)
  {
    if d == North then West
    else if d == East then North
    else if d == South then East
    else if d == West then South
    else if d == NorthEast then NorthWest
    else if d == NorthWest then SouthWest
    else if d == SouthEast then NorthEast
    else SouthEast
  }

  function String(d: int): (s: string)
    requires IsDirection(d)
    ensures |s| >= 4
  {
    if d == North then "north"
    else if d == East then "east"
    else if d == South then "south"
    else if d == West then "west"
    else if d == NorthEast then "northeast"
    else if d == NorthWest then "northwest"
    else if d == SouthEast then "southeast"
    else "southwest"
  }

  /** The four horizontal directions, going from North round to West. */
  function Directions(): (ds: seq<int>)
    ensures |ds| == 4 && ds[0] == North
    ensures forall i :: 0 <= i < |ds| ==> IsDirection(ds[i]) && ds[i] < 4
    ensures forall i :: 0 < i < |ds| ==> ds[i] == RotateRight(ds[i - 1])
  {
    [North, East, South, West]
  }

  function AllDirections(): (ds: seq<int>)
    ensures |ds| == 8
    ensures forall d :: IsDirection(d) <==> d in ds
    ensures forall i, j :: 0 <= i < j < |ds| ==> ds[i] != ds[j]
  {
    [North, East, South, West, NorthEast, NorthWest, SouthEast, SouthWest]
  }

  /** The six faces, in the order cube.Faces lists them. */
  function Faces(): (fs: seq<int>)
    ensures |fs| == 6
    ensures forall f :: IsFace(f) <==> f in fs
    ensures forall i, j :: 0 <= i < j < |fs| ==> fs[i] != fs[j]
  {
    [FaceDown, FaceUp, FaceNorth, FaceSouth, FaceWest, FaceEast]
  }

  function HorizontalFaces(): (fs: seq<int>)
    ensures |fs| == 4
    ensures forall f :: f in fs <==> IsFace(f) && f != FaceDown && f != FaceUp
  {
    [FaceNorth, FaceEast, FaceSouth, FaceWest]
  }

  lemma OppositeInvolution(d: int)
    requires IsDirection(d)
    ensures Opposite(Opposite(d)) == d
  {
  }

  lemma RotateLeftUndoesRotateRight(d: int)
    requires IsDirection(d)
    ensures RotateLeft(RotateRight(d)) == d
    ensures RotateRight(RotateLeft(d)) == d
  {
  }

  lemma RotateRightTwiceIsOpposite(d: int)
    requires IsDirection(d)
    ensures RotateRight(RotateRight(d)) == Opposite(d)
    ensures RotateRight(RotateRight(RotateRight(RotateRight(d)))) == d
  {
  }

  lemma StringInjective(d: int, e: int)
    requires IsDirection(d) && IsDirection(e)
    ensures String(d) == String(e) <==> d == e
  {
  }

  /** A block position. Go's `int` is 64 bits; positions here are unbounded. */
  datatype Pos = Pos(x: int, y: int, z: int) {

    function Add(o: Pos): (r: Pos)
      ensures r.x - x == o.x && r.y - y == o.y && r.z - z == o.z
    {
      Pos(x + o.x, y + o.y, z + o.z)
    }

    /** The position next to this one on the given face. */
    function Side(f: int): (r: Pos)
      requires IsFace(f)
      ensures r != this
      ensures (f == FaceDown) == (r.y == y - 1)
      ensures (f == FaceUp) == (r.y == y + 1)
      ensures f == FaceDown || f == FaceUp ==> r.x == x && r.z == z
      ensures f != FaceDown && f != FaceUp ==> r.y == y
    {
      if f == FaceDown then Pos(x, y - 1, z)
      else if f == FaceUp then Pos(x, y + 1, z)
      else if f == FaceNorth then Pos(x, y, z - 1)
      else if f == FaceSouth then Pos(x, y, z + 1)
      else if f == FaceWest then Pos(x - 1, y, z)
      else Pos(x + 1, y, z)
    }
  }
}
