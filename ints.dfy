/**
 * Go's fixed-width integer conversions and truncating division, written out
 * over Dafny's unbounded `int` for the places where the source converts or
 * divides.
 */
module Ints {

  const TwoTo8: int := 0x100
  const TwoTo16: int := 0x1_0000
  const TwoTo32: int := 0x1_0000_0000

  /** `uint8(x)`: the low eight bits. */
  function Uint8(x: int): (r: int)
    ensures 0 <= r < TwoTo8
    ensures (x - r) % TwoTo8 == 0
    ensures 0 <= x < TwoTo8 ==> r == x
  {
    x % TwoTo8
  }

  /** `uint32(x)`: the low thirty-two bits. */
  function Uint32(x: int): (r: int)
    ensures 0 <= r < TwoTo32
    ensures (x - r) % TwoTo32 == 0
    ensures 0 <= x < TwoTo32 ==> r == x
  {
    x % TwoTo32
  }

  predicate InInt16(x: int) { -0x8000 <= x < 0x8000 }

  predicate InInt32(x: int) { -0x8000_0000 <= x < 0x8000_0000 }

  /** `int16(x)`: two's-complement truncation to sixteen bits. */
  function Int16(x: int): (r: int)
    ensures InInt16(r)
    ensures (x - r) % TwoTo16 == 0
    ensures InInt16(x) ==> r == x
  {
    (x + 0x8000) % TwoTo16 - 0x8000
  }

  /** `int32(x)`: two's-complement truncation to thirty-two bits. */
  function Int32(x: int): (r: int)
    ensures InInt32(r)
    ensures (x - r) % TwoTo32 == 0
    ensures InInt32(x) ==> r == x
  {
    (x + 0x8000_0000) % TwoTo32 - 0x8000_0000
  }

  /** Go's `a / b`, which truncates toward zero (Dafny's `/` is Euclidean). */
  function GoDiv(a: int, b: int): (q: int)
    requires b > 0
    ensures a >= 0 ==> q == a / b
    ensures a < 0 ==> -q == (-a) / b && q <= 0
  {
    if a >= 0 then a / b else -((-a) / b)
  }

  /** Go's `a % b`, whose sign follows the dividend. */
  function GoRem(a: int, b: int): (r: int)
    requires b > 0
    ensures a >= 0 ==> r == a % b
    ensures a < 0 ==> -r == (-a) % b
  {
    a - GoDiv(a, b) * b
  }

  /** Dividing a multiple of b by b gives back the multiplier. */
  lemma DivOfMultiple(k: nat, b: int)
    requires b > 0
    ensures (k * b) / b == k
  {
    var q, r := (k * b) / b, (k * b) % b;
    assert (k - q) * b == r by {
      assert k * b == q * b + r;
    }
    // A non-zero multiple of b cannot be a remainder modulo b.
    if k - q >= 1 {
      assert false;
    } else if k - q <= -1 {
      assert false;
    }
  }
}
