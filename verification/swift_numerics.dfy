/**
 Fixed-width integer ranges and the Double-to-integer conversions of Swift, stated
 over Dafny's unbounded `int` and `real`. Swift traps on overflow and on an
 out-of-range conversion; the members here make those traps preconditions.
 */
module SwiftNumerics {

  const UInt32Max: int := 0xFFFF_FFFF
  const UInt64Max: int := 0xFFFF_FFFF_FFFF_FFFF
  const Int64Min: int := -0x8000_0000_0000_0000
  const Int64Max: int := 0x7FFF_FFFF_FFFF_FFFF

  predicate IsUInt32(n: int) { 0 <= n <= UInt32Max }
  predicate IsUInt64(n: int) { 0 <= n <= UInt64Max }
  predicate IsInt64(n: int) { Int64Min <= n <= Int64Max }

  /** Rounding toward zero, which is what every Swift `Double`-to-integer initializer does. */
  function Trunc(x: real): (r: int)
    ensures x >= 0.0 ==> 0 <= r && r as real <= x < r as real + 1.0
    ensures x <= 0.0 ==> r <= 0 && r as real - 1.0 < x <= r as real
  {
    if x >= 0.0 then x.Floor else -((-x).Floor)
  }

  /** Truncation keeps the order of its arguments. */
  lemma TruncMonotone(x: real, y: real)
    requires x <= y
    ensures Trunc(x) <= Trunc(y)
  {
  }

  /** `UInt64(x)` does not trap exactly when the truncated value fits in 64 unsigned bits. */
  predicate UInt64Convertible(x: real) {
    -1.0 < x < (UInt64Max + 1) as real
  }

  /** `Int64(x)` (and `AVAudioFramePosition(x)`) does not trap exactly when the truncated value fits. */
  predicate Int64Convertible(x: real) {
    (Int64Min - 1) as real < x < (Int64Max + 1) as real
  }

  /** Swift's `UInt64(_: Double)`. */
  function UInt64FromDouble(x: real): (r: nat)
    requires UInt64Convertible(x)
    ensures IsUInt64(r)
    ensures x >= 0.0 ==> r as real <= x < r as real + 1.0
    ensures x < 1.0 ==> r == 0
  {
    Trunc(x)
  }

  /** Swift's `Int64(_: Double)`. */
  function Int64FromDouble(x: real): (r: int)
    requires Int64Convertible(x)
    ensures IsInt64(r)
    ensures x >= 0.0 ==> 0 <= r && r as real <= x < r as real + 1.0
    ensures x <= 0.0 ==> r <= 0 && r as real - 1.0 < x <= r as real
  {
    Trunc(x)
  }
}
