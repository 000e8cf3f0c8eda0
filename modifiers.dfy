/**
 * The modifier bits of java.lang.reflect.Modifier and the test every
 * Modifier*Filter performs: `(modifiers & mask) > 0` on Java's signed 32-bit
 * `int`.
 */
module Modifiers {

  const PUBLIC: bv32       := 0x0001
  const PRIVATE: bv32      := 0x0002
  const PROTECTED: bv32    := 0x0004
  const STATIC: bv32       := 0x0008
  const FINAL: bv32        := 0x0010
  const SYNCHRONIZED: bv32 := 0x0020
  const VOLATILE: bv32     := 0x0040
  const TRANSIENT: bv32    := 0x0080
  const NATIVE: bv32       := 0x0100
  const INTERFACE: bv32    := 0x0200
  const ABSTRACT: bv32     := 0x0400
  const STRICT: bv32       := 0x0800

  /** Bit 31, which makes a Java `int` negative. */
  const SIGN: bv32 := 0x8000_0000

  /** The value of a 32-bit pattern read as a two's complement Java `int`. */
  function ToInt(b: bv32): (r: int)
    ensures -0x8000_0000 <= r < 0x8000_0000
    ensures (r < 0) == (b >= SIGN)
    ensures r == 0 <==> b == 0
  {
    if b < SIGN then b as int else b as int - 0x1_0000_0000
  }

  /** Bit 31 is set exactly in the patterns from 0x8000_0000 up. */
  lemma SignBitIsTop(b: bv32)
    ensures (b & SIGN != 0) == (b >= SIGN)
  {
  }

  /** `(modifiers & mask) > 0`, the test of every Modifier*Filter. */
  predicate HasAny(modifiers: bv32, mask: bv32)
  {
    ToInt(modifiers & mask) > 0
  }

  /** The test passes exactly when some shared bit is set and the shared bits do not include the sign bit. */
  lemma HasAnyIff(modifiers: bv32, mask: bv32)
    ensures HasAny(modifiers, mask) <==> (modifiers & mask != 0 && modifiers & mask & SIGN == 0)
  {
    SignBitIsTop(modifiers & mask);
  }

  /** Mask 0 never passes. */
  lemma ZeroMaskNeverPasses(modifiers: bv32)
    ensures !HasAny(modifiers, 0)
  {
  }

  /** A member lacking every bit of the mask fails. */
  lemma NoSharedBitFails(modifiers: bv32, mask: bv32)
    requires modifiers & mask == 0
    ensures !HasAny(modifiers, mask)
  {
  }

  /**
   * Any bits the member and the mask share suffice (below the sign bit), so a
   * mask of several bits passes when any one of them is set, not only when all
   * are: `bits` can be that single bit.
   */
  lemma SharedBitPasses(modifiers: bv32, mask: bv32, bits: bv32)
    requires bits != 0 && modifiers & bits == bits && mask & bits == bits
    requires mask & SIGN == 0
    ensures HasAny(modifiers, mask)
  {
    assert (modifiers & mask) & bits == bits;
    HasAnyIff(modifiers, mask);
  }

  /**
   * The mask the `isDefault()` builder methods pass: `PUBLIC & PROTECTED &
   * PRIVATE`, three disjoint bits, is 0.
   */
  const DEFAULT_ACCESS_MASK: bv32 := PUBLIC & PROTECTED & PRIVATE

  lemma DefaultAccessMaskIsZero()
    ensures DEFAULT_ACCESS_MASK == 0
  {
  }

  /** Package-private access: none of the three access bits is set. */
  predicate IsPackagePrivate(modifiers: bv32)
  {
    modifiers & (PUBLIC | PROTECTED | PRIVATE) == 0
  }
}
