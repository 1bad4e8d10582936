// Enum flag operators and byte-size macros (final_platform_layer.hpp:610-635).
// Every flag enum (InitFlags, FileAttributeFlags, KeyboardModifierFlags) is a
// 32-bit unsigned value, modelled as the set of positions of its one bits.
// `|` and `|=` are bitwise union; the binary `&` is a subset test returning a
// bool, while `&=` is a plain bitwise AND.
module Flags {
  import opened Common

  type Bit = b: nat | b < 32
  type Flags = set<Bit>

  const NONE: Flags := {}

  /** InitFlags (final_platform_layer.hpp:703-712): Window = 1 << 0, Video = 1 << 1. */
  const INIT_WINDOW: Flags := {0}
  const INIT_VIDEO: Flags := {1}
  const INIT_ALL: Flags := {0, 1}

  /** `lhs | rhs`: every flag of either side. */
  function Union(lhs: Flags, rhs: Flags): (r: Flags)
    ensures forall b: Bit :: b in r <==> b in lhs || b in rhs
  {
    lhs + rhs
  }

  /** `lhs & rhs`: true when every flag of `rhs` is set in `lhs`. */
  predicate Has(lhs: Flags, rhs: Flags)
    ensures Has(lhs, rhs) <==> rhs <= lhs
  {
    lhs * rhs == rhs
  }

  /** `lhs &= rhs`: only the flags set on both sides remain. */
  function Intersect(lhs: Flags, rhs: Flags): (r: Flags)
    ensures forall b: Bit :: b in r <==> b in lhs && b in rhs
  {
    lhs * rhs
  }

  /** The test asks for every flag of `rhs`, not for any one of them. */
  lemma HasIsSubset(lhs: Flags, rhs: Flags)
    ensures Has(lhs, rhs) <==> forall b: Bit :: b in rhs ==> b in lhs
  {
  }

  /** The union is the smallest set of flags holding both sides. */
  lemma UnionLeast(lhs: Flags, rhs: Flags, c: Flags)
    ensures Has(c, Union(lhs, rhs)) <==> Has(c, lhs) && Has(c, rhs)
  {
  }

  /** The intersection is the largest set of flags inside both sides. */
  lemma IntersectGreatest(lhs: Flags, rhs: Flags, c: Flags)
    ensures Has(Intersect(lhs, rhs), c) <==> Has(lhs, c) && Has(rhs, c)
  {
  }

  /** The test holds exactly when adding `rhs` changes nothing. */
  lemma HasIsAbsorption(lhs: Flags, rhs: Flags)
    ensures Has(lhs, rhs) <==> Union(lhs, rhs) == lhs
  {
  }

  /**
   * Testing for no flags at all is always true: `flags & InitFlags::None`
   * cannot tell an empty set from any other.
   */
  lemma HasNoneAlways(lhs: Flags)
    ensures Has(lhs, NONE)
  {
  }

  /** InitFlags::All is Window | Video, and neither one alone passes the test for All. */
  lemma HasAllNeedsBoth()
    ensures INIT_ALL == Union(INIT_WINDOW, INIT_VIDEO)
    ensures !Has(INIT_WINDOW, INIT_ALL) && !Has(INIT_VIDEO, INIT_ALL)
  {
    assert 1 in INIT_ALL && 1 !in INIT_WINDOW;
    assert 0 in INIT_ALL && 0 !in INIT_VIDEO;
  }

  // -------------------------------------------------------------------
  // FPL_KILOBYTES .. FPL_TERABYTES: each multiplies by 1024 as an unsigned
  // 64-bit value (`1024ull`), so every step wraps modulo 2^64.

  function Kilobytes(value: nat): (r: nat)
    requires value < U64
    ensures r < U64
  {
    (value * 1024) % U64
  }

  function Megabytes(value: nat): (r: nat)
    requires value < U64
    ensures r < U64
  {
    (Kilobytes(value) * 1024) % U64
  }

  function Gigabytes(value: nat): (r: nat)
    requires value < U64
    ensures r < U64
  {
    (Megabytes(value) * 1024) % U64
  }

  function Terabytes(value: nat): (r: nat)
    requires value < U64
    ensures r < U64
  {
    (Gigabytes(value) * 1024) % U64
  }

  /** Below 2^24 nothing wraps: the sizes are the value times 1024, 1024^2, 1024^3, 1024^4. */
  lemma SizesExact(value: nat)
    requires value < 0x100_0000
    ensures Kilobytes(value) == value * 1024
    ensures Megabytes(value) == value * 0x10_0000
    ensures Gigabytes(value) == value * 0x4000_0000
    ensures Terabytes(value) == value * 0x100_0000_0000
  {
  }

  /** Wrapping at each step is the same as wrapping once at the end. */
  lemma SizesWrapOnce(value: nat)
    requires value < U64
    ensures Megabytes(value) == (value * 0x10_0000) % U64
    ensures Gigabytes(value) == (value * 0x4000_0000) % U64
    ensures Terabytes(value) == (value * 0x100_0000_0000) % U64
  {
    MulMod(value * 1024, 1024);
    MulMod(value * 0x10_0000, 1024);
    MulMod(value * 0x4000_0000, 1024);
  }

  lemma MulMod(a: nat, k: nat)
    ensures ((a % U64) * k) % U64 == (a * k) % U64
  {
    var q := a / U64;
    assert a == U64 * q + a % U64;
    assert a * k == U64 * (q * k) + (a % U64) * k;
  }

  /** 2^24 terabytes are 2^64 bytes, which wrap to 0. */
  lemma TerabytesWrap()
    ensures Terabytes(0x100_0000) == 0
  {
  }
}
