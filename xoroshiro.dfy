/**
 * xoroshiro128+ (src/xoroshiro.h), the generator of Blackman and Vigna with
 * the constants 24, 16 and 37, over a state of two 64-bit words.  C's
 * `uint64_t` arithmetic wraps modulo 2^64, as does `bv64`.
 */
module Xoroshiro {
  /** The returned value: the wrapping sum of the two old words. */
  function Output(s0: bv64, s1: bv64): bv64 {
    s0 + s1
  }

  /** The new s[0], written with the source's shift pairs. */
  function Next0(s0: bv64, s1: bv64): bv64 {
    var t := s1 ^ s0;
    ((s0 << 24) | (s0 >> 40)) ^ t ^ (t << 16)
  }

  /** The new s[1], written with the source's shift pair. */
  function Next1(s0: bv64, s1: bv64): bv64 {
    var t := s1 ^ s0;
    (t << 37) | (t >> 27)
  }

  lemma ShiftPairIsRotation24(x: bv64)
    ensures (x << 24) | (x >> 40) == x.RotateLeft(24)
  {
  }

  lemma ShiftPairIsRotation37(x: bv64)
    ensures (x << 37) | (x >> 27) == x.RotateLeft(37)
  {
  }

  /**
   * The update is the published xoroshiro128+ step: s[1] becomes
   * rotl(s0 ^ s1, 37) and s[0] becomes rotl(s0, 24) ^ (s0 ^ s1) ^ ((s0 ^ s1) << 16).
   */
  lemma {:induction false} NextIsReference(s0: bv64, s1: bv64)
    ensures Next0(s0, s1) == s0.RotateLeft(24) ^ (s0 ^ s1) ^ ((s0 ^ s1) << 16)
    ensures Next1(s0, s1) == (s0 ^ s1).RotateLeft(37)
  {
    ShiftPairIsRotation24(s0);
    ShiftPairIsRotation37(s1 ^ s0);
  }

  /** Equal words xor to zero, so the new s[1] is 0 and the new s[0] is rotl(s0, 24). */
  lemma EqualWordsCollapse(s: bv64)
    ensures Next1(s, s) == 0 && Next0(s, s) == s.RotateLeft(24) && Output(s, s) == s << 1
  {
    ShiftPairIsRotation24(s);
  }

  /** The all-zero state maps to itself and yields 0. */
  lemma ZeroIsFixed()
    ensures Next0(0, 0) == 0 && Next1(0, 0) == 0 && Output(0, 0) == 0
  {
  }

  /**
   * xoroshiro128plus(s): reads s[0] and s[1], overwrites both cells in place
   * and returns the sum of their old values.
   */
  method Step(s: array<bv64>) returns (result: bv64)
    requires s.Length == 2
    modifies s
    ensures result == Output(old(s[0]), old(s[1]))
    ensures s[0] == Next0(old(s[0]), old(s[1])) && s[1] == Next1(old(s[0]), old(s[1]))
  {
    var s0 := s[0];
    var s1 := s[1];
    result := Output(s0, s1);
    s[0] := Next0(s0, s1);
    s[1] := Next1(s0, s1);
  }
}
