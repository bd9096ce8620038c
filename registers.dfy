/** The sensor's 8-bit register file, seen as a sequence of 256 bytes, and the
    bit-level operations that the camera setters perform on it. */
module Registers {

  /** Number of addressable registers on the sensor's control bus (addresses 0x00..0xFF). */
  const REGISTER_COUNT: nat := 256

  /** The implicit conversion of a C++ `int` to `uint8_t` at the bus interface:
      the value modulo 256, i.e. the low byte of its two's-complement form. */
  function ToByte(v: int): (b: bv8)
    ensures b as int == v % 256
  {
    (v % 256) as bv8
  }

  /** One read-modify-write: `old | mask` when `on`, `old & ~mask` otherwise. */
  function SetBits(b: bv8, mask: bv8, on: bool): (r: bv8)
    ensures r & !mask == b & !mask
    ensures r & mask == if on then mask else 0
  {
    if on then b | mask else b & !mask
  }

  /** Clearing the bits of `mask` first and then writing them leaves the same
      byte as writing them directly: the first step is absorbed. */
  lemma SetBitsAbsorbs(b: bv8, mask: bv8, on: bool)
    ensures SetBits(SetBits(b, mask, false), mask, on) == SetBits(b, mask, on)
  {
  }

  /** Register `reg` went from `before` to `after` by one read-modify-write of
      `SetBits`: the bits of `mask` all set (when `on`) or all cleared
      (otherwise), and every other bit kept. */
  ghost predicate BitsWritten(before: seq<bv8>, after: seq<bv8>, reg: nat, mask: bv8, on: bool)
  {
    && reg < |before|
    && reg < |after|
    && after[reg] == SetBits(before[reg], mask, on)
  }

  /** No register outside `touched` changed. */
  ghost predicate OnlyChanged(before: seq<bv8>, after: seq<bv8>, touched: set<nat>)
  {
    && |after| == |before|
    && forall i :: 0 <= i < |before| && i !in touched ==> after[i] == before[i]
  }
}
