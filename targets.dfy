/** The eight marker slots and their indices (constants of MainActivity). */
module Targets {

  const NUM_TARGETS: int := 8

  const KFC: int := 0
  const THTRUEMILK: int := 1
  const NIKE: int := 2
  const SAMSUNG: int := 3
  const PUMA: int := 4
  const ASUS: int := 5
  const PEPSI: int := 6
  const COCACOLA: int := 7

  /** Returned for a marker name that names no slot. */
  const DEFAULT: int := 8

  /** A valid index into the per-slot arrays. */
  predicate IsSlot(i: int) {
    0 <= i < NUM_TARGETS
  }

  /** The slot indices in declaration order. */
  function SlotIndices(): (s: seq<int>)
    ensures |s| == NUM_TARGETS
    ensures forall k :: 0 <= k < |s| ==> s[k] == k
  {
    [KFC, THTRUEMILK, NIKE, SAMSUNG, PUMA, ASUS, PEPSI, COCACOLA]
  }

  /** DEFAULT is not a slot: indexing a per-slot array with it is out of bounds. */
  lemma DefaultIsNoSlot()
    ensures !IsSlot(DEFAULT)
    ensures DEFAULT == NUM_TARGETS
  {
  }
}
