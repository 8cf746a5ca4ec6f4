/** What several models share: the words and constants of allocator.h, and a few notions. */
module Common {
  datatype Option<T> = None | Some(value: T)

  const ENTRIES_PER_CACHE := 126
  /** Hazard pointers of a thread. */
  const HPS := 3
  /** Mark bits of a word: they are in its low half. */
  const BITS := 32

  /** DirtyRecord.dirtyNphase: the low byte is the flag, 0 or 1; the rest is the phase tag. */
  datatype DirtyWord = DirtyWord(tag: nat, dirty: bool)
  /** allocator.sweep_counter: the high half is the phase, the low half the next page. */
  datatype SweepWord = SweepWord(phase: nat, counter: nat)
  /** A word of mark bits: the high half is the phase, the low half 32 bits. */
  datatype MarkWord = MarkWord(tag: nat, bits: set<nat>)

  /** The element after the i-th. */
  function Follows<T>(list: seq<T>, i: nat): Option<T> {
    if i + 1 < |list| then Some(list[i + 1]) else None
  }

  predicate Distinct<T(==)>(xs: seq<T>) {
    forall i, j :: 0 <= i < j < |xs| ==> xs[i] != xs[j]
  }
}
