/** clearMarks of trace.c: every thread clears all mark words of all chunks for its phase, each starting at its own place
    in a chunk's header. */
module ClearMarks {
  import opened Common
  import opened Division
  import opened PackedWords

  const HEADER_WORDS := 512

  /** A mark word after clearing: a word of this phase or a later one is left alone. */
  function Cleared(x: nat, phaseNum: nat): nat {
    if x >= phaseNum then x else phaseNum
  }

  /** How many words the loop visits before h when it starts at first and wraps around. */
  function Distance(first: nat, h: nat): int {
    if first <= h then h - first else h + HEADER_WORDS - first
  }

  /** The share of the header at which the thread starts lies in the header. */
  lemma StartsInside(tid: nat, threads: nat)
    requires tid < threads
    ensures tid * (HEADER_WORDS / threads) < HEADER_WORDS
  {
    var quota := HEADER_WORDS / threads;
    MultiplesApart(tid, threads, quota);
    assert threads * quota <= HEADER_WORDS;
    if quota == 0 { assert tid * quota == 0; }
  }

  /** The words of one chunk's header: words[h] for each h exactly once, from first on and around. */
  method ClearChunk(words: array<nat>, first: nat, phaseNum: nat)
    requires words.Length == HEADER_WORDS && first < HEADER_WORDS
    modifies words
    ensures forall h :: 0 <= h < HEADER_WORDS ==> words[h] == Cleared(old(words[h]), phaseNum)
  {
    var h: nat := first;
    ghost var done := 0;
    while true
      invariant h < HEADER_WORDS && 0 <= done < HEADER_WORDS && done == Distance(first, h)
      invariant forall i :: 0 <= i < HEADER_WORDS ==>
                  words[i] == if Distance(first, i) < done then Cleared(old(words[i]), phaseNum) else old(words[i])
      decreases HEADER_WORDS - done
    {
      if words[h] < phaseNum { words[h] := phaseNum; }
      h := if h + 1 < HEADER_WORDS then h + 1 else 0;
      done := done + 1;
      if h == first { break; }
    }
  }

  method ClearMarks(chunks: seq<array<nat>>, tid: nat, threads: nat, phase: nat)
    requires tid < threads
    requires forall i :: 0 <= i < |chunks| ==> chunks[i].Length == HEADER_WORDS
    requires forall i, j :: 0 <= i < j < |chunks| ==> chunks[i] != chunks[j]
    modifies set i | 0 <= i < |chunks| :: chunks[i]
    ensures forall i, h :: 0 <= i < |chunks| && 0 <= h < HEADER_WORDS ==>
              chunks[i][h] == Cleared(old(chunks[i][h]), phase * HALF)
  {
    var quota := HEADER_WORDS / threads;
    StartsInside(tid, threads);
    for i := 0 to |chunks|
      invariant forall j, h :: 0 <= j < i && 0 <= h < HEADER_WORDS ==> chunks[j][h] == Cleared(old(chunks[j][h]), phase * HALF)
      invariant forall j, h :: i <= j < |chunks| && 0 <= h < HEADER_WORDS ==> chunks[j][h] == old(chunks[j][h])
    {
      ClearChunk(chunks[i], tid * quota, phase * HALF);
    }
  }

  /** What clearing means for the records: afterwards no word is of an earlier phase, a word of an earlier phase has become
      the empty word of this phase, and a word of this phase or a later one is as it was. */
  lemma ClearedWord(w: MarkWord, phase: nat)
    ensures Cleared(PackMark(w), phase * HALF) == PackMark(if w.tag >= phase then w else MarkWord(phase, {}))
  {
    MarkWords(w, w, 0, phase);
    Pow2Of32();
    NoBits(BITS);
  }

  lemma {:induction false} NoBits(k: nat)
    ensures Low({}, k) == 0
  {
    if k > 0 { NoBits(k - 1); }
  }
}
