/** The heap as tracing sees it: objects with one child each, sharing and cycles allowed, and the mark words. */
module ObjectHeap {
  import opened Common

  type Obj = nat
  /** child[o] is the child of o. */
  type Heap = seq<Option<Obj>>

  predicate WellFormed(child: Heap, words: seq<MarkWord>) {
    && (forall o :: 0 <= o < |child| && child[o].Some? ==> child[o].value < |child|)
    && |child| <= |words| * BITS
  }

  /** is_marked */
  predicate Marked(words: seq<MarkWord>, o: Obj) {
    o / BITS < |words| && o % BITS in words[o / BITS].bits
  }

  /** The object k links below o. */
  function Descend(child: Heap, o: Obj, k: nat): Option<Obj>
    decreases k
  {
    if k == 0 then Some(o)
    else if o < |child| && child[o].Some? then Descend(child, child[o].value, k - 1)
    else None
  }
}
