/** traceObj and traceMarkstack of trace.c run by one thread, for objects with one child: the mark stack and the mark
    words change in place. */
module TraceStack {
  import opened Common
  import opened ObjectHeap

  // ---------------------------------------------------------------- reachability

  ghost predicate Reaches(child: Heap, o: Obj, p: Obj) {
    exists k :: 0 <= k && Descend(child, o, k) == Some(p)
  }

  /** Some entry of the stack reaches p. */
  ghost predicate FromStack(child: Heap, stack: seq<Option<Obj>>, p: Obj) {
    exists i :: 0 <= i < |stack| && stack[i].Some? && Reaches(child, stack[i].value, p)
  }

  lemma {:induction false} DescendOn(child: Heap, o: Obj, k: nat, p: Obj)
    requires Descend(child, o, k) == Some(p) && p < |child| && child[p].Some?
    ensures Descend(child, o, k + 1) == Some(child[p].value)
    decreases k
  {
    if k > 0 { DescendOn(child, child[o].value, k - 1, p); }
  }

  lemma ReachesNext(child: Heap, o: Obj, p: Obj)
    requires Reaches(child, o, p) && p < |child| && child[p].Some?
    ensures Reaches(child, o, child[p].value)
  {
    var k :| 0 <= k && Descend(child, o, k) == Some(p);
    DescendOn(child, o, k, p);
  }

  // ---------------------------------------------------------------- mark sets

  /** The children of marked objects are marked. */
  ghost predicate Closed(child: Heap, words: seq<MarkWord>) {
    forall o :: 0 <= o < |child| && child[o].Some? && Marked(words, o) ==> Marked(words, child[o].value)
  }

  /** What is reachable from a marked object is marked. */
  lemma {:induction false} ClosedReaches(child: Heap, words: seq<MarkWord>, o: Obj, k: nat, p: Obj)
    requires WellFormed(child, words) && Closed(child, words) && o < |child| && Marked(words, o) && Descend(child, o, k) == Some(p)
    ensures Marked(words, p)
    decreases k
  {
    if k > 0 { ClosedReaches(child, words, child[o].value, k - 1, p); }
  }

  /** Every marked object's child is marked or waits on the stack. */
  ghost predicate Grey(child: Heap, words: seq<MarkWord>, stack: seq<Option<Obj>>) {
    forall o :: 0 <= o < |child| && child[o].Some? && Marked(words, o) ==>
      Marked(words, child[o].value) || child[o] in stack
  }

  function Unmarked(n: nat, words: seq<MarkWord>): nat {
    if n == 0 then 0 else Unmarked(n - 1, words) + (if Marked(words, n - 1) then 0 else 1)
  }

  lemma {:induction false} MarkingLowers(n: nat, words: seq<MarkWord>, words': seq<MarkWord>, o: Obj)
    requires forall p :: 0 <= p < n ==> (Marked(words', p) <==> Marked(words, p) || p == o)
    requires !Marked(words, o)
    ensures Unmarked(n, words') == Unmarked(n, words) - (if o < n then 1 else 0)
  {
    if n > 0 { MarkingLowers(n - 1, words, words', o); }
  }

  function WithBit(words: seq<MarkWord>, o: Obj): (r: seq<MarkWord>)
    requires o / BITS < |words|
    ensures |r| == |words|
    ensures forall p: Obj :: Marked(r, p) <==> Marked(words, p) || p == o
    ensures forall w :: 0 <= w < |words| ==> r[w].tag == words[w].tag
  {
    var w := o / BITS;
    words[w := words[w].(bits := words[w].bits + {o % BITS})]
  }

  // ---------------------------------------------------------------- the methods

  /** __mark, with nobody else at the word: the CAS succeeds if the word is of this phase. */
  method Mark(words: array<MarkWord>, o: Obj, before: MarkWord, phase: nat) returns (done: bool)
    requires o / BITS < words.Length && words[o / BITS] == before
    modifies words
    ensures done <==> before.tag == phase
    ensures words[..] == if done then WithBit(old(words[..]), o) else old(words[..])
  {
    if before.tag != phase { return false; }
    words[o / BITS] := before.(bits := before.bits + {o % BITS});
    return true;
  }

  /** The entries of the stack from place 1 to counter. */
  function Entries(markstack: seq<Option<Obj>>, counter: nat): (r: seq<Option<Obj>>)
    requires counter < |markstack|
    ensures |r| == counter
  {
    markstack[1..counter + 1]
  }

  /** Does traceObj mark cur? */
  predicate Marks(words: seq<MarkWord>, cur: Obj, phase: nat) {
    cur / BITS < |words| && !Marked(words, cur) && words[cur / BITS].tag == phase
  }

  /** traceObj: it publishes and marks cur unless it is marked, and then leaves its child in the place just above
      counter. */
  method TraceObj(child: Heap, words: array<MarkWord>, markstack: array<Option<Obj>>, cur: Obj, counter: nat, phase: nat)
    returns (counter': nat)
    requires WellFormed(child, words[..]) && cur < |child| && counter + 1 < markstack.Length
    modifies words, markstack
    ensures words[..] == (if Marks(old(words[..]), cur, phase) then WithBit(old(words[..]), cur) else old(words[..]))
    ensures counter' == (if Marks(old(words[..]), cur, phase) && child[cur].Some? then counter + 1 else counter)
    ensures Entries(markstack[..], counter') == Entries(old(markstack[..]), counter) + (if counter' > counter then [child[cur]] else [])
    ensures markstack[0] == (if Marked(old(words[..]), cur) then old(markstack[0]) else Some(cur))
    ensures forall i :: counter + 1 < i < markstack.Length ==> markstack[i] == old(markstack[i])
  {
    counter' := counter;
    var before := words[cur / BITS];
    if cur % BITS in before.bits { return; }
    markstack[0] := Some(cur); // publish
    var nxt := child[cur];
    if nxt.None? {
      var _ := Mark(words, cur, before, phase);
    } else {
      markstack[counter + 1] := nxt;
      var done := Mark(words, cur, before, phase);
      if done { counter' := counter + 1; } else { markstack[counter + 1] := None; }
    }
  }

  /** What the loop of traceMarkstack keeps. */
  ghost predicate LoopInv(child: Heap, was: seq<MarkWord>, start: seq<Option<Obj>>, words: seq<MarkWord>, stack: seq<Option<Obj>>) {
    && Grey(child, words, stack)
    && (forall i :: 0 <= i < |stack| ==> stack[i].Some? && stack[i].value < |child| && FromStack(child, start, stack[i].value))
    && (forall i :: 0 <= i < |start| && start[i].Some? ==> Marked(words, start[i].value) || start[i] in stack)
    && (forall o: Obj :: Marked(words, o) ==> Marked(was, o) || FromStack(child, start, o))
    && (forall o: Obj :: Marked(was, o) ==> Marked(words, o))
  }

  /** One turn of the loop: cur is taken off the stack, and if it was not marked it is now, and its child is on the stack. */
  lemma Turn(child: Heap, was: seq<MarkWord>, start: seq<Option<Obj>>, words: seq<MarkWord>, stack: seq<Option<Obj>>,
             words': seq<MarkWord>, stack': seq<Option<Obj>>)
    requires WellFormed(child, words) && stack != [] && LoopInv(child, was, start, words, stack)
    requires var cur := stack[|stack| - 1].value;
             var rest := stack[..|stack| - 1];
             if Marked(words, cur) then words' == words && stack' == rest
             else words' == WithBit(words, cur) && stack' == (if child[cur].Some? then rest + [child[cur]] else rest)
    ensures LoopInv(child, was, start, words', stack')
  {
    var cur := stack[|stack| - 1].value;
    var rest := stack[..|stack| - 1];
    assert stack == rest + [Some(cur)];
    assert FromStack(child, start, cur);
    if !Marked(words, cur) && child[cur].Some? {
      var i :| 0 <= i < |start| && start[i].Some? && Reaches(child, start[i].value, cur);
      ReachesNext(child, start[i].value, cur);
      assert FromStack(child, start, child[cur].value);
    }
  }

  /** All mark words are of this phase. */
  predicate AllOf(words: seq<MarkWord>, phase: nat) {
    forall w :: 0 <= w < |words| ==> words[w].tag == phase
  }

  /** The entry on top of the stack is traced. */
  method TraceTop(child: Heap, words: array<MarkWord>, markstack: array<Option<Obj>>, counter: nat, phase: nat,
                  ghost was: seq<MarkWord>, ghost start: seq<Option<Obj>>)
    returns (counter': nat)
    requires WellFormed(child, words[..]) && 1 <= counter < markstack.Length && AllOf(words[..], phase)
    requires LoopInv(child, was, start, words[..], Entries(markstack[..], counter))
    modifies words, markstack
    ensures counter' <= counter && AllOf(words[..], phase)
    ensures LoopInv(child, was, start, words[..], Entries(markstack[..], counter'))
    ensures forall i :: counter < i < markstack.Length ==> markstack[i] == old(markstack[i])
    ensures Unmarked(|child|, words[..]) < old(Unmarked(|child|, words[..]))
            || (Unmarked(|child|, words[..]) == old(Unmarked(|child|, words[..])) && counter' < counter)
  {
    ghost var before, stack := words[..], Entries(markstack[..], counter);
    assert stack[counter - 1] == markstack[counter];
    var cur := markstack[counter].value;
    assert Entries(markstack[..], counter - 1) == stack[..counter - 1];
    counter' := TraceObj(child, words, markstack, cur, counter - 1, phase);
    Turn(child, was, start, before, stack, words[..], Entries(markstack[..], counter'));
    if !Marked(before, cur) { MarkingLowers(|child|, before, words[..], cur); }
  }

  /** traceMarkstack: from a child-closed mark set it ends, marks exactly what the entries 1 to counter reach, leaves the
      mark set child-closed, and writes no place of the stack above the one it started from. */
  method TraceMarkstack(child: Heap, words: array<MarkWord>, markstack: array<Option<Obj>>, start: nat, phase: nat)
    requires WellFormed(child, words[..]) && start < markstack.Length && AllOf(words[..], phase)
    requires forall i :: 1 <= i <= start ==> markstack[i].Some? && markstack[i].value < |child|
    requires Closed(child, words[..])
    modifies words, markstack
    ensures Closed(child, words[..]) && AllOf(words[..], phase)
    ensures forall o: Obj :: Marked(words[..], o) <==>
              Marked(old(words[..]), o) || FromStack(child, Entries(old(markstack[..]), start), o)
    ensures forall i :: start < i < markstack.Length ==> markstack[i] == old(markstack[i])
  {
    var counter: nat := start;
    ghost var was, entries := words[..], Entries(markstack[..], start);
    StartInv(child, was, entries);
    while counter >= 1
      invariant counter <= start && AllOf(words[..], phase)
      invariant LoopInv(child, was, entries, words[..], Entries(markstack[..], counter))
      invariant forall i :: start < i < markstack.Length ==> markstack[i] == old(markstack[i])
      decreases Unmarked(|child|, words[..]), counter
    {
      counter := TraceTop(child, words, markstack, counter, phase, was, entries);
    }
    assert Entries(markstack[..], 0) == [];
    EndsExact(child, was, entries, words[..]);
  }

  lemma StartInv(child: Heap, was: seq<MarkWord>, start: seq<Option<Obj>>)
    requires Closed(child, was) && forall i :: 0 <= i < |start| ==> start[i].Some? && start[i].value < |child|
    ensures LoopInv(child, was, start, was, start)
  {
    forall i | 0 <= i < |start| ensures FromStack(child, start, start[i].value) {
      assert Descend(child, start[i].value, 0) == Some(start[i].value);
      assert Reaches(child, start[i].value, start[i].value);
    }
  }

  lemma EndsExact(child: Heap, was: seq<MarkWord>, start: seq<Option<Obj>>, words: seq<MarkWord>)
    requires WellFormed(child, words) && LoopInv(child, was, start, words, [])
    requires forall i :: 0 <= i < |start| ==> start[i].Some? && start[i].value < |child|
    ensures Closed(child, words)
    ensures forall o: Obj :: Marked(words, o) <==> Marked(was, o) || FromStack(child, start, o)
  {
    forall o: Obj | FromStack(child, start, o) ensures Marked(words, o) {
      var i :| 0 <= i < |start| && start[i].Some? && Reaches(child, start[i].value, o);
      var k :| 0 <= k && Descend(child, start[i].value, k) == Some(o);
      ClosedReaches(child, words, start[i].value, k, o);
    }
  }
}
