/** The shape of the list, and what each kind of write does to it and to the set it represents. */
module LockFreeListHeap {
  import opened Common
  import opened LockFreeList

  /** Keys strictly increase along every nextEntry pointer; every connected unmarked node is reachable. */
  ghost predicate HeapOk(h: Heap) {
    && |h.key| == |h.next| && Chain(h.next, h.head, h.list)
    && (forall n :: 0 <= n < |h.next| && h.next[n].to.Some? ==>
          h.next[n].to.value < |h.key| && h.key[n] < h.key[h.next[n].to.value] && h.next[n].to.value in h.linked)
    && (forall n :: n in h.linked ==> n < |h.key|)
    && (forall n :: n in h.list ==> n in h.linked)
    && (forall n :: n in h.linked && !h.next[n].marked ==> n in h.list)
  }

  // ---------------------------------------------------------------- chains

  /** Keys increase along a chain. */
  lemma {:induction false} ChainSorted(h: Heap, p: Option<Node>, list: seq<Node>, i: nat, j: nat)
    requires HeapOk(h) && Chain(h.next, p, list) && i < j < |list|
    ensures list[i] < |h.key| && list[j] < |h.key| && h.key[list[i]] < h.key[list[j]]
    decreases |list|
  {
    var rest := list[1..];
    if i > 0 {
      ChainSorted(h, h.next[list[0]].to, rest, i - 1, j - 1);
    } else {
      assert h.next[list[0]].to == Some(rest[0]);
      if j > 1 { ChainSorted(h, h.next[list[0]].to, rest, 0, j - 1); }
    }
  }

  lemma ListSorted(h: Heap)
    requires HeapOk(h)
    ensures forall i, j :: 0 <= i < j < |h.list| ==>
      h.list[i] < |h.key| && h.list[j] < |h.key| && h.key[h.list[i]] < h.key[h.list[j]]
  {
    forall i, j | 0 <= i < j < |h.list|
      ensures h.list[i] < |h.key| && h.list[j] < |h.key| && h.key[h.list[i]] < h.key[h.list[j]]
    {
      ChainSorted(h, h.head, h.list, i, j);
    }
  }

  lemma ListDistinct(h: Heap)
    requires HeapOk(h)
    ensures Distinct(h.list)
  {
    ListSorted(h);
  }

  /** A chain does not depend on the links of other nodes, nor on marks. */
  lemma {:induction false} ChainFrame(next: seq<Link>, next': seq<Link>, p: Option<Node>, list: seq<Node>)
    requires Chain(next, p, list)
    requires forall n :: n in list && n < |next| ==> n < |next'| && next'[n].to == next[n].to
    ensures Chain(next', p, list)
    decreases |list|
  {
    if list != [] {
      assert list[0] in list && forall n :: n in list[1..] ==> n in list;
      ChainFrame(next, next', next[list[0]].to, list[1..]);
    }
  }

  lemma {:induction false} ChainInsert(next: seq<Link>, p: Option<Node>, list: seq<Node>, at: Node, n: Node)
    requires Chain(next, p, list) && Distinct(list) && at in list && n !in list && n < |next| && at < |next|
    requires next[n].to == next[at].to
    ensures Chain(next[at := Link(Some(n), false)], p, InsertAfter(list, NextOf(at), n))
    ensures forall x :: x in InsertAfter(list, NextOf(at), n) <==> x in list || x == n
    decreases |list|
  {
    var next' := next[at := Link(Some(n), false)];
    var rest := list[1..];
    assert list == [list[0]] + rest;
    if list[0] == at {
      assert forall x :: x in rest ==> x != at;
      ChainFrame(next, next', next[at].to, rest);
      assert InsertAfter(list, NextOf(at), n)[1..] == [n] + rest;
      assert InsertAfter(list, NextOf(at), n)[2..] == rest;
    } else {
      ChainInsert(next, next[list[0]].to, rest, at, n);
      assert InsertAfter(list, NextOf(at), n)[1..] == InsertAfter(rest, NextOf(at), n);
    }
  }

  lemma {:induction false} ChainRemove(next: seq<Link>, p: Option<Node>, list: seq<Node>, at: Node, n: Node)
    requires Chain(next, p, list) && Distinct(list) && at in list && at < |next| && n < |next| && at != n
    requires next[at].to == Some(n)
    ensures Chain(next[at := Link(next[n].to, false)], p, Remove(list, n))
    ensures forall x :: x in Remove(list, n) <==> x in list && x != n
    decreases |list|
  {
    var next' := next[at := Link(next[n].to, false)];
    var rest := list[1..];
    assert list == [list[0]] + rest;
    if list[0] == at {
      RemoveSecond(next, p, list, at, n);
    } else {
      assert list[0] != n by {
        if list[0] == n { FollowsNothing(next, p, list, at); }
      }
      ChainRemove(next, next[list[0]].to, rest, at, n);
      assert Remove(list, n)[1..] == Remove(rest, n);
    }
  }

  lemma RemoveSecond(next: seq<Link>, p: Option<Node>, list: seq<Node>, at: Node, n: Node)
    requires Chain(next, p, list) && Distinct(list) && list != [] && list[0] == at && at < |next| && n < |next| && at != n
    requires next[at].to == Some(n)
    ensures Chain(next[at := Link(next[n].to, false)], p, Remove(list, n))
    ensures forall x :: x in Remove(list, n) <==> x in list && x != n
  {
    var next' := next[at := Link(next[n].to, false)];
    var rest := list[1..];
    assert list == [at] + rest && rest[0] == n && rest == [n] + rest[1..];
    forall x | x in rest[1..] ensures x != at { assert x in rest; }
    ChainFrame(next, next', next[n].to, rest[1..]);
    assert Remove(list, n) == [at] + rest[1..];
    assert Remove(list, n)[1..] == rest[1..];
  }

  /** Nothing in a chain of different nodes points back to its first node. */
  lemma {:induction false} FollowsNothing(next: seq<Link>, p: Option<Node>, list: seq<Node>, at: Node)
    requires Chain(next, p, list) && Distinct(list) && at in list && at < |next| && next[at].to.Some?
    ensures next[at].to.value in list && next[at].to != Some(list[0])
    decreases |list|
  {
    var rest := list[1..];
    assert list == [list[0]] + rest;
    if list[0] == at {
      assert next[at].to == Some(rest[0]);
    } else {
      FollowsNothing(next, next[list[0]].to, rest, at);
    }
  }

  /** Consecutive elements of a chain are linked, and the last one ends it. */
  lemma {:induction false} ChainNext(next: seq<Link>, p: Option<Node>, list: seq<Node>, i: nat)
    requires Chain(next, p, list) && i < |list|
    ensures list[i] < |next| && next[list[i]].to == if i + 1 < |list| then Some(list[i + 1]) else None
    decreases |list|
  {
    if i > 0 { ChainNext(next, next[list[0]].to, list[1..], i - 1); }
  }

  // ---------------------------------------------------------------- reading

  /** A place that find may stop at on its way to key k. */
  ghost predicate PlaceOk(h: Heap, p: Place, k: int) {
    p.NextOf? ==> p.n in h.linked && p.n < |h.key| && h.key[p.n] < k
  }

  /** A reachable place before k whose successor lies after k shows that k is not in the set. */
  lemma Absent(h: Heap, p: Place, c: Option<Node>, k: int)
    requires HeapOk(h) && PlaceOk(h, p, k) && Read(h, p) == Link(c, false)
    requires c.Some? ==> k < h.key[c.value]
    ensures k !in Keys(h)
  {
    ListSorted(h);
    var i := if p.Head? then -1 else IndexOf(h.list, p.n);
    if i >= 0 { ChainNext(h.next, h.head, h.list, i); }
    forall j | 0 <= j < |h.list| ensures h.key[h.list[j]] != k {
      if j > i + 1 { assert h.key[h.list[i + 1]] < h.key[h.list[j]]; }
    }
  }

  function IndexOf(list: seq<Node>, n: Node): (i: nat)
    requires n in list
    ensures i < |list| && list[i] == n
  {
    if list[0] == n then 0 else 1 + IndexOf(list[1..], n)
  }

  /** A connected unmarked node has its key in the set. */
  lemma Present(h: Heap, n: Node)
    requires HeapOk(h) && n in h.linked && !h.next[n].marked
    ensures h.key[n] in Keys(h)
  {}

  // ---------------------------------------------------------------- writing

  /** The insert CAS adds exactly its key to the set. */
  lemma InsertWrites(h: Heap, p: Place, c: Option<Node>, n: Node, k: int)
    requires HeapOk(h) && PlaceOk(h, p, k) && Read(h, p) == Link(c, false)
    requires c.Some? ==> k < h.key[c.value]
    requires n !in h.linked && n < |h.key| && h.key[n] == k && h.next[n] == Link(c, false)
    ensures var h' := Write(h, p, Some(n)).(linked := h.linked + {n}, list := InsertAfter(h.list, p, n));
      HeapOk(h') && k !in Keys(h) && Keys(h') == Keys(h) + {k}
  {
    var h' := Write(h, p, Some(n)).(linked := h.linked + {n}, list := InsertAfter(h.list, p, n));
    Absent(h, p, c, k);
    ListDistinct(h);
    if p.Head? {
      assert h'.list[1..] == h.list;
    } else {
      ChainInsert(h.next, h.head, h.list, p.n, n);
    }
    assert forall x :: x in h'.list <==> x in h.list || x == n;
    assert HeapOk(h');
    assert n in h'.list && Unmarked(h', n);
    forall x | x in h.list ensures Unmarked(h', x) == Unmarked(h, x) {}
    assert Keys(h') == Keys(h) + {k};
  }

  /** The mark CAS takes exactly its key out of the set. */
  lemma MarkWrites(h: Heap, c: Node)
    requires HeapOk(h) && c in h.linked && !h.next[c].marked
    ensures var h' := h.(next := h.next[c := h.next[c].(marked := true)]);
      HeapOk(h') && h.key[c] in Keys(h) && Keys(h') == Keys(h) - {h.key[c]}
  {
    var h' := h.(next := h.next[c := h.next[c].(marked := true)]);
    ListSorted(h);
    ChainFrame(h.next, h'.next, h.head, h.list);
    assert HeapOk(h');
    assert Unmarked(h, c);
    forall x | x in h.list && x != c ensures Unmarked(h', x) == Unmarked(h, x) && h.key[x] != h.key[c] {
      var i, j := IndexOf(h.list, x), IndexOf(h.list, c);
    }
    assert Keys(h') == Keys(h) - {h.key[c]};
  }

  /** Unlinking a marked node takes it out of the chain. */
  lemma UnlinkChain(h: Heap, p: Place, c: Node, k: int)
    requires HeapOk(h) && PlaceOk(h, p, k) && Read(h, p) == Link(Some(c), false) && c in h.linked && h.next[c].marked
    ensures var h' := Write(h, p, h.next[c].to).(list := Remove(h.list, c));
      Chain(h'.next, h'.head, h'.list) && c in h.list && forall x :: x in h'.list <==> x in h.list && x != c
  {
    ListDistinct(h);
    if p.Head? {
      assert h.list[0] == c;
      assert h.list == [c] + h.list[1..];
    } else {
      FollowsNothing(h.next, h.head, h.list, p.n);
      ChainRemove(h.next, h.head, h.list, p.n, c);
    }
  }

  /** Unlinking a marked node changes the list and leaves the set alone. */
  lemma UnlinkWrites(h: Heap, p: Place, c: Node, k: int)
    requires HeapOk(h) && PlaceOk(h, p, k) && Read(h, p) == Link(Some(c), false) && c in h.linked && h.next[c].marked
    ensures var h' := Write(h, p, h.next[c].to).(list := Remove(h.list, c));
      HeapOk(h') && Keys(h') == Keys(h) && c in h.list && c !in h'.list
  {
    var h' := Write(h, p, h.next[c].to).(list := Remove(h.list, c));
    UnlinkChain(h, p, c, k);
    assert HeapOk(h');
    forall x | x in h'.list ensures Unmarked(h', x) == Unmarked(h, x) {}
    assert Keys(h') == Keys(h);
  }

  /** Allocating a node leaves the list and the set alone. */
  lemma AllocateWrites(h: Heap, k: int, c: Option<Node>)
    requires HeapOk(h) && (c.Some? ==> c.value in h.linked && k < h.key[c.value])
    ensures var h' := h.(key := h.key + [k], next := h.next + [Link(c, false)]);
      HeapOk(h') && Keys(h') == Keys(h)
  {
    var h' := h.(key := h.key + [k], next := h.next + [Link(c, false)]);
    ChainFrame(h.next, h'.next, h.head, h.list);
    assert HeapOk(h');
    forall x | x in h.list ensures Unmarked(h', x) == Unmarked(h, x) && h'.key[x] == h.key[x] {}
    assert Keys(h') == Keys(h);
  }
}
