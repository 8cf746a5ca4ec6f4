/** Recycle keeps the invariant of the pools. */
module MoaPoolsRecycle {
  import opened Common
  import opened Runs
  import opened MoaPools
  import opened MoaPoolsInvariant
  import opened MoaPoolsSteps
  import opened MoaPoolsReclaim

  // ---------------------------------------------------------------- taking a cache off toProcess

  lemma CollectGood(m: Shared, t: nat, th: Thread)
    requires Pre(m, t, th) && th.pc.Loop? && th.pc.l.Collect?
    ensures Good(m, t, LoopStep(m, t, th, th.pc.l))
  {
    var th' := LoopStep(m, t, th, th.pc.l).1;
    RolesKept(m.owner, m.owner, t, th, th');
    QuietGood(m, t, th, th');
  }

  lemma PopReadGood(m: Shared, t: nat, th: Thread)
    requires Pre(m, t, th) && th.pc == Loop(PopRead)
    ensures Good(m, t, LoopStep(m, t, th, PopRead))
  {
    assert CallOk(|th.stack| - 1, th.stack[|th.stack| - 1]);
    if m.process.head.Some? { assert Has(m.owner, m.queued[0], Queued); }
    Stays(m, t, th, LoopStep(m, t, th, PopRead).1.pc);
  }

  lemma PopNextGood(m: Shared, t: nat, th: Thread)
    requires Pre(m, t, th) && th.pc.Loop? && th.pc.l.PopNext?
    ensures Good(m, t, LoopStep(m, t, th, th.pc.l))
  {
    Stays(m, t, th, LoopStep(m, t, th, th.pc.l).1.pc);
  }

  lemma PopMem(m: Shared, t: nat, th: Thread)
    requires Pre(m, t, th) && th.pc.Loop? && th.pc.l.PopCas? && m.process == th.pc.l.old4
    ensures MemOk(LoopStep(m, t, th, th.pc.l).0) && m.queued != []
  {
    PopStacks(m, m.process.head.value, t);
    PopIs(m, t, th, m.process, th.pc.l.next);
  }

  lemma PopIs(m: Shared, t: nat, th: Thread, o: VerEntry, next: Option<Id>)
    requires Sizes(m) && m.process == o && o.head.Some?
    ensures LoopStep(m, t, th, PopCas(o, next)).0
            == Give(m, o.head.value, Popped(t)).(process := VerEntry(next, o.ver), queued := Tail(m.queued))
  {
  }

  lemma PopStacks(m: Shared, e: Id, t: nat)
    requires MemOk(m) && m.process.head == Some(e)
    ensures e < |m.ent|
    ensures MemOk(Give(m, e, Popped(t)).(process := VerEntry(m.ent[e].next, m.process.ver), queued := Tail(m.queued)))
  {
    assert Has(m.owner, e, Queued);
    var owner' := m.owner[e := Popped(t)];
    ChainPop(m.ent, m.process.head, m.queued);
    ListsPop(m.owner, m.queued, Queued, Popped(t));
    ListsKept(m.owner, owner', m.pooled, Pooled);
    ListsKept(m.owner, owner', m.reclaimed, Reclaimed);
  }

  lemma PopMoves(m: Shared, t: nat, th: Thread)
    requires Pre(m, t, th) && th.pc.Loop? && th.pc.l.PopCas? && m.process == th.pc.l.old4
    ensures Moves(m, LoopStep(m, t, th, th.pc.l).0, t)
  {
    SecondIsQueued(m);
    PopMemMoves(m, t, m.process.head.value, th.pc.l.next);
  }

  /** The first cache of toProcess, and the one after it, are on toProcess. */
  lemma SecondIsQueued(m: Shared)
    requires MemOk(m) && m.process.head.Some?
    ensures var e := m.process.head.value;
      && Has(m.owner, e, Queued) && e < |m.ent|
      && (m.ent[e].next.Some? ==> m.ent[e].next.value != e && Has(m.owner, m.ent[e].next.value, Queued))
  {
    assert Has(m.owner, m.queued[0], Queued);
    if |m.queued| > 1 {
      assert Has(m.owner, m.queued[1], Queued);
      assert m.queued[1] != m.queued[0];
      assert m.ent[m.queued[0]].next == Follows(m.queued, 0);
    }
  }

  lemma PopMemMoves(m: Shared, t: nat, e: Id, next: Option<Id>)
    requires Sizes(m) && m.process.head == Some(e) && Has(m.owner, e, Queued)
    requires next.Some? ==> next.value != e && Has(m.owner, next.value, Queued)
    ensures Moves(m, Give(m, e, Popped(t)).(process := VerEntry(next, m.process.ver), queued := Tail(m.queued)), t)
  {
  }

  lemma TakeRoles(owner: seq<Owner>, t: nat, th: Thread, th': Thread, e: Id)
    requires RolesOk(owner, t, th) && e < |owner| && OwnerThread(owner[e]).None? && PoppedOf(th) == None
    requires th' == th.(pc := th'.pc) && PoppedOf(th') == Some(e)
    ensures RolesOk(owner[e := Popped(t)], t, th')
  {
    forall x: Id, p: Owner | p != Popped(t) && OwnerThread(p).Some?
      ensures Has(owner[e := Popped(t)], x, p) <==> Has(owner, x, p) {}
    forall x: Id ensures !Has(owner, x, Popped(t)) {}
    forall x: Id, d: nat ensures Has(owner[e := Popped(t)], x, Framed(t, d)) <==> FrameOf(th'.stack, d) == Some(x) {
      assert Has(owner, x, Framed(t, d)) <==> FrameOf(th.stack, d) == Some(x);
    }
  }

  lemma PopThread(m: Shared, t: nat, th: Thread)
    requires Pre(m, t, th) && th.pc.Loop? && th.pc.l.PopCas? && m.process == th.pc.l.old4
    ensures ThreadOk(LoopStep(m, t, th, th.pc.l).0, t, LoopStep(m, t, th, th.pc.l).1)
  {
    var e := m.process.head.value;
    var (m', th') := LoopStep(m, t, th, th.pc.l);
    assert Has(m.owner, e, Queued);
    TakeRoles(m.owner, t, th, th', e);
    assert OldEnough(m', t, th');
  }

  lemma PopGood(m: Shared, t: nat, th: Thread)
    requires Pre(m, t, th) && th.pc.Loop? && th.pc.l.PopCas?
    ensures Good(m, t, LoopStep(m, t, th, th.pc.l))
  {
    if m.process == th.pc.l.old4 {
      PopMem(m, t, th);
      PopMoves(m, t, th);
      PopThread(m, t, th);
    } else {
      Stays(m, t, th, Loop(PopRead));
    }
  }

  lemma ClearGood(m: Shared, t: nat, th: Thread)
    requires Pre(m, t, th) && th.pc.Loop? && th.pc.l.PopClear?
    ensures Good(m, t, LoopStep(m, t, th, th.pc.l))
  {
    var e := th.pc.l.e;
    var (m', th') := LoopStep(m, t, th, th.pc.l);
    assert Has(m.owner, e, Popped(t));
    if th.alloc.Some? { assert Has(m.owner, th.alloc.value, AllocCache(t)); }
    LinkMem(m, e, None);
    LinkMoves(m, t, e, None);
    ThreadGoesOn(m, m', t, th, th');
  }

  // ---------------------------------------------------------------- working on a cache

  lemma EnterMem(m: Shared, t: nat, e: Id, d: nat)
    requires MemOk(m) && e < |m.ent| && OwnerThread(m.owner[e]).Some?
    requires forall n: Node :: !At(m.place, n, InFrame(t, d))
    ensures MemOk(Give(PutAll(SetItems(m, e, []), InEntry(e), InFrame(t, d)), e, Framed(t, d)))
  {
    var m' := Give(PutAll(SetItems(m, e, []), InEntry(e), InFrame(t, d)), e, Framed(t, d));
    assert !Has(m.owner, e, Pooled) && !Has(m.owner, e, Queued) && !Has(m.owner, e, Reclaimed);
    ItemsChange(m.ent, m'.ent, m.place, m'.place, e);
    ChainKept(m.ent, m'.ent, m.pool, m.pooled);
    ChainKept(m.ent, m'.ent, m.process.head, m.queued);
    if m.reclaim.ver >= m.process.ver { ChainKept(m.ent, m'.ent, m.reclaim.head, m.reclaimed); }
    ListsKept(m.owner, m'.owner, m.pooled, Pooled);
    ListsKept(m.owner, m'.owner, m.queued, Queued);
    ListsKept(m.owner, m'.owner, m.reclaimed, Reclaimed);
  }

  lemma EnterMoves(m: Shared, t: nat, e: Id, d: nat)
    requires Sizes(m) && e < |m.ent| && OwnerThread(m.owner[e]) == Some(t)
    ensures Moves(m, Give(PutAll(SetItems(m, e, []), InEntry(e), InFrame(t, d)), e, Framed(t, d)), t)
  {
  }

  lemma EnterStack(ent: seq<Entry>, place: seq<Place>, place': seq<Place>, t: nat, stack: seq<Call>, e: Id)
    requires StackOk(place, t, stack) && e < |ent| && ItemsOk(ent[e].items, place, e) && InCall(stack) && |place'| == |place|
    requires forall n :: 0 <= n < |place| ==> place'[n] == if place[n] == InEntry(e) then InFrame(t, |stack|) else place[n]
    ensures StackOk(place', t, stack + [Recycle(e, None, [], ent[e].items)])
  {
    var items, k := ent[e].items, |stack|;
    var stack' := stack + [Recycle(e, None, [], items)];
    assert [] + items == items;
    assert CallOk(k - 1, stack[k - 1]);
    forall d | 0 <= d < |stack'| ensures CallOk(d, stack'[d]) {
      if d < k { assert CallOk(d, stack[d]); }
    }
    forall x: Node, d: nat ensures At(place', x, InHand(t, d)) <==> InHands(stack', d, x) {
      assert At(place, x, InHand(t, d)) <==> InHands(stack, d, x);
    }
    forall x: Node, d: nat ensures At(place', x, InFrame(t, d)) <==> InWork(stack', d, x) {
      assert At(place, x, InFrame(t, d)) <==> InWork(stack, d, x);
      assert x in items <==> At(place, x, InEntry(e));
    }
  }

  lemma EnterRoles(owner: seq<Owner>, t: nat, th: Thread, th': Thread, e: Id, c: Call)
    requires RolesOk(owner, t, th) && Has(owner, e, Popped(t)) && c.Recycle? && c.e == e
    requires th' == th.(stack := th.stack + [c], pc := th'.pc) && PoppedOf(th') == None
    ensures RolesOk(owner[e := Framed(t, |th.stack|)], t, th')
  {
    var owner' := owner[e := Framed(t, |th.stack|)];
    forall x: Id, p: Owner | x != e ensures Has(owner', x, p) <==> Has(owner, x, p) {}
    forall x: Id ensures Has(owner, x, Popped(t)) <==> x == e {}
    forall x: Id, d: nat ensures Has(owner', x, Framed(t, d)) <==> FrameOf(th'.stack, d) == Some(x) {
      assert Has(owner, x, Framed(t, d)) <==> FrameOf(th.stack, d) == Some(x);
    }
  }

  lemma EnterThread(m: Shared, t: nat, th: Thread)
    requires Pre(m, t, th) && th.pc.Loop? && th.pc.l.Enter?
    ensures ThreadOk(LoopStep(m, t, th, th.pc.l).0, t, LoopStep(m, t, th, th.pc.l).1)
  {
    var e := th.pc.l.e;
    var (m', th') := LoopStep(m, t, th, th.pc.l);
    assert Has(m.owner, e, Popped(t));
    if th.alloc.Some? { assert Has(m.owner, th.alloc.value, AllocCache(t)); }
    EnterStack(m.ent, m.place, m'.place, t, th.stack, e);
    EnterRoles(m.owner, t, th, th', e, th'.stack[|th.stack|]);
    assert OldEnough(m', t, th');
  }

  lemma EnterGood(m: Shared, t: nat, th: Thread)
    requires Pre(m, t, th) && th.pc.Loop? && th.pc.l.Enter?
    ensures Good(m, t, LoopStep(m, t, th, th.pc.l))
  {
    var e := th.pc.l.e;
    assert Has(m.owner, e, Popped(t));
    forall n: Node ensures !At(m.place, n, InFrame(t, |th.stack|)) {
      assert At(m.place, n, InFrame(t, |th.stack|)) <==> InWork(th.stack, |th.stack|, n);
    }
    EnterMem(m, t, e, |th.stack|);
    EnterMoves(m, t, e, |th.stack|);
    EnterThread(m, t, th);
  }

  lemma KeepStack(place: seq<Place>, t: nat, stack: seq<Call>)
    requires StackOk(place, t, stack) && stack != [] && stack[|stack| - 1].Recycle? && stack[|stack| - 1].rest != []
    ensures var d := |stack| - 1; var c := stack[d];
            StackOk(place, t, stack[..d] + [c.(rest := c.rest[1..], kept := c.kept + [c.rest[0]])])
  {
    var k := |stack| - 1;
    var c := stack[k];
    var c' := c.(rest := c.rest[1..], kept := c.kept + [c.rest[0]]);
    var stack' := stack[..k] + [c'];
    assert CallOk(k, c);
    assert c'.kept + c'.rest == c.kept + c.rest;
    forall d | 0 <= d < |stack'| ensures CallOk(d, stack'[d]) {
      if d < k { assert CallOk(d, stack[d]); }
    }
    forall x: Node, d: nat ensures At(place, x, InHand(t, d)) <==> InHands(stack', d, x) {
      assert At(place, x, InHand(t, d)) <==> InHands(stack, d, x);
    }
    forall x: Node, d: nat ensures At(place, x, InFrame(t, d)) <==> InWork(stack', d, x) {
      assert At(place, x, InFrame(t, d)) <==> InWork(stack, d, x);
    }
  }

  lemma FreeStack(place: seq<Place>, t: nat, stack: seq<Call>)
    requires StackOk(place, t, stack) && stack != [] && stack[|stack| - 1].Recycle? && stack[|stack| - 1].rest != []
    ensures var d := |stack| - 1; var c := stack[d]; var n := c.rest[0];
            At(place, n, InFrame(t, d))
            && StackOk(place[n := InHand(t, d + 1)], t, stack[..d] + [c.(rest := c.rest[1..]), Pfree(n)])
  {
    var k := |stack| - 1;
    var c := stack[k];
    var n := c.rest[0];
    assert CallOk(k, c);
    assert InWork(stack, k, n);
    assert At(place, n, InFrame(t, k));
    var c' := c.(rest := c.rest[1..]);
    var place', stack' := place[n := InHand(t, k + 1)], stack[..k] + [c', Pfree(n)];
    LessDistinct(c.kept, c.rest);
    forall d | 0 <= d < |stack'| ensures CallOk(d, stack'[d]) {
      if d < k { assert CallOk(d, stack[d]); }
    }
    forall x: Node, d: nat ensures At(place', x, InHand(t, d)) <==> InHands(stack', d, x) {
      assert At(place, x, InHand(t, d)) <==> InHands(stack, d, x);
    }
    forall x: Node, d: nat ensures At(place', x, InFrame(t, d)) <==> InWork(stack', d, x) {
      assert At(place, x, InFrame(t, d)) <==> InWork(stack, d, x);
      assert x in c.rest <==> x == n || x in c'.rest;
    }
  }

  lemma LessDistinct(kept: seq<Node>, rest: seq<Node>)
    requires Distinct(kept + rest) && rest != []
    ensures Distinct(kept + rest[1..]) && rest[0] !in kept && rest[0] !in rest[1..]
  {
    var all := kept + rest;
    var less := kept + rest[1..];
    forall i | 0 <= i < |less| ensures less[i] == all[if i < |kept| then i else i + 1] && less[i] != rest[0] {
      assert all[|kept|] == rest[0];
    }
    forall i, j | 0 <= i < j < |less| ensures less[i] != less[j] {}
    forall x | x in kept ensures x in less {}
    forall x | x in rest[1..] ensures x in less {}
  }

  /** The caches of the calls stay the same while Recycle works on one of them. */
  lemma SameFrames(stack: seq<Call>, stack': seq<Call>, c: Call)
    requires stack != [] && stack[|stack| - 1].Recycle? && c.Recycle? && c.e == stack[|stack| - 1].e
    requires stack' == stack[..|stack| - 1] + [c] || exists n :: stack' == stack[..|stack| - 1] + [c, Pfree(n)]
    ensures forall d :: 0 <= d ==> FrameOf(stack', d) == FrameOf(stack, d)
  {
  }

  lemma ScanFreesMem(m: Shared, t: nat, d: nat, n: Node)
    requires MemOk(m) && At(m.place, n, InFrame(t, d))
    ensures MemOk(Put(m, n, InHand(t, d + 1))) && Moves(m, Put(m, n, InHand(t, d + 1)), t)
  {
    var m' := Put(m, n, InHand(t, d + 1));
    ItemsKept(m.ent, m'.ent, m.place, m'.place);
    SmallMoves(m, m', t, 0, n);
    SmallMem(m, m', t, 0, n);
  }

  lemma ScanFreesThread(m: Shared, t: nat, th: Thread, c: Call, n: Node)
    requires Pre(m, t, th) && th.pc == Work(Scan) && th.stack[|th.stack| - 1].rest != []
    requires n == th.stack[|th.stack| - 1].rest[0]
    requires c == th.stack[|th.stack| - 1].(rest := th.stack[|th.stack| - 1].rest[1..])
    ensures ThreadOk(Put(m, n, InHand(t, |th.stack|)), t, th.(stack := th.stack[..|th.stack| - 1] + [c, Pfree(n)], pc := Free(FreeTest)))
  {
    var m' := Put(m, n, InHand(t, |th.stack|));
    var th' := th.(stack := th.stack[..|th.stack| - 1] + [c, Pfree(n)], pc := Free(FreeTest));
    FreeStack(m.place, t, th.stack);
    SameFrames(th.stack, th'.stack, c);
    assert CallOk(|th.stack| - 1, th.stack[|th.stack| - 1]);
    ThreadGoesOn(m, m', t, th, th');
  }

  lemma ScanFrees(m: Shared, t: nat, th: Thread, a: Action)
    requires Pre(m, t, th) && th.pc == Work(Scan) && th.stack[|th.stack| - 1].rest != []
    requires th.stack[|th.stack| - 1].rest[0] in th.hps || a.collides
    ensures Good(m, t, WorkStep(m, t, th, Scan, a))
  {
    var d := |th.stack| - 1;
    var c := th.stack[d];
    FreeStack(m.place, t, th.stack);
    ScanFreesMem(m, t, d, c.rest[0]);
    ScanFreesThread(m, t, th, c.(rest := c.rest[1..]), c.rest[0]);
  }

  lemma ScanKeeps(m: Shared, t: nat, th: Thread, a: Action)
    requires Pre(m, t, th) && th.pc == Work(Scan) && th.stack[|th.stack| - 1].rest != []
    requires th.stack[|th.stack| - 1].rest[0] !in th.hps && !a.collides
    ensures Good(m, t, WorkStep(m, t, th, Scan, a))
  {
    var th' := WorkStep(m, t, th, Scan, a).1;
    var d := |th.stack| - 1;
    KeepStack(m.place, t, th.stack);
    SameFrames(th.stack, th'.stack, th'.stack[d]);
    assert CallOk(d, th.stack[d]);
    ThreadGoesOn(m, m, t, th, th');
    QuietGood(m, t, th, th');
  }

  lemma ScanGood(m: Shared, t: nat, th: Thread, a: Action)
    requires Pre(m, t, th) && th.pc == Work(Scan)
    ensures Good(m, t, WorkStep(m, t, th, Scan, a))
  {
    var c := th.stack[|th.stack| - 1];
    if c.rest == [] {
      Stays(m, t, th, Work(PushEntry));
    } else if c.rest[0] in th.hps || a.collides {
      ScanFrees(m, t, th, a);
    } else {
      ScanKeeps(m, t, th, a);
    }
  }

  // ---------------------------------------------------------------- putting a cache back

  lemma PutBackItems(m: Shared, t: nat, d: nat, c: Call)
    requires MemOk(m) && c.Recycle? && c.e < |m.ent| && m.owner[c.e] == Framed(t, d) && CallOk(d, c) && c.rest == []
    requires forall n: Node :: At(m.place, n, InFrame(t, d)) <==> n in c.kept
    ensures AllItems(Refill(m, t, d, c).ent, Refill(m, t, d, c).place)
  {
    var m' := Refill(m, t, d, c);
    assert c.kept + c.rest == c.kept;
    assert ItemsOk(m.ent[c.e].items, m.place, c.e);
    forall n: Node ensures n in c.kept <==> At(m'.place, n, InEntry(c.e)) {
      assert n in m.ent[c.e].items <==> At(m.place, n, InEntry(c.e));
    }
    ItemsChange(m.ent, m'.ent, m.place, m'.place, c.e);
  }

  lemma PutBackMem(m: Shared, t: nat, d: nat, c: Call, o: Owner)
    requires MemOk(m) && c.Recycle? && c.e < |m.ent| && m.owner[c.e] == Framed(t, d) && CallOk(d, c) && c.rest == []
    requires forall n: Node :: At(m.place, n, InFrame(t, d)) <==> n in c.kept
    requires o == AllocCache(t) || (o == Gone && c.kept == [])
    ensures MemOk(Give(Refill(m, t, d, c), c.e, o))
  {
    var m' := Give(Refill(m, t, d, c), c.e, o);
    PutBackItems(m, t, d, c);
    ChainKept(m.ent, m'.ent, m.pool, m.pooled);
    ChainKept(m.ent, m'.ent, m.process.head, m.queued);
    if m.reclaim.ver >= m.process.ver { ChainKept(m.ent, m'.ent, m.reclaim.head, m.reclaimed); }
    ListsKept(m.owner, m'.owner, m.pooled, Pooled);
    ListsKept(m.owner, m'.owner, m.queued, Queued);
    ListsKept(m.owner, m'.owner, m.reclaimed, Reclaimed);
  }

  /** What the invariant says of the cache Recycle works on. */
  lemma WorkFrame(m: Shared, t: nat, th: Thread)
    requires Pre(m, t, th) && th.pc == Work(PushEntry)
    ensures var d := |th.stack| - 1; var c := th.stack[d];
            && CallOk(d, c) && c.e < |m.ent| && m.owner[c.e] == Framed(t, d) && c.rest == []
            && (forall n: Node :: At(m.place, n, InFrame(t, d)) <==> n in c.kept)
  {
    var d := |th.stack| - 1;
    var c := th.stack[d];
    assert CallOk(d, c);
    assert Has(m.owner, c.e, Framed(t, d)) <==> FrameOf(th.stack, d) == Some(c.e);
    forall n: Node ensures At(m.place, n, InFrame(t, d)) <==> n in c.kept {
      assert At(m.place, n, InFrame(t, d)) <==> InWork(th.stack, d, n);
    }
  }

  lemma PushBackMem(m: Shared, t: nat, d: nat, c: Call)
    requires MemOk(m) && c.Recycle? && c.e < |m.ent| && m.owner[c.e] == Framed(t, d) && CallOk(d, c) && c.rest == [] && c.kept != []
    requires forall n: Node :: At(m.place, n, InFrame(t, d)) <==> n in c.kept
    ensures MemOk(PushPool(Refill(m, t, d, c), c.e))
  {
    // as if it were a cache of the thread first
    PutBackMem(m, t, d, c, AllocCache(t));
    var m1 := Give(Refill(m, t, d, c), c.e, AllocCache(t));
    PushPoolMem(m1, c.e);
    assert PushPool(m1, c.e).owner == PushPool(Refill(m, t, d, c), c.e).owner;
    assert PushPool(m1, c.e) == PushPool(Refill(m, t, d, c), c.e);
  }

  lemma PushMem(m: Shared, t: nat, th: Thread)
    requires Pre(m, t, th) && th.pc == Work(PushEntry)
    ensures var d := |th.stack| - 1; var m' := PutBack(m, t, d, th.stack[d]); MemOk(m') && Moves(m, m', t)
  {
    var d := |th.stack| - 1;
    var c := th.stack[d];
    WorkFrame(m, t, th);
    if c.kept == [] { PutBackMem(m, t, d, c, Gone); } else { PushBackMem(m, t, d, c); }
    PushMoves(m, t, d, c);
  }

  lemma PushMoves(m: Shared, t: nat, d: nat, c: Call)
    requires Sizes(m) && c.Recycle? && c.e < |m.ent| && m.owner[c.e] == Framed(t, d)
    ensures Moves(m, PutBack(m, t, d, c), t)
  {
  }

  lemma PushStack(place: seq<Place>, place': seq<Place>, t: nat, stack: seq<Call>, e: Id)
    requires StackOk(place, t, stack) && stack != [] && stack[|stack| - 1].Recycle? && |place'| == |place|
    requires forall n :: 0 <= n < |place| ==> place'[n] == if place[n] == InFrame(t, |stack| - 1) then InEntry(e) else place[n]
    ensures StackOk(place', t, stack[..|stack| - 1]) && InCall(stack[..|stack| - 1])
  {
    var k := |stack| - 1;
    assert CallOk(k, stack[k]);
    assert CallOk(k - 1, stack[k - 1]);
    forall x: Node, d: nat ensures At(place', x, InHand(t, d)) <==> InHands(stack[..k], d, x) {
      assert At(place, x, InHand(t, d)) <==> InHands(stack, d, x);
    }
    forall x: Node, d: nat ensures At(place', x, InFrame(t, d)) <==> InWork(stack[..k], d, x) {
      assert At(place, x, InFrame(t, d)) <==> InWork(stack, d, x);
    }
  }

  lemma PushRoles(owner: seq<Owner>, t: nat, th: Thread, th': Thread, e: Id, o: Owner)
    requires RolesOk(owner, t, th) && th.stack != [] && Has(owner, e, Framed(t, |th.stack| - 1)) && OwnerThread(o).None?
    requires th' == th.(stack := th.stack[..|th.stack| - 1], pc := th'.pc) && PoppedOf(th') == PoppedOf(th) == None
    ensures RolesOk(owner[e := o], t, th')
  {
    forall x: Id, p: Owner | x != e ensures Has(owner[e := o], x, p) <==> Has(owner, x, p) {}
    forall x: Id, d: nat ensures Has(owner[e := o], x, Framed(t, d)) <==> FrameOf(th'.stack, d) == Some(x) {
      assert Has(owner, x, Framed(t, d)) <==> FrameOf(th.stack, d) == Some(x);
      assert Has(owner, e, Framed(t, |th.stack| - 1)) <==> FrameOf(th.stack, |th.stack| - 1) == Some(e);
    }
  }

  lemma PushThread(m: Shared, t: nat, th: Thread, th': Thread)
    requires Pre(m, t, th) && th.pc == Work(PushEntry)
    requires th' == th.(stack := th.stack[..|th.stack| - 1], pc := Loop(PopRead))
    ensures ThreadOk(PutBack(m, t, |th.stack| - 1, th.stack[|th.stack| - 1]), t, th')
  {
    var d := |th.stack| - 1;
    var c := th.stack[d];
    WorkFrame(m, t, th);
    PushedBack(m, t, d, c);
    PushThreadOk(m, t, th, th', PutBack(m, t, d, c), d, c.e);
  }

  lemma PushThreadOk(m: Shared, t: nat, th: Thread, th': Thread, m': Shared, d: nat, e: Id)
    requires Pre(m, t, th) && th.pc == Work(PushEntry) && d == |th.stack| - 1 && e == th.stack[d].e
    requires th' == th.(stack := th.stack[..d], pc := Loop(PopRead)) && e < |m.ent| && m.owner[e] == Framed(t, d)
    requires Sizes(m') && m' == m.(pool := m'.pool, pooled := m'.pooled, ent := m'.ent, owner := m'.owner, place := m'.place)
    requires |m'.ent| == |m.ent| && |m'.place| == |m.place|
    requires m'.owner == m.owner[e := m'.owner[e]] && OwnerThread(m'.owner[e]).None?
    requires forall x :: 0 <= x < |m.ent| && x != e ==> m'.ent[x] == m.ent[x]
    requires forall n :: 0 <= n < |m.place| ==> m'.place[n] == if m.place[n] == InFrame(t, d) then InEntry(e) else m.place[n]
    ensures ThreadOk(m', t, th')
  {
    if th.alloc.Some? { assert Has(m.owner, th.alloc.value, AllocCache(t)); }
    assert Has(m.owner, e, Framed(t, d));
    PushStack(m.place, m'.place, t, th.stack, e);
    PushRoles(m.owner, t, th, th', e, m'.owner[e]);
    Rejoins(m, m', t, th, th', e);
  }

  lemma PushedBack(m: Shared, t: nat, d: nat, c: Call)
    requires Sizes(m) && c.Recycle? && c.e < |m.ent|
    ensures var m' := PutBack(m, t, d, c);
            && m' == m.(pool := m'.pool, pooled := m'.pooled, ent := m'.ent, owner := m'.owner, place := m'.place)
            && |m'.ent| == |m.ent| && |m'.place| == |m.place|
            && m'.owner == m.owner[c.e := m'.owner[c.e]] && OwnerThread(m'.owner[c.e]).None?
            && (forall x :: 0 <= x < |m.ent| && x != c.e ==> m'.ent[x] == m.ent[x])
            && forall n :: 0 <= n < |m.place| ==> m'.place[n] == if m.place[n] == InFrame(t, d) then InEntry(c.e) else m.place[n]
  {
  }

  /** A thread whose top call has returned to the loop over toProcess. */
  lemma Rejoins(m: Shared, m': Shared, t: nat, th: Thread, th': Thread, e: Id)
    requires Pre(m, t, th) && th.pc == Work(PushEntry) && e < |m.ent| && |m'.ent| == |m.ent| && Sizes(m')
    requires th' == th.(stack := th.stack[..|th.stack| - 1], pc := Loop(PopRead)) && InCall(th'.stack)
    requires m'.process == m.process && m'.reclaim == m.reclaim && m'.startedAt == m.startedAt && m'.clock == m.clock
    requires m'.pushedAt == m.pushedAt && th.alloc != Some(e)
    requires forall x :: 0 <= x < |m.ent| && x != e ==> m'.ent[x] == m.ent[x] && m'.owner[x] == m.owner[x]
    requires OwnerThread(m'.owner[e]).None?
    requires RolesOk(m'.owner, t, th') && StackOk(m'.place, t, th'.stack)
    ensures ThreadOk(m', t, th')
  {
    if th.alloc.Some? { assert Has(m'.owner, th.alloc.value, AllocCache(t)); }
  }

  lemma PushGood(m: Shared, t: nat, th: Thread, a: Action)
    requires Pre(m, t, th) && th.pc == Work(PushEntry)
    ensures Good(m, t, WorkStep(m, t, th, PushEntry, a))
  {
    PushMem(m, t, th);
    PushThread(m, t, th, th.(stack := th.stack[..|th.stack| - 1], pc := Loop(PopRead)));
    assert CallOk(|th.stack| - 1, th.stack[|th.stack| - 1]);
    PushIs(m, t, th, a);
  }

  lemma PushIs(m: Shared, t: nat, th: Thread, a: Action)
    requires Sizes(m) && th.stack != [] && CallOk(|th.stack| - 1, th.stack[|th.stack| - 1]) && th.stack[|th.stack| - 1].Recycle?
    ensures WorkStep(m, t, th, PushEntry, a)
            == (PutBack(m, t, |th.stack| - 1, th.stack[|th.stack| - 1]), th.(stack := th.stack[..|th.stack| - 1], pc := Loop(PopRead)))
  {
  }
}
