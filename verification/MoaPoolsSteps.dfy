/** Every step of the manual allocator keeps the invariant of its pools. */
module MoaPoolsSteps {
  import opened Common
  import opened Runs
  import opened MoaPools
  import opened MoaPoolsInvariant

  // ---------------------------------------------------------------- stacks

  lemma ChainKept(ent: seq<Entry>, ent': seq<Entry>, head: Option<Id>, list: seq<Id>)
    requires Chain(ent, head, list) && |ent| <= |ent'|
    requires forall e :: 0 <= e < |ent| && e in list ==> ent'[e].next == ent[e].next
    ensures Chain(ent', head, list)
  {
  }

  lemma ChainPush(ent: seq<Entry>, e: Id, list: seq<Id>)
    requires e < |ent| && Chain(ent, ent[e].next, list)
    ensures Chain(ent, Some(e), [e] + list)
  {
    var more := [e] + list;
    forall i | 0 <= i < |more| ensures more[i] < |ent| && ent[more[i]].next == Follows(more, i) {
      if i > 0 { assert more[i] == list[i - 1] && Follows(more, i) == Follows(list, i - 1); }
    }
  }

  lemma ChainPop(ent: seq<Entry>, head: Option<Id>, list: seq<Id>)
    requires Chain(ent, head, list) && list != []
    ensures Chain(ent, ent[list[0]].next, list[1..])
  {
    var less := list[1..];
    forall i | 0 <= i < |less| ensures less[i] < |ent| && ent[less[i]].next == Follows(less, i) {
      assert less[i] == list[i + 1] && Follows(less, i) == Follows(list, i + 1);
    }
  }

  lemma ListsKept(owner: seq<Owner>, owner': seq<Owner>, list: seq<Id>, o: Owner)
    requires Lists(owner, list, o)
    requires forall e: Id :: Has(owner', e, o) <==> Has(owner, e, o)
    ensures Lists(owner', list, o)
  {
  }

  lemma ListsPush(owner: seq<Owner>, e: Id, list: seq<Id>, o: Owner)
    requires Lists(owner, list, o) && e < |owner| && owner[e] != o
    ensures Lists(owner[e := o], [e] + list, o)
  {
    assert !Has(owner, e, o);
    forall x: Id ensures x in [e] + list <==> Has(owner[e := o], x, o) {
      assert x in list <==> Has(owner, x, o);
    }
  }

  lemma ListsPop(owner: seq<Owner>, list: seq<Id>, o: Owner, o': Owner)
    requires Lists(owner, list, o) && list != [] && o' != o
    ensures list[0] < |owner| && Lists(owner[list[0] := o'], list[1..], o)
  {
    assert Has(owner, list[0], o);
    forall x: Id ensures x in list[1..] <==> Has(owner[list[0] := o'], x, o) {
      assert x in list <==> Has(owner, x, o);
      assert x in list <==> x == list[0] || x in list[1..];
    }
  }

  // ---------------------------------------------------------------- items

  /** Items and places of entries stay; entries that hold nothing may be added. */
  lemma ItemsKept(ent: seq<Entry>, ent': seq<Entry>, place: seq<Place>, place': seq<Place>)
    requires AllItems(ent, place) && |ent'| == |ent| && |place'| == |place|
    requires forall e :: 0 <= e < |ent| ==> ent'[e].items == ent[e].items
    requires forall n :: 0 <= n < |place| && (place[n].InEntry? || place'[n].InEntry?) ==> place'[n] == place[n]
    ensures AllItems(ent', place')
  {
    forall e | 0 <= e < |ent| ensures ItemsOk(ent'[e].items, place', e) {
      assert ItemsOk(ent[e].items, place, e);
      forall n: Node ensures n in ent'[e].items <==> At(place', n, InEntry(e)) {
        assert n in ent[e].items <==> At(place, n, InEntry(e));
      }
    }
  }

  /** The contents of one entry change. */
  lemma ItemsChange(ent: seq<Entry>, ent': seq<Entry>, place: seq<Place>, place': seq<Place>, e: Id)
    requires AllItems(ent, place) && |ent'| == |ent| && |place'| == |place| && e < |ent| && ItemsOk(ent'[e].items, place', e)
    requires forall x :: 0 <= x < |ent| && x != e ==> ent'[x].items == ent[x].items
    requires forall n, x: Id :: x != e ==> (At(place', n, InEntry(x)) <==> At(place, n, InEntry(x)))
    ensures AllItems(ent', place')
  {
    forall n | 0 <= n < |place'| && place'[n].InEntry? ensures place'[n].e < |ent| {
      var x := place'[n].e;
      if x != e { assert At(place', n, InEntry(x)); assert At(place, n, InEntry(x)); }
    }
    forall x | 0 <= x < |ent| && x != e ensures ItemsOk(ent'[x].items, place', x) {
      assert ItemsOk(ent[x].items, place, x);
    }
  }

  lemma ItemsTake(items: seq<Node>, place: seq<Place>, e: Id, p: Place)
    requires ItemsOk(items, place, e) && items != [] && p != InEntry(e)
    ensures var k := |items| - 1; items[k] < |place| && ItemsOk(items[..k], place[items[k] := p], e)
  {
    var k := |items| - 1;
    assert At(place, items[k], InEntry(e));
    forall n: Node ensures n in items[..k] <==> At(place[items[k] := p], n, InEntry(e)) {
      assert n in items <==> At(place, n, InEntry(e));
      assert n in items <==> n in items[..k] || n == items[k];
    }
  }

  lemma ItemsAdd(items: seq<Node>, place: seq<Place>, e: Id, n: Node)
    requires ItemsOk(items, place, e) && |items| < ENTRIES_PER_CACHE && n < |place| && place[n] != InEntry(e)
    ensures ItemsOk(items + [n], place[n := InEntry(e)], e)
  {
    assert !At(place, n, InEntry(e));
    forall x: Node ensures x in items + [n] <==> At(place[n := InEntry(e)], x, InEntry(e)) {
      assert x in items <==> At(place, x, InEntry(e));
    }
  }

  // ---------------------------------------------------------------- the stack of calls

  predicate Own(p: Place, t: nat) {
    PlaceThread(p) == Some(t)
  }

  lemma FirstCall(place: seq<Place>, t: nat)
    requires StackOk(place, t, [])
    ensures StackOk(place, t, [Palloc])
  {
    forall x: Node, d: nat ensures At(place, x, InHand(t, d)) <==> InHands([Palloc], d, x) {
      assert At(place, x, InHand(t, d)) <==> InHands([], d, x);
    }
    forall x: Node, d: nat ensures At(place, x, InFrame(t, d)) <==> InWork([Palloc], d, x) {
      assert At(place, x, InFrame(t, d)) <==> InWork([], d, x);
    }
  }

  lemma LastCall(place: seq<Place>, t: nat)
    requires StackOk(place, t, [Palloc])
    ensures StackOk(place, t, [])
  {
    forall x: Node, d: nat ensures At(place, x, InHand(t, d)) <==> InHands([], d, x) {
      assert At(place, x, InHand(t, d)) <==> InHands([Palloc], d, x);
    }
    forall x: Node, d: nat ensures At(place, x, InFrame(t, d)) <==> InWork([], d, x) {
      assert At(place, x, InFrame(t, d)) <==> InWork([Palloc], d, x);
    }
  }

  /** A call takes a node that no call of this thread has. */
  lemma HandIn(place: seq<Place>, t: nat, stack: seq<Call>, n: Node, c: Call)
    requires StackOk(place, t, stack) && n < |place| && !Own(place[n], t)
    requires (c == Pfree(n) || c == PReturn(n)) && CallOk(|stack|, c) && (stack != [] ==> !stack[0].PReturn?)
    ensures StackOk(place[n := InHand(t, |stack|)], t, stack + [c])
  {
    var place', stack' := place[n := InHand(t, |stack|)], stack + [c];
    forall x: Node, d: nat ensures At(place', x, InHand(t, d)) <==> InHands(stack', d, x) {
      assert At(place, x, InHand(t, d)) <==> InHands(stack, d, x);
    }
    forall x: Node, d: nat ensures At(place', x, InFrame(t, d)) <==> InWork(stack', d, x) {
      assert At(place, x, InFrame(t, d)) <==> InWork(stack, d, x);
    }
  }

  /** A call passes its node on, and returns. */
  lemma HandOut(place: seq<Place>, t: nat, stack: seq<Call>, n: Node, p: Place)
    requires StackOk(place, t, stack) && stack != [] && !Own(p, t)
    requires stack[|stack| - 1] == Pfree(n) || stack[|stack| - 1] == PReturn(n)
    ensures At(place, n, InHand(t, |stack| - 1)) && StackOk(place[n := p], t, stack[..|stack| - 1])
  {
    assert InHands(stack, |stack| - 1, n);
    assert At(place, n, InHand(t, |stack| - 1));
    var place', stack' := place[n := p], stack[..|stack| - 1];
    forall x: Node, d: nat ensures At(place', x, InHand(t, d)) <==> InHands(stack', d, x) {
      assert At(place, x, InHand(t, d)) <==> InHands(stack, d, x);
    }
    forall x: Node, d: nat ensures At(place', x, InFrame(t, d)) <==> InWork(stack', d, x) {
      assert At(place, x, InFrame(t, d)) <==> InWork(stack, d, x);
    }
  }

  lemma StackKept(place: seq<Place>, place': seq<Place>, t: nat, stack: seq<Call>)
    requires StackOk(place, t, stack) && |place'| == |place|
    requires forall n :: 0 <= n < |place| && (Own(place[n], t) || Own(place'[n], t)) ==> place'[n] == place[n]
    ensures StackOk(place', t, stack)
  {
    forall x: Node, p: Place | Own(p, t) ensures At(place', x, p) <==> At(place, x, p) {}
  }

  // ---------------------------------------------------------------- steps

  ghost predicate Pre(m: Shared, t: nat, th: Thread) {
    MemOk(m) && ThreadOk(m, t, th)
  }

  ghost predicate Good(m: Shared, t: nat, r: (Shared, Thread)) {
    MemOk(r.0) && Moves(m, r.0, t) && ThreadOk(r.0, t, r.1)
  }

  lemma QuietGood(m: Shared, t: nat, th: Thread, th': Thread)
    requires MemOk(m) && ThreadOk(m, t, th')
    ensures Good(m, t, (m, th'))
  {
  }

  /** The other fields of a thread that only moves its program counter. */
  lemma Stays(m: Shared, t: nat, th: Thread, pc: PC)
    requires Pre(m, t, th) && PcOk(m, th.(pc := pc)) && PoppedOf(th) == PoppedOf(th.(pc := pc)) == None
    requires pc == Pool(AllocTest) || th.pc != Pool(AllocTest) || AllocEmpty(m, th.(pc := pc))
    requires |th.stack| <= 1 && !pc.Loop? ==> Drained(m, th.localVer)
    ensures Good(m, t, (m, th.(pc := pc)))
  {
  }

  /** A write to one cache and to the place of one node, by the thread that has both. */
  ghost predicate SmallWrite(m: Shared, m': Shared, t: nat, e: Id, n: Node) {
    && Sizes(m) && Sizes(m') && |m'.ent| == |m.ent| && |m'.place| == |m.place|
    && m' == m.(ent := m'.ent, place := m'.place)
    && (forall x :: 0 <= x < |m.ent| ==> m'.ent[x].next == m.ent[x].next)
    && (forall x :: 0 <= x < |m.ent| && x != e ==> m'.ent[x] == m.ent[x])
    && (e < |m.ent| && m'.ent[e] != m.ent[e] ==> OwnerThread(m.owner[e]) == Some(t) && !m.owner[e].Framed?)
    && (forall x :: 0 <= x < |m.place| && x != n ==> m'.place[x] == m.place[x])
    && (n < |m.place| && m'.place[n] != m.place[n] ==> !OtherPlace(m.place[n], t) && !OtherPlace(m'.place[n], t))
  }

  lemma SmallMoves(m: Shared, m': Shared, t: nat, e: Id, n: Node)
    requires SmallWrite(m, m', t, e, n)
    ensures Moves(m, m', t)
  {
  }

  lemma SmallMem(m: Shared, m': Shared, t: nat, e: Id, n: Node)
    requires MemOk(m) && SmallWrite(m, m', t, e, n) && AllItems(m'.ent, m'.place)
    ensures MemOk(m')
  {
    ChainKept(m.ent, m'.ent, m.pool, m.pooled);
    ChainKept(m.ent, m'.ent, m.process.head, m.queued);
    if m.reclaim.ver >= m.process.ver { ChainKept(m.ent, m'.ent, m.reclaim.head, m.reclaimed); }
  }

  lemma RolesKept(owner: seq<Owner>, owner': seq<Owner>, t: nat, th: Thread, th': Thread)
    requires RolesOk(owner, t, th)
    requires forall e: Id, o: Owner :: OwnerThread(o) == Some(t) ==> (Has(owner', e, o) <==> Has(owner, e, o))
    requires th'.alloc == th.alloc && th'.free == th.free && PoppedOf(th') == PoppedOf(th)
    requires forall d :: 0 <= d ==> FrameOf(th'.stack, d) == FrameOf(th.stack, d)
    ensures RolesOk(owner', t, th')
  {
    forall e: Id, d: nat ensures Has(owner', e, Framed(t, d)) <==> FrameOf(th'.stack, d) == Some(e) {
      assert Has(owner', e, Framed(t, d)) <==> Has(owner, e, Framed(t, d));
      assert FrameOf(th'.stack, d) == FrameOf(th.stack, d);
    }
  }

  /** A thread that goes on with the same caches. */
  lemma ThreadGoesOn(m: Shared, m': Shared, t: nat, th: Thread, th': Thread)
    requires ThreadOk(m, t, th) && m'.owner == m.owner && m'.pushedAt == m.pushedAt && m'.clock == m.clock
    requires m'.process == m.process && m'.reclaim == m.reclaim && m'.startedAt == m.startedAt
    requires th' == th.(stack := th'.stack, pc := th'.pc) && PoppedOf(th') == PoppedOf(th)
    requires forall d :: 0 <= d ==> FrameOf(th'.stack, d) == FrameOf(th.stack, d)
    requires StackOk(m'.place, t, th'.stack) && AllocEmpty(m', th') && PcOk(m', th')
    requires |th'.stack| <= 1 && !th'.pc.Loop? ==> Drained(m, th.localVer)
    ensures ThreadOk(m', t, th')
  {
    RolesKept(m.owner, m'.owner, t, th, th');
  }

  // the client, palloc and pReturnAlloc

  lemma TakeHandMem(m: Shared, t: nat, n: Node)
    requires MemOk(m) && At(m.place, n, Client)
    ensures MemOk(Put(m, n, InHand(t, 0))) && Moves(m, Put(m, n, InHand(t, 0)), t)
  {
    var m' := Put(m, n, InHand(t, 0));
    ItemsKept(m.ent, m.ent, m.place, m'.place);
    SmallMoves(m, m', t, 0, n);
    SmallMem(m, m', t, 0, n);
  }

  lemma TakeHand(m: Shared, t: nat, th: Thread, n: Node, c: Call, pc: PC)
    requires Pre(m, t, th) && th.pc.Idle? && At(m.place, n, Client) && (c == Pfree(n) || c == PReturn(n))
    requires pc == (if c.Pfree? then Free(FreeTest) else Pool(ReturnTest))
    ensures Good(m, t, (Put(m, n, InHand(t, 0)), th.(stack := [c], pc := pc)))
  {
    TakeHandMem(m, t, n);
    HandIn(m.place, t, [], n, c);
    ThreadGoesOn(m, Put(m, n, InHand(t, 0)), t, th, th.(stack := [c], pc := pc));
  }

  lemma AskPalloc(m: Shared, t: nat, th: Thread)
    requires Pre(m, t, th) && th.pc.Idle?
    ensures Good(m, t, (m, th.(stack := [Palloc], pc := Pool(AllocTest))))
  {
    FirstCall(m.place, t);
    ThreadGoesOn(m, m, t, th, th.(stack := [Palloc], pc := Pool(AllocTest)));
  }

  lemma PublishGood(m: Shared, t: nat, th: Thread, slots: seq<Slot>)
    requires Pre(m, t, th)
    ensures Good(m, t, (m.(slots := slots), th))
  {
    var m' := m.(slots := slots);
    assert MemOk(m') && Moves(m, m', t);
    assert PcOk(m', th);
  }

  lemma AskIs(m: Shared, t: nat, th: Thread, a: Action)
    requires Sizes(m)
    ensures a.ask.DoPfree? && At(m.place, a.ask.n, Client) ==>
              IdleStep(m, t, th, a) == (Put(m, a.ask.n, InHand(t, 0)), th.(stack := [Pfree(a.ask.n)], pc := Free(FreeTest)))
    ensures a.ask.DoReturn? && At(m.place, a.ask.n, Client) ==>
              IdleStep(m, t, th, a) == (Put(m, a.ask.n, InHand(t, 0)), th.(stack := [PReturn(a.ask.n)], pc := Pool(ReturnTest)))
    ensures (a.ask.DoPfree? || a.ask.DoReturn?) && !At(m.place, a.ask.n, Client) ==> IdleStep(m, t, th, a) == (m, th)
  {
  }

  lemma AskPfree(m: Shared, t: nat, th: Thread, a: Action)
    requires Pre(m, t, th) && th.pc.Idle? && a.ask.DoPfree?
    ensures Good(m, t, IdleStep(m, t, th, a))
  {
    var n := a.ask.n;
    AskIs(m, t, th, a);
    if At(m.place, n, Client) { TakeHand(m, t, th, n, Pfree(n), Free(FreeTest)); } else { QuietGood(m, t, th, th); }
  }

  lemma AskReturn(m: Shared, t: nat, th: Thread, a: Action)
    requires Pre(m, t, th) && th.pc.Idle? && a.ask.DoReturn?
    ensures Good(m, t, IdleStep(m, t, th, a))
  {
    var n := a.ask.n;
    AskIs(m, t, th, a);
    if At(m.place, n, Client) { TakeHand(m, t, th, n, PReturn(n), Pool(ReturnTest)); } else { QuietGood(m, t, th, th); }
  }

  lemma AskPublish(m: Shared, t: nat, th: Thread, a: Action)
    requires Pre(m, t, th) && th.pc.Idle? && a.ask.Publish?
    ensures Good(m, t, IdleStep(m, t, th, a))
  {
    PublishGood(m, t, th, IdleStep(m, t, th, a).0.slots);
    PublishIs(m, t, th, a);
  }

  lemma PublishIs(m: Shared, t: nat, th: Thread, a: Action)
    requires Sizes(m) && a.ask.Publish?
    ensures IdleStep(m, t, th, a) == (m.(slots := IdleStep(m, t, th, a).0.slots), th)
  {
  }

  lemma IdleGood(m: Shared, t: nat, th: Thread, a: Action)
    requires Pre(m, t, th) && th.pc.Idle?
    ensures Good(m, t, IdleStep(m, t, th, a))
  {
    match a.ask
    case DoPalloc => AskPalloc(m, t, th);
    case DoPfree(_) => AskPfree(m, t, th, a);
    case DoReturn(_) => AskReturn(m, t, th, a);
    case Publish(_, _) => AskPublish(m, t, th, a);
  }

  lemma AllocTakesMem(m: Shared, t: nat, e: Id)
    requires MemOk(m) && e < |m.ent| && m.owner[e] == AllocCache(t) && m.ent[e].items != []
    ensures var items := m.ent[e].items; var n := items[|items| - 1];
            var m' := Put(SetItems(m, e, items[..|items| - 1]), n, Client);
            At(m.place, n, InEntry(e)) && MemOk(m') && Moves(m, m', t)
  {
    var items := m.ent[e].items;
    var n := items[|items| - 1];
    var m' := Put(SetItems(m, e, items[..|items| - 1]), n, Client);
    assert ItemsOk(items, m.place, e);
    assert At(m.place, n, InEntry(e));
    ItemsTake(items, m.place, e, Client);
    ItemsChange(m.ent, m'.ent, m.place, m'.place, e);
    SmallMoves(m, m', t, e, n);
    SmallMem(m, m', t, e, n);
  }

  /** palloc returns the last node of the cache. */
  lemma AllocReturns(m: Shared, m': Shared, t: nat, th: Thread)
    requires Pre(m, t, th) && th.pc == Pool(AllocTest) && m' == m.(ent := m'.ent, place := m'.place) && |m'.place| == |m.place|
    requires forall n :: 0 <= n < |m.place| && (Own(m.place[n], t) || Own(m'.place[n], t)) ==> m'.place[n] == m.place[n]
    ensures ThreadOk(m', t, th.(stack := [], pc := Idle))
  {
    StackKept(m.place, m'.place, t, th.stack);
    assert th.stack == [Palloc];
    LastCall(m'.place, t);
    ThreadGoesOn(m, m', t, th, th.(stack := [], pc := Idle));
  }

  lemma AllocTakes(m: Shared, t: nat, th: Thread)
    requires Pre(m, t, th) && th.pc == Pool(AllocTest) && th.alloc.Some?
    requires th.alloc.value < |m.ent| && m.ent[th.alloc.value].items != []
    ensures Good(m, t, PoolStep(m, t, th, AllocTest))
  {
    assert Has(m.owner, th.alloc.value, AllocCache(t));
    AllocTakesMem(m, t, th.alloc.value);
    AllocReturns(m, PoolStep(m, t, th, AllocTest).0, t, th);
  }

  lemma AllocTestGood(m: Shared, t: nat, th: Thread)
    requires Pre(m, t, th) && th.pc == Pool(AllocTest)
    ensures Good(m, t, PoolStep(m, t, th, AllocTest))
  {
    if th.alloc.Some? && th.alloc.value < |m.ent| && m.ent[th.alloc.value].items != [] {
      AllocTakes(m, t, th);
    } else {
      assert th.alloc.Some? ==> Has(m.owner, th.alloc.value, AllocCache(t));
      Stays(m, t, th, Pool(PopPool));
    }
  }

  lemma AddMem(m: Shared, t: nat, e: Id, n: Node)
    requires MemOk(m) && e < |m.ent| && |m.ent[e].items| < ENTRIES_PER_CACHE && n < |m.place| && PlaceThread(m.place[n]) == Some(t)
    requires m.owner[e] == AllocCache(t) || m.owner[e] == FreeCache(t)
    ensures MemOk(AddItem(m, e, n)) && Moves(m, AddItem(m, e, n), t)
  {
    var m' := AddItem(m, e, n);
    ItemsAdd(m.ent[e].items, m.place, e, n);
    ItemsChange(m.ent, m'.ent, m.place, m'.place, e);
    SmallMoves(m, m', t, e, n);
    SmallMem(m, m', t, e, n);
  }

  /** A call puts its node into a cache of the thread that has room, and returns. */
  lemma AddGood(m: Shared, t: nat, th: Thread, e: Id, n: Node, pc: PC)
    requires Pre(m, t, th) && th.stack != [] && (th.pc.Free? || th.pc == Pool(ReturnTest))
    requires th.stack[|th.stack| - 1] == Pfree(n) || th.stack[|th.stack| - 1] == PReturn(n)
    requires if th.stack[|th.stack| - 1].Pfree? then th.free == Some(e) else th.alloc == Some(e)
    requires e < |m.ent| && |m.ent[e].items| < ENTRIES_PER_CACHE
    requires pc == (if |th.stack| == 1 then Idle else Work(Scan))
    ensures Good(m, t, (AddItem(m, e, n), th.(stack := th.stack[..|th.stack| - 1], pc := pc)))
  {
    assert Has(m.owner, e, FreeCache(t)) || Has(m.owner, e, AllocCache(t));
    HandOut(m.place, t, th.stack, n, InEntry(e));
    AddMem(m, t, e, n);
    AddMoves(m, t, e, n);
    Returns(m, AddItem(m, e, n), t, th, th.(stack := th.stack[..|th.stack| - 1], pc := pc), e);
  }

  lemma AddMoves(m: Shared, t: nat, e: Id, n: Node)
    requires Sizes(m) && e < |m.ent| && OwnerThread(m.owner[e]) == Some(t)
    requires n < |m.place| && PlaceThread(m.place[n]) == Some(t)
    ensures Moves(m, AddItem(m, e, n), t)
  {
  }

  /** The call on top of the stack returns. */
  lemma Returns(m: Shared, m': Shared, t: nat, th: Thread, th': Thread, e: Id)
    requires Pre(m, t, th) && th.stack != [] && (th.stack[|th.stack| - 1].Pfree? || th.stack[|th.stack| - 1].PReturn?)
    requires (th.pc.Free? || th.pc == Pool(ReturnTest)) && m' == m.(ent := m'.ent, place := m'.place) && |m'.ent| == |m.ent|
    requires forall x :: 0 <= x < |m.ent| && x != e ==> m'.ent[x] == m.ent[x]
    requires th.stack[|th.stack| - 1].Pfree? ==> th.alloc != Some(e)
    requires th' == th.(stack := th.stack[..|th.stack| - 1], pc := if |th.stack| == 1 then Idle else Work(Scan))
    requires StackOk(m'.place, t, th'.stack)
    ensures ThreadOk(m', t, th')
  {
    CallFrames(m.place, t, th.stack);
    UnderCall(m, t, th);
    ThreadGoesOn(m, m', t, th, th');
  }

  /** What lies under a call that returns. */
  lemma UnderCall(m: Shared, t: nat, th: Thread)
    requires Pre(m, t, th) && th.stack != [] && (th.stack[|th.stack| - 1].Pfree? || th.stack[|th.stack| - 1].PReturn?)
    ensures |th.stack| > 1 ==> |th.stack| > 2 && th.stack[|th.stack| - 2].Recycle?
    ensures |th.stack| == 1 ==> !th.stack[0].Palloc?
  {
    var d := |th.stack| - 1;
    assert CallOk(d, th.stack[d]);
    if d > 0 { assert CallOk(d - 1, th.stack[d - 1]); }
  }

  // a new cache

  lemma NewItems(ent: seq<Entry>, place: seq<Place>, n: Node)
    requires AllItems(ent, place) && n < |place| && !place[n].InEntry?
    ensures AllItems(ent + [Entry(None, [n])], place[n := InEntry(|ent|)])
  {
    var ent', place' := ent + [Entry(None, [n])], place[n := InEntry(|ent|)];
    forall e | 0 <= e < |ent'| ensures ItemsOk(ent'[e].items, place', e) {
      forall x: Node ensures x in ent'[e].items <==> At(place', x, InEntry(e)) {
        if e < |ent| { assert ItemsOk(ent[e].items, place, e); assert x in ent[e].items <==> At(place, x, InEntry(e)); }
      }
    }
  }

  lemma NewMem(m: Shared, n: Node, o: Owner)
    requires MemOk(m) && n < |m.place| && !m.place[n].InEntry? && OwnerThread(o).Some? && !o.Framed?
    ensures MemOk(NewEntry(m, n, o))
  {
    var m' := NewEntry(m, n, o);
    NewItems(m.ent, m.place, n);
    ChainKept(m.ent, m'.ent, m.pool, m.pooled);
    ChainKept(m.ent, m'.ent, m.process.head, m.queued);
    if m.reclaim.ver >= m.process.ver { ChainKept(m.ent, m'.ent, m.reclaim.head, m.reclaimed); }
    ListsKept(m.owner, m'.owner, m.pooled, Pooled);
    ListsKept(m.owner, m'.owner, m.queued, Queued);
    ListsKept(m.owner, m'.owner, m.reclaimed, Reclaimed);
  }

  lemma NewMoves(m: Shared, t: nat, n: Node, o: Owner)
    requires Sizes(m) && n < |m.place| && !OtherPlace(m.place[n], t) && OwnerThread(o) == Some(t)
    ensures Moves(m, NewEntry(m, n, o), t)
  {
  }

  lemma NewRoles(owner: seq<Owner>, t: nat, th: Thread, th': Thread, o: Owner)
    requires RolesOk(owner, t, th) && PoppedOf(th') == PoppedOf(th)
    requires if o == AllocCache(t) then th.alloc.None? && th'.alloc == Some(|owner|) && th'.free == th.free
             else o == FreeCache(t) && th.free.None? && th'.free == Some(|owner|) && th'.alloc == th.alloc
    requires forall d :: 0 <= d ==> FrameOf(th'.stack, d) == FrameOf(th.stack, d)
    ensures RolesOk(owner + [o], t, th')
  {
    forall e: Id, p: Owner ensures Has(owner + [o], e, p) <==> Has(owner, e, p) || (e == |owner| && p == o) {}
    forall e: Id, d: nat ensures Has(owner + [o], e, Framed(t, d)) <==> FrameOf(th'.stack, d) == Some(e) {
      assert Has(owner, e, Framed(t, d)) <==> FrameOf(th.stack, d) == Some(e);
    }
  }

  lemma NewCacheMem(m: Shared, t: nat, n: Node, o: Owner)
    requires MemOk(m) && n < |m.place| && PlaceThread(m.place[n]) == Some(t) && OwnerThread(o) == Some(t) && !o.Framed?
    ensures MemOk(NewEntry(m, n, o)) && Moves(m, NewEntry(m, n, o), t)
  {
    NewMem(m, n, o);
    NewMoves(m, t, n, o);
  }

  lemma NewCacheThread(m: Shared, t: nat, th: Thread, n: Node, o: Owner, th': Thread)
    requires Pre(m, t, th) && th.stack != [] && (th.pc.Free? || th.pc == Pool(ReturnTest))
    requires th.stack[|th.stack| - 1] == Pfree(n) || th.stack[|th.stack| - 1] == PReturn(n)
    requires if th.stack[|th.stack| - 1].Pfree? then o == FreeCache(t) && th.free.None? else o == AllocCache(t) && th.alloc.None?
    requires th' == th.(alloc := if o.AllocCache? then Some(|m.ent|) else th.alloc, free := if o.FreeCache? then Some(|m.ent|) else th.free,
                        stack := th.stack[..|th.stack| - 1], pc := if |th.stack| == 1 then Idle else Work(Scan))
    ensures ThreadOk(NewEntry(m, n, o), t, th')
  {
    HandOut(m.place, t, th.stack, n, InEntry(|m.ent|));
    CallFrames(m.place, t, th.stack);
    NewRoles(m.owner, t, th, th', o);
    NewThread(m, NewEntry(m, n, o), t, th, th');
  }

  /** A call puts its node into a new cache, and returns. */
  lemma NewGood(m: Shared, t: nat, th: Thread, n: Node, o: Owner, th': Thread)
    requires Pre(m, t, th) && th.stack != [] && (th.pc.Free? || th.pc == Pool(ReturnTest))
    requires th.stack[|th.stack| - 1] == Pfree(n) || th.stack[|th.stack| - 1] == PReturn(n)
    requires if th.stack[|th.stack| - 1].Pfree? then o == FreeCache(t) && th.free.None? else o == AllocCache(t) && th.alloc.None?
    requires th' == th.(alloc := if o.AllocCache? then Some(|m.ent|) else th.alloc, free := if o.FreeCache? then Some(|m.ent|) else th.free,
                        stack := th.stack[..|th.stack| - 1], pc := if |th.stack| == 1 then Idle else Work(Scan))
    ensures Good(m, t, (NewEntry(m, n, o), th'))
  {
    HandOut(m.place, t, th.stack, n, InEntry(|m.ent|));
    NewCacheMem(m, t, n, o);
    NewCacheThread(m, t, th, n, o, th');
  }

  /** The calls under a returning one keep their caches. */
  lemma CallFrames(place: seq<Place>, t: nat, stack: seq<Call>)
    requires StackOk(place, t, stack) && stack != [] && !stack[|stack| - 1].Recycle?
    ensures forall d :: 0 <= d ==> FrameOf(stack[..|stack| - 1], d) == FrameOf(stack, d)
  {
  }

  lemma NewThread(m: Shared, m': Shared, t: nat, th: Thread, th': Thread)
    requires Pre(m, t, th) && th.stack != [] && (th.stack[|th.stack| - 1].Pfree? || th.stack[|th.stack| - 1].PReturn?)
    requires th.pc.Free? || th.pc == Pool(ReturnTest)
    requires Sizes(m) && Sizes(m') && m' == m.(ent := m'.ent, place := m'.place, owner := m'.owner, pushedAt := m'.pushedAt)
    requires |m'.ent| == |m.ent| + 1 && m'.ent[..|m.ent|] == m.ent
    requires m'.owner[..|m.owner|] == m.owner && m'.pushedAt[..|m.pushedAt|] == m.pushedAt
    requires OwnerThread(m'.owner[|m.owner|]) == Some(t) && !m'.owner[|m.owner|].Framed? && !m'.owner[|m.owner|].Popped?
    requires th' == th.(alloc := th'.alloc, free := th'.free, stack := th.stack[..|th.stack| - 1],
                        pc := if |th.stack| == 1 then Idle else Work(Scan))
    requires th.stack[|th.stack| - 1].Pfree? ==> th'.alloc == th.alloc
    requires StackOk(m'.place, t, th'.stack) && RolesOk(m'.owner, t, th')
    ensures ThreadOk(m', t, th')
  {
    var d := |th.stack| - 1;
    assert CallOk(d, th.stack[d]);
    if d > 0 { assert CallOk(d - 1, th.stack[d - 1]); }
    if th.alloc.Some? { assert Has(m.owner, th.alloc.value, AllocCache(t)); }
    forall e | 0 <= e < |m.ent| ensures m'.ent[e] == m.ent[e] { assert m'.ent[..|m.ent|][e] == m.ent[e]; }
    forall e | 0 <= e < |m.ent| ensures m'.owner[e] == m.owner[e] && m'.pushedAt[e] == m.pushedAt[e] {
      assert m'.owner[..|m.ent|][e] == m.owner[e] && m'.pushedAt[..|m.ent|][e] == m.pushedAt[e];
    }
  }

  // the free pool

  lemma PushPoolMem(m: Shared, e: Id)
    requires MemOk(m) && e < |m.ent| && m.ent[e].items != []
    requires !m.owner[e].Pooled? && !m.owner[e].Queued? && !m.owner[e].Reclaimed?
    ensures MemOk(PushPool(m, e))
  {
    var m' := PushPool(m, e);
    assert !Has(m.owner, e, Pooled) && !Has(m.owner, e, Queued) && !Has(m.owner, e, Reclaimed);
    ItemsKept(m.ent, m'.ent, m.place, m'.place);
    ChainKept(m.ent, m'.ent, m.pool, m.pooled);
    ChainPush(m'.ent, e, m.pooled);
    ChainKept(m.ent, m'.ent, m.process.head, m.queued);
    if m.reclaim.ver >= m.process.ver { ChainKept(m.ent, m'.ent, m.reclaim.head, m.reclaimed); }
    ListsPush(m.owner, e, m.pooled, Pooled);
    ListsKept(m.owner, m'.owner, m.queued, Queued);
    ListsKept(m.owner, m'.owner, m.reclaimed, Reclaimed);
  }

  lemma PushPoolMoves(m: Shared, t: nat, e: Id)
    requires Sizes(m) && e < |m.ent| && OwnerThread(m.owner[e]) == Some(t)
    ensures Moves(m, PushPool(m, e), t)
  {
  }

  /** A thread parts with its allocation cache, or with its free cache. */
  lemma GiveRoles(owner: seq<Owner>, t: nat, th: Thread, th': Thread, e: Id, o: Owner)
    requires RolesOk(owner, t, th) && e < |owner| && OwnerThread(o).None? && th' == th.(alloc := th'.alloc, free := th'.free, pc := th'.pc)
    requires PoppedOf(th') == PoppedOf(th)
    requires if owner[e] == AllocCache(t) then th'.alloc == None && th'.free == th.free
             else owner[e] == FreeCache(t) && th'.free == None && th'.alloc == th.alloc
    ensures RolesOk(owner[e := o], t, th')
  {
    assert Has(owner, e, AllocCache(t)) || Has(owner, e, FreeCache(t));
    forall x: Id, p: Owner | OwnerThread(p) == Some(t)
      ensures Has(owner[e := o], x, p) <==> Has(owner, x, p) && x != e {}
    forall x: Id, d: nat ensures Has(owner[e := o], x, Framed(t, d)) <==> FrameOf(th'.stack, d) == Some(x) {
      assert Has(owner, x, Framed(t, d)) <==> FrameOf(th.stack, d) == Some(x);
    }
  }

  lemma ReturnPushes(m: Shared, t: nat, th: Thread, e: Id)
    requires Pre(m, t, th) && th.pc == Pool(ReturnTest) && th.alloc == Some(e) && e < |m.ent| && m.ent[e].items != []
    ensures Good(m, t, (PushPool(m, e), th.(alloc := None)))
  {
    var m', th' := PushPool(m, e), th.(alloc := None);
    assert Has(m.owner, e, AllocCache(t));
    PushPoolMem(m, e);
    PushPoolMoves(m, t, e);
    GiveRoles(m.owner, t, th, th', e, Pooled);
    assert OldEnough(m', t, th');
    assert PcOk(m', th') && TimesOk(m', th');
  }

  lemma ReturnAdds(m: Shared, t: nat, th: Thread, e: Id)
    requires Pre(m, t, th) && th.pc == Pool(ReturnTest) && th.alloc == Some(e) && e < |m.ent|
    requires |m.ent[e].items| < ENTRIES_PER_CACHE
    ensures Good(m, t, PoolStep(m, t, th, ReturnTest))
  {
    AddGood(m, t, th, e, th.stack[0].n, Idle);
    ReturnAddsIs(m, t, th, e);
  }

  lemma ReturnAddsIs(m: Shared, t: nat, th: Thread, e: Id)
    requires Sizes(m) && |th.stack| == 1 && th.stack[0].PReturn? && th.alloc == Some(e) && e < |m.ent|
    requires |m.ent[e].items| < ENTRIES_PER_CACHE
    ensures PoolStep(m, t, th, ReturnTest) == (AddItem(m, e, th.stack[0].n), th.(stack := th.stack[..0], pc := Idle))
  {
  }

  lemma ReturnStarts(m: Shared, t: nat, th: Thread)
    requires Pre(m, t, th) && th.pc == Pool(ReturnTest) && th.alloc.None?
    ensures Good(m, t, PoolStep(m, t, th, ReturnTest))
  {
    NewGood(m, t, th, th.stack[0].n, AllocCache(t), PoolStep(m, t, th, ReturnTest).1);
  }

  lemma ReturnTestGood(m: Shared, t: nat, th: Thread)
    requires Pre(m, t, th) && th.pc == Pool(ReturnTest)
    ensures Good(m, t, PoolStep(m, t, th, ReturnTest))
  {
    if th.alloc.Some? {
      AllocIsThere(m, t, th);
      var e := th.alloc.value;
      if |m.ent[e].items| < ENTRIES_PER_CACHE { ReturnAdds(m, t, th, e); } else { ReturnPushes(m, t, th, e); }
    } else {
      ReturnStarts(m, t, th);
    }
  }

  lemma AllocIsThere(m: Shared, t: nat, th: Thread)
    requires Pre(m, t, th) && th.alloc.Some?
    ensures th.alloc.value < |m.ent| && |m.ent[th.alloc.value].items| <= ENTRIES_PER_CACHE
  {
    assert Has(m.owner, th.alloc.value, AllocCache(t));
    assert ItemsOk(m.ent[th.alloc.value].items, m.place, th.alloc.value);
  }

  lemma FreeAdds(m: Shared, t: nat, th: Thread, e: Id)
    requires Pre(m, t, th) && th.pc == Free(FreeTest) && th.free == Some(e) && e < |m.ent|
    requires |m.ent[e].items| < ENTRIES_PER_CACHE
    ensures Good(m, t, FreeStep(m, t, th, FreeTest))
  {
    AddGood(m, t, th, e, th.stack[|th.stack| - 1].n, if |th.stack| == 1 then Idle else Work(Scan));
    FreeAddsIs(m, t, th, e);
  }

  lemma FreeAddsIs(m: Shared, t: nat, th: Thread, e: Id)
    requires Sizes(m) && th.stack != [] && th.stack[|th.stack| - 1].Pfree? && th.free == Some(e) && e < |m.ent|
    requires |m.ent[e].items| < ENTRIES_PER_CACHE
    ensures FreeStep(m, t, th, FreeTest)
            == (AddItem(m, e, th.stack[|th.stack| - 1].n),
                th.(stack := th.stack[..|th.stack| - 1], pc := if |th.stack| == 1 then Idle else Work(Scan)))
  {
  }

  lemma FreeStarts(m: Shared, t: nat, th: Thread)
    requires Pre(m, t, th) && th.pc == Free(FreeTest) && th.free.None?
    ensures Good(m, t, FreeStep(m, t, th, FreeTest))
  {
    NewGood(m, t, th, th.stack[|th.stack| - 1].n, FreeCache(t), FreeStep(m, t, th, FreeTest).1);
  }

  lemma FreeIsFull(m: Shared, t: nat, th: Thread)
    requires Pre(m, t, th) && th.pc == Free(FreeTest) && FreeFull(m, th)
    ensures Good(m, t, FreeStep(m, t, th, FreeTest))
  {
    Stays(m, t, th, Free(FreeRead));
  }

  lemma FreeTestGood(m: Shared, t: nat, th: Thread)
    requires Pre(m, t, th) && th.pc == Free(FreeTest)
    ensures Good(m, t, FreeStep(m, t, th, FreeTest))
  {
    if th.free.Some? {
      var e := th.free.value;
      assert Has(m.owner, e, FreeCache(t));
      assert ItemsOk(m.ent[e].items, m.place, e);
      if |m.ent[e].items| < ENTRIES_PER_CACHE { FreeAdds(m, t, th, e); } else { FreeIsFull(m, t, th); }
    } else {
      FreeStarts(m, t, th);
    }
  }

  // palloc takes a cache from the pool

  lemma DropMem(m: Shared, e: Id)
    requires MemOk(m) && e < |m.ent| && m.ent[e].items == [] && OwnerThread(m.owner[e]).Some?
    ensures MemOk(Give(m, e, Gone))
  {
    var owner' := m.owner[e := Gone];
    ListsKept(m.owner, owner', m.pooled, Pooled);
    ListsKept(m.owner, owner', m.queued, Queued);
    ListsKept(m.owner, owner', m.reclaimed, Reclaimed);
  }

  /** The first cache of the pool is taken off. */
  function PoolPopped(m: Shared, e: Id, o: Owner): (r: Shared)
    requires Sizes(m) && e < |m.ent|
    ensures Sizes(r)
  {
    Give(SetNext(m, e, None), e, o).(pool := m.ent[e].next, pooled := Tail(m.pooled))
  }

  lemma PoolPoppedMem(m: Shared, e: Id, o: Owner)
    requires MemOk(m) && m.pool == Some(e) && e < |m.ent| && OwnerThread(o).Some? && !o.Framed?
    ensures MemOk(PoolPopped(m, e, o))
  {
    var m' := PoolPopped(m, e, o);
    assert Has(m.owner, e, Pooled);
    ItemsKept(m.ent, m'.ent, m.place, m'.place);
    ListsPop(m.owner, m.pooled, Pooled, o);
    ChainPop(m.ent, m.pool, m.pooled);
    ChainKept(m.ent, m'.ent, m.ent[e].next, m.pooled[1..]);
    ChainKept(m.ent, m'.ent, m.process.head, m.queued);
    if m.reclaim.ver >= m.process.ver { ChainKept(m.ent, m'.ent, m.reclaim.head, m.reclaimed); }
    ListsKept(m.owner, m'.owner, m.queued, Queued);
    ListsKept(m.owner, m'.owner, m.reclaimed, Reclaimed);
  }

  lemma PopPoolMem(m: Shared, t: nat, th: Thread)
    requires Pre(m, t, th) && th.pc == Pool(PopPool) && m.pool.Some? && m.pool.value < |m.ent|
    ensures MemOk(PoolStep(m, t, th, PopPool).0)
  {
    if th.alloc.Some? {
      assert Has(m.owner, th.alloc.value, AllocCache(t));
      DropMem(m, th.alloc.value);
      PoolPoppedMem(Give(m, th.alloc.value, Gone), m.pool.value, AllocCache(t));
    } else {
      PoolPoppedMem(m, m.pool.value, AllocCache(t));
    }
  }

  lemma PopPoolMoves(m: Shared, t: nat, th: Thread)
    requires MemOk(m) && RolesOk(m.owner, t, th) && m.pool.Some? && m.pool.value < |m.ent|
    ensures Moves(m, PoolStep(m, t, th, PopPool).0, t)
  {
    assert Has(m.owner, m.pool.value, Pooled);
    if th.alloc.Some? { assert Has(m.owner, th.alloc.value, AllocCache(t)); }
    PoolPoppedMoves(m, if th.alloc.Some? then Give(m, th.alloc.value, Gone) else m, t, m.pool.value);
    PopPoolIs(m, t, th);
  }

  lemma PopPoolIs(m: Shared, t: nat, th: Thread)
    requires Sizes(m) && m.pool.Some? && m.pool.value < |m.ent|
    ensures PoolStep(m, t, th, PopPool).0
            == PoolPopped(if th.alloc.Some? then Give(m, th.alloc.value, Gone) else m, m.pool.value, AllocCache(t))
  {
  }

  lemma PoolPoppedMoves(m: Shared, m1: Shared, t: nat, e: Id)
    requires Sizes(m) && m1 == m.(owner := m1.owner) && |m1.owner| == |m.owner| && e < |m.ent| && m.owner[e] == Pooled
    requires forall x :: 0 <= x < |m.owner| && m1.owner[x] != m.owner[x] ==> m.owner[x] == AllocCache(t) && m1.owner[x] == Gone
    ensures Moves(m, PoolPopped(m1, e, AllocCache(t)), t)
  {
  }

  lemma PopPoolThread(m: Shared, t: nat, th: Thread)
    requires Pre(m, t, th) && th.pc == Pool(PopPool) && m.pool.Some? && m.pool.value < |m.ent|
    ensures ThreadOk(PoolStep(m, t, th, PopPool).0, t, PoolStep(m, t, th, PopPool).1)
  {
    var (m', th') := PoolStep(m, t, th, PopPool);
    assert Has(m.owner, m.pool.value, Pooled);
    if th.alloc.Some? { assert Has(m.owner, th.alloc.value, AllocCache(t)); }
    PopRoles(m.owner, m'.owner, t, th, th', m.pool.value);
    PopOld(m, t, th, m', th');
  }

  lemma PopOld(m: Shared, t: nat, th: Thread, m': Shared, th': Thread)
    requires OldEnough(m, t, th) && th'.bump == th.bump && m'.pushedAt == m.pushedAt && |m'.owner| == |m.owner|
    requires forall e :: 0 <= e < |m.owner| && m'.owner[e] != m.owner[e] ==> !m'.owner[e].Popped? && !m'.owner[e].Framed?
    ensures OldEnough(m', t, th')
  {
  }

  lemma PopRoles(owner: seq<Owner>, owner': seq<Owner>, t: nat, th: Thread, th': Thread, e: Id)
    requires RolesOk(owner, t, th) && e < |owner| && owner[e] == Pooled
    requires th.alloc.Some? ==> th.alloc.value < |owner|
    requires owner' == (if th.alloc.Some? then owner[th.alloc.value := Gone][e := AllocCache(t)] else owner[e := AllocCache(t)])
    requires th' == th.(alloc := Some(e), pc := th'.pc) && PoppedOf(th') == PoppedOf(th)
    ensures RolesOk(owner', t, th')
  {
    forall x: Id, p: Owner | OwnerThread(p) == Some(t) && !p.AllocCache? ensures Has(owner', x, p) <==> Has(owner, x, p) {
      if th.alloc.Some? { assert Has(owner, th.alloc.value, AllocCache(t)); }
    }
    forall x: Id ensures Has(owner', x, AllocCache(t)) <==> x == e {
      assert Has(owner, x, AllocCache(t)) <==> th.alloc == Some(x);
    }
    forall x: Id, d: nat ensures Has(owner', x, Framed(t, d)) <==> FrameOf(th'.stack, d) == Some(x) {
      assert Has(owner, x, Framed(t, d)) <==> FrameOf(th.stack, d) == Some(x);
    }
  }

  lemma PopPoolGood(m: Shared, t: nat, th: Thread)
    requires Pre(m, t, th) && th.pc == Pool(PopPool)
    ensures Good(m, t, PoolStep(m, t, th, PopPool))
  {
    if m.pool.Some? && m.pool.value < |m.ent| {
      PopPoolMem(m, t, th);
      PopPoolMoves(m, t, th);
      PopPoolThread(m, t, th);
    } else {
      Stays(m, t, th, Reclaim(FreezeRead));
    }
  }
}
