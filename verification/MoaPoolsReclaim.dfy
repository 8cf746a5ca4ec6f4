/** pfree, Reclamation and Recycle keep the invariant of the pools. */
module MoaPoolsReclaim {
  import opened Common
  import opened Runs
  import opened MoaPools
  import opened MoaPoolsInvariant
  import opened MoaPoolsSteps

  // ---------------------------------------------------------------- pfree pushes its cache on reclaim

  lemma LinkMem(m: Shared, e: Id, next: Option<Id>)
    requires MemOk(m) && e < |m.ent| && OwnerThread(m.owner[e]).Some?
    ensures MemOk(SetNext(m, e, next))
  {
    var m' := SetNext(m, e, next);
    assert !Has(m.owner, e, Pooled) && !Has(m.owner, e, Queued) && !Has(m.owner, e, Reclaimed);
    ItemsKept(m.ent, m'.ent, m.place, m'.place);
    ChainKept(m.ent, m'.ent, m.pool, m.pooled);
    ChainKept(m.ent, m'.ent, m.process.head, m.queued);
    if m.reclaim.ver >= m.process.ver { ChainKept(m.ent, m'.ent, m.reclaim.head, m.reclaimed); }
  }

  lemma LinkMoves(m: Shared, t: nat, e: Id, next: Option<Id>)
    requires Sizes(m) && e < |m.ent| && OwnerThread(m.owner[e]) == Some(t)
    ensures Moves(m, SetNext(m, e, next), t)
  {
  }

  lemma FreeReadGood(m: Shared, t: nat, th: Thread)
    requires Pre(m, t, th) && th.pc == Free(FreeRead)
    ensures Good(m, t, FreeStep(m, t, th, FreeRead))
  {
    if m.reclaim.ver != th.localVer {
      Stays(m, t, th, Reclaim(FreezeRead));
    } else {
      FreeLinks(m, t, th);
    }
  }

  lemma FreeLinks(m: Shared, t: nat, th: Thread)
    requires Pre(m, t, th) && th.pc == Free(FreeRead) && m.reclaim.ver == th.localVer
    ensures Good(m, t, FreeStep(m, t, th, FreeRead))
  {
    var (m', th') := FreeStep(m, t, th, FreeRead);
    assert Has(m.owner, th.free.value, FreeCache(t));
    LinkMem(m, th.free.value, m.reclaim.head);
    LinkMoves(m, t, th.free.value, m.reclaim.head);
    ThreadGoesOn(m, m', t, th, th');
  }

  lemma FreePushMem(m: Shared, t: nat, th: Thread)
    requires Pre(m, t, th) && th.pc.Free? && th.pc.f.FreeCas? && m.reclaim == th.pc.f.old0
    ensures MemOk(FreeStep(m, t, th, th.pc.f).0)
  {
    assert Has(m.owner, th.free.value, FreeCache(t));
    ReclaimPush(m, th.free.value);
  }

  lemma ReclaimPush(m: Shared, e: Id)
    requires MemOk(m) && m.reclaim.ver == m.process.ver && e < |m.ent| && OwnerThread(m.owner[e]).Some?
    requires m.ent[e].next == m.reclaim.head
    ensures MemOk(Give(m, e, Reclaimed).(reclaim := VerEntry(Some(e), m.reclaim.ver), reclaimed := [e] + m.reclaimed,
                                         pushedAt := m.pushedAt[e := m.clock]))
  {
    var owner' := m.owner[e := Reclaimed];
    ChainPush(m.ent, e, m.reclaimed);
    ListsPush(m.owner, e, m.reclaimed, Reclaimed);
    ListsKept(m.owner, owner', m.pooled, Pooled);
    ListsKept(m.owner, owner', m.queued, Queued);
  }

  lemma FreePushMoves(m: Shared, t: nat, th: Thread)
    requires Pre(m, t, th) && th.pc.Free? && th.pc.f.FreeCas? && m.reclaim == th.pc.f.old0
    ensures Moves(m, FreeStep(m, t, th, th.pc.f).0, t)
  {
    assert Has(m.owner, th.free.value, FreeCache(t));
  }

  lemma FreePushThread(m: Shared, t: nat, th: Thread)
    requires Pre(m, t, th) && th.pc.Free? && th.pc.f.FreeCas? && m.reclaim == th.pc.f.old0
    ensures ThreadOk(FreeStep(m, t, th, th.pc.f).0, t, FreeStep(m, t, th, th.pc.f).1)
  {
    var e := th.free.value;
    var (m', th') := FreeStep(m, t, th, th.pc.f);
    assert Has(m.owner, e, FreeCache(t));
    GiveRoles(m.owner, t, th, th', e, Reclaimed);
    assert OldEnough(m', t, th');
  }

  lemma FreeCasGood(m: Shared, t: nat, th: Thread)
    requires Pre(m, t, th) && th.pc.Free? && th.pc.f.FreeCas?
    ensures Good(m, t, FreeStep(m, t, th, th.pc.f))
  {
    if m.reclaim == th.pc.f.old0 {
      FreePushMem(m, t, th);
      FreePushMoves(m, t, th);
      FreePushThread(m, t, th);
    } else {
      Stays(m, t, th, Free(FreeRead));
    }
  }

  // ---------------------------------------------------------------- Reclamation

  lemma FreezeGood(m: Shared, t: nat, th: Thread)
    requires Pre(m, t, th) && th.pc.Reclaim? && th.pc.r.FreezeCas? && m.reclaim == th.pc.r.old1
    ensures Good(m, t, ReclaimStep(m, th, th.pc.r))
  {
    var (m', th') := ReclaimStep(m, th, th.pc.r);
    assert MemOk(m');
    assert Moves(m, m', t);
    assert TimesOk(m', th') && PcOk(m', th');
  }

  lemma ReadGood(m: Shared, t: nat, th: Thread)
    requires Pre(m, t, th) && th.pc.Reclaim? && (th.pc.r.FreezeRead? || th.pc.r.ProcRead? || th.pc.r.ThawRead?)
    ensures Good(m, t, ReclaimStep(m, th, th.pc.r))
  {
    Stays(m, t, th, ReclaimStep(m, th, th.pc.r).1.pc);
  }

  lemma RetryGood(m: Shared, t: nat, th: Thread)
    requires Pre(m, t, th) && th.pc.Reclaim?
    requires (th.pc.r.FreezeCas? && m.reclaim != th.pc.r.old1) || (th.pc.r.ProcCas? && m.process != th.pc.r.old2)
             || (th.pc.r.ThawCas? && m.reclaim != th.pc.r.old3)
    ensures Good(m, t, ReclaimStep(m, th, th.pc.r))
  {
    Stays(m, t, th, ReclaimStep(m, th, th.pc.r).1.pc);
  }

  lemma RequeuedLists(owner: seq<Owner>, reclaimed: seq<Id>)
    requires Lists(owner, reclaimed, Reclaimed) && Lists(owner, [], Queued)
    ensures Lists(Requeued(owner), reclaimed, Queued) && Lists(Requeued(owner), [], Reclaimed)
    ensures forall e: Id, o: Owner :: !o.Reclaimed? && !o.Queued? ==> (Has(Requeued(owner), e, o) <==> Has(owner, e, o))
  {
    forall e | 0 <= e < |owner| ensures owner[e] != Queued { assert !Has(owner, e, Queued); }
    forall e: Id ensures e in reclaimed <==> Has(Requeued(owner), e, Queued) {
      assert e in reclaimed <==> Has(owner, e, Reclaimed);
    }
  }

  lemma ProcMem(m: Shared, t: nat, th: Thread)
    requires Pre(m, t, th) && Ticked(m) && th.pc.Reclaim? && th.pc.r.ProcCas? && m.process == th.pc.r.old2
    ensures MemOk(ReclaimStep(m, th, th.pc.r).0) && m.queued == []
  {
    var m' := ReclaimStep(m, th, th.pc.r).0;
    RequeuedLists(m.owner, m.reclaimed);
    ListsKept(m.owner, m'.owner, m.pooled, Pooled);
    forall e | 0 <= e < |m.owner| ensures m.owner[e] != Queued { assert !Has(m.owner, e, Queued); }
  }

  lemma ProcMoves(m: Shared, t: nat, th: Thread)
    requires Pre(m, t, th) && th.pc.Reclaim? && th.pc.r.ProcCas? && m.process == th.pc.r.old2
    ensures Moves(m, ReclaimStep(m, th, th.pc.r).0, t)
  {
    forall e | 0 <= e < |m.owner| ensures m.owner[e] != Queued { assert !Has(m.owner, e, Queued); }
  }

  lemma ProcThread(m: Shared, t: nat, th: Thread)
    requires Pre(m, t, th) && th.pc.Reclaim? && th.pc.r.ProcCas? && m.process == th.pc.r.old2
    ensures ThreadOk(ReclaimStep(m, th, th.pc.r).0, t, ReclaimStep(m, th, th.pc.r).1)
  {
    var (m', th') := ReclaimStep(m, th, th.pc.r);
    RequeuedLists(m.owner, m.reclaimed);
    RolesKept(m.owner, m'.owner, t, th, th');
    assert OldEnough(m', t, th');
    assert TimesOk(m', th') && PcOk(m', th');
  }

  lemma ThawGood(m: Shared, t: nat, th: Thread)
    requires Pre(m, t, th) && th.pc.Reclaim? && th.pc.r.ThawCas? && m.reclaim == th.pc.r.old3
    ensures Good(m, t, ReclaimStep(m, th, th.pc.r))
  {
    var (m', th') := ReclaimStep(m, th, th.pc.r);
    assert MemOk(m');
    assert Moves(m, m', t);
    assert TimesOk(m', th') && PcOk(m', th');
  }

  lemma BumpGood(m: Shared, t: nat, th: Thread)
    requires Pre(m, t, th) && th.pc.Reclaim? && th.pc.r.Bump?
    ensures Good(m, t, ReclaimStep(m, th, th.pc.r))
  {
    var th' := ReclaimStep(m, th, th.pc.r).1;
    RolesKept(m.owner, m.owner, t, th, th');
    assert OldEnough(m, t, th');
    assert TimesOk(m, th') && PcOk(m, th');
  }

  lemma ReclaimGood(m: Shared, t: nat, th: Thread)
    requires Pre(m, t, th) && Ticked(m) && th.pc.Reclaim?
    ensures Good(m, t, ReclaimStep(m, th, th.pc.r))
  {
    match th.pc.r
    case FreezeCas(o) => if m.reclaim == o { FreezeGood(m, t, th); } else { RetryGood(m, t, th); }
    case ProcCas(_, o) =>
      if m.process == o {
        ProcMem(m, t, th);
        ProcMoves(m, t, th);
        ProcThread(m, t, th);
      } else {
        RetryGood(m, t, th);
      }
    case ThawCas(o) => if m.reclaim == o { ThawGood(m, t, th); } else { RetryGood(m, t, th); }
    case Bump => BumpGood(m, t, th);
    case _ => ReadGood(m, t, th);
  }
}
