/** Nothing is lost in the versioned pool: every page of a version is swept through by the thread that claimed it, every
    object it finds free is recorded, and while the version lasts what is recorded is in the pool, with a thread, or
    handed out. */
module AoaPoolConservation {
  import opened Common
  import opened Division
  import opened Runs
  import opened AoaPool
  import opened AoaPoolTheorems
  import Inv = AoaPoolInvariant

  // ---------------------------------------------------------------- what is recorded is kept

  /** An object freed at k.0 that is said to be in entry e: while the pool has that version, it is there, and the entry is
      in the pool or belongs to a thread. */
  ghost predicate KeptAt(m: Shared, k: (nat, Slot), e: Entry) {
    && Sizes(m) && e < |m.items| && k.0 <= m.ver
    && (k.0 == m.ver ==> k.1 in m.items[e] && m.owner[e] != Lost && (m.owner[e] == Pushed ==> e in m.list))
  }

  ghost predicate Kept(m: Shared) {
    forall k :: k in m.place && m.place[k].In? ==> KeptAt(m, k, m.place[k].e)
  }

  /** A thread still has the entries it owns, and filled them at its own version or before. */
  ghost predicate KnowsOwn(m: Shared, t: nat, th: Thread) {
    forall k: (nat, Slot) :: k in m.place && m.place[k].In? && m.place[k].e < |m.owner| ==>
      var e := m.place[k].e;
      && (m.owner[e] == Cached(t) ==> th.cache == Some(e) && k.0 <= th.localVer)
      && (m.owner[e] == Listed(t) ==> e in th.free && if Inv.Collecting(th.pc) then k.0 < th.localVer else k.0 <= th.localVer)
  }

  ghost predicate OwnersExist(m: Shared, n: nat) {
    forall e :: 0 <= e < |m.owner| && (m.owner[e].Cached? || m.owner[e].Listed?) ==> m.owner[e].tid < n
  }

  ghost predicate Conserved(s: State) {
    && Inv.Inv(s) && Kept(s.mem) && OwnersExist(s.mem, |s.thr|)
    && forall t :: 0 <= t < |s.thr| ==> KnowsOwn(s.mem, t, s.thr[t])
  }

  /** A step of thread t gives nothing to other threads, and puts objects into its own cache only. */
  ghost predicate GivesNothing(m: Shared, m': Shared, t: nat) {
    && (forall e :: 0 <= e < |m'.owner| && (m'.owner[e].Cached? || m'.owner[e].Listed?) && m'.owner[e].tid != t ==>
          e < |m.owner| && m.owner[e] == m'.owner[e])
    && (forall k :: k in m'.place && m'.place[k].In? && (k !in m.place || m.place[k] != m'.place[k]) ==>
          m'.place[k].e < |m'.owner| && m'.owner[m'.place[k].e] == Cached(t))
  }

  ghost predicate Ready(m: Shared, t: nat, th: Thread) {
    Inv.Ready(m, t, th) && Kept(m) && KnowsOwn(m, t, th)
  }

  ghost predicate Keeps(m: Shared, t: nat, r: (Shared, Thread)) {
    Kept(r.0) && KnowsOwn(r.0, t, r.1) && GivesNothing(m, r.0, t)
  }

  lemma FreeCacheKeeps(m: Shared, t: nat, th: Thread, pc: PC)
    requires Ready(m, t, th) && th.cache.Some? && !Inv.Collecting(th.pc) && !Inv.Collecting(pc)
    ensures Keeps(m, t, FreeCache(m, t, th, pc))
  {}

  lemma PallocKeeps(m: Shared, t: nat, th: Thread, flag: bool)
    requires Ready(m, t, th) && (th.pc.Running? || th.pc.Palloc? || th.pc.Trigger?)
    ensures Keeps(m, t, ThreadStep(m, t, th, flag))
  {
    if !th.pc.Running? && th.cache.Some? && !(th.pc.Palloc? && m.items[th.cache.value] != []) {
      FreeCacheKeeps(m, t, th, ThreadStep(m, t, th, flag).1.pc);
    }
  }

  lemma PopKeeps(m: Shared, t: nat, th: Thread, flag: bool)
    requires Ready(m, t, th) && (th.pc.PopRead? || th.pc.PopNext? || th.pc.PopCas? || th.pc.Unlink?)
    ensures Keeps(m, t, ThreadStep(m, t, th, flag))
  {}

  lemma HeadKeeps(m: Shared, t: nat, th: Thread, flag: bool)
    requires Ready(m, t, th)
    requires th.pc.HeadRead? || th.pc.HeadCas? || th.pc.Bump? || th.pc.PhaseTest? || th.pc.ResetRead? || th.pc.ResetCas?
    ensures Keeps(m, t, ThreadStep(m, t, th, flag))
  {}

  lemma ClaimKeeps(m: Shared, t: nat, th: Thread, flag: bool)
    requires Ready(m, t, th) && (th.pc.Claim? || th.pc.ClaimCas?)
    ensures Keeps(m, t, ThreadStep(m, t, th, flag))
  {}

  lemma AddItemKeeps(m: Shared, t: nat, th: Thread, at: Cursor)
    requires Ready(m, t, th) && th.cache.Some? && Inv.Collecting(th.pc) && Inv.PendingOk(m, th.localVer, at)
    requires at.slot < (at.page + 1) * SLOTS_PER_PAGE
    ensures Keeps(m, t, (AddItem(m, th.cache.value, th.localVer, at.slot), th.(pc := Sweep(at.(slot := at.slot + 1)))))
  {}

  lemma SweepKeeps(m: Shared, t: nat, th: Thread, flag: bool)
    requires Ready(m, t, th) && (th.pc.Sweep? || th.pc.FirstItem?)
    ensures Keeps(m, t, ThreadStep(m, t, th, flag))
  {
    var at := th.pc.at;
    if th.cache.Some? && at.slot < (at.page + 1) * SLOTS_PER_PAGE { AddItemKeeps(m, t, th, at); }
  }

  lemma GetEntryKeeps(m: Shared, t: nat, th: Thread, flag: bool)
    requires Ready(m, t, th) && th.pc.GetEntry?
    ensures Keeps(m, t, ThreadStep(m, t, th, flag))
  {}

  lemma PushKeeps(m: Shared, t: nat, th: Thread, flag: bool)
    requires Ready(m, t, th) && (th.pc.PushRead? || th.pc.PushLink?)
    ensures Keeps(m, t, ThreadStep(m, t, th, flag))
  {}

  lemma PushCasKeeps(m: Shared, t: nat, th: Thread, flag: bool)
    requires Ready(m, t, th) && th.pc.PushCas?
    ensures Keeps(m, t, ThreadStep(m, t, th, flag))
  {}

  lemma ThreadKeeps(m: Shared, t: nat, th: Thread, flag: bool)
    requires Ready(m, t, th)
    ensures Keeps(m, t, ThreadStep(m, t, th, flag))
  {
    match th.pc
    case Running | Palloc | Trigger => PallocKeeps(m, t, th, flag);
    case PopRead | PopNext(_) | PopCas(_, _) | Unlink => PopKeeps(m, t, th, flag);
    case HeadRead | HeadCas(_) | Bump | PhaseTest | ResetRead | ResetCas(_) => HeadKeeps(m, t, th, flag);
    case Claim | ClaimCas(_) => ClaimKeeps(m, t, th, flag);
    case Sweep(_) | FirstItem(_) => SweepKeeps(m, t, th, flag);
    case GetEntry(_) => GetEntryKeeps(m, t, th, flag);
    case PushRead(_) | PushLink(_, _) => PushKeeps(m, t, th, flag);
    case PushCas(_, _) => PushCasKeeps(m, t, th, flag);
  }

  lemma StepKeeps(s: State, a: Action)
    requires Conserved(s)
    ensures Conserved(Step(s, a))
  {
    Inv.StepKeeps(s, a);
    if a.tid < |s.thr| {
      assert Inv.Fits(s.mem, a.tid, s.thr[a.tid]);
      ThreadKeeps(s.mem, a.tid, s.thr[a.tid], a.flag);
    }
  }

  lemma InitialKept(chunks: nat)
    ensures Kept(InitialPool(chunks))
  {
    var m := InitialPool(chunks);
    forall k | k in m.place ensures KeptAt(m, k, m.place[k].e) { CarvedIsKept(chunks, k.1); }
  }

  lemma InitConserved(n: nat, chunks: nat)
    ensures Conserved(Init(n, chunks))
  {
    Inv.InitInv(n, chunks);
    InitialKept(chunks);
  }

  /** A carved slot is in its cache. */
  lemma CarvedIsThere(x: Slot)
    requires IsCarved(x)
    ensures x in SlabCache(CacheOf(x)) && CacheOf(x) / CACHES_PER_CHUNK == x / SLOTS_PER_CHUNK
  {
    var c, y := x / SLOTS_PER_CHUNK, x % SLOTS_PER_CHUNK - HEADER_SLOTS;
    assert CacheOf(x) / CACHES_PER_CHUNK == c && CacheOf(x) % CACHES_PER_CHUNK == y / ENTRIES_PER_CACHE;
    assert SlabCache(CacheOf(x))[y % ENTRIES_PER_CACHE] == x;
  }

  lemma CarvedIsKept(chunks: nat, x: Slot)
    requires IsCarved(x) && x < chunks * SLOTS_PER_CHUNK
    ensures KeptAt(InitialPool(chunks), (0, x), CacheOf(x))
  {
    var list := InitialPool(chunks).list;
    CarvedIsThere(x);
    assert list[|list| - 1 - CacheOf(x)] == CacheOf(x);
  }

  lemma ReachableConserved(n: nat, chunks: nat, sched: seq<Action>)
    ensures Conserved(After(Step, Init(n, chunks), sched))
  {
    InitConserved(n, chunks);
    forall s, a | Conserved(s) ensures Conserved(Step(s, a)) { StepKeeps(s, a); }
    InvariantHolds(Step, Conserved, Init(n, chunks), sched);
  }

  /** In the pool, in the cache a thread allocates from or fills, or in one that a thread has set aside. */
  ghost predicate Available(s: State, e: Entry, x: Slot) {
    && e < |s.mem.items| && x in s.mem.items[e]
    && (e in s.mem.list
        || exists t :: 0 <= t < |s.thr| && (s.thr[t].cache == Some(e) || e in s.thr[t].free))
  }

  /** While the pool has the version at which an object was freed, it is available or handed out. */
  lemma NothingLost(n: nat, chunks: nat, sched: seq<Action>, x: Slot)
    requires var s := After(Step, Init(n, chunks), sched); (s.mem.ver, x) in s.mem.place
    ensures var s := After(Step, Init(n, chunks), sched);
      s.mem.place[(s.mem.ver, x)] == HandedOut || exists e :: Available(s, e, x)
  {
    var s := After(Step, Init(n, chunks), sched);
    ReachableConserved(n, chunks, sched);
    var k := (s.mem.ver, x);
    if s.mem.place[k].In? {
      var e := s.mem.place[k].e;
      assert KeptAt(s.mem, k, e);
      if s.mem.owner[e] != Pushed {
        var t := s.mem.owner[e].tid;
        assert KnowsOwn(s.mem, t, s.thr[t]);
      }
      assert Available(s, e, x);
    }
  }

  /** Palloc takes from e, or could by popping it, at the pool's version. */
  ghost predicate Usable(s: State, e: Entry) {
    e in s.mem.list || exists t :: 0 <= t < |s.thr| && s.thr[t].cache == Some(e) && s.thr[t].localVer == s.mem.ver
  }

  /** What palloc can still hand out at the pool's version, it has not handed out, and has in one place only. */
  lemma OnePlace(n: nat, chunks: nat, sched: seq<Action>, e: Entry, i: nat, f: Entry, j: nat)
    requires var s := After(Step, Init(n, chunks), sched);
      && Usable(s, e) && Usable(s, f) && e < |s.mem.items| && f < |s.mem.items|
      && i < |s.mem.items[e]| && j < |s.mem.items[f]| && s.mem.items[e][i] == s.mem.items[f][j]
    ensures e == f && i == j
    ensures !IsOut(After(Step, Init(n, chunks), sched).mem,
                   (After(Step, Init(n, chunks), sched).mem.ver, After(Step, Init(n, chunks), sched).mem.items[e][i]))
  {
    var s := After(Step, Init(n, chunks), sched);
    Inv.ReachableInv(n, chunks, sched);
    UsableHolds(s, e);
    UsableHolds(s, f);
  }

  lemma UsableHolds(s: State, e: Entry)
    requires Inv.Inv(s) && Usable(s, e)
    ensures Inv.Holds(s.mem, e, s.mem.ver)
  {
    if e !in s.mem.list {
      var t :| 0 <= t < |s.thr| && s.thr[t].cache == Some(e) && s.thr[t].localVer == s.mem.ver;
      assert Inv.Fits(s.mem, t, s.thr[t]);
    }
  }

  // ---------------------------------------------------------------- history and run agree

  function HandsOutObject(k: (nat, Slot)): (State, Action) -> bool {
    (s: State, a: Action) => HandsOut(s, a) == Some(k)
  }

  lemma OnlyPallocHandsOut(s: State, a: Action, k: (nat, Slot))
    requires Inv.Inv(s) && IsOut(Step(s, a).mem, k)
    ensures IsOut(s.mem, k) || HandsOut(s, a) == Some(k)
  {}

  /** What the history has as handed out is what some step of the run has handed out. */
  lemma OutWasHandedOut(n: nat, chunks: nat, sched: seq<Action>, k: (nat, Slot))
    ensures IsOut(After(Step, Init(n, chunks), sched).mem, k) <==> Happens(Step, HandsOutObject(k), Init(n, chunks), sched, 0)
  {
    Inv.InitInv(n, chunks);
    forall s, a | Inv.Inv(s) ensures Inv.Inv(Step(s, a)) { Inv.StepKeeps(s, a); }
    forall s: State, a | Inv.Inv(s) && IsOut(Step(s, a).mem, k) ensures IsOut(s.mem, k) || HandsOutObject(k)(s, a) {
      OnlyPallocHandsOut(s, a, k);
    }
    HasCause(Step, Inv.Inv, (s: State) => IsOut(s.mem, k), HandsOutObject(k), Init(n, chunks), sched);
    if Happens(Step, HandsOutObject(k), Init(n, chunks), sched, 0) {
      var i :| 0 <= i < |sched| && HandsOutObject(k)(After(Step, Init(n, chunks), sched[..i]), sched[i]);
      Inv.ReachableInv(n, chunks, sched[..i]);
      HandedOutForGood(After(Step, Init(n, chunks), sched[..i]), sched[i]);
      AfterSnoc(Step, Init(n, chunks), sched, i);
      OutStaysOut(n, chunks, sched, i + 1, |sched|, k);
      assert sched[..|sched|] == sched;
    }
  }

  function ClaimsPage(v: nat, g: nat): (State, Action) -> bool {
    (s: State, a: Action) => Claims(s, a) == Some((v, g))
  }

  predicate IsCounted(s: State, v: nat, g: nat) {
    s.mem.sc.phase == v && g < s.mem.sc.counter
  }

  lemma CountedByClaim(s: State, a: Action, v: nat, g: nat)
    requires Inv.Inv(s) && IsCounted(Step(s, a), v, g)
    ensures IsCounted(s, v, g) || Claims(s, a) == Some((v, g))
  {
    if a.tid < |s.thr| { assert Inv.Fits(s.mem, a.tid, s.thr[a.tid]); }
  }

  /** Pages are numbered from 0: every page below the counter has been claimed for the counter's version. */
  lemma CountedIsClaimed(n: nat, chunks: nat, sched: seq<Action>, v: nat, g: nat)
    requires IsCounted(After(Step, Init(n, chunks), sched), v, g)
    ensures Happens(Step, ClaimsPage(v, g), Init(n, chunks), sched, 0)
  {
    Inv.InitInv(n, chunks);
    forall s, a | Inv.Inv(s) ensures Inv.Inv(Step(s, a)) { Inv.StepKeeps(s, a); }
    forall s: State, a | Inv.Inv(s) && IsCounted(Step(s, a), v, g) ensures IsCounted(s, v, g) || ClaimsPage(v, g)(s, a) {
      CountedByClaim(s, a, v, g);
    }
    HasCause(Step, Inv.Inv, (s: State) => IsCounted(s, v, g), ClaimsPage(v, g), Init(n, chunks), sched);
  }

  // ---------------------------------------------------------------- a claimed page is swept through

  /** The object whose mark bit this step tests, with the sweeper's version. */
  function Tests(s: State, a: Action): Option<(nat, Slot)> {
    if a.tid < |s.thr| && KnowsEntries(s.mem, s.thr[a.tid]) && s.thr[a.tid].pc.Sweep?
       && s.thr[a.tid].pc.at.slot < (s.thr[a.tid].pc.at.page + 1) * SLOTS_PER_PAGE then
      Some((s.thr[a.tid].localVer, s.thr[a.tid].pc.at.slot))
    else None
  }

  /** Thread t sweeps page g for version v and has object x still before it. */
  ghost predicate Ahead(s: State, t: nat, v: nat, g: nat, x: Slot) {
    && t < |s.thr| && s.thr[t].localVer == v && Inv.Pending(s.thr[t].pc).Some?
    && var at := Inv.Pending(s.thr[t].pc).value;
       at.page == g && (at.slot < x || (at.slot == x && s.thr[t].pc.Sweep?))
  }

  lemma AheadStep(s: State, a: Action, t: nat, v: nat, g: nat, x: Slot)
    requires Ahead(s, t, v, g, x) && x < (g + 1) * SLOTS_PER_PAGE
    ensures Ahead(Step(s, a), t, v, g, x) || TestsObject(t, (v, x))(s, a)
  {}

  lemma ClaimIsAhead(s: State, a: Action, g: nat, v: nat, x: Slot)
    requires Claims(s, a) == Some((v, g)) && FirstSlot(g) <= x
    ensures Ahead(Step(s, a), a.tid, v, g, x)
  {}

  function TestsObject(t: nat, k: (nat, Slot)): (State, Action) -> bool {
    (s: State, a: Action) => a.tid == t && Tests(s, a) == Some(k)
  }

  /** The thread that claims a page tests every object of it, but those of the chunk's header, or is still on the way. */
  lemma {:induction false} PageIsSweptThrough(n: nat, chunks: nat, sched: seq<Action>, i: nat, v: nat, g: nat, x: Slot)
    requires i < |sched| && Claims(After(Step, Init(n, chunks), sched[..i]), sched[i]) == Some((v, g))
    requires FirstSlot(g) <= x < (g + 1) * SLOTS_PER_PAGE
    ensures Ahead(After(Step, Init(n, chunks), sched), sched[i].tid, v, g, x)
         || Happens(Step, TestsObject(sched[i].tid, (v, x)), Init(n, chunks), sched, i)
  {
    var before, a := sched[..|sched| - 1], sched[|sched| - 1];
    var t, s := sched[i].tid, After(Step, Init(n, chunks), before);
    HappensSnoc(Step, TestsObject(t, (v, x)), Init(n, chunks), sched, i);
    if i == |before| {
      ClaimIsAhead(s, a, g, v, x);
    } else {
      assert before[..i] == sched[..i];
      PageIsSweptThrough(n, chunks, before, i, v, g, x);
      if Ahead(s, t, v, g, x) { AheadStep(s, a, t, v, g, x); }
    }
  }

  /** The object found free is in a cache, or its sweeper is still making room for it. */
  ghost predicate Recorded(s: State, t: nat, k: (nat, Slot)) {
    k in s.mem.place || (t < |s.thr| && MakesRoom(s.thr[t], k))
  }

  /** In setAsFree for this object, at this version, with no cache for it yet. */
  predicate MakesRoom(th: Thread, k: (nat, Slot)) {
    th.localVer == k.0 && !th.pc.Sweep? && Inv.Pending(th.pc).Some? && Inv.Pending(th.pc).value.slot == k.1
  }

  lemma OwnRecorded(m: Shared, t: nat, th: Thread, flag: bool)
    requires Inv.Ready(m, t, th) && !th.pc.Sweep? && Inv.Pending(th.pc).Some?
    ensures var (m', th') := ThreadStep(m, t, th, flag);
      var x := Inv.Pending(th.pc).value.slot;
      || (th.localVer, x) in m'.place
      || (th'.localVer == th.localVer && !th'.pc.Sweep? && Inv.Pending(th'.pc).Some? && Inv.Pending(th'.pc).value.slot == x)
  {}

  lemma RecordedStep(s: State, a: Action, t: nat, k: (nat, Slot))
    requires Inv.Inv(s) && Recorded(s, t, k)
    ensures Recorded(Step(s, a), t, k)
  {
    if a.tid < |s.thr| {
      if k in s.mem.place {
        Inv.ThreadKeeps(s.mem, a.tid, s.thr[a.tid], a.flag);
      } else if a.tid == t {
        OwnRecorded(s.mem, t, s.thr[t], a.flag);
      }
    }
  }

  lemma FreeStep(s: State, a: Action, k: (nat, Slot))
    requires Inv.Inv(s) && Tests(s, a) == Some(k) && a.flag
    ensures Recorded(Step(s, a), a.tid, k)
  {}

  /** Every object that a sweeper finds free is recorded at its version for good. */
  lemma FreeIsRecorded(n: nat, chunks: nat, sched: seq<Action>, i: nat, k: (nat, Slot))
    requires i < |sched| && Tests(After(Step, Init(n, chunks), sched[..i]), sched[i]) == Some(k) && sched[i].flag
    ensures Recorded(After(Step, Init(n, chunks), sched), sched[i].tid, k)
  {
    var t := sched[i].tid;
    Inv.ReachableInv(n, chunks, sched[..i]);
    Inv.InitInv(n, chunks);
    AfterSnoc(Step, Init(n, chunks), sched, i);
    FreeStep(After(Step, Init(n, chunks), sched[..i]), sched[i], k);
    forall s, a | Inv.Inv(s) ensures Inv.Inv(Step(s, a)) { Inv.StepKeeps(s, a); }
    forall s, a | Inv.Inv(s) && Recorded(s, t, k) ensures Recorded(Step(s, a), t, k) { RecordedStep(s, a, t, k); }
    HoldsSince(Step, Inv.Inv, s => Recorded(s, t, k), s => true, Init(n, chunks), sched, i + 1);
  }

  /** An object found free at the version the pool still has is handed out, available, or about to be put in a cache. */
  lemma FreeIsAvailable(n: nat, chunks: nat, sched: seq<Action>, i: nat, x: Slot)
    requires i < |sched| && sched[i].flag
    requires Tests(After(Step, Init(n, chunks), sched[..i]), sched[i]) == Some((After(Step, Init(n, chunks), sched).mem.ver, x))
    ensures var s := After(Step, Init(n, chunks), sched);
      || IsOut(s.mem, (s.mem.ver, x))
      || (exists e :: Available(s, e, x))
      || (sched[i].tid < |s.thr| && MakesRoom(s.thr[sched[i].tid], (s.mem.ver, x)))
  {
    var s := After(Step, Init(n, chunks), sched);
    FreeIsRecorded(n, chunks, sched, i, (s.mem.ver, x));
    if (s.mem.ver, x) in s.mem.place { NothingLost(n, chunks, sched, x); }
  }

  // ---------------------------------------------------------------- only payload

  /** A slot of the heap, outside the headers of the chunks. */
  predicate IsPayload(m: Shared, x: Slot) {
    x < m.pages * SLOTS_PER_PAGE && HEADER_SLOTS <= x % SLOTS_PER_CHUNK
  }

  predicate OnSweep(m: Shared, pc: PC) {
    Inv.Pending(pc).Some? ==>
      var at := Inv.Pending(pc).value; at.page < m.pages && FirstSlot(at.page) <= at.slot
  }

  predicate ClaimInHeap(m: Shared, pc: PC) {
    pc.ClaimCas? ==> pc.oldSc.counter < m.pages
  }

  ghost predicate InPayload(s: State) {
    && Inv.Inv(s)
    && (forall k :: k in s.mem.place ==> IsPayload(s.mem, k.1))
    && (forall t :: 0 <= t < |s.thr| ==> OnSweep(s.mem, s.thr[t].pc) && ClaimInHeap(s.mem, s.thr[t].pc))
  }

  lemma SweptIsPayload(m: Shared, at: Cursor)
    requires at.page < m.pages && FirstSlot(at.page) <= at.slot < (at.page + 1) * SLOTS_PER_PAGE
    ensures IsPayload(m, at.slot)
  {
    var within := at.page % PAGES_PER_CHUNK * SLOTS_PER_PAGE + at.slot - at.page * SLOTS_PER_PAGE;
    assert at.slot == at.page / PAGES_PER_CHUNK * SLOTS_PER_CHUNK + within;
    Divides(at.page / PAGES_PER_CHUNK, SLOTS_PER_CHUNK, within);
  }

  lemma OwnPayload(m: Shared, t: nat, th: Thread, flag: bool)
    requires Inv.Ready(m, t, th) && OnSweep(m, th.pc) && ClaimInHeap(m, th.pc)
    ensures var (m', th') := ThreadStep(m, t, th, flag);
      && m'.pages == m.pages && OnSweep(m, th'.pc) && ClaimInHeap(m, th'.pc)
      && forall k :: k in m'.place ==> k in m.place || IsPayload(m, k.1)
  {
    if th.pc.Sweep? || th.pc.FirstItem? {
      if th.pc.at.slot < (th.pc.at.page + 1) * SLOTS_PER_PAGE { SweptIsPayload(m, th.pc.at); }
    }
  }

  lemma PayloadStep(s: State, a: Action)
    requires InPayload(s)
    ensures InPayload(Step(s, a))
  {
    Inv.StepKeeps(s, a);
    if a.tid < |s.thr| { OwnPayload(s.mem, a.tid, s.thr[a.tid], a.flag); }
  }

  /** Palloc hands out payload slots only, never part of a header. */
  lemma HandsOutPayload(n: nat, chunks: nat, sched: seq<Action>, a: Action)
    requires HandsOut(After(Step, Init(n, chunks), sched), a).Some?
    ensures var s := After(Step, Init(n, chunks), sched); IsPayload(s.mem, HandsOut(s, a).value.1)
  {
    var s := After(Step, Init(n, chunks), sched);
    Inv.InitInv(n, chunks);
    forall r, b | InPayload(r) ensures InPayload(Step(r, b)) { PayloadStep(r, b); }
    InvariantHolds(Step, InPayload, Init(n, chunks), sched);
    assert Inv.Fits(s.mem, a.tid, s.thr[a.tid]);
  }
}
