/** The inductive invariant of the versioned pool, and its preservation. */
module AoaPoolInvariant {
  import opened Common
  import opened Runs
  import opened AoaPool

  // ---------------------------------------------------------------- the invariant

  /** Following link from h yields exactly list. */
  ghost predicate Chain(link: seq<Option<Entry>>, h: Option<Entry>, list: seq<Entry>)
    decreases |list|
  {
    if list == [] then h == None
    else h == Some(list[0]) && list[0] < |link| && Chain(link, link[list[0]], list[1..])
  }

  /** A chain does not depend on the links of other entries. */
  lemma {:induction false} ChainFrame(link: seq<Option<Entry>>, link': seq<Option<Entry>>, h: Option<Entry>, list: seq<Entry>)
    requires Chain(link, h, list)
    requires forall e :: e in list && e < |link| ==> e < |link'| && link'[e] == link[e]
    ensures Chain(link', h, list)
    decreases |list|
  {
    if list != [] {
      assert forall e :: e in list[1..] ==> e in list;
      assert list[0] in list;
      ChainFrame(link, link', link[list[0]], list[1..]);
    }
  }

  /** Entry e holds objects freed at version v, each of which is nowhere else. */
  ghost predicate Holds(m: Shared, e: Entry, v: nat) {
    && e < |m.items| && Distinct(m.items[e])
    && forall i :: 0 <= i < |m.items[e]| ==> (v, m.items[e][i]) in m.place && m.place[(v, m.items[e][i])] == In(e)
  }

  /** Has page g been claimed for version v? */
  ghost predicate IsClaimed(m: Shared, v: nat, g: nat) {
    v < m.sc.phase || (v == m.sc.phase && g < m.sc.counter)
  }

  ghost predicate ListOk(m: Shared) {
    && Sizes(m) && Chain(m.link, m.head, m.list) && Distinct(m.list)
    && (forall e :: e in m.list ==> e < |m.link| && m.owner[e] == Pushed && m.pushVer[e] == m.ver)
    && m.ver % 2 == 0 && (forall e :: 0 <= e < |m.pushVer| ==> m.pushVer[e] <= m.ver)
  }

  ghost predicate Stocked(m: Shared) {
    forall e :: e in m.list ==> Holds(m, e, m.ver)
  }

  ghost predicate PlacesOk(m: Shared) {
    forall k :: k in m.place && 0 < k.0 ==> IsClaimed(m, k.0, k.1 / SLOTS_PER_PAGE)
  }

  ghost predicate PoolOk(m: Shared) {
    ListOk(m) && Stocked(m) && PlacesOk(m)
  }

  /** From the bump of the local version to the end of the sweep. */
  predicate Collecting(pc: PC) {
    match pc
    case PhaseTest | ResetRead | ResetCas(_) | Claim | ClaimCas(_) | Sweep(_) | GetEntry(_) | FirstItem(_)
       | PushRead(_) | PushLink(_, _) | PushCas(_, _) => true
    case _ => false
  }

  /** The part of a page that a sweeper has claimed and not yet visited. */
  function Pending(pc: PC): Option<Cursor> {
    match pc
    case Sweep(at) => Some(at)
    case GetEntry(at) => Some(at)
    case FirstItem(at) => Some(at)
    case PushRead(next) => next
    case PushLink(next, _) => next
    case PushCas(next, _) => next
    case _ => None
  }

  ghost predicate PendingOk(m: Shared, v: nat, at: Cursor) {
    && 0 < v && at.page * SLOTS_PER_PAGE <= at.slot && IsClaimed(m, v, at.page)
    && forall x :: at.slot <= x < (at.page + 1) * SLOTS_PER_PAGE ==> (v, x) !in m.place
  }

  ghost predicate FreeListOk(m: Shared, t: nat, th: Thread) {
    && Distinct(th.free)
    && forall i :: 0 <= i < |th.free| ==>
         && th.free[i] < |m.owner| == |m.pushVer| && m.owner[th.free[i]] == Listed(t)
         && m.pushVer[th.free[i]] <= th.localVer
         && (Collecting(th.pc) ==> m.pushVer[th.free[i]] < th.localVer)
  }

  ghost predicate CacheOk(m: Shared, t: nat, th: Thread) {
    th.cache.Some? ==>
      var e := th.cache.value;
      && e < |m.owner| == |m.pushVer| && m.owner[e] == Cached(t) && Holds(m, e, th.localVer)
      && m.pushVer[e] <= th.localVer
      && (Collecting(th.pc) ==> m.pushVer[e] < th.localVer)
  }

  predicate OnPage(next: Option<Cursor>) {
    next.Some? ==> next.value.slot < (next.value.page + 1) * SLOTS_PER_PAGE
  }

  /** What a thread in the middle of pop knows of the head it has read. */
  ghost predicate PopOk(m: Shared, th: Thread) {
    match th.pc
    case PopNext(e) => e < |m.pushVer| && th.localVer <= m.pushVer[e]
    case PopCas(e, nx) =>
      && e < |m.pushVer| == |m.link| && th.localVer <= m.pushVer[e]
      && (m.pushVer[e] == th.localVer == m.ver && e in m.list ==> m.link[e] == nx)
    case PushLink(next, _) => th.cache.Some? && OnPage(next)
    case PushCas(next, h) => OnPage(next) && th.cache.Some? && th.cache.value < |m.link| && m.link[th.cache.value] == h
    case PushRead(next) => th.cache.Some? && OnPage(next)
    case GetEntry(at) => th.cache.None? && at.slot < (at.page + 1) * SLOTS_PER_PAGE
    case FirstItem(at) => th.cache.Some? && at.slot < (at.page + 1) * SLOTS_PER_PAGE
    case Unlink => th.cache.Some?
    case PopRead => th.cache.None?
    case ResetCas(before) => th.cache.None? && before.phase < th.localVer
    case ClaimCas(before) => before.phase == th.localVer
    case HeadRead => th.cache.None?
    case HeadCas(_) => th.cache.None?
    case Bump => th.cache.None? && th.localVer < m.ver
    case PhaseTest => th.cache.None?
    case ResetRead => th.cache.None?
    case _ => true
  }

  ghost predicate Fits(m: Shared, t: nat, th: Thread) {
    && th.localVer % 2 == 0 && th.localVer <= m.ver && KnowsEntries(m, th)
    && (Collecting(th.pc) ==> 0 < th.localVer)
    && FreeListOk(m, t, th) && CacheOk(m, t, th) && PopOk(m, th)
    && ((th.pc.PopNext? || th.pc.PopCas?) ==> th.cache.None?)
    && (Pending(th.pc).Some? ==> PendingOk(m, th.localVer, Pending(th.pc).value))
  }

  /** Two sweepers of the same version are on different pages. */
  ghost predicate Apart(a: Thread, b: Thread) {
    Pending(a.pc).Some? && Pending(b.pc).Some? && a.localVer == b.localVer ==>
      Pending(a.pc).value.page != Pending(b.pc).value.page
  }

  ghost predicate Inv(s: State) {
    && PoolOk(s.mem)
    && (forall t :: 0 <= t < |s.thr| ==> Fits(s.mem, t, s.thr[t]))
    && (forall t, u :: 0 <= t < u < |s.thr| ==> Apart(s.thr[t], s.thr[u]))
  }

  // ---------------------------------------------------------------- what a step may change

  /** The entries that thread u may write. */
  ghost predicate Owns(m: Shared, u: nat, e: Entry) {
    e < |m.owner| && (m.owner[e] == Cached(u) || m.owner[e] == Listed(u))
  }

  /** What a step of thread t, at version v, may do to shared memory. */
  ghost predicate Moves(m: Shared, m': Shared, t: nat, v: nat, page: Option<Cursor>) {
    && Sizes(m) && Sizes(m') && |m.link| <= |m'.link| && m.ver <= m'.ver
    && (m.sc.phase < m'.sc.phase || (m.sc.phase == m'.sc.phase && m.sc.counter <= m'.sc.counter))
    // an entry of another thread is left alone
    && (forall e :: 0 <= e < |m.link| && (m.owner[e].Cached? || m.owner[e].Listed?) && m.owner[e].tid != t ==>
          m'.link[e] == m.link[e] && m'.items[e] == m.items[e] && m'.owner[e] == m.owner[e] && m'.pushVer[e] == m.pushVer[e])
    // what is pushed keeps its link for as long as it is in the pool at that version
    && (forall e :: 0 <= e < |m.link| ==> m.pushVer[e] <= m'.pushVer[e])
    && (forall e :: 0 <= e < |m.link| && e in m'.list && m'.pushVer[e] == m.pushVer[e] && m'.ver == m.pushVer[e] ==>
          e in m.list && m.ver == m'.ver && m'.link[e] == m.link[e])
    // places: only objects of its own page appear, only its own objects move
    && (forall k :: k in m.place ==> k in m'.place)
    && (forall k :: k in m.place && m.place[k] != m'.place[k] ==>
          m.place[k].In? && Owns(m, t, m.place[k].e) && m'.place[k] == HandedOut)
    && (forall k :: k in m'.place && k !in m.place ==>
          k.0 == v && page.Some? && k.1 / SLOTS_PER_PAGE == page.value.page && k.1 < (page.value.page + 1) * SLOTS_PER_PAGE)
  }

  lemma OthersStayOk(m: Shared, m': Shared, t: nat, th: Thread, u: nat, other: Thread)
    requires PoolOk(m) && PoolOk(m') && t != u && Moves(m, m', t, th.localVer, Pending(th.pc))
    requires Fits(m, u, other) && Fits(m, t, th) && Apart(other, th)
    ensures Fits(m', u, other)
  {
  }

  ghost predicate Ready(m: Shared, t: nat, th: Thread) {
    PoolOk(m) && Fits(m, t, th)
  }

  ghost predicate Keeps(m: Shared, t: nat, th: Thread, r: (Shared, Thread)) {
    Moves(m, r.0, t, th.localVer, Pending(th.pc)) && PoolOk(r.0) && Fits(r.0, t, r.1)
  }


  /** A step that leaves shared memory alone and keeps the thread's entries. */
  lemma LocalKeeps(m: Shared, t: nat, th: Thread, pc: PC)
    requires Ready(m, t, th) && (Collecting(pc) ==> Collecting(th.pc))
    requires PopOk(m, th.(pc := pc)) && (pc.PopNext? || pc.PopCas? ==> th.cache.None?)
    requires Pending(pc).Some? ==> PendingOk(m, th.localVer, Pending(pc).value)
    ensures Keeps(m, t, th, (m, th.(pc := pc)))
  {}

  lemma HandOutPool(m: Shared, t: nat, e: Entry, v: nat)
    requires PoolOk(m) && e < |m.owner| && m.owner[e] == Cached(t) && Holds(m, e, v) && m.items[e] != []
    ensures var k := |m.items[e]| - 1;
      var m' := m.(items := m.items[e := m.items[e][..k]], place := m.place[(v, m.items[e][k]) := HandedOut]);
      PoolOk(m') && Moves(m, m', t, v, None) && Holds(m', e, v)
  {}

  lemma HandOutKeeps(m: Shared, t: nat, th: Thread, flag: bool)
    requires Ready(m, t, th) && th.pc.Palloc? && th.cache.Some? && m.items[th.cache.value] != []
    ensures Keeps(m, t, th, ThreadStep(m, t, th, flag))
  {
    HandOutPool(m, t, th.cache.value, th.localVer);
  }

  /** Writes to an entry that is not in the pool leave the pool alone. */
  lemma PrivateWrite(m: Shared, m': Shared, e: Entry)
    requires ListOk(m) && Stocked(m) && e < |m.owner| && m.owner[e] != Pushed
    requires m' == m.(link := m'.link, owner := m'.owner) && Sizes(m')
    requires forall f :: 0 <= f < |m.link| && f != e ==> m'.link[f] == m.link[f] && m'.owner[f] == m.owner[f]
    ensures ListOk(m') && Stocked(m')
  {
    ChainFrame(m.link, m'.link, m.head, m.list);
  }

  lemma RunningKeeps(m: Shared, t: nat, th: Thread, flag: bool)
    requires Ready(m, t, th) && (th.pc.Running? || ((th.pc.Palloc? || th.pc.Trigger?) && th.cache.None?))
    ensures Keeps(m, t, th, ThreadStep(m, t, th, flag))
  {
    LocalKeeps(m, t, th, ThreadStep(m, t, th, flag).1.pc);
  }

  /** freeAllocEntry: the entry goes to the front of the thread's own list. */
  lemma FreeCachePool(m: Shared, t: nat, e: Entry, next: Option<Entry>, v: nat)
    requires PoolOk(m) && e < |m.owner| && m.owner[e] == Cached(t)
    ensures var m' := m.(link := m.link[e := next], owner := m.owner[e := Listed(t)]); PoolOk(m') && Moves(m, m', t, v, None)
  {
    PrivateWrite(m, m.(link := m.link[e := next], owner := m.owner[e := Listed(t)]), e);
  }

  lemma FreeCacheFits(m: Shared, m': Shared, t: nat, th: Thread, th': Thread)
    requires Fits(m, t, th) && Sizes(m) && th.cache.Some? && !Collecting(th.pc)
    requires m' == m.(link := m'.link, owner := m.owner[th.cache.value := Listed(t)]) && |m'.link| == |m.link|
    requires th' == th.(cache := None, free := [th.cache.value] + th.free, pc := th'.pc) && (th'.pc.PopRead? || th'.pc.HeadRead?)
    ensures Fits(m', t, th')
  {}

  lemma FreeCacheKeeps(m: Shared, t: nat, th: Thread, flag: bool)
    requires Ready(m, t, th) && (th.pc.Palloc? || th.pc.Trigger?) && th.cache.Some?
    requires th.pc.Palloc? ==> m.items[th.cache.value] == []
    ensures Keeps(m, t, th, ThreadStep(m, t, th, flag))
  {
    FreeCachePool(m, t, th.cache.value, if th.free == [] then None else Some(th.free[0]), th.localVer);
    FreeCacheFits(m, ThreadStep(m, t, th, flag).0, t, th, ThreadStep(m, t, th, flag).1);
  }

  lemma PopReadKeeps(m: Shared, t: nat, th: Thread, flag: bool)
    requires Ready(m, t, th) && (th.pc.PopRead? || th.pc.PopNext?)
    ensures Keeps(m, t, th, ThreadStep(m, t, th, flag))
  {}

  lemma TailApart(list: seq<Entry>)
    requires Distinct(list) && list != []
    ensures Distinct(list[1..]) && forall e :: e in list[1..] ==> e in list && e != list[0]
  {
    forall e | e in list[1..] ensures e in list && e != list[0] {
      var i :| 0 <= i < |list[1..]| && list[1..][i] == e;
      assert list[i + 1] == e;
    }
  }

  /** The successful pop: the pool loses its top entry. */
  lemma PopFromPool(m: Shared, t: nat, th: Thread, flag: bool)
    requires Ready(m, t, th) && th.pc.PopCas? && m.head == Some(th.pc.e) && m.ver == th.localVer
    ensures var m' := ThreadStep(m, t, th, flag).0;
      PoolOk(m') && Moves(m, m', t, th.localVer, Pending(th.pc)) && Holds(m', th.pc.e, m.ver)
  {
    assert m.list[0] in m.list;
    TailApart(m.list);
  }

  lemma PoppedKeeps(m: Shared, t: nat, th: Thread, flag: bool)
    requires Ready(m, t, th) && th.pc.PopCas? && m.head == Some(th.pc.e) && m.ver == th.localVer
    ensures Keeps(m, t, th, ThreadStep(m, t, th, flag))
  {
    PopFromPool(m, t, th, flag);
  }

  lemma PopCasKeeps(m: Shared, t: nat, th: Thread, flag: bool)
    requires Ready(m, t, th) && th.pc.PopCas?
    ensures Keeps(m, t, th, ThreadStep(m, t, th, flag))
  {
    if m.head == Some(th.pc.e) && m.ver == th.localVer {
      PoppedKeeps(m, t, th, flag);
    } else {
      LocalKeeps(m, t, th, PopRead);
    }
  }

  lemma UnlinkKeeps(m: Shared, t: nat, th: Thread, flag: bool)
    requires Ready(m, t, th) && th.pc.Unlink?
    ensures Keeps(m, t, th, ThreadStep(m, t, th, flag))
  {
    PrivateWrite(m, ThreadStep(m, t, th, flag).0, th.cache.value);
  }

  lemma HeadKeeps(m: Shared, t: nat, th: Thread, flag: bool)
    requires Ready(m, t, th) && (th.pc.HeadRead? || th.pc.HeadCas?)
    ensures Keeps(m, t, th, ThreadStep(m, t, th, flag))
  {}

  lemma BumpKeeps(m: Shared, t: nat, th: Thread, flag: bool)
    requires Ready(m, t, th) && th.pc.Bump?
    ensures Keeps(m, t, th, ThreadStep(m, t, th, flag))
  {}

  lemma PhaseTestKeeps(m: Shared, t: nat, th: Thread, flag: bool)
    requires Ready(m, t, th) && th.pc.PhaseTest?
    ensures Keeps(m, t, th, ThreadStep(m, t, th, flag))
  {}

  /** The sweep counter only moves forward. */
  lemma CounterMoves(m: Shared, sc: SweepWord, t: nat, v: nat)
    requires PoolOk(m) && (m.sc.phase < sc.phase || (m.sc.phase == sc.phase && m.sc.counter <= sc.counter))
    ensures PoolOk(m.(sc := sc)) && Moves(m, m.(sc := sc), t, v, None)
  {}

  lemma ResetKeeps(m: Shared, t: nat, th: Thread, flag: bool)
    requires Ready(m, t, th) && (th.pc.ResetRead? || th.pc.ResetCas?)
    ensures Keeps(m, t, th, ThreadStep(m, t, th, flag))
  {
    if th.pc.ResetCas? && m.sc == th.pc.oldSc {
      CounterMoves(m, SweepWord(th.localVer, 0), t, th.localVer);
    } else {
      LocalKeeps(m, t, th, ThreadStep(m, t, th, flag).1.pc);
    }
  }

  lemma ClaimKeeps(m: Shared, t: nat, th: Thread, flag: bool)
    requires Ready(m, t, th) && th.pc.Claim?
    ensures Keeps(m, t, th, ThreadStep(m, t, th, flag))
  {
    LocalKeeps(m, t, th, SweepStep(m, t, th, flag).1.pc);
  }

  /** Nothing of a page not yet claimed is anywhere at this version. */
  lemma PageIsFresh(m: Shared, v: nat)
    requires PlacesOk(m) && 0 < v && m.sc.phase == v
    ensures PendingOk(m.(sc := m.sc.(counter := m.sc.counter + 1)), v, Cursor(m.sc.counter, FirstSlot(m.sc.counter)))
  {}

  lemma ClaimedKeeps(m: Shared, t: nat, th: Thread, m': Shared, th': Thread)
    requires Ready(m, t, th) && th.pc == ClaimCas(m.sc)
    requires m' == m.(sc := m.sc.(counter := m.sc.counter + 1))
    requires th' == th.(pc := Sweep(Cursor(m.sc.counter, FirstSlot(m.sc.counter))))
    ensures Keeps(m, t, th, (m', th'))
  {
    CounterMoves(m, m'.sc, t, th.localVer);
    PageIsFresh(m, th.localVer);
  }

  lemma ClaimCasKeeps(m: Shared, t: nat, th: Thread, flag: bool)
    requires Ready(m, t, th) && th.pc.ClaimCas?
    ensures Keeps(m, t, th, ThreadStep(m, t, th, flag))
  {
    if m.sc == th.pc.oldSc {
      ClaimedKeeps(m, t, th, ThreadStep(m, t, th, flag).0, ThreadStep(m, t, th, flag).1);
    } else {
      LocalKeeps(m, t, th, Claim);
    }
  }

  /** A free object of the claimed page joins the cache of its sweeper. */
  lemma AddItemKeeps(m: Shared, t: nat, e: Entry, v: nat, at: Cursor)
    requires PoolOk(m) && e < |m.owner| && m.owner[e] == Cached(t) && Holds(m, e, v) && PendingOk(m, v, at)
    requires at.slot < (at.page + 1) * SLOTS_PER_PAGE
    ensures var m' := AddItem(m, e, v, at.slot);
      && Moves(m, m', t, v, Some(at)) && PoolOk(m') && Holds(m', e, v)
      && PendingOk(m', v, at.(slot := at.slot + 1))
  {}

  lemma SkipKeeps(m: Shared, t: nat, th: Thread, flag: bool)
    requires Ready(m, t, th) && th.pc.Sweep?
    requires !flag || th.cache.None? || ENTRIES_PER_CACHE <= |m.items[th.cache.value]| ||
             (th.pc.at.page + 1) * SLOTS_PER_PAGE <= th.pc.at.slot
    ensures Keeps(m, t, th, ThreadStep(m, t, th, flag))
  {
    LocalKeeps(m, t, th, ThreadStep(m, t, th, flag).1.pc);
  }

  lemma AddFits(m: Shared, m': Shared, t: nat, th: Thread, th': Thread, at: Cursor)
    requires Fits(m, t, th) && Sizes(m) && th.cache.Some? && Collecting(th.pc)
    requires m' == m.(items := m'.items, place := m'.place) && |m'.items| == |m.items|
    requires th' == th.(pc := Sweep(at)) && Holds(m', th.cache.value, th.localVer) && PendingOk(m', th.localVer, at)
    ensures Fits(m', t, th')
  {}

  lemma AddKeeps(m: Shared, t: nat, th: Thread, flag: bool)
    requires Ready(m, t, th) && th.cache.Some? && (th.pc.FirstItem? || (th.pc.Sweep? && flag))
    requires th.pc.Sweep? ==> |m.items[th.cache.value]| < ENTRIES_PER_CACHE
    requires th.pc.at.slot < (th.pc.at.page + 1) * SLOTS_PER_PAGE
    ensures Keeps(m, t, th, ThreadStep(m, t, th, flag))
  {
    AddItemKeeps(m, t, th.cache.value, th.localVer, th.pc.at);
    var (m', th') := ThreadStep(m, t, th, flag);
    AddFits(m, m', t, th, th', th'.pc.at);
  }

  lemma GetEntryPool(m: Shared, t: nat, th: Thread, flag: bool)
    requires Ready(m, t, th) && th.pc.GetEntry?
    ensures var m' := ThreadStep(m, t, th, flag).0;
      Moves(m, m', t, th.localVer, Pending(th.pc)) && PoolOk(m')
  {
    ChainFrame(m.link, ThreadStep(m, t, th, flag).0.link, m.head, m.list);
  }

  lemma ReusedFits(m: Shared, t: nat, th: Thread, flag: bool)
    requires Ready(m, t, th) && th.pc.GetEntry? && th.free != []
    ensures Fits(ThreadStep(m, t, th, flag).0, t, ThreadStep(m, t, th, flag).1)
  {}

  lemma CreatedFits(m: Shared, t: nat, th: Thread, flag: bool)
    requires Ready(m, t, th) && th.pc.GetEntry? && th.free == []
    ensures Fits(ThreadStep(m, t, th, flag).0, t, ThreadStep(m, t, th, flag).1)
  {}

  lemma GetEntryKeeps(m: Shared, t: nat, th: Thread, flag: bool)
    requires Ready(m, t, th) && th.pc.GetEntry?
    ensures Keeps(m, t, th, ThreadStep(m, t, th, flag))
  {
    GetEntryPool(m, t, th, flag);
    if th.free != [] { ReusedFits(m, t, th, flag); } else { CreatedFits(m, t, th, flag); }
  }

  lemma GiveUpKeeps(m: Shared, t: nat, th: Thread, flag: bool)
    requires Ready(m, t, th) && th.pc.PushRead? && m.ver != th.localVer
    ensures Keeps(m, t, th, ThreadStep(m, t, th, flag))
  {
    PrivateWrite(m, ThreadStep(m, t, th, flag).0, th.cache.value);
  }

  lemma PushReadKeeps(m: Shared, t: nat, th: Thread, flag: bool)
    requires Ready(m, t, th) && th.pc.PushRead?
    ensures Keeps(m, t, th, ThreadStep(m, t, th, flag))
  {
    if m.ver != th.localVer {
      GiveUpKeeps(m, t, th, flag);
    } else {
      LocalKeeps(m, t, th, PushLink(th.pc.next, m.head));
    }
  }

  lemma PushLinkKeeps(m: Shared, t: nat, th: Thread, flag: bool)
    requires Ready(m, t, th) && th.pc.PushLink?
    ensures Keeps(m, t, th, ThreadStep(m, t, th, flag))
  {
    PrivateWrite(m, ThreadStep(m, t, th, flag).0, th.cache.value);
  }

  /** The successful push: the pool gains one entry on top. */
  lemma PushOnPool(m: Shared, t: nat, e: Entry, page: Option<Cursor>)
    requires PoolOk(m) && e < |m.owner| && m.owner[e] == Cached(t) && Holds(m, e, m.ver) && m.link[e] == m.head
    requires m.pushVer[e] < m.ver
    ensures var m' := m.(head := Some(e), list := [e] + m.list, pushVer := m.pushVer[e := m.ver], owner := m.owner[e := Pushed]);
      PoolOk(m') && Moves(m, m', t, m.ver, page)
  {
    assert ([e] + m.list)[1..] == m.list;
  }

  lemma PushedKeeps(m: Shared, t: nat, th: Thread, flag: bool)
    requires Ready(m, t, th) && th.pc.PushCas? && m.head == th.pc.h && m.ver == th.localVer
    ensures Keeps(m, t, th, ThreadStep(m, t, th, flag))
  {
    PushOnPool(m, t, th.cache.value, Pending(th.pc));
  }

  lemma PushCasKeeps(m: Shared, t: nat, th: Thread, flag: bool)
    requires Ready(m, t, th) && th.pc.PushCas?
    ensures Keeps(m, t, th, ThreadStep(m, t, th, flag))
  {
    if m.head == th.pc.h && m.ver == th.localVer {
      PushedKeeps(m, t, th, flag);
    } else {
      LocalKeeps(m, t, th, PushRead(th.pc.next));
    }
  }


  lemma MutatorKeeps(m: Shared, t: nat, th: Thread, flag: bool)
    requires Ready(m, t, th) && (th.pc.Running? || th.pc.Palloc? || th.pc.Trigger?)
    ensures Keeps(m, t, th, ThreadStep(m, t, th, flag))
  {
    if th.pc.Running? || th.cache.None? {
      RunningKeeps(m, t, th, flag);
    } else if th.pc.Palloc? && m.items[th.cache.value] != [] {
      HandOutKeeps(m, t, th, flag);
    } else {
      FreeCacheKeeps(m, t, th, flag);
    }
  }

  lemma SweepKeeps(m: Shared, t: nat, th: Thread, flag: bool)
    requires Ready(m, t, th) && (th.pc.Sweep? || th.pc.FirstItem?)
    ensures Keeps(m, t, th, ThreadStep(m, t, th, flag))
  {
    if th.pc.FirstItem? {
      AddKeeps(m, t, th, flag);
    } else if !flag || th.cache.None? || ENTRIES_PER_CACHE <= |m.items[th.cache.value]|
              || (th.pc.at.page + 1) * SLOTS_PER_PAGE <= th.pc.at.slot {
      SkipKeeps(m, t, th, flag);
    } else {
      AddKeeps(m, t, th, flag);
    }
  }

  lemma ThreadKeeps(m: Shared, t: nat, th: Thread, flag: bool)
    requires Ready(m, t, th)
    ensures Keeps(m, t, th, ThreadStep(m, t, th, flag))
  {
    match th.pc
    case Running | Palloc | Trigger => MutatorKeeps(m, t, th, flag);
    case PopRead | PopNext(_) => PopReadKeeps(m, t, th, flag);
    case PopCas(_, _) => PopCasKeeps(m, t, th, flag);
    case Unlink => UnlinkKeeps(m, t, th, flag);
    case HeadRead | HeadCas(_) => HeadKeeps(m, t, th, flag);
    case Bump => BumpKeeps(m, t, th, flag);
    case PhaseTest => PhaseTestKeeps(m, t, th, flag);
    case ResetRead | ResetCas(_) => ResetKeeps(m, t, th, flag);
    case Claim => ClaimKeeps(m, t, th, flag);
    case ClaimCas(_) => ClaimCasKeeps(m, t, th, flag);
    case Sweep(_) | FirstItem(_) => SweepKeeps(m, t, th, flag);
    case GetEntry(_) => GetEntryKeeps(m, t, th, flag);
    case PushRead(_) => PushReadKeeps(m, t, th, flag);
    case PushLink(_, _) => PushLinkKeeps(m, t, th, flag);
    case PushCas(_, _) => PushCasKeeps(m, t, th, flag);
  }

  /** A claim is for a page that nobody of the same version is sweeping. */
  lemma StaysApart(m: Shared, t: nat, th: Thread, flag: bool, u: nat, other: Thread)
    requires Ready(m, t, th) && Fits(m, u, other) && Apart(th, other)
    ensures Apart(ThreadStep(m, t, th, flag).1, other)
  {
    if th.pc == ClaimCas(m.sc) {
      assert Pending(other.pc).Some? && other.localVer == th.localVer ==> IsClaimed(m, th.localVer, Pending(other.pc).value.page);
    } else {
      StaysOnPage(m, t, th, flag);
    }
  }

  lemma StaysOnPage(m: Shared, t: nat, th: Thread, flag: bool)
    requires KnowsEntries(m, th) && PopOk(m, th) && th.pc != ClaimCas(m.sc)
    ensures var th' := ThreadStep(m, t, th, flag).1;
      Pending(th'.pc).Some? ==>
        Pending(th.pc).Some? && Pending(th'.pc).value.page == Pending(th.pc).value.page && th'.localVer == th.localVer
  {
    match th.pc
    case Claim | ClaimCas(_) | Sweep(_) | GetEntry(_) | FirstItem(_) =>
    case _ =>
  }

  lemma StepKeeps(s: State, a: Action)
    requires Inv(s)
    ensures Inv(Step(s, a))
  {
    if a.tid < |s.thr| {
      var t, th := a.tid, s.thr[a.tid];
      var s' := Step(s, a);
      ThreadKeeps(s.mem, t, th, a.flag);
      forall u | 0 <= u < |s.thr| ensures Fits(s'.mem, u, s'.thr[u]) {
        if u != t { OthersStayOk(s.mem, s'.mem, t, th, u, s.thr[u]); }
      }
      forall u, w | 0 <= u < w < |s.thr| ensures Apart(s'.thr[u], s'.thr[w]) {
        if u == t { StaysApart(s.mem, t, th, a.flag, w, s.thr[w]); }
        if w == t { StaysApart(s.mem, t, th, a.flag, u, s.thr[u]); }
      }
    }
  }

  // ---------------------------------------------------------------- the initial pool

  /** The caches carved by initAllocator hold different slots. */
  lemma SlabIsCarved(chunks: nat, e: Entry, j: nat)
    requires e < chunks * CACHES_PER_CHUNK && j < ENTRIES_PER_CACHE
    ensures var x := SlabCache(e)[j]; x < chunks * SLOTS_PER_CHUNK && IsCarved(x) && CacheOf(x) == e
  {
    var c, r := e / CACHES_PER_CHUNK, e % CACHES_PER_CHUNK;
    var x := SlabCache(e)[j];
    var within := HEADER_SLOTS + r * ENTRIES_PER_CACHE + j;
    assert x == c * SLOTS_PER_CHUNK + within && within < SLOTS_PER_CHUNK;
    assert x / SLOTS_PER_CHUNK == c && x % SLOTS_PER_CHUNK == within;
  }

  lemma {:induction false} InitialChain(link: seq<Option<Entry>>, k: nat)
    requires k <= |link| && forall e :: 0 <= e < |link| ==> link[e] == if e == 0 then None else Some(e - 1)
    ensures Chain(link, if k == 0 then None else Some(k - 1), seq(k, i requires 0 <= i < k => k - 1 - i))
  {
    if k != 0 {
      InitialChain(link, k - 1);
      assert seq(k, i requires 0 <= i < k => k - 1 - i)[1..] == seq(k - 1, i requires 0 <= i < k - 1 => k - 1 - 1 - i);
    }
  }

  lemma InitInv(n: nat, chunks: nat)
    ensures Inv(Init(n, chunks))
  {
    var m := InitialPool(chunks);
    InitialChain(m.link, |m.link|);
    forall e | 0 <= e < |m.link| ensures Holds(m, e, 0) {
      forall j | 0 <= j < ENTRIES_PER_CACHE ensures (0, SlabCache(e)[j]) in m.place && m.place[(0, SlabCache(e)[j])] == In(e) {
        SlabIsCarved(chunks, e, j);
      }
    }
  }

  lemma ReachableInv(n: nat, chunks: nat, sched: seq<Action>)
    ensures Inv(After(Step, Init(n, chunks), sched))
  {
    InitInv(n, chunks);
    forall r: State, a | Inv(r) ensures Inv(Step(r, a)) { StepKeeps(r, a); }
    InvariantHolds(Step, r => Inv(r), Init(n, chunks), sched);
  }
}
