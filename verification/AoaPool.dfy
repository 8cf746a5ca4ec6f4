/** The versioned allocation pool of the automatic collector: palloc, pop, getAllocEntry, freeAllocEntry and the head
    replacement of allocator.c; sweep, setAsFree and pReturnCache of trace.c.
    The mark bits and the decision to collect are left open: whether an object is free, and when a thread triggers a
    collection, are choices of the environment.  Objects are numbered: slot x lies on sweep page x / SLOTS_PER_PAGE. */
module AoaPool {
  import opened Common
  import opened Runs

  type Slot = nat
  type Entry = nat  // a struct allocEntry, by position in allocation order
  /** Who may write an entry: nobody once it has been pushed, else the thread that caches it or keeps it in its free
      list. */
  datatype Owner = Pushed | Cached(tid: nat) | Listed(tid: nat) | Lost
  /** Where an object freed at some version is: in an entry, or handed out. */
  datatype Place = In(e: Entry) | HandedOut

  const SLOTS_PER_PAGE := 2048
  const SLOTS_PER_CHUNK := 16384
  const PAGES_PER_CHUNK := 8
  const HEADER_SLOTS := 128
  const CACHES_PER_CHUNK := 129  // (SLOTS_PER_CHUNK - HEADER_SLOTS) / ENTRIES_PER_CACHE

  datatype Cursor = Cursor(page: nat, slot: Slot)

  datatype PC =
    // the mutator and palloc
    | Running | Palloc | PopRead | PopNext(e: Entry) | PopCas(e: Entry, nx: Option<Entry>) | Unlink
    // triggerCollection
    | Trigger | HeadRead | HeadCas(h: Option<Entry>) | Bump | PhaseTest | ResetRead | ResetCas(oldSc: SweepWord)
    // sweep
    | Claim | ClaimCas(oldSc: SweepWord) | Sweep(at: Cursor) | GetEntry(at: Cursor) | FirstItem(at: Cursor)
    | PushRead(next: Option<Cursor>) | PushLink(next: Option<Cursor>, h: Option<Entry>)
    | PushCas(next: Option<Cursor>, h: Option<Entry>)

  datatype Thread = Thread(localVer: nat, cache: Option<Entry>, free: seq<Entry>, pc: PC)

  /** head and ver are struct verEntry head; link[e] is entry e's next field, items[e] its ptrs[..free].
      History variables: list is the pool at the current version, top first; pushVer[e] the version at which e was last
      pushed; owner[e]; place maps (version, object) to where the object freed at that version is. */
  datatype Shared = Shared(
    head: Option<Entry>, ver: nat, sc: SweepWord, pages: nat, link: seq<Option<Entry>>, items: seq<seq<Slot>>,
    list: seq<Entry>, pushVer: seq<nat>, owner: seq<Owner>, place: map<(nat, Slot), Place>)

  datatype State = State(mem: Shared, thr: seq<Thread>)

  /** tid moves; flag and choice resolve what the machine leaves open. */
  datatype Action = Action(tid: nat, flag: bool)

  /** The slots of cache e, when initAllocator carves the payload of each chunk into caches. */
  function SlabCache(e: Entry): seq<Slot> {
    seq(ENTRIES_PER_CACHE, j requires 0 <= j =>
      e / CACHES_PER_CHUNK * SLOTS_PER_CHUNK + HEADER_SLOTS + e % CACHES_PER_CHUNK * ENTRIES_PER_CACHE + j)
  }

  /** The cache that slot x is carved into. */
  function CacheOf(x: Slot): Entry
    requires IsCarved(x)
  {
    x / SLOTS_PER_CHUNK * CACHES_PER_CHUNK + (x % SLOTS_PER_CHUNK - HEADER_SLOTS) / ENTRIES_PER_CACHE
  }

  /** Headers and the two slots at the end of each chunk are not carved. */
  predicate IsCarved(x: Slot) {
    HEADER_SLOTS <= x % SLOTS_PER_CHUNK < HEADER_SLOTS + CACHES_PER_CHUNK * ENTRIES_PER_CACHE
  }

  ghost function InitialPool(chunks: nat): Shared {
    var k := chunks * CACHES_PER_CHUNK;
    Shared(if k == 0 then None else Some(k - 1), 0, SweepWord(0, 0), chunks * PAGES_PER_CHUNK,
      seq(k, e requires 0 <= e => if e == 0 then None else Some(e - 1)), seq(k, e requires 0 <= e => SlabCache(e)),
      seq(k, i requires 0 <= i < k => k - 1 - i), seq(k, _ => 0), seq(k, _ => Pushed),
      map x: Slot | x < chunks * SLOTS_PER_CHUNK && IsCarved(x) :: (0, x) := In(CacheOf(x)))
  }

  ghost function Init(n: nat, chunks: nat): State {
    State(InitialPool(chunks), seq(n, _ => Thread(0, None, [], Running)))
  }

  predicate Sizes(m: Shared) {
    |m.link| == |m.items| == |m.pushVer| == |m.owner|
  }

  predicate IsEntry(m: Shared, e: Entry) {
    e < |m.link|
  }

  predicate KnowsEntries(m: Shared, th: Thread) {
    && Sizes(m)
    && (th.cache.Some? ==> IsEntry(m, th.cache.value))
    && (forall i :: 0 <= i < |th.free| ==> IsEntry(m, th.free[i]))
    && (th.pc.PopNext? ==> IsEntry(m, th.pc.e))
  }

  function Step(s: State, a: Action): State {
    if a.tid < |s.thr| && KnowsEntries(s.mem, s.thr[a.tid]) then
      var (m, th) := ThreadStep(s.mem, a.tid, s.thr[a.tid], a.flag);
      State(m, s.thr[a.tid := th])
    else s
  }

  /** freeAllocEntry on the cache, if there is one. */
  function FreeCache(m: Shared, t: nat, th: Thread, pc: PC): (Shared, Thread)
    requires KnowsEntries(m, th)
  {
    match th.cache
    case None => (m, th.(pc := pc))
    case Some(e) =>
      (m.(link := m.link[e := if th.free == [] then None else Some(th.free[0])], owner := m.owner[e := Listed(t)]),
       th.(cache := None, free := [e] + th.free, pc := pc))
  }

  function ThreadStep(m: Shared, t: nat, th: Thread, flag: bool): (Shared, Thread)
    requires KnowsEntries(m, th)
  {
    match th.pc
    case Running => (m, th.(pc := if flag then Palloc else Trigger))
    case Palloc =>
      if th.cache.Some? && m.items[th.cache.value] != [] then
        var e := th.cache.value;
        var k := |m.items[e]| - 1;
        (m.(items := m.items[e := m.items[e][..k]], place := m.place[(th.localVer, m.items[e][k]) := HandedOut]),
         th.(pc := Running))
      else FreeCache(m, t, th, PopRead)
    case PopRead =>
      (m, th.(pc := if m.ver != th.localVer || m.head.None? || !IsEntry(m, m.head.value) then Trigger
                    else PopNext(m.head.value)))
    case PopNext(e) => (m, th.(pc := PopCas(e, m.link[e])))
    case PopCas(e, nx) =>
      if m.head == Some(e) && m.ver == th.localVer && IsEntry(m, e) then
        (m.(head := nx, list := if m.list == [] then [] else m.list[1..], owner := m.owner[e := Cached(t)]),
         th.(cache := Some(e), pc := Unlink))
      else (m, th.(pc := PopRead))
    case Unlink =>
      (if th.cache.Some? then m.(link := m.link[th.cache.value := None]) else m, th.(pc := Palloc))
    case Trigger => FreeCache(m, t, th, HeadRead)
    case HeadRead => (m, th.(pc := if m.ver == th.localVer then HeadCas(m.head) else Bump))
    case HeadCas(h) =>
      (if m.head == h && m.ver == th.localVer then m.(head := None, ver := th.localVer + 2, list := []) else m,
       th.(pc := HeadRead))
    case Bump => (m, th.(localVer := th.localVer + 2, pc := PhaseTest))
    case PhaseTest => (m, th.(pc := if flag then Running else ResetRead))
    case ResetRead => (m, th.(pc := if m.sc.phase >= th.localVer then Claim else ResetCas(m.sc)))
    case ResetCas(before) =>
      if m.sc == before then (m.(sc := SweepWord(th.localVer, 0)), th.(pc := Claim)) else (m, th.(pc := ResetRead))
    case Claim | ClaimCas(_) | Sweep(_) | GetEntry(_) | FirstItem(_) => SweepStep(m, t, th, flag)
    case PushRead(_) | PushLink(_, _) | PushCas(_, _) => PushStep(m, t, th)
  }

  function FirstSlot(page: nat): Slot {
    page * SLOTS_PER_PAGE + if page % PAGES_PER_CHUNK == 0 then HEADER_SLOTS else 0
  }

  /** sweep, process_sweep_page and setAsFree; flag says that the object is unmarked. */
  function SweepStep(m: Shared, t: nat, th: Thread, flag: bool): (Shared, Thread)
    requires KnowsEntries(m, th)
  {
    match th.pc
    case Claim =>
      if m.sc.phase == th.localVer && m.sc.counter < m.pages then (m, th.(pc := ClaimCas(m.sc)))
      else (m, th.(pc := if th.cache.Some? then PushRead(None) else Running))
    case ClaimCas(before) =>
      if m.sc == before then
        (m.(sc := before.(counter := before.counter + 1)),
         th.(pc := Sweep(Cursor(before.counter, FirstSlot(before.counter)))))
      else (m, th.(pc := Claim))
    case Sweep(at) =>
      if at.slot >= (at.page + 1) * SLOTS_PER_PAGE then (m, th.(pc := Claim))
      else if !flag then (m, th.(pc := Sweep(at.(slot := at.slot + 1))))
      else if th.cache.None? then (m, th.(pc := GetEntry(at)))
      else if |m.items[th.cache.value]| >= ENTRIES_PER_CACHE then (m, th.(pc := PushRead(Some(at))))
      else (AddItem(m, th.cache.value, th.localVer, at.slot), th.(pc := Sweep(at.(slot := at.slot + 1))))
    case GetEntry(at) =>
      if th.free != [] then
        var e := th.free[0];
        (m.(items := m.items[e := []], owner := m.owner[e := Cached(t)]),
         th.(cache := Some(e), free := th.free[1..], pc := FirstItem(at)))
      else
        (m.(link := m.link + [None], items := m.items + [[]], pushVer := m.pushVer + [0], owner := m.owner + [Cached(t)]),
         th.(cache := Some(|m.link|), pc := FirstItem(at)))
    case FirstItem(at) =>
      (if th.cache.Some? then AddItem(m, th.cache.value, th.localVer, at.slot) else m,
       th.(pc := Sweep(at.(slot := at.slot + 1))))
    case _ => (m, th)
  }

  function AddItem(m: Shared, e: Entry, v: nat, x: Slot): Shared
    requires e < |m.items|
  {
    m.(items := m.items[e := m.items[e] + [x]], place := m.place[(v, x) := In(e)])
  }

  /** After pReturnCache, setAsFree goes on with a new cache for the object at hand. */
  function Resume(th: Thread, next: Option<Cursor>): Thread {
    th.(cache := None, pc := if next.Some? then GetEntry(next.value) else Running)
  }

  /** pReturnCache. */
  function PushStep(m: Shared, t: nat, th: Thread): (Shared, Thread)
    requires KnowsEntries(m, th)
  {
    match th.cache
    case None => (m, th)
    case Some(e) =>
      match th.pc
      case PushRead(next) =>
        if m.ver != th.localVer then (m.(owner := m.owner[e := Lost]), Resume(th, next))
        else (m, th.(pc := PushLink(next, m.head)))
      case PushLink(next, h) => (m.(link := m.link[e := h]), th.(pc := PushCas(next, h)))
      case PushCas(next, h) =>
        if m.head == h && m.ver == th.localVer then
          (m.(head := Some(e), list := [e] + m.list, pushVer := m.pushVer[e := m.ver], owner := m.owner[e := Pushed]),
           Resume(th, next))
        else (m, th.(pc := PushRead(next)))
      case _ => (m, th)
  }
}
