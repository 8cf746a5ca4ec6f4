/** sweep, process_sweep_page, setAsFree and pReturnCache of trace.c, as one thread runs them. */
module Sweeper {
  import opened Common
  import opened SweepGeometry

  /** What the mark words hold: the bits that are set in the word at each address. */
  type Bits = Address -> set<nat>

  predicate Marked(bits: Bits, p: Address) {
    MarkParams(p).bit in bits(MarkParams(p).word)
  }

  /** The unmarked ones among the slots, in their order. */
  function Free(slots: seq<Address>, marked: Address -> bool): seq<Address> {
    if slots == [] then []
    else
      var last := slots[|slots| - 1];
      Free(slots[..|slots| - 1], marked) + (if marked(last) then [] else [last])
  }

  function Flat(caches: seq<seq<Address>>): seq<Address> {
    if caches == [] then [] else Flat(caches[..|caches| - 1]) + caches[|caches| - 1]
  }

  lemma {:induction false} FreeConcat(xs: seq<Address>, ys: seq<Address>, marked: Address -> bool)
    ensures Free(xs + ys, marked) == Free(xs, marked) + Free(ys, marked)
  {
    if ys == [] {
      assert xs + ys == xs;
    } else {
      var k := |ys| - 1;
      assert (xs + ys)[..|xs + ys| - 1] == xs + ys[..k];
      FreeConcat(xs, ys[..k], marked);
    }
  }

  lemma FreeNext(from: Address, n: nat, marked: Address -> bool)
    ensures var p := from + n * NODE_SIZE;
            Free(Run(from, n + 1), marked) == if marked(p) then Free(Run(from, n), marked) else Free(Run(from, n), marked) + [p]
  {
    assert Run(from, n + 1)[..n] == Run(from, n);
  }

  lemma {:induction false} FreeMembers(slots: seq<Address>, marked: Address -> bool, p: Address)
    ensures p in Free(slots, marked) <==> p in slots && !marked(p)
  {
    if slots != [] {
      FreeMembers(slots[..|slots| - 1], marked, p);
      assert slots == slots[..|slots| - 1] + [slots[|slots| - 1]];
    }
  }

  lemma {:induction false} FreeDistinct(slots: seq<Address>, marked: Address -> bool)
    requires Distinct(slots)
    ensures Distinct(Free(slots, marked))
  {
    if slots != [] {
      var k := |slots| - 1;
      FreeDistinct(slots[..k], marked);
      FreeMembers(slots[..k], marked, slots[k]);
      forall x | x in Free(slots[..k], marked) ensures x != slots[k] { FreeMembers(slots[..k], marked, x); }
      ConcatDistinct(Free(slots[..k], marked), if marked(slots[k]) then [] else [slots[k]]);
    }
  }

  lemma FlatPush(caches: seq<seq<Address>>, c: seq<Address>)
    ensures Flat(caches + [c]) == Flat(caches) + c
  {
    assert (caches + [c])[..|caches|] == caches;
  }

  /** The caches that a sweep pushes: none is empty, and all but the last are full. */
  predicate WellFilled(caches: seq<seq<Address>>, from: nat) {
    forall i :: from <= i < |caches| ==> 1 <= |caches[i]| <= ENTRIES_PER_CACHE
  }

  predicate AllFull(caches: seq<seq<Address>>, from: nat) {
    forall i :: from <= i < |caches| ==> |caches[i]| == ENTRIES_PER_CACHE
  }

  predicate AllButLastFull(caches: seq<seq<Address>>, from: nat) {
    forall i :: from <= i < |caches| - 1 ==> |caches[i]| == ENTRIES_PER_CACHE
  }

  const WORDS_PER_PAGE := SWEEP_PAGE / (NODE_SIZE * BITS)

  // ---------------------------------------------------------------- freeing one slot after the other

  /** The caches on the pool, the last one pushed at the end, and alloc_cache: the first free of its ptrs. */
  datatype Out = Out(pool: seq<seq<Address>>, cache: Option<seq<Address>>)

  /** All that was pushed, and what waits in the cache. */
  function Freed(o: Out): seq<Address> {
    if o.cache.Some? then Flat(o.pool) + o.cache.value else Flat(o.pool)
  }

  predicate Filled(o: Out) {
    o.cache.Some? ==> 1 <= |o.cache.value| <= ENTRIES_PER_CACHE
  }

  /** pReturnCache: the cache is pushed if the pool is still of this phase, and dropped otherwise. */
  function Returned(o: Out, current: bool): Out {
    if current && o.cache.Some? then Out(o.pool + [o.cache.value], None) else o.(cache := None)
  }

  /** setAsFree */
  function Put(o: Out, current: bool, p: Address): (r: Out)
    requires Filled(o)
    ensures Filled(r)
  {
    if o.cache.Some? && |o.cache.value| < ENTRIES_PER_CACHE then o.(cache := Some(o.cache.value + [p]))
    else Returned(o, current).(cache := Some([p]))
  }

  function PutAll(o: Out, current: bool, xs: seq<Address>): (r: Out)
    requires Filled(o)
    ensures Filled(r)
  {
    if xs == [] then o else Put(PutAll(o, current, xs[..|xs| - 1]), current, xs[|xs| - 1])
  }

  lemma {:induction false} PutAllConcat(o: Out, current: bool, xs: seq<Address>, ys: seq<Address>)
    requires Filled(o)
    ensures PutAll(o, current, xs + ys) == PutAll(PutAll(o, current, xs), current, ys)
  {
    if ys == [] {
      assert xs + ys == xs;
    } else {
      var k := |ys| - 1;
      assert (xs + ys)[..|xs + ys| - 1] == xs + ys[..k];
      PutAllConcat(o, current, xs, ys[..k]);
    }
  }

  lemma PutAllSnoc(o: Out, current: bool, xs: seq<Address>, p: Address)
    requires Filled(o)
    ensures PutAll(o, current, xs + [p]) == Put(PutAll(o, current, xs), current, p)
  {
    assert (xs + [p])[..|xs|] == xs;
  }

  /** While the pool is of this phase exactly the given slots are freed, in order, and only full caches are pushed;
      otherwise nothing is pushed. */
  lemma {:induction false} PutAllFrees(o: Out, current: bool, xs: seq<Address>)
    requires Filled(o)
    ensures var r := PutAll(o, current, xs);
            if current then Freed(r) == Freed(o) + xs && o.pool <= r.pool && AllFull(r.pool, |o.pool|) else r.pool == o.pool
  {
    if xs != [] {
      var k := |xs| - 1;
      PutAllFrees(o, current, xs[..k]);
      PutFrees(PutAll(o, current, xs[..k]), current, xs[k]);
      assert xs == xs[..k] + [xs[k]];
      assert Freed(o) + xs[..k] + [xs[k]] == Freed(o) + xs;
    }
  }

  /** A sweeper that the pool has left behind pushes nothing. */
  lemma PutAllStale(o: Out, xs: seq<Address>)
    requires Filled(o)
    ensures PutAll(o, false, xs).pool == o.pool
  {
    PutAllFrees(o, false, xs);
  }

  lemma PutFrees(o: Out, current: bool, p: Address)
    requires Filled(o)
    ensures var r := Put(o, current, p);
            if current then Freed(r) == Freed(o) + [p] && o.pool <= r.pool && AllFull(r.pool, |o.pool|) else r.pool == o.pool
  {
    if current && o.cache.Some? { FlatPush(o.pool, o.cache.value); }
  }

  // ---------------------------------------------------------------- the sweep as a function

  /** n slots from an address on. */
  function SweepRun(o: Out, current: bool, from: Address, n: nat, marked: Address -> bool): (r: Out)
    requires Filled(o)
    ensures Filled(r)
    decreases n, from
  {
    if n == 0 then o
    else
      var r := SweepRun(o, current, from, n - 1, marked);
      var p := from + (n - 1) * NODE_SIZE;
      if marked(p) then r else Put(r, current, p)
  }

  /** The first n of some lists of slots, list by list. */
  function SweepLists(o: Out, current: bool, slotsOf: nat -> seq<Address>, n: nat, marked: Address -> bool): (r: Out)
    requires Filled(o)
    ensures Filled(r)
  {
    if n == 0 then o else PutAll(SweepLists(o, current, slotsOf, n - 1, marked), current, Free(slotsOf(n - 1), marked))
  }

  lemma {:induction false} SweepRunConcat(o: Out, current: bool, from: Address, n: nat, k: nat, marked: Address -> bool)
    requires Filled(o)
    ensures SweepRun(SweepRun(o, current, from, n, marked), current, from + n * NODE_SIZE, k, marked) == SweepRun(o, current, from, n + k, marked)
    decreases k
  {
    if k > 0 { SweepRunConcat(o, current, from, n, k - 1, marked); }
  }

  lemma {:induction false} SweepRunFrees(o: Out, current: bool, from: Address, n: nat, marked: Address -> bool)
    requires Filled(o)
    ensures SweepRun(o, current, from, n, marked) == PutAll(o, current, Free(Run(from, n), marked))
    decreases n
  {
    if n == 0 {
      assert Run(from, 0) == [];
    } else {
      SweepRunFrees(o, current, from, n - 1, marked);
      FreeNext(from, n - 1, marked);
      PutAllNext(o, current, Free(Run(from, n - 1), marked), Free(Run(from, n), marked), from + (n - 1) * NODE_SIZE, marked);
    }
  }

  lemma PutAllNext(o: Out, current: bool, xs: seq<Address>, ys: seq<Address>, p: Address, marked: Address -> bool)
    requires Filled(o) && ys == if marked(p) then xs else xs + [p]
    ensures var r := PutAll(o, current, xs); PutAll(o, current, ys) == if marked(p) then r else Put(r, current, p)
  {
    PutAllSnoc(o, current, xs, p);
  }

  lemma SweepListsNext(o: Out, current: bool, slotsOf: nat -> seq<Address>, n: nat, marked: Address -> bool)
    requires Filled(o)
    ensures SweepLists(o, current, slotsOf, n + 1, marked)
            == PutAll(SweepLists(o, current, slotsOf, n, marked), current, Free(slotsOf(n), marked))
  {
  }

  /** Sweeping n pages frees the unmarked slots of these pages, one after the other. */
  lemma {:induction false} SweepListsFree(o: Out, current: bool, slotsOf: nat -> seq<Address>, n: nat, marked: Address -> bool)
    requires Filled(o)
    ensures SweepLists(o, current, slotsOf, n, marked) == PutAll(o, current, Free(Concat(slotsOf, n), marked))
  {
    if n > 0 {
      SweepListsFree(o, current, slotsOf, n - 1, marked);
      FreeConcat(Concat(slotsOf, n - 1), slotsOf(n - 1), marked);
      PutAllConcat(o, current, Free(Concat(slotsOf, n - 1), marked), Free(slotsOf(n - 1), marked));
    }
  }

  // ---------------------------------------------------------------- the methods

  ghost predicate Describes(heap: seq<Address>, bits: Bits, slotsOf: nat -> seq<Address>, marked: Address -> bool) {
    && (forall n {:trigger Page(heap, n)} :: 0 <= n < |heap| * SWEEP_PAGES_PER_CHUNK ==> slotsOf(n) == PageSlots(Page(heap, n)))
    && (forall p: Address {:trigger MarkParams(p)} :: marked(p) == Marked(bits, p))
  }

  /** localAlloc and the parts of the allocator that a sweep touches. */
  class Sweeper {
    const heap: seq<Address>
    const bits: Bits
    /** The slots of each page, and the test of a slot's mark bit. */
    ghost const slotsOf: nat -> seq<Address>
    ghost const marked: Address -> bool
    var out: Out
    /** The version of the pool's head. */
    var headVer: nat
    var localVer: nat
    /** sweep_counter: the phase and the next page. */
    var scPhase: nat
    var scCounter: nat

    ghost predicate Layout() {
      Aligned(heap) && Describes(heap, bits, slotsOf, marked)
    }

    ghost predicate Valid()
      reads this
    {
      Filled(out) && Layout()
    }

    constructor (heap: seq<Address>, bits: Bits, pool: seq<seq<Address>>, phase: nat)
      requires Aligned(heap)
      ensures Valid() && this.heap == heap && this.bits == bits && out == Out(pool, None)
      ensures headVer == localVer == scPhase == phase && scCounter == 0
    {
      this.heap, this.bits := heap, bits;
      slotsOf, marked := SlotsOf(heap), (p: Address) => Marked(bits, p);
      out, headVer, localVer, scPhase, scCounter := Out(pool, None), phase, phase, phase, 0;
    }

    /** pReturnCache; a cache that cannot be pushed any more is cut down to one object. */
    method ReturnCache() returns (pushed: bool)
      requires Valid() && out.cache.Some?
      modifies this`out
      ensures Valid() && pushed == (headVer == localVer)
      ensures out == if pushed then Returned(old(out), true) else old(out).(cache := Some(old(out).cache.value[..1]))
    {
      if headVer != localVer {
        out := out.(cache := Some(out.cache.value[..1]));
        return false;
      }
      out := Out(out.pool + [out.cache.value], None);
      return true;
    }

    /** setAsFree */
    method SetAsFree(obj: Address)
      requires Valid()
      modifies this`out
      ensures Valid() && out == Put(old(out), headVer == localVer, obj)
    {
      if out.cache.Some? {
        if |out.cache.value| < ENTRIES_PER_CACHE {
          out := out.(cache := Some(out.cache.value + [obj]));
          return;
        } else {
          var _ := ReturnCache();
        }
      }
      out := out.(cache := Some([obj]));
    }

    /** The inner loop of process_sweep_page: the 32 mark bits of one word. */
    method SweepWord(from: Address, hPtr: Address)
      requires Valid() && forall b :: 0 <= b < BITS ==> ParamsAt(from, b) == Mark(hPtr, b)
      modifies this`out
      ensures Valid() && out == SweepRun(old(out), headVer == localVer, from, BITS, marked)
    {
      var markBits := bits(hPtr);
      var obj := from;
      for b := 0 to BITS
        invariant Valid() && obj == from + b * NODE_SIZE
        invariant out == SweepRun(old(out), headVer == localVer, from, b, marked)
      {
        assert MarkParams(obj) == ParamsAt(from, b) == Mark(hPtr, b);
        assert marked(obj) == (b in markBits);
        if b !in markBits { SetAsFree(obj); }
        obj := obj + NODE_SIZE;
      }
    }

    /** The outer loop of process_sweep_page: obj and hPtr move together, and hPtr is always where the marker has the bits of
        obj. */
    method SweepWords(page: Address, start: Address, word: Address, ghost base: Address, ghost k: nat, ghost skipped: nat)
      returns (ghost done: nat)
      requires Valid() && CursorAt(base, k, page, start, word, skipped)
      modifies this`out
      ensures Valid() && RunTo(start, done, page + SWEEP_PAGE)
      ensures out == SweepRun(old(out), headVer == localVer, start, done, marked)
    {
      var obj: Address, hPtr: Address := start, word;
      ghost var w: nat := skipped;
      done := 0;
      while obj < page + SWEEP_PAGE
        invariant Filled(out) && CursorAt(base, k, page, obj, hPtr, w) && RunTo(start, done, obj)
        invariant out == SweepRun(old(out), headVer == localVer, start, done, marked)
        decreases page + SWEEP_PAGE - obj
      {
        CursorMoves(base, k, page, obj, hPtr, w, start, done);
        SweepWord(obj, hPtr);
        SweepRunConcat(old(out), headVer == localVer, start, done, BITS, marked);
        obj, hPtr := obj + BITS * NODE_SIZE, hPtr + SIZEOF_WORD;
        w, done := w + 1, done + BITS;
      }
    }

    /** process_sweep_page */
    method ProcessSweepPage(n: nat)
      requires Valid() && n < |heap| * SWEEP_PAGES_PER_CHUNK
      modifies this`out
      ensures Valid() && out == PutAll(old(out), headVer == localVer, Free(slotsOf(n), marked))
    {
      var page := Page(heap, n);
      var base: Address := page - page % CHUNK_SIZE;
      var hPtr: Address := base + page % CHUNK_SIZE / MEM_PER_BYTE;
      var obj: Address := page;
      if page == base {
        hPtr := hPtr + IGNORED_WORDS * SIZEOF_WORD;
        if IGNORED_WORDS != 0 { obj := obj + HEADER_SIZE; }
      }
      ghost var k := n % SWEEP_PAGES_PER_CHUNK;
      ghost var skipped: nat := if k == 0 then IGNORED_WORDS else 0;
      CursorStart(heap, n, obj, hPtr, skipped);
      ghost var done := SweepWords(page, obj, hPtr, base, k, skipped);
      PageIsRun(page, obj, done);
      SweepRunFrees(old(out), headVer == localVer, obj, done, marked);
    }

    /** sweep: pages are taken from the counter as long as it is of this phase. */
    method Sweep()
      requires Valid()
      modifies this
      ensures Valid() && out.cache == None && headVer == old(headVer) && localVer == old(localVer)
      ensures headVer == localVer && old(scPhase) == localVer && old(scCounter) == 0 ==>
                out == Returned(SweepLists(old(out).(cache := None), true, slotsOf, |heap| * SWEEP_PAGES_PER_CHUNK, marked), true)
      ensures headVer != localVer || old(scPhase) != localVer ==> out.pool == old(out.pool)
    {
      out := out.(cache := None);
      ghost var start := out;
      var numSweepPages := |heap| * SWEEP_PAGES_PER_CHUNK;
      ghost var first, current := scCounter, headVer == localVer;
      while scPhase == localVer && scCounter < numSweepPages
        invariant Valid() && headVer == old(headVer) && localVer == old(localVer) && scPhase == old(scPhase)
        invariant first == 0 ==> scCounter <= numSweepPages && out == SweepLists(start, current, slotsOf, scCounter, marked)
        invariant headVer != localVer ==> out.pool == start.pool
        invariant scPhase != localVer ==> out == start
        decreases numSweepPages - scCounter
      {
        var page := scCounter;
        scCounter := scCounter + 1;
        PutAllStale(out, Free(slotsOf(page), marked));
        SweepListsNext(start, current, slotsOf, page, marked);
        ProcessSweepPage(page);
      }
      if out.cache.Some? { var _ := ReturnCache(); }
      out := out.(cache := None);
    }
  }

  /** The mark bit of the b-th slot from an address on. */
  function ParamsAt(from: Address, b: nat): Mark {
    MarkParams(from + b * NODE_SIZE)
  }

  /** Where the two parts of the cursor are after w words of the page. */
  predicate CursorAt(base: Address, k: nat, page: Address, obj: Address, hPtr: Address, w: nat) {
    && base % CHUNK_SIZE == 0 && k < SWEEP_PAGES_PER_CHUNK && page == base + k * SWEEP_PAGE && w <= WORDS_PER_PAGE
    && obj == page + w * BITS * NODE_SIZE && hPtr == base + k * SWEEP_PAGE / MEM_PER_BYTE + w * SIZEOF_WORD
  }

  lemma CursorStart(heap: seq<Address>, n: nat, obj: Address, hPtr: Address, w: nat)
    requires Aligned(heap) && n < |heap| * SWEEP_PAGES_PER_CHUNK
    requires var page := Page(heap, n);
             && w == (if n % SWEEP_PAGES_PER_CHUNK == 0 then IGNORED_WORDS else 0)
             && obj == (if page % CHUNK_SIZE == 0 then page + HEADER_SIZE else page)
             && hPtr == page - page % CHUNK_SIZE + page % CHUNK_SIZE / MEM_PER_BYTE
                        + (if page % CHUNK_SIZE == 0 then IGNORED_WORDS * SIZEOF_WORD else 0)
    ensures var page := Page(heap, n);
            CursorAt(page - page % CHUNK_SIZE, n % SWEEP_PAGES_PER_CHUNK, page, obj, hPtr, w) && obj == FirstSlot(page)
    ensures hPtr % SIZEOF_WORD == 0 // as the code asserts
  {
    PageShape(heap, n);
    FirstCursor(heap[n / SWEEP_PAGES_PER_CHUNK], n % SWEEP_PAGES_PER_CHUNK, Page(heap, n), obj, hPtr, w);
  }

  lemma FirstCursor(base: Address, k: nat, page: Address, obj: Address, hPtr: Address, w: nat)
    requires base % CHUNK_SIZE == 0 && k < SWEEP_PAGES_PER_CHUNK && page == base + k * SWEEP_PAGE
    requires w == if k == 0 then IGNORED_WORDS else 0
    requires obj == if k == 0 then page + HEADER_SIZE else page
    requires hPtr == base + k * SWEEP_PAGE / MEM_PER_BYTE + w * SIZEOF_WORD
    ensures CursorAt(base, k, page, obj, hPtr, w)
    ensures hPtr % SIZEOF_WORD == 0
  {
    assert hPtr == base + (k * 64 + w) * SIZEOF_WORD;
    WordAligned(base, k * 64 + w);
  }

  lemma WordAligned(base: Address, w: nat)
    requires base % CHUNK_SIZE == 0
    ensures (base + w * SIZEOF_WORD) % SIZEOF_WORD == 0
  {
  }

  lemma PageIsRun(page: Address, first: Address, done: nat)
    requires first == FirstSlot(page) && RunTo(first, done, page + SWEEP_PAGE)
    ensures PageSlots(page) == Run(first, done)
  {
  }

  /** done slots lie from first up to obj. */
  predicate RunTo(first: Address, done: nat, obj: Address) {
    obj == first + done * NODE_SIZE
  }

  lemma CursorMoves(base: Address, k: nat, page: Address, obj: Address, hPtr: Address, w: nat, first: Address, done: nat)
    requires CursorAt(base, k, page, obj, hPtr, w) && RunTo(first, done, obj) && obj < page + SWEEP_PAGE
    ensures CursorAt(base, k, page, obj + BITS * NODE_SIZE, hPtr + SIZEOF_WORD, w + 1)
    ensures RunTo(first, done + BITS, obj + BITS * NODE_SIZE)
    ensures forall b :: 0 <= b < BITS ==> ParamsAt(obj, b) == Mark(hPtr, b)
  {
    forall b | 0 <= b < BITS ensures ParamsAt(obj, b) == Mark(hPtr, b) {
      CursorAgrees(base, k, w, b);
      assert obj + b * NODE_SIZE == base + k * SWEEP_PAGE + (w * BITS + b) * NODE_SIZE;
    }
  }

  lemma {:induction false} DescribedSlots(heap: seq<Address>, bits: Bits, slotsOf: nat -> seq<Address>, marked: Address -> bool, n: nat)
    requires Describes(heap, bits, slotsOf, marked) && n <= |heap| * SWEEP_PAGES_PER_CHUNK
    ensures Concat(slotsOf, n) == SlotsBelow(heap, n)
  {
    if n > 0 {
      DescribedSlots(heap, bits, slotsOf, marked, n - 1);
      assert slotsOf(n - 1) == PageSlots(Page(heap, n - 1)) == SlotsOf(heap)(n - 1);
    }
  }

  /** The caches that an undisturbed sweep pushes: together they have the unmarked payload slots in the order of the sweep,
      none is empty, and all but the last are full. */
  lemma SweepPushes(o: Out, heap: seq<Address>, bits: Bits, slotsOf: nat -> seq<Address>, marked: Address -> bool)
    requires o.cache.None? && Describes(heap, bits, slotsOf, marked)
    ensures var pool := Returned(SweepLists(o, true, slotsOf, |heap| * SWEEP_PAGES_PER_CHUNK, marked), true).pool;
            && Flat(pool) == Flat(o.pool) + Free(AllSlots(heap), marked)
            && o.pool <= pool && WellFilled(pool, |o.pool|) && AllButLastFull(pool, |o.pool|)
  {
    ListsPush(o, slotsOf, |heap| * SWEEP_PAGES_PER_CHUNK, marked);
    DescribedSlots(heap, bits, slotsOf, marked, |heap| * SWEEP_PAGES_PER_CHUNK);
  }

  lemma ListsPush(o: Out, slotsOf: nat -> seq<Address>, n: nat, marked: Address -> bool)
    requires o.cache.None?
    ensures var pool := Returned(SweepLists(o, true, slotsOf, n, marked), true).pool;
            && Flat(pool) == Flat(o.pool) + Free(Concat(slotsOf, n), marked)
            && o.pool <= pool && WellFilled(pool, |o.pool|) && AllButLastFull(pool, |o.pool|)
  {
    var xs := Free(Concat(slotsOf, n), marked);
    SweepListsFree(o, true, slotsOf, n, marked);
    PutAllFrees(o, true, xs);
    LastPush(o.pool, PutAll(o, true, xs));
  }

  lemma LastPush(pool: seq<seq<Address>>, r: Out)
    requires Filled(r) && pool <= r.pool && AllFull(r.pool, |pool|)
    ensures var pool' := Returned(r, true).pool;
            Flat(pool') == Freed(r) && pool <= pool' && WellFilled(pool', |pool|) && AllButLastFull(pool', |pool|)
  {
    if r.cache.Some? { FlatPush(r.pool, r.cache.value); }
  }

  /** They partition the unmarked payload slots of all chunks: each is there exactly once, no marked one, and nothing of a
      header. */
  lemma SweepPartitions(heap: seq<Address>, bits: Bits, slotsOf: nat -> seq<Address>, marked: Address -> bool, p: Address)
    requires Aligned(heap) && Describes(heap, bits, slotsOf, marked)
    ensures Distinct(Free(AllSlots(heap), marked))
    ensures p in Free(AllSlots(heap), marked) <==> InPayload(heap, p) && !Marked(bits, p)
  {
    EverySlotOnce(heap);
    FreeDistinct(AllSlots(heap), marked);
    FreeMembers(AllSlots(heap), marked, p);
    assert marked(p) == (MarkParams(p).bit in bits(MarkParams(p).word));
  }
}
