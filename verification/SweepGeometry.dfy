/** The heap layout of allocator.h, the marker's bit arithmetic and the sweeper's own cursor, trace.c; and a sweep that
    nobody disturbs. */
module SweepGeometry {
  import opened Common
  import opened Division

  type Address = nat

  const CHUNK_SIZE := 0x80000
  const NODE_SIZE := 32
  const MEM_PER_BYTE := 128                                   // heap bytes for one byte of mark bits
  const HEADER_SIZE := CHUNK_SIZE / MEM_PER_BYTE
  const SWEEP_PAGE := 0x10000
  const SWEEP_PAGES_PER_CHUNK := CHUNK_SIZE / SWEEP_PAGE
  const SIZEOF_WORD := 8
  const IGNORED_WORDS := HEADER_SIZE / (MEM_PER_BYTE * SIZEOF_WORD)
  const HEADER_WORDS := HEADER_SIZE / SIZEOF_WORD

  // ---------------------------------------------------------------- the marker

  datatype Mark = Mark(word: Address, bit: nat)

  /** get_mark_params: the word of the chunk's header, and the bit in it, for an object. */
  function MarkParams(p: Address): Mark {
    var offset := p % CHUNK_SIZE / NODE_SIZE;
    Mark(p - p % CHUNK_SIZE + offset / BITS * SIZEOF_WORD, offset % BITS)
  }

  /** The slot that a mark bit belongs to. */
  function SlotOf(m: Mark): Address {
    m.word - m.word % CHUNK_SIZE + (m.word % CHUNK_SIZE / SIZEOF_WORD * BITS + m.bit) * NODE_SIZE
  }

  /** Slots and mark bits correspond one to one, and the mark bit is in the header of the slot's own chunk. */
  lemma MarkOfSlot(p: Address)
    requires p % NODE_SIZE == 0
    ensures SlotOf(MarkParams(p)) == p
    ensures var base := p - p % CHUNK_SIZE; base <= MarkParams(p).word < base + HEADER_SIZE && MarkParams(p).bit < BITS
  {
    var base, offset := p - p % CHUNK_SIZE, p % CHUNK_SIZE / NODE_SIZE;
    SlotOffset(p);
    BaseAndRest(base, offset / BITS * SIZEOF_WORD);
    assert offset / BITS * SIZEOF_WORD / SIZEOF_WORD == offset / BITS;
    assert offset / BITS * BITS + offset % BITS == offset;
  }

  lemma SlotOffset(p: Address)
    requires p % NODE_SIZE == 0
    ensures p % CHUNK_SIZE == p % CHUNK_SIZE / NODE_SIZE * NODE_SIZE
    ensures p % CHUNK_SIZE / NODE_SIZE / BITS * SIZEOF_WORD < HEADER_SIZE
  {
    var q := p / CHUNK_SIZE;
    assert p % CHUNK_SIZE == (p / NODE_SIZE - q * 16384) * NODE_SIZE;
  }

  lemma BaseAndRest(base: Address, rest: nat)
    requires base % CHUNK_SIZE == 0 && rest < CHUNK_SIZE
    ensures (base + rest) % CHUNK_SIZE == rest
  {
    Divides(base / CHUNK_SIZE, CHUNK_SIZE, rest);
  }

  lemma SlotOfMark(m: Mark)
    requires m.word % SIZEOF_WORD == 0 && m.word % CHUNK_SIZE < HEADER_SIZE && m.bit < BITS
    ensures MarkParams(SlotOf(m)) == m && SlotOf(m) % NODE_SIZE == 0
  {
    var base, w := m.word - m.word % CHUNK_SIZE, m.word % CHUNK_SIZE / SIZEOF_WORD;
    assert m.word % CHUNK_SIZE == w * SIZEOF_WORD by { WordOffset(m.word); }
    SlotParams(base, w, m.bit);
  }

  lemma WordOffset(word: Address)
    requires word % SIZEOF_WORD == 0
    ensures word % CHUNK_SIZE % SIZEOF_WORD == 0
  {
  }

  lemma SlotParams(base: Address, w: nat, bit: nat)
    requires base % CHUNK_SIZE == 0 && w < HEADER_WORDS && bit < BITS
    ensures MarkParams(base + (w * BITS + bit) * NODE_SIZE) == Mark(base + w * SIZEOF_WORD, bit)
    ensures (base + (w * BITS + bit) * NODE_SIZE) % NODE_SIZE == 0
  {
    BaseAndRest(base, (w * BITS + bit) * NODE_SIZE);
    Divides(w * BITS + bit, NODE_SIZE, 0);
    Divides(w, BITS, bit);
    Divides(base / NODE_SIZE + w * BITS + bit, NODE_SIZE, 0);
  }

  // ---------------------------------------------------------------- the slots of a page, of a chunk, of the heap

  /** Chunks begin at multiples of the chunk size, and no two at the same. */
  predicate Aligned(heap: seq<Address>) {
    && (forall i :: 0 <= i < |heap| ==> heap[i] % CHUNK_SIZE == 0)
    && (forall i, j :: 0 <= i < j < |heap| ==> heap[i] != heap[j])
  }

  /** Sweep page n. */
  function Page(heap: seq<Address>, n: nat): Address
    requires n < |heap| * SWEEP_PAGES_PER_CHUNK
  {
    heap[n / SWEEP_PAGES_PER_CHUNK] + n % SWEEP_PAGES_PER_CHUNK * SWEEP_PAGE
  }

  /** The first slot of a page; the first page of a chunk begins with the header. */
  function FirstSlot(page: Address): Address {
    if page % CHUNK_SIZE == 0 then page + HEADER_SIZE else page
  }

  /** n slots from an address on. */
  function Run(from: Address, n: nat): (r: seq<Address>)
    ensures |r| == n && forall k :: 0 <= k < n ==> r[k] == from + k * NODE_SIZE
  {
    seq(n, k requires 0 <= k < n => from + k * NODE_SIZE)
  }

  function PageSlots(page: Address): seq<Address> {
    Run(FirstSlot(page), (page + SWEEP_PAGE - FirstSlot(page)) / NODE_SIZE)
  }

  /** The slots of each sweep page. */
  function SlotsOf(heap: seq<Address>): nat -> seq<Address> {
    (n: nat) => if n < |heap| * SWEEP_PAGES_PER_CHUNK then PageSlots(Page(heap, n)) else []
  }

  function Concat(slotsOf: nat -> seq<Address>, n: nat): seq<Address> {
    if n == 0 then [] else Concat(slotsOf, n - 1) + slotsOf(n - 1)
  }

  /** The slots of the first n sweep pages, in the order of the sweep. */
  function SlotsBelow(heap: seq<Address>, n: nat): seq<Address> {
    Concat(SlotsOf(heap), n)
  }

  /** p is a slot of chunk i: a multiple of the node size, past the header. */
  predicate PayloadSlot(heap: seq<Address>, i: nat, p: Address) {
    i < |heap| && heap[i] + HEADER_SIZE <= p < heap[i] + CHUNK_SIZE && (p - heap[i]) % NODE_SIZE == 0
  }

  /** The sweep page of a slot. */
  function PageOf(heap: seq<Address>, i: nat, p: Address): nat
    requires PayloadSlot(heap, i, p)
  {
    i * SWEEP_PAGES_PER_CHUNK + (p - heap[i]) / SWEEP_PAGE
  }

  lemma PageShape(heap: seq<Address>, n: nat)
    requires Aligned(heap) && n < |heap| * SWEEP_PAGES_PER_CHUNK
    ensures var i, k, page := n / SWEEP_PAGES_PER_CHUNK, n % SWEEP_PAGES_PER_CHUNK, Page(heap, n);
            && i < |heap| && page == heap[i] + k * SWEEP_PAGE && page % CHUNK_SIZE == k * SWEEP_PAGE
            && page - page % CHUNK_SIZE == heap[i]
  {
  }

  /** p is a payload slot, and page n is its page. */
  predicate OnPage(heap: seq<Address>, n: nat, p: Address) {
    PayloadSlot(heap, n / SWEEP_PAGES_PER_CHUNK, p) && PageOf(heap, n / SWEEP_PAGES_PER_CHUNK, p) == n
  }

  /** The slots of page n are the payload slots that lie in it. */
  lemma PageSlotsExact(heap: seq<Address>, n: nat, p: Address)
    requires Aligned(heap) && n < |heap| * SWEEP_PAGES_PER_CHUNK
    ensures p in PageSlots(Page(heap, n)) <==> OnPage(heap, n, p)
  {
    if p in PageSlots(Page(heap, n)) { SlotIsPayload(heap, n, p); }
    if OnPage(heap, n, p) { PayloadIsSlot(heap, n, p); }
  }

  lemma SlotIsPayload(heap: seq<Address>, n: nat, p: Address)
    requires Aligned(heap) && n < |heap| * SWEEP_PAGES_PER_CHUNK && p in PageSlots(Page(heap, n))
    ensures OnPage(heap, n, p)
  {
    var page, i, j := Page(heap, n), n / SWEEP_PAGES_PER_CHUNK, n % SWEEP_PAGES_PER_CHUNK;
    PageShape(heap, n);
    var k :| 0 <= k < |PageSlots(page)| && PageSlots(page)[k] == p;
    InPage(heap[i], j, FirstSlot(page), k, p);
  }

  /** Offsets within a chunk: the k-th slot from first on, in the j-th page. */
  lemma InPage(base: Address, j: nat, first: Address, k: nat, p: Address)
    requires first == FirstSlot(base + j * SWEEP_PAGE) && base % CHUNK_SIZE == 0 && j < SWEEP_PAGES_PER_CHUNK
    requires p == first + k * NODE_SIZE && k < (base + j * SWEEP_PAGE + SWEEP_PAGE - first) / NODE_SIZE
    ensures base + HEADER_SIZE <= p < base + CHUNK_SIZE && (p - base) % NODE_SIZE == 0 && (p - base) / SWEEP_PAGE == j
  {
    var rest := p - base - j * SWEEP_PAGE;
    Divides(j, SWEEP_PAGE, rest);
  }

  lemma PayloadIsSlot(heap: seq<Address>, n: nat, p: Address)
    requires Aligned(heap) && n < |heap| * SWEEP_PAGES_PER_CHUNK && OnPage(heap, n, p)
    ensures p in PageSlots(Page(heap, n))
  {
    var page, i, j := Page(heap, n), n / SWEEP_PAGES_PER_CHUNK, n % SWEEP_PAGES_PER_CHUNK;
    PageShape(heap, n);
    PageNumber(i, j, (p - heap[i]) / SWEEP_PAGE);
    var k := FromFirst(heap[i], j, FirstSlot(page), p);
    assert PageSlots(page)[k] == p;
  }

  lemma PageNumber(i: nat, j: nat, q: nat)
    requires i * SWEEP_PAGES_PER_CHUNK + q == i * SWEEP_PAGES_PER_CHUNK + j
    ensures q == j
  {}

  /** The other way round: a payload address in the j-th page is so many slots from the first. */
  lemma FromFirst(base: Address, j: nat, first: Address, p: Address) returns (k: nat)
    requires first == FirstSlot(base + j * SWEEP_PAGE) && base % CHUNK_SIZE == 0 && j < SWEEP_PAGES_PER_CHUNK
    requires base + HEADER_SIZE <= p < base + CHUNK_SIZE && (p - base) % NODE_SIZE == 0 && (p - base) / SWEEP_PAGE == j
    ensures p == first + k * NODE_SIZE && k < (base + j * SWEEP_PAGE + SWEEP_PAGE - first) / NODE_SIZE
  {
    k := (p - first) / NODE_SIZE;
    assert base + j * SWEEP_PAGE <= p < base + (j + 1) * SWEEP_PAGE;
    assert (p - first) % NODE_SIZE == 0;
  }

  lemma ChunksApart(heap: seq<Address>, i: nat, j: nat, p: Address)
    requires Aligned(heap) && PayloadSlot(heap, i, p) && PayloadSlot(heap, j, p)
    ensures i == j
  {
    BaseAndRest(heap[i], p - heap[i]);
    BaseAndRest(heap[j], p - heap[j]);
    assert heap[i] == heap[j];
  }

  lemma PagesApart(heap: seq<Address>, n: nat, k: nat, p: Address)
    requires Aligned(heap) && OnPage(heap, n, p) && OnPage(heap, k, p)
    ensures n == k
  {
    ChunksApart(heap, n / SWEEP_PAGES_PER_CHUNK, k / SWEEP_PAGES_PER_CHUNK, p);
  }

  lemma ConcatDistinct<T>(xs: seq<T>, ys: seq<T>)
    requires Distinct(xs) && Distinct(ys) && forall x :: x in xs ==> x !in ys
    ensures Distinct(xs + ys)
  {
    var all := xs + ys;
    forall i, j | 0 <= i < j < |all| ensures all[i] != all[j] {
      if i < |xs| <= j { assert xs[i] in xs && ys[j - |xs|] in ys; }
    }
  }

  /** The first n sweep pages have every payload slot that lies in them exactly once, and nothing else. */
  lemma {:induction false} SlotsBelowExact(heap: seq<Address>, n: nat)
    requires Aligned(heap) && n <= |heap| * SWEEP_PAGES_PER_CHUNK
    ensures Distinct(SlotsBelow(heap, n))
    ensures forall p :: p in SlotsBelow(heap, n) <==> exists k :: 0 <= k < n && OnPage(heap, k, p)
  {
    if n > 0 {
      SlotsBelowExact(heap, n - 1);
      var last := PageSlots(Page(heap, n - 1));
      assert SlotsBelow(heap, n) == SlotsBelow(heap, n - 1) + last;
      forall p ensures p in last <==> OnPage(heap, n - 1, p) { PageSlotsExact(heap, n - 1, p); }
      forall p | p in SlotsBelow(heap, n - 1) ensures p !in last {
        var k :| 0 <= k < n - 1 && OnPage(heap, k, p);
        if p in last { PagesApart(heap, k, n - 1, p); }
      }
      ConcatDistinct(SlotsBelow(heap, n - 1), last);
    }
  }

  ghost predicate InPayload(heap: seq<Address>, p: Address) {
    exists i: nat :: PayloadSlot(heap, i, p)
  }

  /** Over any number of chunks the sweep has every payload slot exactly once, and no header slot. */
  lemma EverySlotOnce(heap: seq<Address>)
    requires Aligned(heap)
    ensures Distinct(AllSlots(heap))
    ensures forall p :: p in AllSlots(heap) <==> InPayload(heap, p)
  {
    var pages := |heap| * SWEEP_PAGES_PER_CHUNK;
    SlotsBelowExact(heap, pages);
    forall p | InPayload(heap, p) ensures p in AllSlots(heap) { PayloadOnPage(heap, p); }
    forall p, k | 0 <= k < pages && OnPage(heap, k, p) ensures InPayload(heap, p) { PageIsPayload(heap, k, p); }
  }

  lemma PageIsPayload(heap: seq<Address>, k: nat, p: Address)
    requires OnPage(heap, k, p)
    ensures InPayload(heap, p)
  {
    assert PayloadSlot(heap, k / SWEEP_PAGES_PER_CHUNK, p);
  }

  lemma PayloadOnPage(heap: seq<Address>, p: Address)
    requires InPayload(heap, p)
    ensures exists k :: 0 <= k < |heap| * SWEEP_PAGES_PER_CHUNK && OnPage(heap, k, p)
  {
    var i: nat :| PayloadSlot(heap, i, p);
    PageOfSlot(heap, i, p);
  }

  function AllSlots(heap: seq<Address>): seq<Address> {
    SlotsBelow(heap, |heap| * SWEEP_PAGES_PER_CHUNK)
  }

  lemma PageOfSlot(heap: seq<Address>, i: nat, p: Address)
    requires PayloadSlot(heap, i, p)
    ensures PageOf(heap, i, p) < |heap| * SWEEP_PAGES_PER_CHUNK && OnPage(heap, PageOf(heap, i, p), p)
  {
    assert PageOf(heap, i, p) / SWEEP_PAGES_PER_CHUNK == i;
  }

  // ---------------------------------------------------------------- the cursor

  /** The cursor of process_sweep_page, w words and b bits after the start of the page, is where the marker has the mark bit
      of the object it stands for. */
  lemma CursorAgrees(base: Address, k: nat, w: nat, b: nat)
    requires base % CHUNK_SIZE == 0 && k < SWEEP_PAGES_PER_CHUNK && w < SWEEP_PAGE / (NODE_SIZE * BITS) && b < BITS
    ensures MarkParams(base + k * SWEEP_PAGE + (w * BITS + b) * NODE_SIZE)
            == Mark(base + k * SWEEP_PAGE / MEM_PER_BYTE + w * SIZEOF_WORD, b)
  {
    SlotParams(base, k * 64 + w, b);
    assert base + k * SWEEP_PAGE + (w * BITS + b) * NODE_SIZE == base + ((k * 64 + w) * BITS + b) * NODE_SIZE;
    assert k * SWEEP_PAGE / MEM_PER_BYTE == k * 512;
  }
}
