/** The words of the collector as the source packs them: allocator.h and trace.c.  The other modules have records in
    their place; here the packed words are shown to say the same. */
module PackedWords {
  import opened Common
  import opened Division

  const BYTE := 0x100
  const HALF := 0x1_0000_0000

  // ---------------------------------------------------------------- DirtyRecord.dirtyNphase

  function PackDirty(w: DirtyWord): nat {
    w.tag * BYTE + if w.dirty then 1 else 0
  }

  function UnpackDirty(x: nat): DirtyWord {
    DirtyWord(x / BYTE, x % BYTE != 0)
  }

  /** Writing the low byte alone, as the owner does. */
  function ClearLowByte(x: nat): nat {
    x - x % BYTE
  }

  /** A CAS on the packed word succeeds exactly when it would on the record; the collector's test of the whole word against
      the shifted phase is a test of the tag; clearing the byte leaves the tag. */
  lemma DirtyWords(v: DirtyWord, w: DirtyWord, phase: nat)
    ensures UnpackDirty(PackDirty(w)) == w
    ensures PackDirty(v) == PackDirty(w) <==> v == w
    ensures PackDirty(w) >= phase * BYTE <==> w.tag >= phase
    ensures ClearLowByte(PackDirty(w)) == PackDirty(w.(dirty := false))
  {
  }

  // ---------------------------------------------------------------- sweep_counter

  function PackSweep(w: SweepWord): nat {
    w.phase * HALF + w.counter
  }

  /** PHASE and SCOUNTER give back what MAKE_SC packs, and adding 1 to the word takes the next page, as long as the counter
      fits its half. */
  lemma SweepWords(v: SweepWord, w: SweepWord)
    requires v.counter < HALF && w.counter < HALF
    ensures PackSweep(w) / HALF == w.phase && PackSweep(w) % HALF == w.counter
    ensures PackSweep(v) == PackSweep(w) <==> v == w
    ensures PackSweep(w) + 1 == PackSweep(w.(counter := w.counter + 1))
  {
  }

  // ---------------------------------------------------------------- mark words

  function Pow2(k: nat): (r: nat)
    ensures r > 0
  {
    if k == 0 then 1 else 2 * Pow2(k - 1)
  }

  /** The bits below k as a number. */
  function Low(bits: set<nat>, k: nat): (r: nat)
    ensures r < Pow2(k)
  {
    if k == 0 then 0 else Low(bits, k - 1) + (if k - 1 in bits then Pow2(k - 1) else 0)
  }

  function PackMark(w: MarkWord): nat {
    w.tag * HALF + Low(w.bits, BITS)
  }

  /** word & (1 << b) */
  predicate TestBit(x: nat, b: nat) {
    x / Pow2(b) % 2 == 1
  }

  /** word | (1 << b) */
  function SetBit(x: nat, b: nat): nat {
    if TestBit(x, b) then x else x + Pow2(b)
  }

  /** data & 0xFFFFFFFF00000000 */
  function HighHalf(x: nat): nat {
    x - x % HALF
  }

  lemma {:induction false} Pow2Sum(j: nat, k: nat)
    ensures Pow2(j + k) == Pow2(j) * Pow2(k)
  {
    if j > 0 { Pow2Sum(j - 1, k); }
  }

  lemma Pow2Of32()
    ensures Pow2(BITS) == HALF
  {
    assert Pow2(8) == 0x100;
    Pow2Sum(8, 8);
    Pow2Sum(16, 16);
  }

  lemma EvenMultiple(z: nat, p: nat, r: nat)
    requires 0 < p
    ensures (2 * z * p + r) / p % 2 == r / p % 2
  {
    var q, s := r / p, r % p;
    assert (2 * z + q) * p + s == 2 * z * p + r by { assert r == q * p + s; }
    Divides(2 * z + q, p, s);
  }

  lemma Regroup(y: nat, p: nat, t: nat)
    ensures y * (2 * p * t) == 2 * (y * t) * p
  {
    assert y * (2 * p * t) == 2 * (y * (p * t));
    assert y * (p * t) == y * t * p;
  }

  /** Bits from k on do not show below k. */
  lemma HighPart(y: nat, k: nat, r: nat, b: nat)
    requires b < k
    ensures TestBit(y * Pow2(k) + r, b) == TestBit(r, b)
  {
    var t := Pow2(k - b - 1);
    Pow2Sum(b + 1, k - b - 1);
    Regroup(y, Pow2(b), t);
    EvenMultiple(y * t, Pow2(b), r);
  }

  lemma {:induction false} LowBit(bits: set<nat>, k: nat, b: nat)
    requires b < k
    ensures TestBit(Low(bits, k), b) <==> b in bits
  {
    var e := if k - 1 in bits then 1 else 0;
    assert Low(bits, k) == e * Pow2(k - 1) + Low(bits, k - 1);
    if b == k - 1 {
      Divides(e, Pow2(k - 1), Low(bits, k - 1));
    } else {
      HighPart(e, k - 1, Low(bits, k - 1), b);
      LowBit(bits, k - 1, b);
    }
  }

  lemma {:induction false} LowAdd(bits: set<nat>, k: nat, b: nat)
    requires b !in bits
    ensures Low(bits + {b}, k) == Low(bits, k) + (if b < k then Pow2(b) else 0)
  {
    if k > 0 { LowAdd(bits, k - 1, b); }
  }

  lemma {:induction false} LowSame(bits: set<nat>, bits': set<nat>, k: nat)
    ensures Low(bits, k) == Low(bits', k) <==> forall b :: 0 <= b < k ==> (b in bits <==> b in bits')
  {
    if forall b :: 0 <= b < k ==> (b in bits <==> b in bits') {
      if k > 0 { LowSame(bits, bits', k - 1); }
    } else {
      var b :| 0 <= b < k && (b in bits) != (b in bits');
      LowBit(bits, k, b);
      LowBit(bits', k, b);
    }
  }

  /** Testing and setting a bit of the packed word is membership in, and adding to, the bits of the record; the other tests
      the code makes of mark words are tests of the tag; equal words are equal records. */
  lemma MarkWords(v: MarkWord, w: MarkWord, b: nat, phase: nat)
    requires b < BITS
    ensures TestBit(PackMark(w), b) <==> b in w.bits
    ensures SetBit(PackMark(w), b) == PackMark(w.(bits := w.bits + {b}))
    ensures HighHalf(PackMark(w)) == phase * HALF <==> w.tag == phase
    ensures PackMark(w) >= phase * HALF <==> w.tag >= phase
    ensures PackMark(v) == PackMark(w) <==> v.tag == w.tag && forall c :: 0 <= c < BITS ==> (c in v.bits <==> c in w.bits)
  {
    Pow2Of32();
    HighPart(w.tag, BITS, Low(w.bits, BITS), b);
    LowBit(w.bits, BITS, b);
    if b in w.bits { assert w.bits + {b} == w.bits; } else { LowAdd(w.bits, BITS, b); }
    Divides(w.tag, HALF, Low(w.bits, BITS));
    Divides(v.tag, HALF, Low(v.bits, BITS));
    LowSame(v.bits, w.bits, BITS);
  }

  // ---------------------------------------------------------------- links and keys of entry.h

  /** nextEntry: entries lie at even addresses, and the lowest bit marks the entry that holds the link as deleted. */
  datatype LinkWord = LinkWord(to: nat, marked: bool)

  function PackLink(w: LinkWord): nat {
    w.to + if w.marked then 1 else 0
  }

  predicate IsDeleted(p: nat) {
    p % 2 == 1
  }

  function MarkDeleted(p: nat): nat {
    if IsDeleted(p) then p else p + 1
  }

  function ClearDeleted(p: nat): nat {
    if IsDeleted(p) then p - 1 else p
  }

  /** The flag helpers read and write the mark and leave the address alone, and a CAS on the word is one on the record. */
  lemma LinkWords(v: LinkWord, w: LinkWord)
    requires v.to % 2 == 0 && w.to % 2 == 0
    ensures IsDeleted(PackLink(w)) == w.marked
    ensures MarkDeleted(PackLink(w)) == PackLink(w.(marked := true)) && ClearDeleted(PackLink(w)) == w.to
    ensures PackLink(v) == PackLink(w) <==> v == w
  {
  }

  const WORD64 := HALF * HALF

  predicate IsInt(x: int) {
    -0x8000_0000 <= x < 0x8000_0000
  }

  /** keyData = key: an int becomes a 64-bit word by sign extension. */
  function KeyData(key: int): (x: nat)
    requires IsInt(key)
    ensures x < WORD64
  {
    if key < 0 then key + WORD64 else key
  }

  /** The conversion to int of the low half of a word. */
  function ToInt(x: nat): int {
    var u := x % HALF;
    if u < 0x8000_0000 then u else u - HALF
  }

  /** getKey gives back the key that ListInsert stores; getData, the high half, gives back the sign of the key and never the
      data, which ListInsert does not store. */
  lemma KeysAndData(key: int)
    requires IsInt(key)
    ensures ToInt(KeyData(key)) == key
    ensures ToInt(KeyData(key) / HALF) == if key < 0 then -1 else 0
  {
  }
}
