/** The hazard pointers of Reclamation and the test of Recycle, allocatorOA.c: addresses are cut to 32 bits, put into
    the hash table, and the nodes of a cache are tested against it, in place. */
module HazardFilter {
  import opened SimpleSet

  type Address = nat  // 0 is NULL

  /** (int)(long)ptr */
  function Low32(p: Address): Int32 {
    var u := p % WORD;
    if u <= INT_MAX then u as Int32 else (u - WORD) as Int32
  }

  // ---------------------------------------------------------------- collecting

  ghost function LowWords(slots: seq<Address>): set<Int32> {
    set i | 0 <= i < |slots| && slots[i] != 0 :: Low32(slots[i])
  }

  /** An address that is not NULL but whose low 32 bits are all zero. */
  predicate CutToZero(p: Address) {
    p != 0 && Low32(p) == 0
  }

  lemma LowWordsNext(slots: seq<Address>, i: nat)
    requires i < |slots|
    ensures LowWords(slots[..i + 1]) == LowWords(slots[..i]) + (if slots[i] != 0 then {Low32(slots[i])} else {})
  {
    var xs, ys := slots[..i], slots[..i + 1];
    forall x | x in LowWords(xs) ensures x in LowWords(ys) {
      var j :| 0 <= j < |xs| && xs[j] != 0 && Low32(xs[j]) == x;
      assert ys[j] == xs[j];
    }
    forall x | x in LowWords(ys) && !(slots[i] != 0 && x == Low32(slots[i])) ensures x in LowWords(xs) {
      var j :| 0 <= j < |ys| && ys[j] != 0 && Low32(ys[j]) == x;
      assert xs[j] == ys[j];
    }
    if slots[i] != 0 { assert ys[i] == slots[i]; }
  }

  /** The last part of Reclamation.  The table has twice as many cells as there are hazard pointers, so it never fills; the
      one assertion that can fail is the one against 0. */
  method Collect(hps: HashTable, slots: array<Address>) returns (ok: bool)
    requires hps.Valid() && slots.Length <= hps.max / 2
    modifies hps`used, hps.elements
    ensures hps.Valid()
    ensures ok <==> forall i :: 0 <= i < slots.Length ==> !CutToZero(slots[i])
    ensures ok ==> hps.Contents() == LowWords(slots[..]) && hps.HasRoom()
  {
    hps.Clean();
    assert LowWords(slots[..0]) == {};
    for i := 0 to slots.Length
      invariant hps.Valid() && hps.used <= i
      invariant hps.Contents() == LowWords(slots[..i])
      invariant forall j :: 0 <= j < i ==> !CutToZero(slots[j])
    {
      LowWordsNext(slots[..], i);
      assert slots[..][..i] == slots[..i] && slots[..][..i + 1] == slots[..i + 1];
      if slots[i] != 0 {
        var r := hps.Insert(Low32(slots[i]));
        if r != Done { return false; }
      }
    }
    assert slots[..] == slots[..slots.Length];
    return true;
  }

  /** An address is cut to zero exactly if it is a multiple of 2^32 other than 0. */
  lemma CutExactly(p: Address)
    ensures CutToZero(p) <==> p != 0 && p % WORD == 0
  {
  }

  /** A single hazard pointer to 2^32 trips the assertion. */
  method CollectTrips() returns (ok: bool)
    ensures !ok
  {
    var hps := new HashTable(2);
    var slots := new Address[1](_ => WORD);
    assert CutToZero(slots[0]);
    ok := Collect(hps, slots);
  }

  // ---------------------------------------------------------------- testing

  /** For each node, what the collections that its pfree comes to find in the hazard pointers, one after the other. */
  type Rounds = seq<seq<seq<Address>>>

  /** The contents of the table after these collections. */
  ghost function Renewed(table: set<Int32>, round: seq<seq<Address>>): set<Int32> {
    if round == [] then table else LowWords(round[|round| - 1])
  }

  /** The contents of the table after these nodes have been tested: freeing one may collect the hazard pointers anew. */
  ghost function TableAfter(ptrs: seq<Address>, held: set<Int32>, rounds: Rounds): set<Int32>
    requires |ptrs| <= |rounds|
  {
    if ptrs == [] then held
    else
      var n := |ptrs| - 1;
      var table := TableAfter(ptrs[..n], held, rounds);
      if Low32(ptrs[n]) in table then Renewed(table, rounds[n]) else table
  }

  ghost predicate MayBeHeld(ptrs: seq<Address>, held: set<Int32>, rounds: Rounds, i: nat)
    requires i < |ptrs| <= |rounds|
  {
    Low32(ptrs[i]) in TableAfter(ptrs[..i], held, rounds)
  }

  ghost function Unprotected(ptrs: seq<Address>, held: set<Int32>, rounds: Rounds): (r: seq<Address>)
    requires |ptrs| <= |rounds|
    ensures |r| <= |ptrs|
  {
    if ptrs == [] then []
    else
      var n := |ptrs| - 1;
      Unprotected(ptrs[..n], held, rounds) + (if MayBeHeld(ptrs, held, rounds, n) then [] else [ptrs[n]])
  }

  ghost function Protected(ptrs: seq<Address>, held: set<Int32>, rounds: Rounds): seq<Address>
    requires |ptrs| <= |rounds|
  {
    if ptrs == [] then []
    else
      var n := |ptrs| - 1;
      Protected(ptrs[..n], held, rounds) + (if MayBeHeld(ptrs, held, rounds, n) then [ptrs[n]] else [])
  }

  ghost predicate Uncut(round: seq<seq<Address>>) {
    forall c, h :: 0 <= c < |round| && h in round[c] ==> !CutToZero(h)
  }

  /** No hazard pointer collected on the way is cut to zero. */
  ghost predicate NoneCut(ptrs: seq<Address>, held: set<Int32>, rounds: Rounds)
    requires |ptrs| <= |rounds|
  {
    ptrs == [] ||
    (var n := |ptrs| - 1;
     NoneCut(ptrs[..n], held, rounds) && (MayBeHeld(ptrs, held, rounds, n) ==> Uncut(rounds[n])))
  }

  lemma {:induction false} CutEarly(ptrs: seq<Address>, held: set<Int32>, rounds: Rounds, i: nat)
    requires i <= |ptrs| <= |rounds| && !NoneCut(ptrs[..i], held, rounds)
    ensures !NoneCut(ptrs, held, rounds)
  {
    if i < |ptrs| {
      assert ptrs[..|ptrs| - 1][..i] == ptrs[..i];
      CutEarly(ptrs[..|ptrs| - 1], held, rounds, i);
    } else {
      assert ptrs[..i] == ptrs;
    }
  }

  /** The table has twice as many cells as there are hazard pointers. */
  predicate Fits(round: seq<seq<Address>>, max: nat) {
    forall c :: 0 <= c < |round| ==> |round[c]| <= max / 2
  }

  /** The collections that a pfree of the loop comes to. */
  method Renew(hps: HashTable, round: seq<seq<Address>>) returns (ok: bool)
    requires hps.Valid() && hps.HasRoom() && Fits(round, hps.max)
    modifies hps`used, hps.elements
    ensures hps.Valid()
    ensures ok <==> Uncut(round)
    ensures ok ==> hps.HasRoom() && hps.Contents() == Renewed(old(hps.Contents()), round)
  {
    for c := 0 to |round|
      invariant hps.Valid() && hps.HasRoom() && Uncut(round[..c])
      invariant hps.Contents() == if c == 0 then old(hps.Contents()) else LowWords(round[c - 1])
    {
      var slots := new Address[|round[c]|](i requires 0 <= i < |round[c]| => round[c][i]);
      assert slots[..] == round[c];
      ok := Collect(hps, slots);
      if !ok { return; }
    }
    assert round[..|round|] == round;
    ok := true;
  }

  /** The loop has come to the end of these nodes. */
  ghost predicate Tested(ptrs: seq<Address>, held: set<Int32>, rounds: Rounds, table: set<Int32>, kept: seq<Address>, freed: seq<Address>)
    requires |ptrs| <= |rounds|
  {
    && NoneCut(ptrs, held, rounds) && table == TableAfter(ptrs, held, rounds)
    && kept == Unprotected(ptrs, held, rounds) && freed == Protected(ptrs, held, rounds)
  }

  /** One turn of the loop. */
  lemma OneMore(ptrs: seq<Address>, held: set<Int32>, rounds: Rounds, i: nat, table: set<Int32>, kept: seq<Address>, freed: seq<Address>)
    requires i < |ptrs| <= |rounds| && Tested(ptrs[..i], held, rounds, table, kept, freed)
    ensures var p, round := ptrs[i], rounds[i];
      if Low32(p) !in table then Tested(ptrs[..i + 1], held, rounds, table, kept + [p], freed)
      else if Uncut(round) then Tested(ptrs[..i + 1], held, rounds, Renewed(table, round), kept, freed + [p])
      else !NoneCut(ptrs, held, rounds)
  {
    assert ptrs[..i + 1][..i] == ptrs[..i];
    if !NoneCut(ptrs[..i + 1], held, rounds) { CutEarly(ptrs, held, rounds, i + 1); }
  }

  /** The test of one node, and its pfree. */
  method Test(hps: HashTable, p: Address, round: seq<seq<Address>>) returns (ok: bool, held: bool)
    requires hps.Valid() && hps.HasRoom() && Fits(round, hps.max)
    modifies hps`used, hps.elements
    ensures hps.Valid() && held == (Low32(p) in old(hps.Contents()))
    ensures ok <==> (held ==> Uncut(round))
    ensures ok ==> hps.HasRoom()
    ensures ok ==> hps.Contents() == if held then Renewed(old(hps.Contents()), round) else old(hps.Contents())
  {
    ok := true;
    held := hps.Retrieve(Low32(p));
    if held { ok := Renew(hps, round); }
  }

  /** The loop of Recycle over the nodes of a cache: those that may be held are freed again, the others move to the
      front, in their order.  The loop ends early only where the collection within a pfree trips its assertion. */
  method Compact(hps: HashTable, ptrs: array<Address>, free: nat, rounds: Rounds)
    returns (ok: bool, k: nat, freed: seq<Address>)
    requires hps.Valid() && hps.HasRoom() && free <= ptrs.Length && hps.elements as object != ptrs
    requires free <= |rounds| && forall i :: 0 <= i < |rounds| ==> Fits(rounds[i], hps.max)
    modifies ptrs, hps`used, hps.elements
    ensures ok <==> NoneCut(old(ptrs[..free]), old(hps.Contents()), rounds)
    ensures ok ==> k <= free && ptrs[..k] == Unprotected(old(ptrs[..free]), old(hps.Contents()), rounds)
    ensures ok ==> freed == Protected(old(ptrs[..free]), old(hps.Contents()), rounds)
    ensures ok ==> hps.Valid() && hps.Contents() == TableAfter(old(ptrs[..free]), old(hps.Contents()), rounds)
    ensures ptrs[free..] == old(ptrs[free..])
  {
    ok, k, freed := true, 0, [];
    ghost var was, table := ptrs[..free], hps.Contents();
    ghost var kept: seq<Address> := [];
    for i := 0 to free
      invariant ok && k <= i && hps.Valid() && hps.HasRoom()
      invariant Tested(was[..i], table, rounds, hps.Contents(), kept, freed)
      invariant ptrs[..k] == kept && ptrs[i..] == old(ptrs[i..])
    {
      var p := ptrs[i];
      assert p == old(ptrs[i..])[0] == was[i];
      assert old(ptrs[i + 1..]) == old(ptrs[i..])[1..] == ptrs[i + 1..];
      OneMore(was, table, rounds, i, hps.Contents(), kept, freed);
      var held;
      ok, held := Test(hps, p, rounds[i]);
      if !ok {
        assert old(ptrs[free..]) == old(ptrs[i..])[free - i..];
        return;
      }
      if held {
        freed := freed + [p];
      } else {
        ptrs[k] := p;
        k, kept := k + 1, kept + [p];
      }
    }
    assert was[..free] == was;
  }

  /** Nothing is lost and nothing is had twice. */
  lemma {:induction false} FilterSplits(ptrs: seq<Address>, held: set<Int32>, rounds: Rounds)
    requires |ptrs| <= |rounds|
    ensures multiset(Unprotected(ptrs, held, rounds)) + multiset(Protected(ptrs, held, rounds)) == multiset(ptrs)
  {
    if ptrs != [] {
      FilterSplits(ptrs[..|ptrs| - 1], held, rounds);
      assert ptrs == ptrs[..|ptrs| - 1] + [ptrs[|ptrs| - 1]];
    }
  }

  lemma PrefixHeld(ptrs: seq<Address>, held: set<Int32>, rounds: Rounds, n: nat, i: nat)
    requires i < n <= |ptrs| <= |rounds|
    ensures MayBeHeld(ptrs[..n], held, rounds, i) == MayBeHeld(ptrs, held, rounds, i)
  {
    assert ptrs[..n][..i] == ptrs[..i];
  }

  /** Every node that is kept has passed its test, and every node that is freed has not. */
  lemma {:induction false} SplitByTest(ptrs: seq<Address>, held: set<Int32>, rounds: Rounds, p: Address, kept: bool) returns (i: nat)
    requires |ptrs| <= |rounds| && p in (if kept then Unprotected(ptrs, held, rounds) else Protected(ptrs, held, rounds))
    ensures i < |ptrs| && ptrs[i] == p && MayBeHeld(ptrs, held, rounds, i) == !kept
  {
    var n := |ptrs| - 1;
    if ptrs[n] == p && MayBeHeld(ptrs, held, rounds, n) == !kept {
      i := n;
    } else {
      i := SplitByTest(ptrs[..n], held, rounds, p, kept);
      PrefixHeld(ptrs, held, rounds, n, i);
    }
  }

  /** The hazard pointers that the table has been filled from when node i is tested: those of the last collection. */
  ghost function LastCollected(first: seq<Address>, ptrs: seq<Address>, rounds: Rounds, i: nat): seq<Address>
    requires i <= |ptrs| <= |rounds|
  {
    if i == 0 then first
    else if MayBeHeld(ptrs, LowWords(first), rounds, i - 1) && rounds[i - 1] != [] then rounds[i - 1][|rounds[i - 1]| - 1]
    else LastCollected(first, ptrs, rounds, i - 1)
  }

  lemma {:induction false} TableIsLast(first: seq<Address>, ptrs: seq<Address>, rounds: Rounds, i: nat)
    requires i <= |ptrs| <= |rounds|
    ensures TableAfter(ptrs[..i], LowWords(first), rounds) == LowWords(LastCollected(first, ptrs, rounds, i))
  {
    if i > 0 {
      TableIsLast(first, ptrs, rounds, i - 1);
      assert ptrs[..i][..i - 1] == ptrs[..i - 1];
    }
  }

  lemma LowAgrees(p: Address, q: Address)
    ensures Low32(p) == Low32(q) <==> p % WORD == q % WORD
  {}

  lemma InLowWords(slots: seq<Address>, p: Address)
    ensures Low32(p) in LowWords(slots) <==> exists h :: h in slots && h != 0 && Low32(h) == Low32(p)
  {
    if Low32(p) in LowWords(slots) {
      var j :| 0 <= j < |slots| && slots[j] != 0 && Low32(slots[j]) == Low32(p);
      assert slots[j] in slots;
    }
    if h :| h in slots && h != 0 && Low32(h) == Low32(p) {
      var j :| 0 <= j < |slots| && slots[j] == h;
    }
  }

  /** Although the table only has the low 32 bits: when a node is kept for the pool, no hazard pointer of the last
      collection before its test points to it. */
  lemma NoHazardIsKept(first: seq<Address>, ptrs: seq<Address>, rounds: Rounds, p: Address)
    requires |ptrs| <= |rounds| && p != 0 && p in Unprotected(ptrs, LowWords(first), rounds)
    ensures exists i :: 0 <= i < |ptrs| && ptrs[i] == p && p !in LastCollected(first, ptrs, rounds, i)
  {
    var i := SplitByTest(ptrs, LowWords(first), rounds, p, true);
    TableIsLast(first, ptrs, rounds, i);
    InLowWords(LastCollected(first, ptrs, rounds, i), p);
  }

  /** A node is freed again only if it agrees in the low 32 bits with a hazard pointer of the last collection. */
  lemma FreedAgrees(first: seq<Address>, ptrs: seq<Address>, rounds: Rounds, p: Address)
    requires |ptrs| <= |rounds| && p in Protected(ptrs, LowWords(first), rounds)
    ensures exists i, h :: 0 <= i < |ptrs| && ptrs[i] == p && h in LastCollected(first, ptrs, rounds, i) && h != 0 && h % WORD == p % WORD
  {
    var i := SplitByTest(ptrs, LowWords(first), rounds, p, false);
    TableIsLast(first, ptrs, rounds, i);
    InLowWords(LastCollected(first, ptrs, rounds, i), p);
    var h :| h in LastCollected(first, ptrs, rounds, i) && h != 0 && Low32(h) == Low32(p);
    LowAgrees(h, p);
  }
}
