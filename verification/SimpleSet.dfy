/** The hash table of simpleSet.c: a set of non-zero 32-bit integers in an open-addressing array. */
module SimpleSet {
  import opened Division

  const WORD := 0x1_0000_0000
  const INT_MAX := 0x7FFF_FFFF

  /** int */
  newtype Int32 = x: int | -0x8000_0000 <= x < 0x8000_0000

  /** The conversion of an int to unsigned. */
  function Unsigned(x: Int32): (u: nat)
    ensures u < WORD
  {
    if x < 0 then x as int + WORD else x as int
  }

  /** hash_fun: the sum wraps around at 2^32 before the remainder is taken. */
  function Cell(key: Int32, try: nat, max: nat): (c: nat)
    requires 0 < max
    ensures c < max
  {
    (Unsigned(key) + try) % WORD % max
  }

  // ---------------------------------------------------------------- the probes reach every cell

  /** The try at which the probes for key come to cell h. */
  function ProbeOf(key: Int32, max: nat, h: nat): nat
    requires h < max
  {
    var u := Unsigned(key);
    if u + max <= WORD then (if u % max <= h then h - u % max else h + max - u % max) else WORD - u + h
  }

  /** Within 2 * max tries the probes for any key reach every cell, although the sum may wrap around at 2^32 and max need
      not divide 2^32. */
  lemma ProbesCover(key: Int32, max: nat, h: nat)
    requires h < max <= INT_MAX
    ensures ProbeOf(key, max, h) < 2 * max && Cell(key, ProbeOf(key, max, h), max) == h
  {
    var u, t := Unsigned(key), ProbeOf(key, max, h);
    if u + max <= WORD {
      StraightProbe(u, max, h);
      assert u + t < WORD;
    } else {
      assert (u + t) % WORD == h;
      Divides(0, max, h);
    }
  }

  /** As long as the sum does not wrap around. */
  lemma StraightProbe(u: nat, max: nat, h: nat)
    requires h < max
    ensures var t := if u % max <= h then h - u % max else h + max - u % max; t < max && (u + t) % max == h
  {
    var q, r := u / max, u % max;
    assert u == q * max + r;
    if r <= h {
      Divides(q, max, h);
    } else {
      assert (q + 1) * max == q * max + max;
      Divides(q + 1, max, h);
    }
  }

  // ---------------------------------------------------------------- contents

  ghost function Values(cells: seq<Int32>): set<Int32> {
    set i | 0 <= i < |cells| && cells[i] != 0 :: cells[i]
  }

  function Used(cells: seq<Int32>): (n: nat)
    ensures n <= |cells|
  {
    if cells == [] then 0 else (if cells[0] == 0 then 0 else 1) + Used(cells[1..])
  }

  /** v is found at try t, past cells that hold other values. */
  ghost predicate FoundAt(cells: seq<Int32>, v: Int32, t: nat)
    requires cells != []
  {
    && cells[Cell(v, t, |cells|)] == v
    && forall u: nat {:trigger Cell(v, u, |cells|)} :: u < t ==>
         cells[Cell(v, u, |cells|)] != 0 && cells[Cell(v, u, |cells|)] != v
  }

  ghost predicate Found(cells: seq<Int32>, v: Int32)
    requires cells != []
  {
    exists t: nat :: FoundAt(cells, v, t)
  }

  /** Every value is where the probes for it find it, and nowhere else. */
  ghost predicate Placed(cells: seq<Int32>) {
    && cells != []
    && (forall i, j :: 0 <= i < j < |cells| && cells[i] != 0 ==> cells[i] != cells[j])
    && forall i :: 0 <= i < |cells| && cells[i] != 0 ==> Found(cells, cells[i])
  }

  lemma {:induction false} UsedUpdate(cells: seq<Int32>, h: nat, v: Int32)
    requires h < |cells| && cells[h] == 0 && v != 0
    ensures Used(cells[h := v]) == Used(cells) + 1
  {
    if h == 0 {
      assert cells[h := v][1..] == cells[1..];
    } else {
      assert cells[h := v][1..] == cells[1..][h - 1 := v];
      UsedUpdate(cells[1..], h - 1, v);
    }
  }

  /** A table with fewer values than cells has an empty cell. */
  lemma {:induction false} HasEmptyCell(cells: seq<Int32>) returns (h: nat)
    requires Used(cells) < |cells|
    ensures h < |cells| && cells[h] == 0
  {
    if cells[0] == 0 {
      h := 0;
    } else {
      h := HasEmptyCell(cells[1..]);
      h := h + 1;
    }
  }

  lemma {:induction false} NoneUsed(cells: seq<Int32>)
    requires forall i :: 0 <= i < |cells| ==> cells[i] == 0
    ensures Used(cells) == 0
  {
    if cells != [] { NoneUsed(cells[1..]); }
  }

  lemma {:induction false} AllUsed(cells: seq<Int32>)
    requires Used(cells) == |cells|
    ensures forall i :: 0 <= i < |cells| ==> cells[i] != 0
  {
    if cells != [] { AllUsed(cells[1..]); }
  }

  /** The probes for v up to try t have met only other values. */
  ghost predicate Passed(cells: seq<Int32>, v: Int32, t: nat)
    requires cells != []
  {
    forall u: nat {:trigger Cell(v, u, |cells|)} :: u < t ==>
      cells[Cell(v, u, |cells|)] != 0 && cells[Cell(v, u, |cells|)] != v
  }

  /** Filling the empty cell at which the probes for v end keeps every value in its place. */
  lemma PlacedInsert(cells: seq<Int32>, v: Int32, t: nat)
    requires Placed(cells) && v != 0 && v !in Values(cells) && cells[Cell(v, t, |cells|)] == 0 && Passed(cells, v, t)
    ensures Placed(cells[Cell(v, t, |cells|) := v])
  {
    var h := Cell(v, t, |cells|);
    var cells' := cells[h := v];
    forall i, j | 0 <= i < j < |cells'| && cells'[i] != 0 ensures cells'[i] != cells'[j] {
      if i != h && j != h { assert cells[i] != cells[j]; }
      if j == h { assert cells[i] in Values(cells); }
      if i == h && cells[j] != 0 { assert cells[j] in Values(cells); }
    }
    forall i | 0 <= i < |cells'| && cells'[i] != 0 ensures Found(cells', cells'[i]) {
      if i == h {
        assert FoundAt(cells', v, t);
      } else {
        assert cells[i] in Values(cells);
        FoundStill(cells, h, v, cells[i]);
      }
    }
  }

  lemma FoundStill(cells: seq<Int32>, h: nat, v: Int32, x: Int32)
    requires h < |cells| && cells[h] == 0 && x != 0 && x != v && Found(cells, x)
    ensures Found(cells[h := v], x)
  {
    var s: nat :| FoundAt(cells, x, s);
    assert FoundAt(cells[h := v], x, s);
  }

  lemma ValuesInsert(cells: seq<Int32>, h: nat, v: Int32)
    requires h < |cells| && cells[h] == 0 && v != 0
    ensures Values(cells[h := v]) == Values(cells) + {v}
  {
    var cells' := cells[h := v];
    forall x | x in Values(cells) + {v} ensures x in Values(cells') {
      if x in Values(cells) {
        var i :| 0 <= i < |cells| && cells[i] != 0 && cells[i] == x;
        assert cells'[i] == x;
      } else {
        assert cells'[h] == x;
      }
    }
  }

  /** Where the probes for key come to an empty cell, key is not in the table. */
  lemma AbsentWhenEmpty(cells: seq<Int32>, key: Int32, t: nat)
    requires Placed(cells) && cells[Cell(key, t, |cells|)] == 0 && Passed(cells, key, t)
    ensures key !in Values(cells)
  {
  }

  // ---------------------------------------------------------------- the table

  /** What the assertions of hash_insert refuse. */
  datatype Outcome = Done | ZeroAssertion | FullAssertion

  class HashTable {
    const max: nat
    var used: nat
    const elements: array<Int32>

    ghost predicate Valid()
      reads this, elements
    {
      && 0 < max <= INT_MAX && elements.Length == max && used == Used(elements[..]) && Placed(elements[..])
      && used <= max / 2 + 1
    }

    ghost function Contents(): set<Int32>
      reads this, elements
    {
      Values(elements[..])
    }

    /** Is there an empty cell? */
    ghost predicate HasRoom()
      reads this, elements
    {
      used < max
    }

    /** create_hash */
    constructor (size: nat)
      requires 0 < size <= INT_MAX
      ensures Valid() && max == size && used == 0 && Contents() == {} && fresh(elements)
    {
      max := size;
      used := 0;
      elements := new Int32[size](_ => 0);
      new;
      NoneUsed(elements[..]);
    }

    /** clean_hash */
    method Clean()
      requires Valid()
      modifies this`used, elements
      ensures Valid() && used == 0 && Contents() == {}
    {
      for i := 0 to elements.Length
        invariant forall k :: 0 <= k < i ==> elements[k] == 0
      {
        elements[i] := 0;
      }
      used := 0;
      NoneUsed(elements[..]);
    }

    /** hash_insert */
    method Insert(data: Int32) returns (r: Outcome)
      requires Valid()
      modifies this`used, elements
      ensures Valid()
      ensures r == (if data == 0 then ZeroAssertion else if old(used) > max / 2 then FullAssertion else Done)
      ensures Contents() == (if r.Done? then old(Contents()) + {data} else old(Contents()))
      ensures used == old(used) + (if r.Done? && data !in old(Contents()) then 1 else 0)
    {
      if data == 0 { return ZeroAssertion; }
      if used > max / 2 { return FullAssertion; }
      ghost var room := HasEmptyCell(elements[..]);
      ProbesCover(data, max, room);
      var try := 0;
      while true
        invariant try <= ProbeOf(data, max, room) && Passed(elements[..], data, try)
        invariant elements[..] == old(elements[..]) && used == old(used)
        decreases ProbeOf(data, max, room) - try
      {
        var hash := Cell(data, try, max);
        if elements[hash] == 0 {
          AbsentWhenEmpty(elements[..], data, try);
          PlacedInsert(elements[..], data, try);
          ValuesInsert(elements[..], hash, data);
          UsedUpdate(elements[..], hash, data);
          elements[hash] := data;
          used := used + 1;
          assert elements[..] == old(elements[..])[hash := data];
          return Done;
        } else if elements[hash] == data {
          assert elements[..][hash] in Values(elements[..]);
          assert Contents() == old(Contents()) + {data};
          return Done;
        }
        try := try + 1;
      }
    }

    /** hash_retrieve */
    method Retrieve(key: Int32) returns (found: bool)
      requires Valid() && (HasRoom() || key in Contents())
      ensures found <==> key in Contents()
    {
      ghost var goal: nat;
      if HasRoom() {
        goal := HasEmptyCell(elements[..]);
      } else {
        var i :| 0 <= i < |elements[..]| && elements[..][i] != 0 && elements[..][i] == key;
        goal := i;
      }
      ProbesCover(key, max, goal);
      var try := 0;
      while true
        invariant try <= ProbeOf(key, max, goal) && Passed(elements[..], key, try)
        decreases ProbeOf(key, max, goal) - try
      {
        var hash := Cell(key, try, max);
        if elements[hash] == 0 {
          AbsentWhenEmpty(elements[..], key, try);
          return false;
        }
        if elements[hash] == key {
          assert elements[..][hash] in Values(elements[..]);
          return true;
        }
        try := try + 1;
      }
    }
  }

  // ---------------------------------------------------------------- when hash_retrieve comes to an end

  /** hash_retrieve stops at a try where it finds the key or an empty cell.  Some try does if and only if the key is in the
      table or the table has an empty cell. */
  lemma RetrieveEnds(cells: seq<Int32>, key: Int32)
    requires Placed(cells) && |cells| <= INT_MAX
    ensures (exists t: nat :: cells[Cell(key, t, |cells|)] == 0 || cells[Cell(key, t, |cells|)] == key)
            <==> (Used(cells) < |cells| || key in Values(cells))
  {
    if Used(cells) < |cells| {
      var h := HasEmptyCell(cells);
      ProbesCover(key, |cells|, h);
    } else {
      AllUsed(cells);
      if key in Values(cells) {
        var i :| 0 <= i < |cells| && cells[i] != 0 && cells[i] == key;
        ProbesCover(key, |cells|, i);
      }
    }
  }

  /** The table has an empty cell. */
  predicate Roomy(used: nat, max: nat) {
    used < max
  }

  /** hash_insert's rule, no more than max / 2 values before, leaves an empty cell after the insertion, whatever was
      inserted, just when max is neither 1 nor 2. */
  lemma CapacityRule(max: nat)
    requires 0 < max
    ensures (forall used: nat :: used <= max / 2 + 1 ==> Roomy(used, max)) <==> 3 <= max
  {
    if max < 3 { assert !Roomy(max / 2 + 1, max); }
  }

  /** For a table of two cells: 1 and 2 go in by the rule, and then no probe for 3 ever stops. */
  lemma SmallTableFills(t: nat)
    ensures var cells: seq<Int32> := [2, 1];
            && Used([0, 1]) <= 2 / 2 && Placed(cells) && Values(cells) == {1, 2}
            && cells[Cell(3, t, 2)] != 0 && cells[Cell(3, t, 2)] != 3
  {
    var cells: seq<Int32> := [2, 1];
    assert FoundAt(cells, 2, 0) && FoundAt(cells, 1, 0);
    assert cells[0] in Values(cells) && cells[1] in Values(cells);
    assert Used([0, 1]) == Used([1]);
  }
}
