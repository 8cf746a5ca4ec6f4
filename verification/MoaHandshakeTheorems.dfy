/** What the flags of the manual allocator guarantee for a client between its FENCE_CHECK and its guarded CAS. */
module MoaHandshakeTheorems {
  import opened Common
  import opened Runs
  import opened MoaHandshake
  import M = MoaPools
  import I = MoaPoolsInvariant
  import T = MoaPoolsTheorems

  // ---------------------------------------------------------------- the invariant

  ghost predicate RecsKnown(rec: seq<DirtyWord>, v: nat, k: nat) {
    k <= |rec| && forall i :: 0 <= i < k ==> v <= rec[i].tag
  }

  /** Every tag is the version of toProcess or the one before; all are of its version once reclaim is frozen at it. */
  ghost predicate Lags(rec: seq<DirtyWord>, m: M.Shared) {
    && (forall i :: 0 <= i < |rec| ==> rec[i].tag % 2 == 0 && rec[i].tag <= m.process.ver <= rec[i].tag + 2)
    && (m.reclaim.ver == m.process.ver + 1 ==> RecsKnown(rec, m.process.ver, |rec|))
  }

  /** A thread in its flagging loop at version v: the record may have lost its flag, once, or moved on. */
  ghost predicate FlagsOk(rec: seq<DirtyWord>, v: nat, pc: FlagPc) {
    match pc
    case NoFlags => RecsKnown(rec, v, |rec|)
    case Flag1(i) => RecsKnown(rec, v, i)
    case Flag1Cas(i, before) =>
      && RecsKnown(rec, v, i) && i < |rec| && before.tag < v
      && (rec[i].tag >= v || rec[i] == before || rec[i] == DirtyWord(before.tag, false))
    case Flag2(i) => RecsKnown(rec, v, i) && i < |rec| && (rec[i].tag >= v || !rec[i].dirty)
    case Flag2Cas(i, before) =>
      && RecsKnown(rec, v, i) && i < |rec| && before.tag < v && !before.dirty
      && (rec[i].tag >= v || rec[i] == before)
  }

  ghost predicate PubsOk(c: Client) {
    && |c.pub| == HPS
    && match c.mode
       case Reading => forall j :: 0 <= j < HPS ==> c.pub[j] == Pub(None, None)
       case Retracting(k, _) => k <= HPS && forall j :: k <= j < HPS ==> c.pub[j] == Pub(None, None)
       case _ => forall j :: 0 <= j < HPS ==> PubOk(c, c.pub[j])
  }

  /** A hazard pointer of an attempt was read from the list, or is the new node, or NULL. */
  ghost predicate PubOk(c: Client, p: Pub) {
    if p.stamp.Some? then p.ptr.Some? && Held(p.ptr.value, p.stamp.value) in c.held else p.ptr.None? || p.ptr == c.newNode
  }

  /** Where thread t's j-th hazard pointer is. */
  function Index(t: nat, j: nat): nat {
    HPS * t + j
  }

  function At(m: M.Shared, k: nat): Option<Node> {
    if k < |m.slots| then m.slots[k].ptr else None
  }

  ghost predicate ClientOk(m: M.Shared, rec: seq<DirtyWord>, t: nat, th: M.Thread, c: Client)
    requires t < |rec|
  {
    && FlagsOk(rec, th.localVer, c.flags) && (c.flags != NoFlags ==> th.pc == M.Loop(M.Collect(0)))
    && (rec[t].tag == c.seen || (rec[t].tag > c.seen && rec[t].dirty))
    && (forall x :: x in c.held ==> x.stamp == c.seen)
    && PubsOk(c) && (c.mode.Publishing? || c.mode.Guarded? ==> th.pc.Idle?)
    && forall j: nat :: j < HPS ==> At(m, Index(t, j)) == c.pub[j].ptr
  }

  /** A collector has every hazard pointer of this thread that it has looked at. */
  ghost predicate HasAll(m: M.Shared, th: M.Thread, t: nat) {
    forall j: nat :: j < HPS && Index(t, j) < T.Collected(m, th) && At(m, Index(t, j)).Some? ==>
      At(m, Index(t, j)).value in th.hps
  }

  /** A guarded thread is covered by every collector whose flag it has not yet cleared. */
  ghost predicate Covered(s: State, c: nat, t: nat)
    requires Sizes(s) && c < |s.cli| && t < |s.cli|
  {
    s.cli[t].mode.Guarded? && s.cli[t].seen < s.base.thr[c].localVer && s.cli[c].flags == NoFlags ==>
      HasAll(s.base.mem, s.base.thr[c], t)
  }

  ghost predicate Inv(s: State) {
    && Sizes(s) && I.Inv(s.base) && |s.base.mem.slots| == HPS * |s.cli| && Lags(s.rec, s.base.mem)
    && (forall t :: 0 <= t < |s.cli| ==> ClientOk(s.base.mem, s.rec, t, s.base.thr[t], s.cli[t]))
    && forall c, t :: 0 <= c < |s.cli| && 0 <= t < |s.cli| ==> Covered(s, c, t)
  }

  // ---------------------------------------------------------------- steps of the pools

  /** What a step of MoaPools means for the flags. */
  ghost predicate PoolMoves(m: M.Shared, th: M.Thread, m': M.Shared, th': M.Thread) {
    && m.process.ver <= m'.process.ver <= m.process.ver + 2 && m'.process.ver % 2 == 0
    && (m'.process.ver == m.process.ver + 2 ==> m.reclaim.ver == m.process.ver + 1)
    && (m'.process.ver != m.process.ver ==> m'.process.ver == m.process.ver + 2 && m'.reclaim.ver != m'.process.ver + 1)
    && (m'.reclaim.ver == m'.process.ver + 1 ==>
          m.reclaim.ver == m.process.ver + 1 || (th.pc.Reclaim? && th.localVer == m.process.ver))
    && (if th.pc == M.Reclaim(M.Bump) then th'.pc == M.Loop(M.Collect(0)) else th'.localVer == th.localVer)
  }

  lemma PoolStepMoves(m: M.Shared, t: nat, th: M.Thread, a: M.Action)
    requires I.VersionsOk(m) && M.Sizes(m) && I.ThreadOk(m, t, th)
    ensures var (m', th') := M.ThreadStep(m, t, th, a); PoolMoves(m, th, m', th')
  {
    T.VersionStep(m, t, th, a);
    if th.pc.Reclaim? {
      ReclaimMoves(m, t, th);
    } else {
      T.OtherVersions(m, t, th, a);
      VersionStays(m, t, th, a);
    }
  }

  lemma ReclaimMoves(m: M.Shared, t: nat, th: M.Thread)
    requires I.VersionsOk(m) && M.Sizes(m) && I.ThreadOk(m, t, th) && th.pc.Reclaim?
    ensures var (m', th') := M.ReclaimStep(m, th, th.pc.r); PoolMoves(m, th, m', th')
  {}

  lemma VersionStays(m: M.Shared, t: nat, th: M.Thread, a: M.Action)
    requires M.Sizes(m) && !th.pc.Reclaim?
    ensures M.ThreadStep(m, t, th, a).1.localVer == th.localVer
  {}

  /** A step of the pools within product state s: what it does to the memory and to its own thread. */
  lemma BaseStep(s: M.State, a: M.Action)
    requires I.Inv(s) && a.tid < |s.thr|
    ensures var s' := M.Step(s, a);
      && I.Inv(s') && |s'.thr| == |s.thr| && s'.thr == s.thr[a.tid := s'.thr[a.tid]]
      && PoolMoves(s.mem, s.thr[a.tid], s'.mem, s'.thr[a.tid]) && |s'.mem.slots| == |s.mem.slots|
  {
    T.StepKeeps(s, a);
    T.SlotsKept(s, a);
    I.TickMem(s.mem);
    I.TickKeeps(s.mem, a.tid, s.thr[a.tid]);
    PoolStepMoves(M.Tick(s.mem), a.tid, s.thr[a.tid], a);
  }

  /** A step that is no Publish leaves the hazard pointers alone. */
  lemma SlotsStay(s: M.State, a: M.Action)
    requires M.Sizes(s.mem) && a.tid < |s.thr| && (s.thr[a.tid].pc.Idle? ==> !a.ask.Publish?)
    ensures M.Step(s, a).mem.slots == s.mem.slots
  {
    T.SlotStep(M.Tick(s.mem), a.tid, s.thr[a.tid], a);
  }

  lemma CollectionStays(m: M.Shared, th: M.Thread, m': M.Shared, th': M.Thread, u: nat)
    requires HasAll(m, th, u) && T.GoesOn(m, th, m', th') && m'.slots == m.slots
    ensures HasAll(m', th', u)
  {
    forall j: nat | j < HPS && Index(u, j) < T.Collected(m', th') && At(m', Index(u, j)).Some?
      ensures At(m', Index(u, j)).value in th'.hps {
      assert At(m, Index(u, j)) == At(m', Index(u, j));
    }
  }

  /** Collecting goes on, or starts over. */
  lemma HasAllStays(s: M.State, a: M.Action, u: nat)
    requires I.Inv(s) && a.tid < |s.thr| && HasAll(s.mem, s.thr[a.tid], u) && M.Step(s, a).mem.slots == s.mem.slots
    ensures HasAll(M.Step(s, a).mem, M.Step(s, a).thr[a.tid], u)
  {
    var m, th := M.Tick(s.mem), s.thr[a.tid];
    I.TickMem(s.mem);
    I.TickKeeps(s.mem, a.tid, th);
    var (m', th') := M.ThreadStep(m, a.tid, th, a);
    if th.pc.Idle? {
      T.IdleCollected(m, a.tid, th, a);
    } else {
      T.CollectedStep(m, a.tid, th, a);
      CollectionStays(m, th, m', th', u);
    }
  }

  /** The tags follow the versions. */
  lemma LagsStay(rec: seq<DirtyWord>, m: M.Shared, th: M.Thread, m': M.Shared, th': M.Thread)
    requires Lags(rec, m) && PoolMoves(m, th, m', th') && (th.pc.Reclaim? ==> RecsKnown(rec, th.localVer, |rec|))
    ensures Lags(rec, m')
  {}

  lemma PoolKeeps(s: State, t: nat, ask: M.Request, collides: bool)
    requires Inv(s) && t < |s.cli| && s.cli[t].flags == NoFlags && !s.cli[t].mode.Publishing? && !s.cli[t].mode.Guarded?
    requires s.base.thr[t].pc.Idle? ==> !ask.Publish?
    ensures Inv(PoolStep(s, t, ask, collides))
  {
    var a, s' := M.Action(t, ask, collides), PoolStep(s, t, ask, collides);
    BaseStep(s.base, a);
    SlotsStay(s.base, a);
    assert ClientOk(s.base.mem, s.rec, t, s.base.thr[t], s.cli[t]);
    LagsStay(s.rec, s.base.mem, s.base.thr[t], s'.base.mem, s'.base.thr[t]);
    forall u | 0 <= u < |s.cli| ensures ClientOk(s'.base.mem, s'.rec, u, s'.base.thr[u], s'.cli[u]) {
      PoolClient(s, a, u);
    }
    forall c, u | 0 <= c < |s.cli| && 0 <= u < |s.cli| ensures Covered(s', c, u) {
      PoolCovered(s, a, c, u);
    }
  }

  /** A step of the pools that writes no hazard pointer. */
  ghost predicate CanStep(s: State, a: M.Action) {
    && Inv(s) && a.tid < |s.cli| && s.cli[a.tid].flags == NoFlags
    && !s.cli[a.tid].mode.Publishing? && !s.cli[a.tid].mode.Guarded?
    && (s.base.thr[a.tid].pc.Idle? ==> !a.ask.Publish?)
  }

  lemma PoolClient(s: State, a: M.Action, u: nat)
    requires CanStep(s, a) && u < |s.cli|
    ensures var s' := PoolStep(s, a.tid, a.ask, a.collides); Sizes(s') && |s'.cli| == |s.cli|
    ensures var s' := PoolStep(s, a.tid, a.ask, a.collides); ClientOk(s'.base.mem, s'.rec, u, s'.base.thr[u], s'.cli[u])
  {
    BaseStep(s.base, a);
    SlotsStay(s.base, a);
    assert ClientOk(s.base.mem, s.rec, u, s.base.thr[u], s.cli[u]);
    SameSlots(s.base.mem, M.Step(s.base, a).mem, u);
  }

  lemma SameSlots(m: M.Shared, m': M.Shared, u: nat)
    requires m'.slots == m.slots
    ensures forall j: nat :: j < HPS ==> At(m', Index(u, j)) == At(m, Index(u, j))
  {}

  lemma PoolCovered(s: State, a: M.Action, c: nat, u: nat)
    requires CanStep(s, a) && c < |s.cli| && u < |s.cli|
    ensures var s' := PoolStep(s, a.tid, a.ask, a.collides); Sizes(s') && |s'.cli| == |s.cli| && Covered(s', c, u)
  {
    assert Covered(s, c, u);
    if c == a.tid { OwnCovered(s, a, u); } else { OtherCovered(s, a, c, u); }
  }

  lemma OtherCovered(s: State, a: M.Action, c: nat, u: nat)
    requires CanStep(s, a) && c < |s.cli| && u < |s.cli| && c != a.tid && Covered(s, c, u)
    ensures var s' := PoolStep(s, a.tid, a.ask, a.collides); Sizes(s') && |s'.cli| == |s.cli| && Covered(s', c, u)
  {
    BaseStep(s.base, a);
    SlotsStay(s.base, a);
    SameCollected(s.base.mem, M.Step(s.base, a).mem, s.base.thr[c], u);
  }

  lemma OwnCovered(s: State, a: M.Action, u: nat)
    requires CanStep(s, a) && u < |s.cli| && Covered(s, a.tid, u)
    ensures var s' := PoolStep(s, a.tid, a.ask, a.collides); Sizes(s') && |s'.cli| == |s.cli| && Covered(s', a.tid, u)
  {
    BaseStep(s.base, a);
    if HasAll(s.base.mem, s.base.thr[a.tid], u) {
      SlotsStay(s.base, a);
      HasAllStays(s.base, a, u);
    }
  }

  lemma SameCollected(m: M.Shared, m': M.Shared, th: M.Thread, u: nat)
    requires m'.slots == m.slots
    ensures HasAll(m, th, u) ==> HasAll(m', th, u)
  {
    forall j: nat | j < HPS ensures At(m', Index(u, j)) == At(m, Index(u, j)) {}
  }

  // ---------------------------------------------------------------- steps on the records

  /** What happens to a record: it is raised to the version of toProcess, or its owner clears its flag. */
  ghost predicate RecMoves(r: DirtyWord, r': DirtyWord, ver: nat, own: bool) {
    r' == r || (r.tag < ver && r' == DirtyWord(ver, true)) || (own && r' == r.(dirty := false))
  }

  ghost predicate RecsMove(rec: seq<DirtyWord>, rec': seq<DirtyWord>, ver: nat, t: nat) {
    |rec'| == |rec| && forall i :: 0 <= i < |rec| ==> RecMoves(rec[i], rec'[i], ver, i == t)
  }

  lemma FlagsStay(rec: seq<DirtyWord>, rec': seq<DirtyWord>, m: M.Shared, t: nat, v: nat, pc: FlagPc)
    requires Lags(rec, m) && RecsMove(rec, rec', m.process.ver, t) && v <= m.process.ver && FlagsOk(rec, v, pc)
    ensures FlagsOk(rec', v, pc)
  {
    assert forall i :: 0 <= i < |rec| ==> RecMoves(rec[i], rec'[i], m.process.ver, i == t) && rec[i].tag <= rec'[i].tag;
  }

  lemma TagsStay(rec: seq<DirtyWord>, rec': seq<DirtyWord>, m: M.Shared, t: nat)
    requires Lags(rec, m) && RecsMove(rec, rec', m.process.ver, t) && m.process.ver % 2 == 0
    ensures Lags(rec', m)
  {
    assert forall i :: 0 <= i < |rec| ==> RecMoves(rec[i], rec'[i], m.process.ver, i == t);
  }

  /** A step of client t that leaves the pools alone. */
  lemma OthersStay(s: State, rec': seq<DirtyWord>, t: nat, u: nat)
    requires Inv(s) && u < |s.cli| && u != t && RecsMove(s.rec, rec', s.base.mem.process.ver, t)
    ensures ClientOk(s.base.mem, rec', u, s.base.thr[u], s.cli[u])
  {
    assert ClientOk(s.base.mem, s.rec, u, s.base.thr[u], s.cli[u]);
    assert I.ThreadOk(s.base.mem, u, s.base.thr[u]);
    FlagsStay(s.rec, rec', s.base.mem, t, s.base.thr[u].localVer, s.cli[u].flags);
    assert RecMoves(s.rec[u], rec'[u], s.base.mem.process.ver, false);
  }

  lemma ClientKeeps(s: State, s': State, t: nat)
    requires Inv(s) && t < |s.cli| == |s'.cli| && s'.base == s.base && s'.cli == s.cli[t := s'.cli[t]]
    requires RecsMove(s.rec, s'.rec, s.base.mem.process.ver, t)
    requires ClientOk(s.base.mem, s'.rec, t, s.base.thr[t], s'.cli[t])
    requires forall c, u :: 0 <= c < |s.cli| && 0 <= u < |s.cli| && (c == t || u == t) ==> Covered(s', c, u)
    ensures Inv(s')
  {
    TagsStay(s.rec, s'.rec, s.base.mem, t);
    forall u | 0 <= u < |s.cli| ensures ClientOk(s'.base.mem, s'.rec, u, s'.base.thr[u], s'.cli[u]) {
      if u != t { OthersStay(s, s'.rec, t, u); }
    }
    forall c, u | 0 <= c < |s.cli| && 0 <= u < |s.cli| ensures Covered(s', c, u) {
      assert Covered(s, c, u);
    }
  }

  lemma FlagCasMoves(rec: seq<DirtyWord>, m: M.Shared, i: nat, before: DirtyWord, v: nat, t: nat)
    requires Lags(rec, m) && m.process.ver % 2 == 0 && v % 2 == 0 && v <= m.process.ver && before.tag < v
    ensures RecsMove(rec, FlagCas(rec, i, before, v), m.process.ver, t)
  {}

  /** The thread's own progress through the loop. */
  lemma OwnFlags(s: State, t: nat)
    requires Inv(s) && t < |s.cli| && s.cli[t].flags != NoFlags
    ensures var s' := FlagStep(s, t, s.cli[t]);
      && RecsMove(s.rec, s'.rec, s.base.mem.process.ver, t) && s'.base == s.base && s'.cli == s.cli[t := s'.cli[t]]
      && s'.cli[t] == s.cli[t].(flags := s'.cli[t].flags) && FlagsOk(s'.rec, s.base.thr[t].localVer, s'.cli[t].flags)
  {
    assert ClientOk(s.base.mem, s.rec, t, s.base.thr[t], s.cli[t]);
    assert I.ThreadOk(s.base.mem, t, s.base.thr[t]);
    if s.cli[t].flags.Flag1Cas? || s.cli[t].flags.Flag2Cas? { FlagCasStep(s, t); } else { FlagReadStep(s, t); }
  }

  lemma FlagReadStep(s: State, t: nat)
    requires Sizes(s) && t < |s.cli| && (s.cli[t].flags.Flag1? || s.cli[t].flags.Flag2?)
    requires FlagsOk(s.rec, s.base.thr[t].localVer, s.cli[t].flags)
    ensures var s' := FlagStep(s, t, s.cli[t]);
      && s'.rec == s.rec && t < |s'.cli| && FlagsOk(s.rec, s.base.thr[t].localVer, s'.cli[t].flags)
      && s'.cli == s.cli[t := s.cli[t].(flags := s'.cli[t].flags)] && s'.base == s.base
  {}

  lemma FlagCasStep(s: State, t: nat)
    requires Inv(s) && t < |s.cli| && (s.cli[t].flags.Flag1Cas? || s.cli[t].flags.Flag2Cas?)
    ensures var s' := FlagStep(s, t, s.cli[t]);
      RecsMove(s.rec, s'.rec, s.base.mem.process.ver, t) && FlagsOk(s'.rec, s.base.thr[t].localVer, s'.cli[t].flags)
  {
    assert ClientOk(s.base.mem, s.rec, t, s.base.thr[t], s.cli[t]);
    assert I.ThreadOk(s.base.mem, t, s.base.thr[t]);
    var v, flags := s.base.thr[t].localVer, s.cli[t].flags;
    FlagCasMoves(s.rec, s.base.mem, flags.i, flags.before, v, t);
    FlagCasOk(s.rec, s.base.mem, flags.i, flags.before, v);
  }

  /** After its first CAS the record has been reached or lost its flag, after the second it has been reached. */
  lemma FlagCasOk(rec: seq<DirtyWord>, m: M.Shared, i: nat, before: DirtyWord, v: nat)
    requires Lags(rec, m) && v <= m.process.ver
    ensures FlagsOk(rec, v, Flag1Cas(i, before)) ==> FlagsOk(FlagCas(rec, i, before, v), v, Flag2(i))
    ensures FlagsOk(rec, v, Flag2Cas(i, before)) ==> FlagsOk(FlagCas(rec, i, before, v), v, Flag1(i + 1))
  {}

  lemma FlagKeeps(s: State, t: nat)
    requires Inv(s) && t < |s.cli| && s.cli[t].flags != NoFlags
    ensures Inv(FlagStep(s, t, s.cli[t]))
  {
    var s' := FlagStep(s, t, s.cli[t]);
    OwnFlags(s, t);
    assert ClientOk(s.base.mem, s.rec, t, s.base.thr[t], s.cli[t]);
    assert RecMoves(s.rec[t], s'.rec[t], s.base.mem.process.ver, true);
    forall c, u | 0 <= c < |s.cli| && 0 <= u < |s.cli| && (c == t || u == t) ensures Covered(s', c, u) {
      assert Covered(s, c, u);
    }
    ClientKeeps(s, s', t);
  }

  // ---------------------------------------------------------------- steps of the clients

  /** A step of client t, outside its flagging loop, that touches no more than its record: its hazard pointers are the
      same, and if it has just passed its check, it has cleared the flags of all who are about to collect. */
  lemma LocalKeeps(s: State, s': State, t: nat)
    requires Inv(s) && t < |s.cli| == |s'.cli| && s'.base == s.base && s'.cli == s.cli[t := s'.cli[t]]
    requires s.cli[t].flags == s'.cli[t].flags == NoFlags && RecsMove(s.rec, s'.rec, s.base.mem.process.ver, t)
    requires ClientOk(s.base.mem, s'.rec, t, s.base.thr[t], s'.cli[t])
    requires s'.cli[t].mode.Guarded? ==> s'.cli[t].seen == s'.rec[t].tag
    ensures Inv(s')
  {
    forall c, u | 0 <= c < |s.cli| && 0 <= u < |s.cli| && (c == t || u == t) ensures Covered(s', c, u) {
      assert Covered(s, c, u);
      if u == t && s'.cli[t].mode.Guarded? && s'.cli[c].flags == NoFlags {
        if c != t { OthersStay(s, s'.rec, t, c); }
        assert RecsKnown(s'.rec, s.base.thr[c].localVer, |s'.rec|);
      }
    }
    ClientKeeps(s, s', t);
  }

  lemma ClearKeeps(s: State, t: nat, mode: Mode)
    requires Inv(s) && t < |s.cli| && s.cli[t].flags == NoFlags
    requires mode == Retracting(HPS, true) || (mode == Reading && PubsOk(s.cli[t].(mode := Reading)))
    ensures Inv(Cleared(s, t, s.cli[t], mode))
  {
    var s' := Cleared(s, t, s.cli[t], mode);
    assert ClientOk(s.base.mem, s.rec, t, s.base.thr[t], s.cli[t]);
    assert I.ThreadOk(s.base.mem, t, s.base.thr[t]);
    FlagsStay(s.rec, s'.rec, s.base.mem, t, s.base.thr[t].localVer, NoFlags);
    LocalKeeps(s, s', t);
  }

  lemma PublishedSlots(m: M.Shared, t: nat, th: M.Thread, j: nat, ptr: Option<Node>)
    requires th.pc.Idle? && M.Sizes(m) && j < HPS && Index(t, j) < |m.slots|
    ensures var (m', th') := M.ThreadStep(m, t, th, M.Action(t, M.Publish(j, ptr), false));
      && th' == th && m' == m.(slots := m.slots[Index(t, j) := M.Slot(ptr, m.clock)])
  {}

  lemma SlotWritten(s: M.State, t: nat, j: nat, ptr: Option<Node>, n: nat)
    requires M.Sizes(s.mem) && t < n == |s.thr| && s.thr[t].pc.Idle? && j < HPS && |s.mem.slots| == HPS * n
    ensures var s' := M.Step(s, M.Action(t, M.Publish(j, ptr), false));
      && s'.thr == s.thr
      && forall u: nat, k: nat :: u < n && k < HPS ==>
           At(s'.mem, Index(u, k)) == if u == t && k == j then ptr else At(s.mem, Index(u, k))
  {
    PublishedSlots(M.Tick(s.mem), t, s.thr[t], j, ptr);
    assert s.thr[t := s.thr[t]] == s.thr;
  }

  /** Writing a hazard pointer. */
  lemma WriteKeeps(s: State, t: nat, j: nat, p: Pub, mode: Mode)
    requires Inv(s) && t < |s.cli| && s.cli[t].flags == NoFlags && s.base.thr[t].pc.Idle? && j < HPS && !mode.Guarded?
    requires PubsOk(s.cli[t].(pub := s.cli[t].pub[j := p], mode := mode))
    ensures Inv(Write(s, t, s.cli[t], j, p, mode))
  {
    var a, s' := M.Action(t, M.Publish(j, p.ptr), false), Write(s, t, s.cli[t], j, p, mode);
    BaseStep(s.base, a);
    assert ClientOk(s.base.mem, s.rec, t, s.base.thr[t], s.cli[t]);
    var m, m' := s.base.mem, s'.base.mem;
    SlotWritten(s.base, t, j, p.ptr, |s.cli|);
    LagsStay(s.rec, m, s.base.thr[t], m', s'.base.thr[t]);
    forall u | 0 <= u < |s.cli| ensures ClientOk(m', s'.rec, u, s'.base.thr[u], s'.cli[u]) {
      assert ClientOk(m, s.rec, u, s.base.thr[u], s.cli[u]);
    }
    forall c, u | 0 <= c < |s.cli| && 0 <= u < |s.cli| ensures Covered(s', c, u) {
      WriteCovered(s, s', t, c, u);
    }
  }

  lemma WriteCovered(s: State, s': State, t: nat, c: nat, u: nat)
    requires Sizes(s) && Sizes(s') && c < |s.cli| == |s'.cli| && u < |s.cli| && Covered(s, c, u)
    requires s'.base.thr == s.base.thr && |s'.base.mem.slots| == |s.base.mem.slots|
    requires s'.cli[c].flags == s.cli[c].flags && (if u == t then !s'.cli[u].mode.Guarded? else s'.cli[u] == s.cli[u])
    requires u != t ==> forall k: nat :: k < HPS ==> At(s'.base.mem, Index(u, k)) == At(s.base.mem, Index(u, k))
    ensures Covered(s', c, u)
  {
    if u != t && HasAll(s.base.mem, s.base.thr[c], u) { OtherSlots(s.base.mem, s'.base.mem, s.base.thr[c], u); }
  }

  lemma OtherSlots(m: M.Shared, m': M.Shared, th: M.Thread, u: nat)
    requires |m'.slots| == |m.slots| && HasAll(m, th, u) && forall k: nat :: k < HPS ==> At(m', Index(u, k)) == At(m, Index(u, k))
    ensures HasAll(m', th, u)
  {}

  lemma PublishOk(c: Client, j: nat, p: Pub)
    requires PubsOk(c) && (c.mode.Reading? || c.mode.Publishing?) && j < HPS && PubOk(c, p)
    ensures PubsOk(c.(pub := c.pub[j := p], mode := Publishing))
  {}

  lemma PubKeeps(s: State, t: nat, j: nat, p: Pub)
    requires Inv(s) && t < |s.cli| && s.cli[t].flags == NoFlags && s.base.thr[t].pc.Idle? && PubOk(s.cli[t], p)
    requires s.cli[t].mode.Reading? || s.cli[t].mode.Publishing?
    ensures Inv(Write(s, t, s.cli[t], j, p, Publishing))
  {
    if j < HPS {
      assert ClientOk(s.base.mem, s.rec, t, s.base.thr[t], s.cli[t]);
      PublishOk(s.cli[t], j, p);
      WriteKeeps(s, t, j, p, Publishing);
    }
  }

  lemma HeldPubOk(c: Client, x: Held)
    requires x in c.held
    ensures PubOk(c, Pub(Some(x.ptr), Some(x.stamp)))
  {
    assert Held(x.ptr, x.stamp) == x;
  }

  lemma PublishKeeps(s: State, t: nat, act: Act)
    requires Inv(s) && t < |s.cli| && s.cli[t].flags == NoFlags && s.base.thr[t].pc.Idle?
    requires s.cli[t].mode.Reading? || s.cli[t].mode.Publishing?
    ensures Inv(PublishStep(s, t, s.cli[t], act))
  {
    var c := s.cli[t];
    if act.PublishHeld? && act.k < |c.held| {
      var x := c.held[act.k];
      HeldPubOk(c, x);
      PubKeeps(s, t, act.j, Pub(Some(x.ptr), Some(x.stamp)));
      assert PublishStep(s, t, c, act) == Write(s, t, c, act.j, Pub(Some(x.ptr), Some(x.stamp)), Publishing);
    } else if act.PublishNew? {
      PubKeeps(s, t, act.j, Pub(c.newNode, None));
      assert PublishStep(s, t, c, act) == Write(s, t, c, act.j, Pub(c.newNode, None), Publishing);
    } else if act.PublishNull? {
      PubKeeps(s, t, act.j, Pub(None, None));
      assert PublishStep(s, t, c, act) == Write(s, t, c, act.j, Pub(None, None), Publishing);
    }
  }

  lemma SameRecs(s: State, t: nat)
    ensures RecsMove(s.rec, s.rec, s.base.mem.process.ver, t)
  {}

  lemma ReadingKeeps(s: State, t: nat, act: Act)
    requires Inv(s) && t < |s.cli| && s.cli[t].flags == NoFlags && s.base.thr[t].pc.Idle? && s.cli[t].mode.Reading?
    ensures Inv(ClientStep(s, t, s.cli[t], act))
  {
    assert ClientOk(s.base.mem, s.rec, t, s.base.thr[t], s.cli[t]);
    SameRecs(s, t);
    match act
    case Call(ask) => if !ask.Publish? { PoolKeeps(s, t, ask, false); }
    case Load(_) => LocalKeeps(s, ClientStep(s, t, s.cli[t], act), t);
    case Over => LocalKeeps(s, ClientStep(s, t, s.cli[t], act), t);
    case Check => if s.rec[t].dirty { ClearKeeps(s, t, Reading); }
    case _ => PublishKeeps(s, t, act);
  }

  lemma FenceKeeps(s: State, t: nat)
    requires Inv(s) && t < |s.cli| && s.cli[t].flags == NoFlags && s.base.thr[t].pc.Idle? && s.cli[t].mode.Publishing?
    ensures Inv(ClientStep(s, t, s.cli[t], Fence))
  {
    assert ClientOk(s.base.mem, s.rec, t, s.base.thr[t], s.cli[t]);
    SameRecs(s, t);
    if s.rec[t].dirty {
      ClearKeeps(s, t, Retracting(HPS, true));
    } else {
      LocalKeeps(s, ClientStep(s, t, s.cli[t], Fence), t);
    }
  }

  lemma RetractKeeps(s: State, t: nat, act: Act)
    requires Inv(s) && t < |s.cli| && s.cli[t].flags == NoFlags && s.base.thr[t].pc.Idle? && s.cli[t].mode.Retracting?
    ensures Inv(ClientStep(s, t, s.cli[t], act))
  {
    var c := s.cli[t];
    assert ClientOk(s.base.mem, s.rec, t, s.base.thr[t], c);
    if act.Call? && !act.ask.Publish? {
      PoolKeeps(s, t, act.ask, false);
    } else if 0 < c.mode.j {
      TakesBackKeeps(s, t);
    } else if c.mode.restart {
      ClearKeeps(s, t, Reading);
    } else {
      RetractedKeeps(s, t);
    }
  }

  /** A hazard pointer is taken back. */
  lemma TakesBackKeeps(s: State, t: nat)
    requires Inv(s) && t < |s.cli| && s.cli[t].flags == NoFlags && s.base.thr[t].pc.Idle?
    requires s.cli[t].mode.Retracting? && 0 < s.cli[t].mode.j
    ensures s.cli[t].mode.j <= HPS
    ensures Inv(Write(s, t, s.cli[t], s.cli[t].mode.j - 1, Pub(None, None), Retracting(s.cli[t].mode.j - 1, s.cli[t].mode.restart)))
  {
    assert ClientOk(s.base.mem, s.rec, t, s.base.thr[t], s.cli[t]);
    WriteKeeps(s, t, s.cli[t].mode.j - 1, Pub(None, None), Retracting(s.cli[t].mode.j - 1, s.cli[t].mode.restart));
  }

  lemma RetractedKeeps(s: State, t: nat)
    requires Inv(s) && t < |s.cli| && s.cli[t].flags == NoFlags && s.cli[t].mode == Retracting(0, false)
    ensures Inv(With(s, t, s.cli[t].(mode := Reading)))
  {
    assert ClientOk(s.base.mem, s.rec, t, s.base.thr[t], s.cli[t]);
    SameRecs(s, t);
    LocalKeeps(s, With(s, t, s.cli[t].(mode := Reading)), t);
  }

  lemma GuardedKeeps(s: State, t: nat, act: Act)
    requires Inv(s) && t < |s.cli| && s.cli[t].flags == NoFlags && s.base.thr[t].pc.Idle? && s.cli[t].mode.Guarded?
    ensures Inv(ClientStep(s, t, s.cli[t], act))
  {
    assert ClientOk(s.base.mem, s.rec, t, s.base.thr[t], s.cli[t]);
    SameRecs(s, t);
    LocalKeeps(s, ClientStep(s, t, s.cli[t], act), t);
  }

  lemma StepKeeps(s: State, a: Action)
    requires Inv(s)
    ensures Inv(Step(s, a))
  {
    var t := a.tid;
    if t < |s.cli| {
      assert ClientOk(s.base.mem, s.rec, t, s.base.thr[t], s.cli[t]);
      if s.cli[t].flags != NoFlags {
        FlagKeeps(s, t);
      } else if !s.base.thr[t].pc.Idle? {
        PoolKeeps(s, t, M.DoPalloc, a.collides);
      } else {
        match s.cli[t].mode
        case Reading => ReadingKeeps(s, t, a.act);
        case Publishing => if a.act.Fence? { FenceKeeps(s, t); } else { PublishKeeps(s, t, a.act); }
        case Guarded => GuardedKeeps(s, t, a.act);
        case Retracting(_, _) => RetractKeeps(s, t, a.act);
      }
    }
  }

  lemma InitClient(threads: nat, caches: nat, t: nat)
    requires t < threads
    ensures var s := Init(threads, caches); ClientOk(s.base.mem, s.rec, t, s.base.thr[t], s.cli[t])
  {
    var s := Init(threads, caches);
    forall j: nat | j < HPS ensures At(s.base.mem, Index(t, j)) == None {}
    assert s.base.thr[t].localVer == 0;
  }

  lemma InitInv(threads: nat, caches: nat)
    ensures Inv(Init(threads, caches))
  {
    T.InitInv(threads, caches);
    var s := Init(threads, caches);
    forall t | 0 <= t < threads ensures ClientOk(s.base.mem, s.rec, t, s.base.thr[t], s.cli[t]) { InitClient(threads, caches, t); }
    assert forall t :: 0 <= t < threads ==> s.cli[t].mode == Reading;
  }

  ghost function Reached(threads: nat, caches: nat, sched: seq<Action>): State {
    After(Step, Init(threads, caches), sched)
  }

  lemma ReachableInv(threads: nat, caches: nat, sched: seq<Action>)
    ensures Inv(Reached(threads, caches, sched))
  {
    InitInv(threads, caches);
    forall s, a | Inv(s) ensures Inv(Step(s, a)) { StepKeeps(s, a); }
    InvariantHolds(Step, Inv, Init(threads, caches), sched);
  }

  // ---------------------------------------------------------------- what has been read, and when

  predicate HasSeen(s: State, t: nat, tag: nat) {
    t < |s.cli| && s.cli[t].seen == tag
  }

  /** Thread t clears its flag while its record carries this tag. */
  ghost function Clears(t: nat, tag: nat): (State, Action) -> bool {
    (s: State, a: Action) =>
      a.tid == t && t < |s.rec| && s.rec[t].tag == tag && t < |Step(s, a).rec| && Step(s, a).rec[t] == DirtyWord(tag, false)
      && !HasSeen(s, t, tag)
  }

  lemma SeenByClearing(s: State, a: Action, t: nat, tag: nat)
    requires HasSeen(Step(s, a), t, tag)
    ensures HasSeen(s, t, tag) || Clears(t, tag)(s, a)
  {}

  lemma SeenIsCleared(threads: nat, caches: nat, sched: seq<Action>, t: nat, tag: nat)
    requires 0 < tag && HasSeen(Reached(threads, caches, sched), t, tag)
    ensures Happens(Step, Clears(t, tag), Init(threads, caches), sched, 0)
  {
    forall s: State, a | HasSeen(Step(s, a), t, tag) ensures HasSeen(s, t, tag) || Clears(t, tag)(s, a) {
      SeenByClearing(s, a, t, tag);
    }
    HasCause(Step, (s: State) => true, (s: State) => HasSeen(s, t, tag), Clears(t, tag), Init(threads, caches), sched);
  }

  ghost predicate Holding(s: State, t: nat, x: Held) {
    t < |s.cli| && x in s.cli[t].held
  }

  /** Thread t reads this pointer from the list, having seen this tag last. */
  ghost function Reads(t: nat, x: Held): (State, Action) -> bool {
    (s: State, a: Action) => a.tid == t && t < |s.cli| && a.act == Load(x.ptr) && s.cli[t].seen == x.stamp
  }

  lemma HeldByReading(s: State, a: Action, t: nat, x: Held)
    requires Holding(Step(s, a), t, x)
    ensures Holding(s, t, x) || Reads(t, x)(s, a)
  {}

  lemma HeldIsRead(threads: nat, caches: nat, sched: seq<Action>, t: nat, x: Held)
    requires Holding(Reached(threads, caches, sched), t, x)
    ensures Happens(Step, Reads(t, x), Init(threads, caches), sched, 0)
  {
    forall s: State, a | Holding(Step(s, a), t, x) ensures Holding(s, t, x) || Reads(t, x)(s, a) { HeldByReading(s, a, t, x); }
    HasCause(Step, (s: State) => true, (s: State) => Holding(s, t, x), Reads(t, x), Init(threads, caches), sched);
  }

  /** Thread t has read pointer p from the list by step l, having cleared a flag of tag v or more before. */
  ghost predicate ReadSince(init: State, sched: seq<Action>, t: nat, p: Node, v: nat, l: nat, tag: nat) {
    && l < |sched| && v <= tag
    && Reads(t, Held(p, tag))(After(Step, init, sched[..l]), sched[l])
    && Happens(Step, Clears(t, tag), init, sched[..l], 0)
  }

  /** The node that a step of thread a.tid keeps for the pool. */
  function Keeps(s: State, a: Action): Option<Node> {
    if a.tid < |s.cli| && Sizes(s) && s.cli[a.tid].flags == NoFlags then
      T.Keeps(s.base, M.Action(a.tid, M.DoPalloc, a.collides))
    else None
  }

  /** A guarded thread that has published the node which Recycle keeps has cleared a flag of that version or later. */
  lemma KeeperIsHeard(s: State, a: Action, t: nat, j: nat)
    requires Inv(s) && t < |s.cli| && j < HPS && s.cli[t].mode.Guarded?
    requires Keeps(s, a).Some? && s.cli[t].pub[j].ptr == Keeps(s, a)
    ensures s.base.thr[a.tid].localVer <= s.cli[t].seen
  {
    var th := s.base.thr[a.tid];
    assert Covered(s, a.tid, t);
    assert ClientOk(s.base.mem, s.rec, t, s.base.thr[t], s.cli[t]);
    assert I.ThreadOk(s.base.mem, a.tid, th);
    assert I.CallOk(|th.stack| - 1, th.stack[|th.stack| - 1]);
    assert At(s.base.mem, Index(t, j)) == Keeps(s, a);
  }

  // ---------------------------------------------------------------- the new node

  /** Thread t's new node is not a client's any more. */
  predicate NewIsLost(s: State, t: nat, n: Node) {
    t < |s.cli| && s.cli[t].newNode == Some(n) && !I.At(s.base.mem.place, n, M.Client)
  }

  /** Some client hands n to pfree or pReturnAlloc although it is thread t's new node, which t is yet to link. */
  ghost function GivesAway(t: nat, n: Node): (State, Action) -> bool {
    (s: State, a: Action) =>
      (a.act == Call(M.DoPfree(n)) || a.act == Call(M.DoReturn(n))) && t < |s.cli| && s.cli[t].newNode == Some(n)
  }

  /** What a step of the pools does to the clients' nodes. */
  lemma PlaceMoves(s: M.State, a: M.Action, n: Node)
    requires I.Inv(s) && a.tid < |s.thr|
    ensures I.At(s.mem.place, n, M.Client) && !I.At(M.Step(s, a).mem.place, n, M.Client) ==>
      s.thr[a.tid].pc.Idle? && (a.ask == M.DoPfree(n) || a.ask == M.DoReturn(n))
  {
    I.TickMem(s.mem);
    I.TickKeeps(s.mem, a.tid, s.thr[a.tid]);
    T.ClientStep(M.Tick(s.mem), a.tid, s.thr[a.tid], a, n);
  }

  /** palloc returns a client's node. */
  lemma HandedIsClients(s: M.State, a: M.Action)
    requires I.Inv(s) && a.tid < |s.thr| && HandedTo(s, a.tid).Some?
    ensures I.At(M.Step(s, a).mem.place, HandedTo(s, a.tid).value, M.Client)
  {
    var e := s.thr[a.tid].alloc.value;
    assert I.ItemsOk(s.mem.ent[e].items, s.mem.place, e) && HandedTo(s, a.tid).value in s.mem.ent[e].items;
    assert I.At(s.mem.place, HandedTo(s, a.tid).value, M.InEntry(e));
  }

  lemma PoolStepLoses(s: State, u: nat, ask: M.Request, collides: bool, t: nat, n: Node)
    requires Inv(s) && u < |s.cli| && NewIsLost(PoolStep(s, u, ask, collides), t, n)
    ensures NewIsLost(s, t, n) ||
      (s.base.thr[u].pc.Idle? && (ask == M.DoPfree(n) || ask == M.DoReturn(n)) && s.cli[t].newNode == Some(n))
  {
    var a := M.Action(u, ask, collides);
    PlaceMoves(s.base, a, n);
    if HandedTo(s.base, u).Some? { HandedIsClients(s.base, a); }
  }

  /** A step of client u that hands nothing to the pools and takes nothing from them. */
  predicate LeavesNodes(s: State, u: nat, s': State) {
    && u < |s.cli| == |s'.cli| && s'.base.mem.place == s.base.mem.place && s'.cli == s.cli[u := s'.cli[u]]
    && (s'.cli[u].newNode.None? || s'.cli[u].newNode == s.cli[u].newNode)
  }

  lemma NothingLost(s: State, u: nat, s': State, t: nat, n: Node)
    requires LeavesNodes(s, u, s') && NewIsLost(s', t, n)
    ensures NewIsLost(s, t, n)
  {}

  lemma WriteLeaves(s: State, u: nat, j: nat, p: Pub, mode: Mode)
    requires Sizes(s) && u < |s.cli| && s.base.thr[u].pc.Idle?
    ensures LeavesNodes(s, u, Write(s, u, s.cli[u], j, p, mode))
  {
    assert s.cli[u := s.cli[u]] == s.cli;
  }

  lemma PublishLeaves(s: State, u: nat, act: Act)
    requires Sizes(s) && u < |s.cli| && s.base.thr[u].pc.Idle?
    ensures LeavesNodes(s, u, PublishStep(s, u, s.cli[u], act))
  {
    var c := s.cli[u];
    assert s.cli[u := c] == s.cli;
    match act
    case PublishHeld(j, k) =>
      if k < |c.held| { WriteLeaves(s, u, j, Pub(Some(c.held[k].ptr), Some(c.held[k].stamp)), Publishing); }
    case PublishNew(j) => WriteLeaves(s, u, j, Pub(c.newNode, None), Publishing);
    case PublishNull(j) => WriteLeaves(s, u, j, Pub(None, None), Publishing);
    case _ =>
  }

  lemma RetractLeaves(s: State, u: nat, act: Act)
    requires Sizes(s) && u < |s.cli| && s.base.thr[u].pc.Idle? && s.cli[u].mode.Retracting? && (act.Call? ==> act.ask.Publish?)
    ensures LeavesNodes(s, u, ClientStep(s, u, s.cli[u], act))
  {
    var mode := s.cli[u].mode;
    if 0 < mode.j <= HPS { WriteLeaves(s, u, mode.j - 1, Pub(None, None), Retracting(mode.j - 1, mode.restart)); }
  }

  lemma ClientLeaves(s: State, u: nat, act: Act)
    requires Sizes(s) && u < |s.cli| && s.base.thr[u].pc.Idle? && (act.Call? ==> act.ask.Publish? || s.cli[u].mode.Publishing? || s.cli[u].mode.Guarded?)
    ensures LeavesNodes(s, u, ClientStep(s, u, s.cli[u], act))
  {
    assert s.cli[u := s.cli[u]] == s.cli;
    if s.cli[u].mode.Retracting? { RetractLeaves(s, u, act); } else { PublishLeaves(s, u, act); }
  }

  lemma FlagLeaves(s: State, u: nat)
    requires Sizes(s) && u < |s.cli|
    ensures LeavesNodes(s, u, FlagStep(s, u, s.cli[u]))
  {
    assert s.cli[u := s.cli[u]] == s.cli;
  }

  lemma ClientLoses(s: State, a: Action, t: nat, n: Node)
    requires Inv(s) && a.tid < |s.cli| && s.base.thr[a.tid].pc.Idle? && NewIsLost(ClientStep(s, a.tid, s.cli[a.tid], a.act), t, n)
    ensures NewIsLost(s, t, n) || GivesAway(t, n)(s, a)
  {
    var mode := s.cli[a.tid].mode;
    if (mode.Reading? || mode.Retracting?) && a.act.Call? && !a.act.ask.Publish? {
      PoolStepLoses(s, a.tid, a.act.ask, false, t, n);
    } else {
      ClientLeaves(s, a.tid, a.act);
      NothingLost(s, a.tid, ClientStep(s, a.tid, s.cli[a.tid], a.act), t, n);
    }
  }

  lemma LostByGivingAway(s: State, a: Action, t: nat, n: Node)
    requires Inv(s) && NewIsLost(Step(s, a), t, n)
    ensures NewIsLost(s, t, n) || GivesAway(t, n)(s, a)
  {
    if a.tid < |s.cli| {
      if s.cli[a.tid].flags != NoFlags {
        FlagLeaves(s, a.tid);
        NothingLost(s, a.tid, Step(s, a), t, n);
      } else if s.base.thr[a.tid].pc.Idle? {
        ClientLoses(s, a, t, n);
      } else {
        PoolStepLoses(s, a.tid, M.DoPalloc, a.collides, t, n);
      }
    }
  }

  /** Until its guarded CAS, a thread's new node is a client's, unless somebody has given it away. */
  lemma NewIsClients(threads: nat, caches: nat, sched: seq<Action>, t: nat, n: Node)
    requires NewIsLost(Reached(threads, caches, sched), t, n)
    ensures Happens(Step, GivesAway(t, n), Init(threads, caches), sched, 0)
  {
    InitInv(threads, caches);
    forall s, a | Inv(s) ensures Inv(Step(s, a)) { StepKeeps(s, a); }
    forall s: State, a | Inv(s) && NewIsLost(Step(s, a), t, n) ensures NewIsLost(s, t, n) || GivesAway(t, n)(s, a) {
      LostByGivingAway(s, a, t, n);
    }
    HasCause(Step, Inv, (s: State) => NewIsLost(s, t, n), GivesAway(t, n), Init(threads, caches), sched);
  }

  /** What Recycle keeps is in its own hands. */
  lemma KeptIsNotClients(s: State, a: Action)
    requires Inv(s) && Keeps(s, a).Some?
    ensures !I.At(s.base.mem.place, Keeps(s, a).value, M.Client)
  {
    var th := s.base.thr[a.tid];
    assert I.StackOk(s.base.mem.place, a.tid, th.stack);
    assert I.InWork(th.stack, |th.stack| - 1, Keeps(s, a).value);
    assert I.At(s.base.mem.place, Keeps(s, a).value, M.InFrame(a.tid, |th.stack| - 1));
  }

  /** The pointer was read from the list after the thread had cleared a flag of this version or later. */
  lemma ReadAfterClearing(threads: nat, caches: nat, sched: seq<Action>, t: nat, n: Node, tag: nat)
    requires 0 < tag && Holding(Reached(threads, caches, sched), t, Held(n, tag))
    ensures exists l: nat :: ReadSince(Init(threads, caches), sched, t, n, tag, l, tag)
  {
    var init := Init(threads, caches);
    HeldIsRead(threads, caches, sched, t, Held(n, tag));
    var l :| 0 <= l < |sched| && Reads(t, Held(n, tag))(After(Step, init, sched[..l]), sched[l]);
    SeenIsCleared(threads, caches, sched[..l], t, tag);
    assert ReadSince(init, sched, t, n, tag, l, tag);
  }

  /** When Recycle keeps a node for the pool, and a thread has passed its FENCE_CHECK with a hazard pointer to that node,
      and has its guarded CAS still to make: if it read the pointer from the list, then it did so after it had cleared a
      flag of Recycle's version or later; and the new node of its own it is not, unless somebody has given that away. */
  lemma KeptIsSafe(threads: nat, caches: nat, sched: seq<Action>, a: Action, t: nat, j: nat)
    requires var s := Reached(threads, caches, sched);
      && a.tid < |s.base.thr| && 0 < s.base.thr[a.tid].localVer
      && t < |s.cli| && s.cli[t].mode.Guarded? && j < |s.cli[t].pub|
      && Keeps(s, a).Some? && s.cli[t].pub[j].ptr == Keeps(s, a)
    ensures var s := Reached(threads, caches, sched);
      var n := Keeps(s, a).value;
      if s.cli[t].pub[j].stamp.Some? then
        exists l: nat, tag: nat :: ReadSince(Init(threads, caches), sched, t, n, s.base.thr[a.tid].localVer, l, tag)
      else Happens(Step, GivesAway(t, n), Init(threads, caches), sched, 0)
  {
    var s := Reached(threads, caches, sched);
    var init, n, tag := Init(threads, caches), Keeps(s, a).value, s.cli[t].seen;
    ReachableInv(threads, caches, sched);
    assert ClientOk(s.base.mem, s.rec, t, s.base.thr[t], s.cli[t]) && PubOk(s.cli[t], s.cli[t].pub[j]);
    KeeperIsHeard(s, a, t, j);
    if s.cli[t].pub[j].stamp.Some? {
      ReadAfterClearing(threads, caches, sched, t, n, tag);
      var l: nat :| ReadSince(init, sched, t, n, tag, l, tag);
      assert ReadSince(init, sched, t, n, s.base.thr[a.tid].localVer, l, tag);
    } else {
      KeptIsNotClients(s, a);
      NewIsClients(threads, caches, sched, t, n);
    }
  }

  /** The flagging loop reaches every record although owners clear them meanwhile: two attempts are enough here too. */
  lemma AllAreFlagged(threads: nat, caches: nat, sched: seq<Action>, c: nat, i: nat)
    requires var s := Reached(threads, caches, sched); c < |s.base.thr| && Sizes(s) && s.cli[c].flags == NoFlags && i < |s.rec|
    ensures var s := Reached(threads, caches, sched);
      s.base.thr[c].localVer <= s.rec[i].tag <= s.base.mem.process.ver <= s.rec[i].tag + 2
  {
    var s := Reached(threads, caches, sched);
    ReachableInv(threads, caches, sched);
    assert ClientOk(s.base.mem, s.rec, c, s.base.thr[c], s.cli[c]);
  }
}
