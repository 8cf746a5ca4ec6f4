/** The manual allocator and its clients together: MoaPools, the flagging loop of its Reclamation, and the reads, hazard
    pointers and checks of lfl-MOA.c.  A thread that raises its version flags all records before it collects. */
module MoaHandshake {
  import opened Common
  import opened Runs
  import M = MoaPools

  type Node = M.Node
  /** A pointer read from the list, with the tag of the last flag that its reader had cleared by then. */
  datatype Held = Held(ptr: Node, stamp: nat)
  /** A hazard pointer: NULL, the new node, or one read from the list. */
  datatype Pub = Pub(ptr: Option<Node>, stamp: Option<nat>)

  datatype FlagPc =
    | NoFlags | Flag1(i: nat) | Flag1Cas(i: nat, before: DirtyWord) | Flag2(i: nat) | Flag2Cas(i: nat, before: DirtyWord)
  /** Reading the list; publishing; from the passed FENCE_CHECK to the guarded CAS; taking the hazard pointers back. */
  datatype Mode = Reading | Publishing | Guarded | Retracting(j: nat, restart: bool)

  /** held: the pointers in fres and local variables; newNode: newEntry, which palloc has returned and the guarded CAS is yet
      to link; flags: where the thread is in its flagging loop.  History variables: seen, the tag of the record when its
      owner last cleared the flag; pub, what it last wrote to each of its hazard pointers; the stamps. */
  datatype Client = Client(mode: Mode, held: seq<Held>, newNode: Option<Node>, pub: seq<Pub>, seen: nat, flags: FlagPc)

  datatype State = State(base: M.State, rec: seq<DirtyWord>, cli: seq<Client>)

  datatype Act =
    | Call(ask: M.Request) | Load(ptr: Node) | Over | Check
    | PublishHeld(j: nat, k: nat) | PublishNew(j: nat) | PublishNull(j: nat) | Fence | Move
  /** tid moves; act is what its client does when no call is in progress; collides as in MoaPools. */
  datatype Action = Action(tid: nat, act: Act, collides: bool)

  ghost function Init(threads: nat, caches: nat): State {
    State(M.Init(threads, caches), seq(threads, _ => DirtyWord(0, false)),
      seq(threads, _ => Client(Reading, [], None, seq(HPS, _ => Pub(None, None)), 0, NoFlags)))
  }

  predicate Sizes(s: State) {
    |s.base.thr| == |s.rec| == |s.cli|
  }

  function Step(s: State, a: Action): State {
    if a.tid < |s.base.thr| && Sizes(s) then
      if s.cli[a.tid].flags != NoFlags then FlagStep(s, a.tid, s.cli[a.tid])
      else if !s.base.thr[a.tid].pc.Idle? then PoolStep(s, a.tid, M.DoPalloc, a.collides)
      else ClientStep(s, a.tid, s.cli[a.tid], a.act)
    else s
  }

  function With(s: State, t: nat, c: Client): State
    requires t < |s.cli|
  {
    s.(cli := s.cli[t := c])
  }

  /** The node that palloc is about to return to thread t. */
  function HandedTo(m: M.State, t: nat): Option<Node>
    requires t < |m.thr|
  {
    var th, ent := m.thr[t], m.mem.ent;
    if th.pc == M.Pool(M.AllocTest) && th.alloc.Some? && th.alloc.value < |ent| && ent[th.alloc.value].items != [] then
      Some(ent[th.alloc.value].items[|ent[th.alloc.value].items| - 1])
    else None
  }

  /** A step of MoaPools; the bump of the version is followed by the flagging loop. */
  function PoolStep(s: State, t: nat, ask: M.Request, collides: bool): State
    requires t < |s.base.thr| && Sizes(s)
  {
    var flags := if s.base.thr[t].pc == M.Reclaim(M.Bump) then Flag1(0) else NoFlags;
    var newNode := if HandedTo(s.base, t).Some? then HandedTo(s.base, t) else s.cli[t].newNode;
    With(s, t, s.cli[t].(newNode := newNode, flags := flags)).(base := M.Step(s.base, M.Action(t, ask, collides)))
  }

  /** CAS(&dirties[i].dirtyNphase, before, ver<<8 | 1). */
  function FlagCas(rec: seq<DirtyWord>, i: nat, before: DirtyWord, ver: nat): seq<DirtyWord> {
    if i < |rec| && rec[i] == before then rec[i := DirtyWord(ver, true)] else rec
  }

  function FlagStep(s: State, t: nat, c: Client): State
    requires t < |s.base.thr| && Sizes(s)
  {
    var v := s.base.thr[t].localVer;
    match c.flags
    case NoFlags => s
    case Flag1(i) =>
      With(s, t, c.(flags := if i >= |s.rec| then NoFlags
                             else if s.rec[i].tag >= v then Flag1(i + 1) else Flag1Cas(i, s.rec[i])))
    case Flag1Cas(i, before) => With(s, t, c.(flags := Flag2(i))).(rec := FlagCas(s.rec, i, before, v))
    case Flag2(i) =>
      if i >= |s.rec| then s
      else With(s, t, c.(flags := if s.rec[i].tag >= v then Flag1(i + 1) else Flag2Cas(i, s.rec[i])))
    case Flag2Cas(i, before) => With(s, t, c.(flags := Flag1(i + 1))).(rec := FlagCas(s.rec, i, before, v))
  }

  /** The owner clears its flag, which writes the low byte only, and goes back: nothing it has read is of use any more. */
  function Cleared(s: State, t: nat, c: Client, mode: Mode): State
    requires t < |s.rec| == |s.cli|
  {
    With(s, t, c.(held := [], newNode := None, seen := s.rec[t].tag, mode := mode)).(rec := s.rec[t := s.rec[t].(dirty := false)])
  }

  /** One of the hazard pointers is written. */
  function Write(s: State, t: nat, c: Client, j: nat, p: Pub, mode: Mode): State
    requires t < |s.base.thr| && Sizes(s)
  {
    if j < HPS && j < |c.pub| then
      With(s, t, c.(pub := c.pub[j := p], mode := mode)).(base := M.Step(s.base, M.Action(t, M.Publish(j, p.ptr), false)))
    else s
  }

  function ClientStep(s: State, t: nat, c: Client, act: Act): State
    requires t < |s.base.thr| && Sizes(s)
  {
    match c.mode
    case Reading =>
      (match act
       case Call(ask) => if ask.Publish? then s else PoolStep(s, t, ask, false)
       case Load(ptr) => With(s, t, c.(held := c.held + [Held(ptr, c.seen)]))
       case Over => With(s, t, c.(held := []))
       case Check => if s.rec[t].dirty then Cleared(s, t, c, Reading) else s
       case _ => PublishStep(s, t, c, act))
    case Publishing =>
      if act.Fence? then
        if s.rec[t].dirty then Cleared(s, t, c, Retracting(HPS, true)) else With(s, t, c.(mode := Guarded))
      else PublishStep(s, t, c, act)
    case Guarded => With(s, t, c.(newNode := None, mode := Retracting(HPS, false)))  // the CAS on the list
    case Retracting(j, restart) =>
      if act.Call? && !act.ask.Publish? then PoolStep(s, t, act.ask, false)
      else if 0 < j <= HPS then Write(s, t, c, j - 1, Pub(None, None), Retracting(j - 1, restart))
      else if restart then Cleared(s, t, c, Reading)
      else With(s, t, c.(mode := Reading))
  }

  function PublishStep(s: State, t: nat, c: Client, act: Act): State
    requires t < |s.base.thr| && Sizes(s)
  {
    match act
    case PublishHeld(j, k) =>
      if k < |c.held| then Write(s, t, c, j, Pub(Some(c.held[k].ptr), Some(c.held[k].stamp)), Publishing) else s
    case PublishNew(j) => Write(s, t, c, j, Pub(c.newNode, None), Publishing)
    case PublishNull(j) => Write(s, t, c, j, Pub(None, None), Publishing)
    case _ => s
  }
}
