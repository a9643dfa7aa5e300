/**
 Reference counting of shared_buf under interleaving.

 Any number of threads operate on handles; every fetch_add, every delete and every
 assignment of a handle's fields is a step of its own, and steps of different threads
 interleave freely.  As C++ demands of its callers, no handle is written by one thread
 while another one uses it; several threads may copy from the same handle at once.
 */
module RefCount {
  import opened Common
  import opened Totals

  /** Dead: not constructed, or destroyed.  Null(b): without a counter (moved from, or just
      released), but still with the pointers to b's registration cells, which a move does not
      clear.  Arriving(b): the destination of a copy that has incremented b's counter and has
      not set its fields yet.  Counted(b): points to b. */
  datatype Handle = Dead | Null(b: nat) | Arriving(b: nat) | Counted(b: nat)

  /** count is the 32-bit counter, key the registration; frees and observedOne are history:
      how often the block was deleted, and how often a decrement saw the value 1. */
  datatype Block = Block(count: nat, frees: nat, observedOne: nat, key: Option<nat>)

  const NEW_BLOCK := Block(1, 0, 0, None)

  datatype Work = Destroy | CopyFrom(src: nat) | MoveFrom(src: nat)

  /** Release: about to decrement the old block's counter (if there is one).
      Free(b): saw the value 1, about to delete b.  Acquire: about to increment the source
      block's counter, or to take over the source's fields.  Publish: about to set fields. */
  datatype Phase = Release | Free(b: nat) | Acquire | Publish(b: nat)

  datatype Task = Idle | Busy(dst: nat, work: Work, phase: Phase)

  datatype State = State(handles: seq<Handle>, blocks: seq<Block>, threads: seq<Task>)

  datatype Step =
    | Construct(t: nat, dst: nat)             // shared_buf()
    | CopyConstruct(t: nat, dst: nat, src: nat)
    | MoveConstruct(t: nat, dst: nat, src: nat)
    | Destruct(t: nat, dst: nat)
    | CopyAssign(t: nat, dst: nat, src: nat)
    | MoveAssign(t: nat, dst: nat, src: nat)
    | Register(t: nat, dst: nat, key: nat)    // registerMemoryCallback on dst
    | Go(t: nat)                              // the next step of the thread's operation

  function Init(handles: nat, threads: nat): State {
    State(seq(handles, _ => Dead), [], seq(threads, _ => Idle))
  }

  // ----------------------------------------------------------------------- transitions

  predicate Writes(k: Task, h: nat) {
    k.Busy? && (k.dst == h || k.work == MoveFrom(h))
  }

  predicate Uses(k: Task, h: nat) {
    Writes(k, h) || (k.Busy? && k.work == CopyFrom(h))
  }

  /** No handle written by one task is used by the other. */
  predicate Compatible(k: Task, l: Task) {
    k.Busy? && l.Busy? ==>
      && !Uses(l, k.dst) && !Uses(k, l.dst)
      && (k.work.MoveFrom? ==> !Uses(l, k.work.src))
      && (l.work.MoveFrom? ==> !Uses(k, l.work.src))
  }

  /** The operation that a step other than Go begins. */
  function Begun(e: Step): Task {
    match e
    case Construct(_, dst) => Busy(dst, Destroy, Acquire)
    case CopyConstruct(_, dst, src) => Busy(dst, CopyFrom(src), Acquire)
    case MoveConstruct(_, dst, src) => Busy(dst, MoveFrom(src), Acquire)
    case Destruct(_, dst) => Busy(dst, Destroy, Release)
    case CopyAssign(_, dst, src) => Busy(dst, CopyFrom(src), Release)
    case MoveAssign(_, dst, src) => Busy(dst, MoveFrom(src), Release)
    case Register(_, _, _) => Idle
    case Go(_) => Idle
  }

  /** What the source demands: destinations in the right state, and a source that is an
      object; copying also dereferences the source's counter. */
  predicate Callable(s: State, e: Step) {
    match e
    case Construct(_, dst) => dst < |s.handles| && s.handles[dst].Dead?
    case CopyConstruct(_, dst, src) =>
      dst < |s.handles| && src < |s.handles| && s.handles[dst].Dead? && s.handles[src].Counted?
    case MoveConstruct(_, dst, src) =>
      dst < |s.handles| && src < |s.handles| && s.handles[dst].Dead? && !s.handles[src].Dead?
    case Destruct(_, dst) => dst < |s.handles| && !s.handles[dst].Dead?
    case CopyAssign(_, dst, src) =>
      dst < |s.handles| && src < |s.handles| && !s.handles[dst].Dead? && (dst == src || s.handles[src].Counted?)
    case MoveAssign(_, dst, src) =>
      dst < |s.handles| && src < |s.handles| && !s.handles[dst].Dead? && !s.handles[src].Dead?
    case Register(_, dst, _) =>
      && dst < |s.handles| && s.handles[dst].Counted? && s.handles[dst].b < |s.blocks|
      && forall u :: 0 <= u < |s.threads| ==> !Writes(s.threads[u], dst)
    case Go(_) => true
  }

  predicate Enabled(s: State, e: Step) {
    && e.t < |s.threads|
    && Callable(s, e)
    && (e.Go? <==> s.threads[e.t].Busy?)
    && forall u :: 0 <= u < |s.threads| && u != e.t ==> Compatible(Begun(e), s.threads[u])
  }

  /** What follows the release of the destination's old block. */
  function Continue(s: State, t: nat): State
    requires t < |s.threads| && s.threads[t].Busy? && s.threads[t].dst < |s.handles|
  {
    var Busy(dst, work, _) := s.threads[t];
    if work.Destroy? then s.(handles := s.handles[dst := Dead], threads := s.threads[t := Idle])
    else s.(threads := s.threads[t := Busy(dst, work, Acquire)])
  }

  function Decremented(k: Block): Block {
    k.(count := (k.count + UINT32 - 1) % UINT32, observedOne := k.observedOne + if k.count == 1 then 1 else 0)
  }

  function Incremented(k: Block): Block {
    k.(count := (k.count + 1) % UINT32)
  }

  function Freed(k: Block): Block {
    k.(frees := k.frees + 1)
  }

  function StepRelease(s: State, t: nat): State
    requires TaskInv(s, t) && s.threads[t].Busy? && s.threads[t].phase.Release?
  {
    var Busy(dst, work, _) := s.threads[t];
    if s.handles[dst].Counted? then
      var b := s.handles[dst].b;
      var s1 := s.(handles := s.handles[dst := Null(b)], blocks := s.blocks[b := Decremented(s.blocks[b])]);
      if s.blocks[b].count == 1 then s1.(threads := s.threads[t := Busy(dst, work, Free(b))])
      else Continue(s1, t)
    else Continue(s, t)
  }

  function StepFree(s: State, t: nat): State
    requires TaskInv(s, t) && s.threads[t].Busy? && s.threads[t].phase.Free?
  {
    var b := s.threads[t].phase.b;
    Continue(s.(blocks := s.blocks[b := Freed(s.blocks[b])]), t)
  }

  function StepAcquire(s: State, t: nat): State
    requires TaskInv(s, t) && s.threads[t].Busy? && s.threads[t].phase.Acquire?
  {
    var Busy(dst, work, _) := s.threads[t];
    match work
    case CopyFrom(src) =>
      var b := s.handles[src].b;
      State(s.handles[dst := Arriving(b)], s.blocks[b := Incremented(s.blocks[b])],
            s.threads[t := Busy(dst, work, Publish(b))])
    case MoveFrom(src) =>
      s.(handles := s.handles[dst := s.handles[src]][src := Null(s.handles[src].b)], threads := s.threads[t := Idle])
    case Destroy => s
  }

  function StepPublish(s: State, t: nat): State
    requires TaskInv(s, t) && s.threads[t].Busy? && s.threads[t].phase.Publish?
  {
    var Busy(dst, _, Publish(b)) := s.threads[t];
    s.(handles := s.handles[dst := Counted(b)], threads := s.threads[t := Idle])
  }

  function Apply(s: State, e: Step): State
    requires Enabled(s, e) && (e.Go? ==> TaskInv(s, e.t))
  {
    match e
    case Construct(_, dst) =>
      s.(handles := s.handles[dst := Counted(|s.blocks|)], blocks := s.blocks + [NEW_BLOCK])
    case Register(_, dst, key) =>
      var b := s.handles[dst].b;
      s.(blocks := s.blocks[b := s.blocks[b].(key := Some(key))])
    case Go(t) =>
      (match s.threads[t].phase
       case Release => StepRelease(s, t)
       case Free(_) => StepFree(s, t)
       case Acquire => StepAcquire(s, t)
       case Publish(_) => StepPublish(s, t))
    case _ =>
      if (e.CopyAssign? || e.MoveAssign?) && e.dst == e.src then s
      else s.(threads := s.threads[e.t := Begun(e)])
  }

  // ------------------------------------------------------------------------- invariant

  predicate Refers(h: Handle, b: nat) {
    h == Counted(b) || h == Arriving(b)
  }

  function HolderFlags(handles: seq<Handle>, b: nat): seq<nat> {
    seq(|handles|, i requires 0 <= i < |handles| => if Refers(handles[i], b) then 1 else 0)
  }

  /** Counted handles of block b, and acquisitions of it in flight. */
  function Holders(s: State, b: nat): nat {
    Total(HolderFlags(s.handles, b))
  }

  predicate Freeing(k: Task, b: nat) {
    k.Busy? && k.phase == Free(b)
  }

  function FreeingFlags(threads: seq<Task>, b: nat): seq<nat> {
    seq(|threads|, i requires 0 <= i < |threads| => if Freeing(threads[i], b) then 1 else 0)
  }

  /** Threads about to delete block b. */
  function Freers(s: State, b: nat): nat {
    Total(FreeingFlags(s.threads, b))
  }

  predicate SourceOk(s: State, k: Task)
    requires k.Busy?
  {
    match k.work
    case Destroy => k.phase.Release? || k.phase.Free?
    case CopyFrom(src) =>
      && src < |s.handles| && src != k.dst && s.handles[src].Counted? && s.handles[src].b < |s.blocks|
      && (k.phase.Publish? ==> k.phase.b == s.handles[src].b)
    case MoveFrom(src) =>
      && src < |s.handles| && src != k.dst && !k.phase.Publish?
      && (s.handles[src].Null? || s.handles[src].Counted?) && s.handles[src].b < |s.blocks|
  }

  predicate TaskOk(s: State, k: Task) {
    k.Busy? ==>
      && k.dst < |s.handles|
      && SourceOk(s, k)
      && (match k.phase
          case Release => (s.handles[k.dst].Null? || s.handles[k.dst].Counted?) && s.handles[k.dst].b < |s.blocks|
          case Free(b) => s.handles[k.dst] == Null(b) && b < |s.blocks|
          case Acquire => s.handles[k.dst].Dead? || (s.handles[k.dst].Null? && s.handles[k.dst].b < |s.blocks|)
          case Publish(b) => s.handles[k.dst] == Arriving(b) && b < |s.blocks|)
  }

  predicate TaskInv(s: State, t: nat) {
    t < |s.threads| && TaskOk(s, s.threads[t])
  }

  ghost predicate HandleInv(s: State, h: nat)
    requires h < |s.handles|
  {
    match s.handles[h]
    case Counted(b) => b < |s.blocks|
    case Null(b) => b < |s.blocks|
    case Arriving(b) => exists t :: 0 <= t < |s.threads| && s.threads[t].Busy? && s.threads[t].dst == h && s.threads[t].phase == Publish(b)
    case _ => true
  }

  ghost predicate BlockInv(s: State, b: nat)
    requires b < |s.blocks|
  {
    && s.blocks[b].count == Holders(s, b)
    && s.blocks[b].observedOne == (if Holders(s, b) == 0 then 1 else 0)
    && s.blocks[b].frees + Freers(s, b) == s.blocks[b].observedOne
  }

  ghost predicate TasksInv(s: State) {
    && (forall t :: 0 <= t < |s.threads| ==> TaskInv(s, t))
    && (forall t, u :: 0 <= t < |s.threads| && 0 <= u < |s.threads| && t != u ==>
          Compatible(s.threads[t], s.threads[u]))
  }

  ghost predicate Inv(s: State) {
    && TasksInv(s)
    && (forall h :: 0 <= h < |s.handles| ==> HandleInv(s, h))
    && (forall b :: 0 <= b < |s.blocks| ==> BlockInv(s, b))
  }

  // ------------------------------------------------------------------ counting lemmas

  lemma {:induction false} HoldersUpdate(hs: seq<Handle>, h: nat, x: Handle, b: nat)
    requires h < |hs|
    ensures Total(HolderFlags(hs[h := x], b)) + (if Refers(hs[h], b) then 1 else 0)
         == Total(HolderFlags(hs, b)) + (if Refers(x, b) then 1 else 0)
  {
    TotalUpdate(HolderFlags(hs, b), HolderFlags(hs[h := x], b), h);
  }

  lemma {:induction false} FreersUpdate(ts: seq<Task>, t: nat, k: Task, b: nat)
    requires t < |ts|
    ensures Total(FreeingFlags(ts[t := k], b)) + (if Freeing(ts[t], b) then 1 else 0)
         == Total(FreeingFlags(ts, b)) + (if Freeing(k, b) then 1 else 0)
  {
    TotalUpdate(FreeingFlags(ts, b), FreeingFlags(ts[t := k], b), t);
  }

  lemma {:induction false} FlagsBounded(xs: seq<nat>)
    requires forall i :: 0 <= i < |xs| ==> xs[i] <= 1
    ensures Total(xs) <= |xs|
  {
    if xs != [] {
      FlagsBounded(xs[1..]);
    }
  }

  lemma {:induction false} FlagsZero(xs: seq<nat>)
    requires forall i :: 0 <= i < |xs| ==> xs[i] == 0
    ensures Total(xs) == 0
  {
    if xs != [] {
      FlagsZero(xs[1..]);
    }
  }

  lemma {:induction false} FlagCounts(xs: seq<nat>, i: nat)
    requires i < |xs|
    ensures xs[i] <= Total(xs)
  {
    if i > 0 {
      FlagCounts(xs[1..], i - 1);
    }
  }

  lemma {:induction false} HoldersBounded(s: State, b: nat)
    ensures Holders(s, b) <= |s.handles|
  {
    FlagsBounded(HolderFlags(s.handles, b));
  }

  lemma {:induction false} HolderPositive(s: State, h: nat, b: nat)
    requires h < |s.handles| && Refers(s.handles[h], b)
    ensures Holders(s, b) >= 1
  {
    FlagCounts(HolderFlags(s.handles, b), h);
  }

  // -------------------------------------------------------------- steps keep the tasks

  /** A task is not disturbed by changes to handles it does not use. */
  lemma {:induction false} TaskFrame(s: State, s': State, k: Task)
    requires TaskOk(s, k) && |s'.handles| == |s.handles| && |s'.blocks| >= |s.blocks|
    requires forall h :: 0 <= h < |s.handles| && Uses(k, h) ==> s'.handles[h] == s.handles[h]
    ensures TaskOk(s', k)
  {
    if k.Busy? {
      assert Uses(k, k.dst);
      match k.work
      case Destroy =>
      case CopyFrom(src) => assert Uses(k, src);
      case MoveFrom(src) => assert Uses(k, src);
    }
  }

  /** A step of thread t changes only handles that t may write, and only its own task. */
  predicate Local(s: State, s': State, t: nat) {
    && t < |s.threads| == |s'.threads| && |s'.handles| == |s.handles| && |s'.blocks| >= |s.blocks|
    && s'.threads == s.threads[t := s'.threads[t]]
    && (forall h :: 0 <= h < |s.handles| && s'.handles[h] != s.handles[h] ==> Writes(s.threads[t], h))
  }

  lemma {:induction false} GoIsLocal(s: State, t: nat)
    requires TaskInv(s, t) && s.threads[t].Busy?
    ensures var s' := Apply(s, Go(t));
            && Local(s, s', t) && TaskInv(s', t)
            && (s'.threads[t].Busy? ==> s'.threads[t].dst == s.threads[t].dst && s'.threads[t].work == s.threads[t].work)
  {
  }

  /** The operation just begun satisfies its own invariant. */
  lemma {:induction false} BeginIsLocal(s: State, e: Step)
    requires Inv(s) && Enabled(s, e) && !e.Go? && !e.Construct? && !e.Register?
    ensures var s' := Apply(s, e);
            && s'.handles == s.handles && s'.blocks == s.blocks
            && (s' == s || s' == s.(threads := s.threads[e.t := Begun(e)])) && TaskInv(s', e.t)
  {
    assert HandleInv(s, e.dst);
    if e.CopyConstruct? || e.MoveConstruct? || e.CopyAssign? || e.MoveAssign? {
      assert HandleInv(s, e.src);
      assert Uses(Begun(e), e.src) && Uses(Begun(e), e.dst);
    } else {
      assert Uses(Begun(e), e.dst);
    }
    assert TaskInv(s, e.t);
  }

  lemma {:induction false} StepKeepsTasks(s: State, e: Step)
    requires Inv(s) && Enabled(s, e)
    ensures TasksInv(Apply(s, e))
  {
    var s' := Apply(s, e);
    assert TaskInv(s, e.t);
    if e.Go? {
      GoIsLocal(s, e.t);
    } else if !e.Construct? && !e.Register? {
      BeginIsLocal(s, e);
    }
    forall u | 0 <= u < |s'.threads| ensures TaskInv(s', u) {
      assert TaskInv(s, u);
      if u != e.t {
        assert Compatible(Begun(e), s.threads[u]) && Compatible(s.threads[e.t], s.threads[u]);
        TaskFrame(s, s', s.threads[u]);
      }
    }
    forall u, v | 0 <= u < |s'.threads| && 0 <= v < |s'.threads| && u != v
      ensures Compatible(s'.threads[u], s'.threads[v])
    {
      assert Compatible(s.threads[u], s.threads[v]);
      if u == e.t {
        assert Compatible(Begun(e), s.threads[v]);
      } else if v == e.t {
        assert Compatible(Begun(e), s.threads[u]);
      }
    }
  }

  lemma {:induction false} StepKeepsHandle(s: State, e: Step, h: nat)
    requires Inv(s) && Enabled(s, e) && h < |s.handles|
    ensures HandleInv(Apply(s, e), h)
  {
    var s' := Apply(s, e);
    assert HandleInv(s, h) && TaskInv(s, e.t);
    if s.handles[h].Arriving? {
      var t :| 0 <= t < |s.threads| && s.threads[t].Busy? && s.threads[t].dst == h && s.threads[t].phase == Publish(s.handles[h].b);
      if t != e.t {
        assert Compatible(s.threads[e.t], s.threads[t]) && Compatible(Begun(e), s.threads[t]);
        assert s'.threads[t] == s.threads[t];
      }
    } else if s'.handles[h].Arriving? {
      assert s'.threads[e.t].Busy? && s'.threads[e.t].dst == h;
    }
  }

  // ------------------------------------------------------------- steps keep the counters

  lemma {:induction false} ReleaseKeepsBlock(s: State, t: nat, b: nat)
    requires TaskInv(s, t) && s.threads[t].Busy? && s.threads[t].phase.Release?
    requires b < |s.blocks| && BlockInv(s, b) && |s.handles| < UINT32
    ensures BlockInv(StepRelease(s, t), b)
  {
    var Busy(dst, work, _) := s.threads[t];
    var s' := StepRelease(s, t);
    HoldersBounded(s, b);
    FreersUpdate(s.threads, t, s'.threads[t], b);
    HoldersUpdate(s.handles, dst, s'.handles[dst], b);
    if s.handles[dst].Counted? {
      assert s'.handles == s.handles[dst := s'.handles[dst]];
    }
    if s.handles[dst] == Counted(b) {
      HolderPositive(s, dst, b);
    }
  }

  lemma {:induction false} FreeKeepsBlock(s: State, t: nat, b: nat)
    requires TaskInv(s, t) && s.threads[t].Busy? && s.threads[t].phase.Free?
    requires b < |s.blocks| && BlockInv(s, b)
    ensures BlockInv(StepFree(s, t), b)
  {
    var s' := StepFree(s, t);
    FreersUpdate(s.threads, t, s'.threads[t], b);
    HoldersUpdate(s.handles, s.threads[t].dst, s'.handles[s.threads[t].dst], b);
  }

  lemma {:induction false} AcquireKeepsBlock(s: State, t: nat, b: nat)
    requires TaskInv(s, t) && s.threads[t].Busy? && s.threads[t].phase.Acquire?
    requires b < |s.blocks| && BlockInv(s, b) && |s.handles| < UINT32
    ensures BlockInv(StepAcquire(s, t), b)
  {
    var Busy(dst, work, _) := s.threads[t];
    var s' := StepAcquire(s, t);
    FreersUpdate(s.threads, t, s'.threads[t], b);
    HoldersUpdate(s.handles, dst, s'.handles[dst], b);
    HoldersBounded(s', b);
    match work
    case Destroy =>
    case CopyFrom(src) =>
      if s.handles[src] == Counted(b) {
        HolderPositive(s, src, b);
      }
    case MoveFrom(src) =>
      HoldersUpdate(s.handles[dst := s.handles[src]], src, Null(s.handles[src].b), b);
  }

  lemma {:induction false} PublishKeepsBlock(s: State, t: nat, b: nat)
    requires TaskInv(s, t) && s.threads[t].Busy? && s.threads[t].phase.Publish?
    requires b < |s.blocks| && BlockInv(s, b)
    ensures BlockInv(StepPublish(s, t), b)
  {
    var s' := StepPublish(s, t);
    FreersUpdate(s.threads, t, s'.threads[t], b);
    HoldersUpdate(s.handles, s.threads[t].dst, s'.handles[s.threads[t].dst], b);
  }

  lemma {:induction false} BeginKeepsBlock(s: State, e: Step, b: nat)
    requires Inv(s) && Enabled(s, e) && !e.Go? && !e.Construct? && !e.Register? && b < |s.blocks|
    ensures BlockInv(Apply(s, e), b)
  {
    assert BlockInv(s, b);
    FreersUpdate(s.threads, e.t, Begun(e), b);
  }

  lemma {:induction false} ArrivingInRange(s: State, h: nat)
    requires TasksInv(s) && h < |s.handles| && HandleInv(s, h) && s.handles[h].Arriving?
    ensures s.handles[h].b < |s.blocks|
  {
    var t :| 0 <= t < |s.threads| && s.threads[t].Busy? && s.threads[t].dst == h && s.threads[t].phase == Publish(s.handles[h].b);
    assert TaskInv(s, t);
  }

  lemma {:induction false} ConstructKeepsBlock(s: State, e: Step, b: nat)
    requires Inv(s) && Enabled(s, e) && e.Construct? && b < |Apply(s, e).blocks|
    ensures BlockInv(Apply(s, e), b)
  {
    var s' := Apply(s, e);
    HoldersUpdate(s.handles, e.dst, s'.handles[e.dst], b);
    if b < |s.blocks| {
      assert BlockInv(s, b);
    } else {
      forall h | 0 <= h < |s.handles| ensures !Refers(s.handles[h], b) {
        assert HandleInv(s, h);
        if s.handles[h].Arriving? {
          ArrivingInRange(s, h);
        }
      }
      FlagsZero(HolderFlags(s.handles, b));
      forall t | 0 <= t < |s.threads| ensures !Freeing(s.threads[t], b) {
        assert TaskInv(s, t);
      }
      FlagsZero(FreeingFlags(s.threads, b));
    }
  }

  lemma {:induction false} StepKeepsBlock(s: State, e: Step, b: nat)
    requires Inv(s) && Enabled(s, e) && |s.handles| < UINT32 && b < |Apply(s, e).blocks|
    ensures BlockInv(Apply(s, e), b)
  {
    assert TaskInv(s, e.t);
    if e.Construct? {
      ConstructKeepsBlock(s, e, b);
    } else if e.Register? {
      assert BlockInv(s, b);
    } else if !e.Go? {
      BeginKeepsBlock(s, e, b);
    } else {
      assert BlockInv(s, b);
      match s.threads[e.t].phase
      case Release => ReleaseKeepsBlock(s, e.t, b);
      case Free(_) => FreeKeepsBlock(s, e.t, b);
      case Acquire => AcquireKeepsBlock(s, e.t, b);
      case Publish(_) => PublishKeepsBlock(s, e.t, b);
    }
  }

  /** Every step keeps the invariant, as long as there are fewer than 2^32 handles. */
  lemma {:induction false} StepKeepsInv(s: State, e: Step)
    requires Inv(s) && Enabled(s, e) && |s.handles| < UINT32
    ensures Inv(Apply(s, e)) && |Apply(s, e).handles| == |s.handles|
  {
    assert TaskInv(s, e.t);
    StepKeepsTasks(s, e);
    forall h | 0 <= h < |s.handles| ensures HandleInv(Apply(s, e), h) { StepKeepsHandle(s, e, h); }
    forall b | 0 <= b < |Apply(s, e).blocks| ensures BlockInv(Apply(s, e), b) { StepKeepsBlock(s, e, b); }
  }

  // ---------------------------------------------------------------------- whole runs

  ghost predicate ValidRun(s: State, run: seq<Step>)
    decreases |run|
  {
    run == [] || (Enabled(s, run[0]) && (run[0].Go? ==> TaskInv(s, run[0].t)) && ValidRun(Apply(s, run[0]), run[1..]))
  }

  ghost function After(s: State, run: seq<Step>): State
    requires ValidRun(s, run)
    decreases |run|
  {
    if run == [] then s else After(Apply(s, run[0]), run[1..])
  }

  lemma {:induction false} InitInv(handles: nat, threads: nat)
    ensures Inv(Init(handles, threads))
  {
  }

  lemma {:induction false} RunKeepsInv(s: State, run: seq<Step>)
    requires Inv(s) && |s.handles| < UINT32 && ValidRun(s, run)
    ensures Inv(After(s, run)) && |After(s, run).handles| == |s.handles|
    decreases |run|
  {
    if run != [] {
      StepKeepsInv(s, run[0]);
      RunKeepsInv(Apply(s, run[0]), run[1..]);
    }
  }

  ghost predicate Reachable(s: State) {
    exists n, k, run :: 0 <= n < UINT32 && 0 <= k && ValidRun(Init(n, k), run) && After(Init(n, k), run) == s
  }

  lemma {:induction false} ReachableInv(s: State)
    requires Reachable(s)
    ensures Inv(s) && |s.handles| < UINT32
  {
    var n, k, run :| 0 <= n < UINT32 && 0 <= k && ValidRun(Init(n, k), run) && After(Init(n, k), run) == s;
    InitInv(n, k);
    RunKeepsInv(Init(n, k), run);
  }

  /** In a reachable state no begun operation is stuck outside its own preconditions, so
      the definedness condition on Go in ValidRun excludes no run. */
  lemma {:induction false} GoAlwaysDefined(s: State, t: nat)
    requires Reachable(s) && t < |s.threads|
    ensures TaskInv(s, t)
  {
    ReachableInv(s);
  }

  /** Reference-count safety: in every reachable state the counter of a block equals its
      counted handles plus the acquisitions in flight; at most one releaser ever observed
      the value 1, and one did exactly when no holder is left; and only that releaser
      deletes the block, once. */
  lemma {:induction false} CountIsExact(s: State, b: nat)
    requires Reachable(s) && b < |s.blocks|
    ensures var k := s.blocks[b];
            && k.count == Holders(s, b)
            && k.observedOne == (if Holders(s, b) == 0 then 1 else 0)
            && k.frees + Freers(s, b) == k.observedOne
  {
    ReachableInv(s);
    assert BlockInv(s, b);
  }

  lemma {:induction false} HolderIsAlive(s: State, h: nat, b: nat)
    requires Inv(s) && h < |s.handles| && Refers(s.handles[h], b)
    ensures b < |s.blocks| && s.blocks[b].frees == 0 && Freers(s, b) == 0 && s.blocks[b].count >= 1
  {
    assert HandleInv(s, h);
    if s.handles[h].Arriving? {
      ArrivingInRange(s, h);
    }
    assert BlockInv(s, b);
    HolderPositive(s, h, b);
  }

  /** No handle that is counted, or about to be, refers to a block that was deleted or is
      about to be. */
  lemma {:induction false} NoHandleDangles(s: State, h: nat, b: nat)
    requires Reachable(s) && h < |s.handles| && Refers(s.handles[h], b)
    ensures b < |s.blocks| && s.blocks[b].frees == 0 && Freers(s, b) == 0 && s.blocks[b].count >= 1
  {
    ReachableInv(s);
    HolderIsAlive(s, h, b);
  }

  /** The block whose counter or storage the next step of thread t touches. */
  function Touched(s: State, t: nat): (r: set<nat>)
    requires TaskInv(s, t)
  {
    var k := s.threads[t];
    if k.Idle? then {}
    else match k.phase
      case Release => if s.handles[k.dst].Counted? then {s.handles[k.dst].b} else {}
      case Free(b) => {b}
      case Acquire => if k.work.CopyFrom? then {s.handles[k.work.src].b} else {}
      case Publish(_) => {}
  }

  /** Every fetch_add and every delete, of any thread at any time, works on a block that
      has not been deleted; in particular releasing the destination of an assignment never
      deletes the block of its source. */
  lemma {:induction false} NoUseAfterFree(s: State, t: nat, b: nat)
    requires Reachable(s) && t < |s.threads| && TaskInv(s, t) && b in Touched(s, t)
    ensures b < |s.blocks| && s.blocks[b].frees == 0
    ensures !s.threads[t].phase.Free? ==> Freers(s, b) == 0
    ensures s.threads[t].phase.Free? ==> Freers(s, b) == 1 && Holders(s, b) == 0
  {
    ReachableInv(s);
    assert BlockInv(s, b);
    var k := s.threads[t];
    match k.phase
    case Release => NoHandleDangles(s, k.dst, b);
    case Free(_) => FlagCounts(FreeingFlags(s.threads, b), t);
    case Acquire => NoHandleDangles(s, k.work.src, b);
    case Publish(_) =>
  }

  /** Between the release and the acquisition of an assignment, or at any other point of
      a copy or a move, the block of the source stays undeleted. */
  lemma {:induction false} SourceSurvives(s: State, t: nat)
    requires Reachable(s) && t < |s.threads| && s.threads[t].Busy? && !s.threads[t].work.Destroy?
    ensures var src := s.threads[t].work.src;
            src < |s.handles| &&
            (s.handles[src].Counted? ==> s.handles[src].b < |s.blocks| && s.blocks[s.handles[src].b].frees == 0)
  {
    ReachableInv(s);
    assert TaskInv(s, t);
    var src := s.threads[t].work.src;
    if s.handles[src].Counted? {
      NoHandleDangles(s, src, s.handles[src].b);
    }
  }

  /** When no operation is in progress, a block was deleted exactly once if no handle
      points to it, and never otherwise: nothing leaks. */
  lemma {:induction false} NothingLeaks(s: State, b: nat)
    requires Reachable(s) && b < |s.blocks|
    requires forall t :: 0 <= t < |s.threads| ==> s.threads[t].Idle?
    ensures s.blocks[b].frees == (if exists h :: 0 <= h < |s.handles| && s.handles[h] == Counted(b) then 0 else 1)
  {
    ReachableInv(s);
    assert BlockInv(s, b);
    FlagsZero(FreeingFlags(s.threads, b));
    if h :| 0 <= h < |s.handles| && s.handles[h] == Counted(b) {
      HolderPositive(s, h, b);
    } else {
      forall h | 0 <= h < |s.handles| ensures !Refers(s.handles[h], b) {
        assert HandleInv(s, h);
      }
      FlagsZero(HolderFlags(s.handles, b));
    }
  }

  /** A moved-from handle, like a dead one, counts for no block, and the move changes no
      counter. */
  lemma {:induction false} MoveIsNeutral(s: State, t: nat)
    requires Reachable(s) && t < |s.threads| && s.threads[t].Busy? && s.threads[t].work.MoveFrom?
    requires s.threads[t].phase.Acquire?
    ensures TaskInv(s, t)
    ensures var s' := Apply(s, Go(t));
            var Busy(dst, MoveFrom(src), _) := s.threads[t];
            && dst < |s.handles| && src < |s.handles| && s'.blocks == s.blocks
            && s'.handles[src].Null? && s'.handles[dst] == s.handles[src]
            && forall b :: Holders(s', b) == Holders(s, b)
  {
    ReachableInv(s);
    assert TaskInv(s, t);
    var Busy(dst, MoveFrom(src), _) := s.threads[t];
    var s' := Apply(s, Go(t));
    forall b ensures Holders(s', b) == Holders(s, b) {
      HoldersUpdate(s.handles, dst, s.handles[src], b);
      HoldersUpdate(s.handles[dst := s.handles[src]], src, Null(s.handles[src].b), b);
    }
  }

  // ------------------------------------------------------------------------ registration

  /** isRegistered and key read the cells of block s.handles[h].b, also after a move took the
      block from h.  With no operation in progress the read is safe if and only if some handle
      still holds the block. */
  lemma {:induction false} ReadIsSafeIff(s: State, h: nat)
    requires Reachable(s) && h < |s.handles| && (s.handles[h].Null? || s.handles[h].Counted?)
    requires forall t :: 0 <= t < |s.threads| ==> s.threads[t].Idle?
    ensures s.handles[h].b < |s.blocks|
    ensures s.blocks[s.handles[h].b].frees == 0 <==>
            exists g :: 0 <= g < |s.handles| && s.handles[g] == Counted(s.handles[h].b)
  {
    ReachableInv(s);
    assert HandleInv(s, h);
    NothingLeaks(s, s.handles[h].b);
  }

  /** While other threads are at work, it is safe if and only if a handle holds the block, or
      is about to, or the thread that saw the last one go has not deleted it yet. */
  lemma {:induction false} ConcurrentReadIsSafeIff(s: State, h: nat)
    requires Reachable(s) && h < |s.handles| && (s.handles[h].Null? || s.handles[h].Counted?)
    ensures s.handles[h].b < |s.blocks|
    ensures s.blocks[s.handles[h].b].frees == 0 <==> Holders(s, s.handles[h].b) > 0 || Freers(s, s.handles[h].b) > 0
  {
    ReachableInv(s);
    assert HandleInv(s, h) && BlockInv(s, s.handles[h].b);
  }

  /** A handle that was moved from reads deleted cells once the new owner was destroyed. */
  lemma {:induction false} MovedFromReadDangles()
    ensures exists s :: Reachable(s) && |s.handles| == 2 && s.handles[0] == Null(0) && |s.blocks| == 1 && s.blocks[0].frees == 1
  {
    var s0, e1, e2, e3, e4 := Init(2, 1), Construct(0, 0), MoveConstruct(0, 1, 0), Go(0), Destruct(0, 1);
    var s1 := Apply(s0, e1);
    assert s1 == State([Counted(0), Dead], [NEW_BLOCK], [Idle]);
    var s2 := Apply(s1, e2);
    var s3 := Apply(s2, e3);
    assert s3 == State([Null(0), Counted(0)], [NEW_BLOCK], [Idle]);
    DestroyOwner(s3);
    var s6 := After(s3, [e4] + ([e3] + [e3]));
    Prepend(s2, e3, [e4] + ([e3] + [e3]));
    Prepend(s1, e2, [e3] + ([e4] + ([e3] + [e3])));
    Prepend(s0, e1, [e2] + ([e3] + ([e4] + ([e3] + [e3]))));
    assert Reachable(s6);
  }

  lemma {:induction false} DestroyOwner(s: State)
    requires s == State([Null(0), Counted(0)], [NEW_BLOCK], [Idle])
    ensures var run := [Destruct(0, 1)] + ([Go(0)] + [Go(0)]);
            && ValidRun(s, run)
            && After(s, run) == State([Null(0), Dead], [Freed(Decremented(NEW_BLOCK))], [Idle])
  {
    var s4 := Apply(s, Destruct(0, 1));
    var s5 := Apply(s4, Go(0));
    assert s5 == State([Null(0), Null(0)], [Decremented(NEW_BLOCK)], [Busy(1, Destroy, Free(0))]);
    Prepend(s5, Go(0), []);
    Prepend(s4, Go(0), [Go(0)]);
    Prepend(s, Destruct(0, 1), [Go(0)] + [Go(0)]);
    assert [Go(0)] + [] == [Go(0)];
  }

  lemma {:induction false} Prepend(s: State, e: Step, rest: seq<Step>)
    requires Enabled(s, e) && (e.Go? ==> TaskInv(s, e.t)) && ValidRun(Apply(s, e), rest)
    ensures ValidRun(s, [e] + rest) && After(s, [e] + rest) == After(Apply(s, e), rest)
  {
    assert ([e] + rest)[1..] == rest;
  }

  lemma {:induction false} StepKeepsKey(s: State, e: Step, b: nat)
    requires Inv(s) && Enabled(s, e) && b < |s.blocks| && !e.Register?
    ensures b < |Apply(s, e).blocks| && Apply(s, e).blocks[b].key == s.blocks[b].key
  {
    assert TaskInv(s, e.t);
  }

  lemma {:induction false} RunKeepsKey(s: State, run: seq<Step>, b: nat)
    requires Inv(s) && |s.handles| < UINT32 && ValidRun(s, run) && b < |s.blocks|
    requires forall i :: 0 <= i < |run| ==> !run[i].Register?
    ensures Inv(After(s, run)) && b < |After(s, run).blocks| && After(s, run).blocks[b].key == s.blocks[b].key
    decreases |run|
  {
    if run != [] {
      StepKeepsInv(s, run[0]);
      StepKeepsKey(s, run[0], b);
      RunKeepsKey(Apply(s, run[0]), run[1..], b);
    }
  }

  /** Registration is shared: after registerMemoryCallback on one handle, whatever copies,
      moves, assignments and destructions follow in any threads, every handle that holds the
      block then, be it older or newer, reads the registered key from undeleted cells. */
  lemma {:induction false} RegistrationIsShared(s: State, e: Step, run: seq<Step>, h: nat)
    requires Reachable(s) && Enabled(s, e) && e.Register? && ValidRun(Apply(s, e), run)
    requires forall i :: 0 <= i < |run| ==> !run[i].Register?
    requires h < |After(Apply(s, e), run).handles| && After(Apply(s, e), run).handles[h] == Counted(s.handles[e.dst].b)
    ensures var s', b := After(Apply(s, e), run), s.handles[e.dst].b;
            b < |s'.blocks| && s'.blocks[b].key == Some(e.key) && s'.blocks[b].frees == 0
  {
    ReachableInv(s);
    StepKeepsInv(s, e);
    RunKeepsKey(Apply(s, e), run, s.handles[e.dst].b);
    HolderIsAlive(After(Apply(s, e), run), h, s.handles[e.dst].b);
  }
}
