/**
 What the operations of shared_buf leave in their handles.

 RefCount shows that the counters are exact.  Here: which block a handle ends up with.  An
 operation takes several steps, and other threads' steps come between them; still a copy
 shares the block its source had when the call was made, a move takes that block over, and a
 destruction leaves nothing.
 */
module Outcomes {
  import opened Common
  import opened RefCount

  /** No thread but the one that works on a handle changes it: a step changes no handle other
      than those it was called for, and no task of another thread. */
  lemma {:induction false} OthersKeepHandle(s: State, e: Step, u: nat, h: nat)
    requires Inv(s) && Enabled(s, e) && u < |s.threads| && u != e.t && h < |s.handles| && Uses(s.threads[u], h)
    ensures var s' := Apply(s, e);
            |s'.threads| == |s.threads| && |s'.handles| == |s.handles|
            && s'.threads[u] == s.threads[u] && s'.handles[h] == s.handles[h]
  {
    assert TaskInv(s, e.t) && TaskInv(s, u);
    assert Compatible(Begun(e), s.threads[u]) && Compatible(s.threads[e.t], s.threads[u]);
    if e.Go? {
      GoIsLocal(s, e.t);
    } else if e.Construct? {
      assert Uses(Begun(e), e.dst);
    }
  }

  /** Two operations may overlap exactly if neither uses a handle that the other one writes: so
      any number of threads may copy from one handle. */
  lemma {:induction false} OverlapIff(k: Task, l: Task)
    requires k.Busy? && l.Busy?
    ensures Compatible(k, l) <==> forall h :: (Writes(k, h) ==> !Uses(l, h)) && (Writes(l, h) ==> !Uses(k, h))
  {
    if Compatible(k, l) {
      forall h ensures (Writes(k, h) ==> !Uses(l, h)) && (Writes(l, h) ==> !Uses(k, h)) {}
    } else {
      assert Writes(k, k.dst) && Writes(l, l.dst);
      assert k.work.MoveFrom? ==> Writes(k, k.work.src);
      assert l.work.MoveFrom? ==> Writes(l, l.work.src);
    }
  }

  /** With no operation in progress, every handle can be destroyed, moved from and assigned to,
      also one that was moved from; only copying needs a source that points to a block. */
  lemma {:induction false} CanBegin(s: State, t: nat, h: nat, other: nat)
    requires t < |s.threads| && h < |s.handles| && other < |s.handles|
    requires forall u :: 0 <= u < |s.threads| ==> s.threads[u].Idle?
    ensures Enabled(s, Construct(t, h)) <==> s.handles[h].Dead?
    ensures Enabled(s, Destruct(t, h)) <==> !s.handles[h].Dead?
    ensures Enabled(s, MoveAssign(t, h, other)) <==> !s.handles[h].Dead? && !s.handles[other].Dead?
    ensures Enabled(s, MoveConstruct(t, h, other)) <==> s.handles[h].Dead? && !s.handles[other].Dead?
    ensures Enabled(s, CopyConstruct(t, h, other)) <==> s.handles[h].Dead? && s.handles[other].Counted?
    ensures h != other ==> (Enabled(s, CopyAssign(t, h, other)) <==> !s.handles[h].Dead? && s.handles[other].Counted?)
  {
  }

  /** Thread t is busy with the work w for the handle dst, and the source of w still is h. */
  predicate Pending(s: State, t: nat, dst: nat, w: Work, h: Handle) {
    && t < |s.threads| && s.threads[t].Busy? && s.threads[t].dst == dst && s.threads[t].work == w
    && (!w.Destroy? ==> w.src < |s.handles| && s.handles[w.src] == h)
  }

  /** The work is done: the destination is gone, shares the block of h, or has taken it over. */
  predicate Completed(s: State, dst: nat, w: Work, h: Handle) {
    && dst < |s.handles|
    && match w
       case Destroy => s.handles[dst] == Dead
       case CopyFrom(src) => h.Counted? && src < |s.handles| && s.handles[dst] == h && s.handles[src] == h
       case MoveFrom(src) =>
         (h.Null? || h.Counted?) && src < |s.handles| && s.handles[dst] == h && s.handles[src] == Null(h.b)
  }

  /** A step of another thread leaves the work pending with the same source; the thread's own
      step does so too, or completes the work. */
  lemma {:induction false} StepOutcome(s: State, e: Step, t: nat, dst: nat, w: Work, h: Handle)
    requires Inv(s) && Enabled(s, e) && |s.handles| < UINT32 && Pending(s, t, dst, w, h)
    ensures var s' := Apply(s, e);
            Pending(s', t, dst, w, h) || (e == Go(t) && s'.threads == s.threads[t := Idle] && Completed(s', dst, w, h))
  {
    assert TaskInv(s, t);
    if e.t != t {
      OthersKeepHandle(s, e, t, dst);
      if !w.Destroy? {
        OthersKeepHandle(s, e, t, w.src);
      }
    }
  }

  /** Every step of thread t in the run belongs to the operation it is busy with. */
  predicate OnlyGo(run: seq<Step>, t: nat) {
    forall i :: 0 <= i < |run| && run[i].t == t ==> run[i].Go?
  }

  /** An idle thread that begins nothing stays idle. */
  lemma {:induction false} StaysIdle(s: State, run: seq<Step>, t: nat)
    requires Inv(s) && |s.handles| < UINT32 && ValidRun(s, run) && OnlyGo(run, t)
    requires t < |s.threads| && s.threads[t].Idle?
    ensures t < |After(s, run).threads| && After(s, run).threads[t].Idle?
    decreases |run|
  {
    if run != [] {
      StepKeepsInv(s, run[0]);
      assert TaskInv(s, run[0].t);
      if run[0].Go? {
        GoIsLocal(s, run[0].t);
      }
      StaysIdle(Apply(s, run[0]), run[1..], t);
    }
  }

  lemma {:induction false} RunOutcome(s: State, run: seq<Step>, t: nat, dst: nat, w: Work, h: Handle)
    requires Inv(s) && |s.handles| < UINT32 && ValidRun(s, run) && OnlyGo(run, t) && Pending(s, t, dst, w, h)
    ensures var s' := After(s, run); t < |s'.threads| && (s'.threads[t].Busy? ==> Pending(s', t, dst, w, h))
    decreases |run|
  {
    if run != [] {
      var s1 := Apply(s, run[0]);
      StepKeepsInv(s, run[0]);
      StepOutcome(s, run[0], t, dst, w, h);
      if s1.threads[t].Busy? {
        RunOutcome(s1, run[1..], t, dst, w, h);
      } else {
        StaysIdle(s1, run[1..], t);
      }
    }
  }

  /** The handle an operation takes from. */
  function Source(s: State, e: Step): Handle
    requires Callable(s, e)
  {
    if e.CopyConstruct? || e.MoveConstruct? || e.CopyAssign? || e.MoveAssign? then s.handles[e.src] else Dead
  }

  /** Copies, moves and destructions do what they are called for, whatever the other threads
      do in between.  Let thread e.t begin one at s, let any steps follow (those of e.t all
      belonging to the operation), and let a last step complete it.  Then
      - a destructed handle is dead;
      - a copy is counted for the block that the source had at the call, and has now;
      - a move leaves the destination with what the source had at the call, and the source
        without a share. */
  lemma {:induction false} OperationOutcome(s: State, e: Step, run: seq<Step>)
    requires Reachable(s) && Enabled(s, e) && !e.Go? && Begun(e).Busy? && Apply(s, e) != s
    requires !e.Construct?
    requires ValidRun(Apply(s, e), run) && OnlyGo(run, e.t)
    requires var s1 := After(Apply(s, e), run);
             Enabled(s1, Go(e.t)) && TaskInv(s1, e.t) && Apply(s1, Go(e.t)).threads[e.t].Idle?
    ensures var s', h := Apply(After(Apply(s, e), run), Go(e.t)), Source(s, e);
            e.dst < |s'.handles| &&
            match e
            case Destruct(_, dst) => s'.handles[dst] == Dead
            case CopyConstruct(_, dst, src) =>
              src < |s'.handles| && h.Counted? && s'.handles[dst] == h && s'.handles[src] == h
            case CopyAssign(_, dst, src) =>
              src < |s'.handles| && h.Counted? && s'.handles[dst] == h && s'.handles[src] == h
            case MoveConstruct(_, dst, src) =>
              src < |s'.handles| && !h.Dead? && !h.Arriving? && s'.handles[dst] == h && s'.handles[src] == Null(h.b)
            case MoveAssign(_, dst, src) =>
              src < |s'.handles| && !h.Dead? && !h.Arriving? && s'.handles[dst] == h && s'.handles[src] == Null(h.b)
            case _ => true
  {
    ReachableInv(s);
    var s0, w := Apply(s, e), Begun(e).work;
    StepKeepsInv(s, e);
    BeginIsLocal(s, e);
    assert Pending(s0, e.t, e.dst, w, Source(s, e));
    RunOutcome(s0, run, e.t, e.dst, w, Source(s, e));
    RunKeepsInv(s0, run);
    StepOutcome(After(s0, run), Go(e.t), e.t, e.dst, w, Source(s, e));
  }

  /** The own steps an operation can still take, itself included. */
  function StepsLeft(k: Task): nat {
    if k.Idle? then 0
    else match k.phase
      case Release => 4
      case Free(_) => 3
      case Acquire => 2
      case Publish(_) => 1
  }

  /** Every operation is complete after at most four steps of its own thread: no step of
      another thread delays it. */
  lemma {:induction false} OperationAdvances(s: State, e: Step, t: nat)
    requires Reachable(s) && Enabled(s, e) && t < |s.threads| && s.threads[t].Busy?
    ensures TaskInv(s, e.t) && t < |Apply(s, e).threads|
    ensures var k, k' := s.threads[t], Apply(s, e).threads[t];
            if e.t == t then StepsLeft(k') < StepsLeft(k) <= 4 else k' == k
  {
    ReachableInv(s);
    assert TaskInv(s, t) && TaskInv(s, e.t);
    if e.t != t {
      assert Uses(s.threads[t], s.threads[t].dst);
      OthersKeepHandle(s, e, t, s.threads[t].dst);
    }
  }

  /** Touched is exact: the next step of a thread changes the blocks in it, and no others. */
  lemma {:induction false} TouchedIsChanged(s: State, t: nat, b: nat)
    requires Reachable(s) && t < |s.threads| && s.threads[t].Busy? && b < |s.blocks|
    ensures TaskInv(s, t) && |Apply(s, Go(t)).blocks| == |s.blocks|
    ensures b in Touched(s, t) <==> Apply(s, Go(t)).blocks[b] != s.blocks[b]
  {
    ReachableInv(s);
    assert TaskInv(s, t) && BlockInv(s, b);
    if b in Touched(s, t) && s.threads[t].phase.Release? {
      NoHandleDangles(s, s.threads[t].dst, b);
    }
    if b in Touched(s, t) && s.threads[t].phase.Acquire? {
      CopyAcquires(s, t);
    }
  }

  /** A constructed handle is the only holder of a block that did not exist before, and
      nothing else changes. */
  lemma {:induction false} ConstructOutcome(s: State, e: Step)
    requires Reachable(s) && Enabled(s, e) && e.Construct?
    ensures var s', b := Apply(s, e), |s.blocks|;
            && s'.handles == s.handles[e.dst := Counted(b)] && s'.threads == s.threads
            && |s'.blocks| == b + 1 && s'.blocks[..b] == s.blocks
            && s'.blocks[b] == Block(1, 0, 0, None) && Holders(s', b) == 1
  {
    ReachableInv(s);
    StepKeepsInv(s, e);
    assert BlockInv(Apply(s, e), |s.blocks|);
  }

  /** Assigning a handle to itself changes nothing. */
  lemma {:induction false} SelfAssignment(s: State, e: Step)
    requires Enabled(s, e) && (e.CopyAssign? || e.MoveAssign?) && e.dst == e.src
    ensures Apply(s, e) == s
  {
  }

  /** The acquisition of a copy raises the counter of the source's block by one, changes no
      other block, and leaves the destination arriving at that block; from then on, until the
      fields are set, the source keeps it. */
  lemma {:induction false} CopyAcquires(s: State, t: nat)
    requires Reachable(s) && t < |s.threads| && s.threads[t].Busy? && s.threads[t].work.CopyFrom?
    requires s.threads[t].phase.Acquire? || s.threads[t].phase.Publish?
    ensures TaskInv(s, t)
    ensures var s' := Apply(s, Go(t));
            var Busy(dst, CopyFrom(src), phase) := s.threads[t];
            && src < |s.handles| && dst < |s.handles| && |s'.handles| == |s.handles| && |s'.blocks| == |s.blocks|
            && s.handles[src].Counted? && s.handles[src].b < |s.blocks|
            && s'.handles[src] == s.handles[src]
            && var b := s.handles[src].b;
               && (forall c :: 0 <= c < |s.blocks| && c != b ==> s'.blocks[c] == s.blocks[c])
               && s'.blocks[b].count == s.blocks[b].count + (if phase.Acquire? then 1 else 0)
               && s'.blocks[b].frees == 0 == s.blocks[b].frees && s'.blocks[b].key == s.blocks[b].key
               && s'.handles[dst] == (if phase.Acquire? then Arriving(b) else Counted(b))
  {
    ReachableInv(s);
    assert TaskInv(s, t);
    var Busy(dst, CopyFrom(src), phase) := s.threads[t];
    var b := s.handles[src].b;
    NoHandleDangles(s, src, b);
    StepKeepsInv(s, Go(t));
    assert BlockInv(Apply(s, Go(t)), b) && BlockInv(s, b);
    HoldersUpdate(s.handles, dst, if phase.Acquire? then Arriving(b) else Counted(b), b);
  }

  /** Registering sets the key of the block that the handle holds, and changes nothing else. */
  lemma {:induction false} RegisterOutcome(s: State, e: Step)
    requires Reachable(s) && Enabled(s, e) && e.Register?
    ensures var s', b := Apply(s, e), s.handles[e.dst].b;
            && s'.handles == s.handles && s'.threads == s.threads && |s'.blocks| == |s.blocks|
            && b < |s.blocks| && s.handles[e.dst] == Counted(b)
            && s'.blocks[b] == Block(s.blocks[b].count, 0, 0, Some(e.key))
            && (forall c :: 0 <= c < |s.blocks| && c != b ==> s'.blocks[c] == s.blocks[c])
  {
    ReachableInv(s);
    NoHandleDangles(s, e.dst, s.handles[e.dst].b);
    assert BlockInv(s, s.handles[e.dst].b);
  }
}
