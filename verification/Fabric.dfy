/**
 libfabric as an environment: objects that are opened, bound and closed.

 The outcome of every call is arbitrary: `answers` says whether the coming calls succeed
 (all, once the list is used up).  Only fi_close is different: it refuses, as busy, to
 close an object while an open object depends on it.  The preconditions are the rule that
 no object is used or closed after it was closed.
 */
module Fabric {

  import opened Common

  datatype Kind = Pep | Mr | Ep | Eq | Cq | Domain | Fab

  /** deps are the objects this one was opened on or bound to; key is that of a region. */
  datatype Obj = Obj(kind: Kind, deps: set<nat>, open: bool, key: nat)

  /** An object's handle is its index. */
  type Objects = seq<Obj>

  /** What an object of one kind can be opened on or bound to. */
  predicate MayDepend(k: Kind, on: Kind) {
    match k
    case Pep => on.Fab? || on.Eq?
    case Mr => on.Domain?
    case Ep => on.Domain? || on.Cq? || on.Eq?
    case Eq => on.Fab?
    case Cq => on.Domain?
    case Domain => on.Fab?
    case Fab => false
  }

  /** The order in which objects can be closed: dependencies lead upwards in rank. */
  function Rank(k: Kind): nat {
    match k
    case Pep => 0
    case Mr => 0
    case Ep => 1
    case Eq => 2
    case Cq => 2
    case Domain => 3
    case Fab => 4
  }

  predicate IsOpen(objs: Objects, h: nat) {
    h < |objs| && objs[h].open
  }

  predicate Busy(objs: Objects, h: nat) {
    exists z :: 0 <= z < |objs| && objs[z].open && h in objs[z].deps
  }

  predicate ObjOk(objs: Objects, z: nat)
    requires z < |objs|
  {
    forall y :: y in objs[z].deps ==>
      y < |objs| && MayDepend(objs[z].kind, objs[y].kind) && (objs[z].open ==> objs[y].open)
  }

  /** Dependencies of open objects are open, and of the kinds that fit. */
  predicate Ordered(objs: Objects) {
    forall z :: 0 <= z < |objs| ==> ObjOk(objs, z)
  }

  /** No object depends on a passive endpoint or a memory region. */
  lemma {:induction false} LowestNeverBusy(objs: Objects, h: nat)
    requires Ordered(objs) && h < |objs| && Rank(objs[h].kind) == 0
    ensures !Busy(objs, h)
  {
    forall z | 0 <= z < |objs| ensures h !in objs[z].deps {
      assert ObjOk(objs, z);
    }
  }

  function Closed(objs: Objects, h: nat): Objects
    requires h < |objs|
  {
    objs[h := objs[h].(open := false)]
  }

  lemma {:induction false} CloseKeepsOrder(objs: Objects, h: nat)
    requires Ordered(objs) && h < |objs| && !Busy(objs, h)
    ensures Ordered(Closed(objs, h))
  {
    forall z | 0 <= z < |objs| ensures ObjOk(Closed(objs, h), z) {
      assert ObjOk(objs, z);
    }
  }

  lemma {:induction false} OpenKeepsOrder(objs: Objects, o: Obj)
    requires Ordered(objs)
    requires forall y :: y in o.deps ==> IsOpen(objs, y) && MayDepend(o.kind, objs[y].kind)
    ensures Ordered(objs + [o])
  {
    forall z | 0 <= z < |objs + [o]| ensures ObjOk(objs + [o], z) {
      if z < |objs| {
        assert ObjOk(objs, z);
      }
    }
  }

  lemma {:induction false} BindKeepsOrder(objs: Objects, x: nat, y: nat)
    requires Ordered(objs) && IsOpen(objs, x) && IsOpen(objs, y) && MayDepend(objs[x].kind, objs[y].kind)
    ensures Ordered(objs[x := objs[x].(deps := objs[x].deps + {y})])
  {
    var objs' := objs[x := objs[x].(deps := objs[x].deps + {y})];
    forall z | 0 <= z < |objs'| ensures ObjOk(objs', z) {
      assert ObjOk(objs, z);
    }
  }

  // ---------------------------------------------------------------------- the answers

  function Answer(answers: seq<bool>, i: nat): bool {
    i < |answers| ==> answers[i]
  }

  function Skip(answers: seq<bool>, n: nat): seq<bool> {
    if n <= |answers| then answers[n..] else []
  }

  /** The next n answers are all favourable. */
  predicate Granted(answers: seq<bool>, n: nat) {
    forall i: nat :: i < n ==> Answer(answers, i)
  }

  lemma {:induction false} AnswerLater(answers: seq<bool>, m: nat, i: nat)
    ensures Answer(Skip(answers, m), i) == Answer(answers, m + i)
  {
  }

  lemma {:induction false} SkipMore(answers: seq<bool>, m: nat, n: nat)
    ensures Skip(Skip(answers, m), n) == Skip(answers, m + n)
  {
  }

  lemma {:induction false} GrantedSplits(answers: seq<bool>, m: nat, n: nat)
    ensures Granted(answers, m + n) <==> Granted(answers, m) && Granted(Skip(answers, m), n)
  {
    if Granted(answers, m + n) {
      forall i: nat | i < n ensures Answer(Skip(answers, m), i) {
        assert Answer(answers, m + i);
      }
    }
    if Granted(answers, m) && Granted(Skip(answers, m), n) {
      forall i: nat | i < m + n ensures Answer(answers, i) {
        assert i < m || Answer(Skip(answers, m), i - m);
      }
    }
  }

  lemma {:induction false} GrantedOne(answers: seq<bool>)
    ensures Granted(answers, 1) <==> Answer(answers, 0)
  {
    assert Granted(answers, 1) ==> Answer(answers, 0);
  }

  lemma {:induction false} GrantedTwo(answers: seq<bool>)
    ensures Granted(answers, 2) <==> Answer(answers, 0) && Answer(Skip(answers, 1), 0)
  {
    GrantedSplits(answers, 1, 1);
    GrantedOne(answers);
    GrantedOne(Skip(answers, 1));
  }

  /** Nothing was closed, and no dependency was dropped. */
  predicate Grows(objs: Objects, objs': Objects) {
    && |objs| <= |objs'|
    && forall i :: 0 <= i < |objs| ==>
         objs'[i].kind == objs[i].kind && (objs[i].open ==> objs'[i].open) && objs[i].deps <= objs'[i].deps
  }

  /** An operation that closed nothing and used up n answers. */
  predicate Went(objs: Objects, answers: seq<bool>, objs': Objects, answers': seq<bool>, n: nat) {
    Grows(objs, objs') && answers' == Skip(answers, n)
  }

  lemma {:induction false} WentTrans(o1: Objects, a1: seq<bool>, o2: Objects, a2: seq<bool>,
      o3: Objects, a3: seq<bool>, m: nat, n: nat)
    requires Went(o1, a1, o2, a2, m) && Went(o2, a2, o3, a3, n)
    ensures Went(o1, a1, o3, a3, m + n)
  {
  }

  class Provider {
    var objs: Objects
    var answers: seq<bool>
    var dead: bool  // the process has ended: exit, a failed check, or a null dereference

    constructor (answers: seq<bool>)
      ensures objs == [] && this.answers == answers && !dead
    {
      objs := [];
      this.answers := answers;
      dead := false;
    }

    method Next() returns (ok: bool)
      modifies this`answers
      ensures ok == Answer(old(answers), 0) && answers == Skip(old(answers), 1)
    {
      ok := answers == [] || answers[0];
      answers := if answers == [] then [] else answers[1..];
    }

    /** fi_fabric, fi_domain, fi_endpoint, fi_passive_ep, fi_eq_open and fi_cq_open. */
    method OpenObj(kind: Kind, deps: set<nat>) returns (r: Option<nat>)
      requires Ordered(objs)
      requires forall y :: y in deps ==> IsOpen(objs, y) && MayDepend(kind, objs[y].kind)
      modifies this`objs, this`answers
      ensures Ordered(objs) && answers == Skip(old(answers), 1)
      ensures r.Some? <==> Answer(old(answers), 0)
      ensures r.None? ==> objs == old(objs)
      ensures r.Some? ==> r.value == |old(objs)| && objs == old(objs) + [Obj(kind, deps, true, 0)]
    {
      var ok := Next();
      if !ok {
        return None;
      }
      OpenKeepsOrder(objs, Obj(kind, deps, true, 0));
      r := Some(|objs|);
      objs := objs + [Obj(kind, deps, true, 0)];
    }

    /** fi_mr_reg and fi_mr_key: the provider may choose another key than the one asked
        for, but none that an open region has. */
    method OpenRegion(domain: nat) returns (r: Option<nat>)
      requires Ordered(objs) && IsOpen(objs, domain) && objs[domain].kind.Domain?
      modifies this`objs
      ensures Ordered(objs)
      ensures r.None? ==> objs == old(objs)
      ensures r.Some? ==>
                && r.value == |old(objs)| && |objs| == |old(objs)| + 1
                && objs[..r.value] == old(objs)
                && objs[r.value] == Obj(Mr, {domain}, true, objs[r.value].key)
                && forall z :: 0 <= z < r.value && objs[z].open && objs[z].kind.Mr? ==> objs[z].key != objs[r.value].key
    {
      var key: nat := *;
      if exists z :: 0 <= z < |objs| && objs[z].open && objs[z].kind.Mr? && objs[z].key == key {
        return None;
      }
      OpenKeepsOrder(objs, Obj(Mr, {domain}, true, key));
      r := Some(|objs|);
      objs := objs + [Obj(Mr, {domain}, true, key)];
    }

    /** fi_ep_bind and fi_pep_bind. */
    method Bind(x: nat, y: nat) returns (ok: bool)
      requires Ordered(objs) && IsOpen(objs, x) && IsOpen(objs, y) && MayDepend(objs[x].kind, objs[y].kind)
      modifies this`objs, this`answers
      ensures Ordered(objs) && ok == Answer(old(answers), 0) && answers == Skip(old(answers), 1)
      ensures objs == if ok then old(objs)[x := old(objs)[x].(deps := old(objs)[x].deps + {y})] else old(objs)
    {
      ok := Next();
      if ok {
        BindKeepsOrder(objs, x, y);
        objs := objs[x := objs[x].(deps := objs[x].deps + {y})];
      }
    }

    /** Any call that uses an object and changes none: fi_listen, fi_accept, fi_connect,
        fi_enable, and the reads of the event queue, which also yield an event or not. */
    method Use(x: nat) returns (ok: bool)
      requires IsOpen(objs, x)
      modifies this`answers
      ensures ok == Answer(old(answers), 0) && answers == Skip(old(answers), 1)
    {
      ok := Next();
    }

    /** fi_close. */
    method Close(x: nat) returns (ok: bool)
      requires Ordered(objs) && IsOpen(objs, x)
      modifies this`objs
      ensures Ordered(objs) && ok == !Busy(old(objs), x)
      ensures objs == if ok then Closed(old(objs), x) else old(objs)
    {
      ok := !Busy(objs, x);
      if ok {
        CloseKeepsOrder(objs, x);
        objs := Closed(objs, x);
      }
    }
  }
}
