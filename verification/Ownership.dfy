/** Which provider objects a Connection owns, and how its operations may change that. */
module Ownership {
  import opened Common
  import opened Fabric

  /** The handles in the fields of a Connection; mrs is None after a move. */
  datatype Conn = Conn(
    fab: Option<nat>, domain: Option<nat>, pep: Option<nat>, eq: Option<nat>, ep: Option<nat>,
    rxCq: Option<nat>, txCq: Option<nat>, mrs: Option<map<nat, nat>>
  )

  /** A connection without any handle: default-constructed, with its empty region table. */
  const NULL_CONN := Conn(None, None, None, None, None, None, None, Some(map[]))

  /** What a move leaves behind. */
  const MOVED_CONN := Conn(None, None, None, None, None, None, None, None)

  function One(h: Option<nat>): set<nat> {
    match h
    case None => {}
    case Some(x) => {x}
  }

  function Regions(c: Conn): set<nat> {
    match c.mrs
    case None => {}
    case Some(m) => m.Values
  }

  function Held(c: Conn): set<nat> {
    One(c.pep) + Regions(c) + One(c.ep) + One(c.eq) + One(c.rxCq) + One(c.txCq) + One(c.domain) + One(c.fab)
  }

  predicate Slot(objs: Objects, h: Option<nat>, kind: Kind) {
    h.Some? ==> IsOpen(objs, h.value) && objs[h.value].kind == kind
  }

  predicate RegionOk(objs: Objects, key: nat, h: nat) {
    IsOpen(objs, h) && objs[h].kind.Mr? && objs[h].key == key
  }

  predicate RegionsOk(objs: Objects, mrs: Option<map<nat, nat>>) {
    mrs.Some? ==> forall key :: key in mrs.value ==> RegionOk(objs, key, mrs.value[key])
  }

  /** Every handle is open and of the right kind, and no two fields hold the same one. */
  predicate Owned(objs: Objects, c: Conn) {
    && Slot(objs, c.fab, Fab) && Slot(objs, c.domain, Domain) && Slot(objs, c.pep, Pep)
    && Slot(objs, c.eq, Eq) && Slot(objs, c.ep, Ep) && Slot(objs, c.rxCq, Cq) && Slot(objs, c.txCq, Cq)
    && (c.rxCq.Some? ==> c.rxCq != c.txCq)
    && RegionsOk(objs, c.mrs)
  }

  /** New dependencies are on objects held before or opened meanwhile, and a region gets none
      after it was opened. */
  predicate OwnDeps(objs: Objects, objs': Objects, before: set<nat>) {
    forall z, y {:trigger y in objs'[z].deps} :: 0 <= z < |objs'| && y in objs'[z].deps ==>
      || (z < |objs| && y in objs[z].deps)
      || ((y in before || y >= |objs|) && (z < |objs| ==> !objs[z].kind.Mr?))
  }

  /** An operation of a connection that held `before` and now holds `after` changed no other
      object, took none that existed, and created dependencies only on its own ones. */
  predicate Local(objs: Objects, objs': Objects, before: set<nat>, after: set<nat>) {
    && |objs| <= |objs'|
    && (forall i :: 0 <= i < |objs| ==> objs'[i].kind == objs[i].kind && objs'[i].key == objs[i].key)
    && (forall i :: 0 <= i < |objs| && i !in before ==> objs'[i] == objs[i])
    && (forall h :: h in after ==> h in before || h >= |objs|)
    && OwnDeps(objs, objs', before)
  }

  /** It forgot nothing: it holds whatever is still open of what it held or opened. */
  predicate Keeps(objs: Objects, objs': Objects, before: set<nat>, after: set<nat>) {
    forall z :: 0 <= z < |objs'| && objs'[z].open && (z in before || z >= |objs|) ==> z in after
  }

  lemma {:induction false} LocalTrans(o1: Objects, o2: Objects, o3: Objects, a: set<nat>, b: set<nat>, c: set<nat>)
    requires Local(o1, o2, a, b) && Local(o2, o3, b, c)
    ensures Local(o1, o3, a, c)
    ensures Keeps(o1, o2, a, b) && Keeps(o2, o3, b, c) ==> Keeps(o1, o3, a, c)
  {
    forall z, y | 0 <= z < |o3| && y in o3[z].deps
      ensures || (z < |o1| && y in o1[z].deps)
              || ((y in a || y >= |o1|) && (z < |o1| ==> !o1[z].kind.Mr?))
    {
      if z < |o2| && y in o2[z].deps {
      } else {
        assert y in b || y >= |o2|;
      }
    }
  }

  lemma {:induction false} RegionsKept(objs: Objects, objs': Objects, c: Conn)
    requires Owned(objs, c) && |objs| <= |objs'|
    requires forall i :: 0 <= i < |objs| ==> objs'[i].kind == objs[i].kind && objs'[i].key == objs[i].key && objs'[i].open == objs[i].open
    ensures Owned(objs', c)
  {
    if c.mrs.Some? {
      forall key | key in c.mrs.value ensures RegionOk(objs', key, c.mrs.value[key]) {
        assert RegionOk(objs, key, c.mrs.value[key]);
      }
    }
  }

  lemma {:induction false} HeldInRange(objs: Objects, c: Conn)
    requires Owned(objs, c)
    ensures forall h :: h in Held(c) ==> h < |objs| && objs[h].open
  {
    forall h | h in Regions(c) ensures h < |objs| && objs[h].open {
      var key :| key in c.mrs.value && c.mrs.value[key] == h;
      assert RegionOk(objs, key, h);
    }
  }

  /** Exclusive ownership is kept: an operation of one connection leaves every connection
      it shared nothing with intact, and shares nothing with it afterwards. */
  lemma {:induction false} OthersKeepTheirs(objs: Objects, objs': Objects, before: set<nat>, after: set<nat>,
      other: Conn)
    requires Local(objs, objs', before, after) && Owned(objs, other) && Held(other) !! before
    ensures Owned(objs', other) && Held(other) !! after
  {
    HeldInRange(objs, other);
    forall h | h in Held(other) ensures objs'[h] == objs[h] && h !in after {
      assert h < |objs|;
    }
    if other.mrs.Some? {
      forall key | key in other.mrs.value ensures RegionOk(objs', key, other.mrs.value[key]) {
        assert RegionOk(objs, key, other.mrs.value[key]);
        assert other.mrs.value[key] in Regions(other);
      }
    }
  }

  /** Handing the endpoint, its domain and its queues to a new connection splits what was
      held into two disjoint parts. */
  lemma {:induction false} HandOverSplits(objs: Objects, whole: Conn, rest: Conn, given: Conn)
    requires Owned(objs, whole)
    requires rest == whole.(domain := None, ep := None, rxCq := None, txCq := None)
    requires given == NULL_CONN.(domain := whole.domain, ep := whole.ep, rxCq := whole.rxCq, txCq := whole.txCq)
    ensures Owned(objs, rest) && Owned(objs, given)
    ensures Held(rest) !! Held(given)
    ensures forall h :: h in Held(whole) <==> h in Held(rest) || h in Held(given)
  {
    forall h | h in Held(given) ensures objs[h].kind in {Ep, Cq, Domain} && h in Held(whole) {}
    forall h | h in Held(rest) ensures objs[h].kind in {Pep, Mr, Eq, Fab} && h in Held(whole) {
      if h in Regions(whole) {
        var key :| key in whole.mrs.value && whole.mrs.value[key] == h;
        assert RegionOk(objs, key, h);
      }
    }
    forall h | h in Held(whole) ensures h in Held(rest) || h in Held(given) {}
  }

  lemma {:induction false} NullOwnsNothing(objs: Objects)
    ensures Held(NULL_CONN) == {} && Owned(objs, NULL_CONN)
  {
  }

  /** What an operation did with the whole, it did with the parts. */
  lemma {:induction false} LocalSplit(objs: Objects, objs': Objects, before: set<nat>, whole: set<nat>,
      a: set<nat>, b: set<nat>)
    requires Local(objs, objs', before, whole) && forall h :: h in whole <==> h in a || h in b
    ensures Local(objs, objs', before, a + b)
    ensures Keeps(objs, objs', before, whole) ==> Keeps(objs, objs', before, a + b)
  {
  }

  /** Closing the passive endpoint and dropping the handle. */
  lemma {:induction false} CloseKeepsOthers(objs: Objects, h: nat, c: Conn, c': Conn)
    requires Owned(objs, c) && c.pep == Some(h) && c' == c.(pep := None)
    ensures Owned(Closed(objs, h), c') && Local(objs, Closed(objs, h), Held(c), Held(c'))
    ensures Keeps(objs, Closed(objs, h), Held(c), Held(c'))
  {
    if c.mrs.Some? {
      forall key | key in c.mrs.value ensures RegionOk(Closed(objs, h), key, c.mrs.value[key]) {
        assert RegionOk(objs, key, c.mrs.value[key]);
      }
    }
  }

  // ------------------------------------------------------------------------- close order

  /** The objects with those of D closed. */
  function CloseSet(objs: Objects, D: set<nat>): (r: Objects)
    ensures |r| == |objs|
    ensures forall i :: 0 <= i < |objs| ==> r[i] == if i in D then objs[i].(open := false) else objs[i]
  {
    seq(|objs|, i requires 0 <= i < |objs| => if i in D then objs[i].(open := false) else objs[i])
  }

  /** Some open object that is not in `held` depends on h. */
  predicate NeededOutside(objs: Objects, held: set<nat>, h: nat) {
    exists z :: 0 <= z < |objs| && z !in held && objs[z].open && h in objs[z].deps
  }

  /** Some open object that is not in `held` depends on one in `held`. */
  predicate Entangled(objs: Objects, held: set<nat>) {
    exists h :: h in held && NeededOutside(objs, held, h)
  }

  /** After closing everything of lower rank, h is busy only for an object outside. */
  lemma {:induction false} BusyOnlyOutside(objs: Objects, held: set<nat>, D: set<nat>, h: nat)
    requires Ordered(objs) && D <= held && h < |objs|
    requires forall z :: z in held && z < |objs| && Rank(objs[z].kind) < Rank(objs[h].kind) ==> z in D
    ensures Busy(CloseSet(objs, D), h) <==> NeededOutside(objs, held, h)
  {
    if Busy(CloseSet(objs, D), h) {
      var z :| 0 <= z < |objs| && CloseSet(objs, D)[z].open && h in CloseSet(objs, D)[z].deps;
      assert ObjOk(objs, z);
      assert z !in held;
    }
    if NeededOutside(objs, held, h) {
      var z :| 0 <= z < |objs| && z !in held && objs[z].open && h in objs[z].deps;
      assert CloseSet(objs, D)[z].open;
    }
  }

  lemma {:induction false} CloseSetStep(objs: Objects, D: set<nat>, h: nat)
    requires h < |objs|
    ensures Closed(CloseSet(objs, D), h) == CloseSet(objs, D + {h})
  {
  }

  /** Lower ranks were tried first. */
  predicate RanksTried(objs: Objects, held: set<nat>, tried: set<nat>) {
    forall h, z :: h in tried && z in held && h < |objs| && z < |objs| && Rank(objs[z].kind) < Rank(objs[h].kind) ==>
      z in tried
  }

  /** The progress of a closing sequence over the handles in `held`: D is what was closed;
      nothing outside needs it; what was refused is still needed; and if nothing is entangled,
      D is all that was tried. */
  predicate Closing(objs0: Objects, objs: Objects, held: set<nat>, tried: set<nat>, D: set<nat>) {
    && objs == CloseSet(objs0, D) && D <= tried <= held
    && (forall h :: h in D ==> !NeededOutside(objs0, held, h))
    && RanksTried(objs0, held, tried) && (forall h :: h in tried && h !in D ==> Busy(objs, h))
    && (!Entangled(objs0, held) ==> D == tried)
  }

  /** What keeps a refused object busy is outside, or of lower rank and refused itself. */
  lemma {:induction false} RefusedStays(objs0: Objects, objs: Objects, held: set<nat>, tried: set<nat>,
      D: set<nat>, h: nat)
    requires Ordered(objs0) && Closing(objs0, objs, held, tried, D) && h in held && h !in tried && h < |objs0|
    ensures forall x :: x in tried && x !in D ==> Busy(Closed(objs, h), x)
  {
    forall x | x in tried && x !in D ensures Busy(Closed(objs, h), x) {
      var z :| 0 <= z < |objs| && objs[z].open && x in objs[z].deps;
      assert ObjOk(objs0, z);
      assert z != h;
      assert Closed(objs, h)[z].open;
    }
  }

  /** At the end of a closing sequence that goes on after refusals, what is still open of
      `held` is what another open object needs. */
  lemma {:induction false} OpenIffNeeded(objs0: Objects, objs: Objects, held: set<nat>, D: set<nat>)
    requires Ordered(objs) && Closing(objs0, objs, held, held, D)
    ensures forall h :: h in held && h < |objs| && objs0[h].open ==> (objs[h].open <==> Busy(objs, h))
  {
    forall h | h in held && h < |objs| && objs0[h].open ensures objs[h].open <==> Busy(objs, h) {
      if Busy(objs, h) {
        var z :| 0 <= z < |objs| && objs[z].open && h in objs[z].deps;
        assert ObjOk(objs, z);
      }
    }
  }

  /** The next close in rank order: it succeeds exactly if nothing outside needs h. */
  lemma {:induction false} ClosingStep(objs0: Objects, objs: Objects, held: set<nat>, tried: set<nat>,
      D: set<nat>, h: nat)
    requires Ordered(objs0) && Closing(objs0, objs, held, tried, D)
    requires h in held && h !in tried && h < |objs0|
    requires forall z :: z in held && z < |objs0| && Rank(objs0[z].kind) < Rank(objs0[h].kind) ==> z in tried
    ensures NeededOutside(objs0, held, h) ==> Busy(objs, h)
    ensures !Entangled(objs0, held) ==> !Busy(objs, h)
    ensures Busy(objs, h) ==> Closing(objs0, objs, held, tried + {h}, D) && Entangled(objs0, held)
    ensures !Busy(objs, h) ==> Closing(objs0, Closed(objs, h), held, tried + {h}, D + {h})
  {
    CloseSetStep(objs0, D, h);
    if !Busy(objs, h) {
      RefusedStays(objs0, objs, held, tried, D, h);
    }
    if NeededOutside(objs0, held, h) {
      var z :| 0 <= z < |objs0| && z !in held && objs0[z].open && h in objs0[z].deps;
      assert CloseSet(objs0, D)[z].open;
    }
    if !Entangled(objs0, held) {
      assert !NeededOutside(objs0, held, h);
      BusyOnlyOutside(objs0, held, D, h);
    }
  }

  /** Of `held`, exactly what no open object needs any more is closed; nothing else changed. */
  predicate ClosedWhatItCould(objs: Objects, held: set<nat>, objs': Objects) {
    && |objs'| == |objs|
    && (forall i :: 0 <= i < |objs| && i !in held ==> objs'[i] == objs[i])
    && (forall i :: 0 <= i < |objs| && i in held ==>
          objs'[i] == objs[i].(open := objs'[i].open) && (objs'[i].open <==> Busy(objs', i)))
  }

  /** The order in which a Connection closes its handles, as the sets closed so far. */
  function Before(c: Conn, k: Kind): set<nat> {
    match k
    case Pep => {}
    case Mr => One(c.pep)
    case Ep => One(c.pep) + Regions(c)
    case Eq => One(c.pep) + Regions(c) + One(c.ep)
    case Cq => One(c.pep) + Regions(c) + One(c.ep) + One(c.eq)
    case Domain => One(c.pep) + Regions(c) + One(c.ep) + One(c.eq) + One(c.rxCq) + One(c.txCq)
    case Fab => One(c.pep) + Regions(c) + One(c.ep) + One(c.eq) + One(c.rxCq) + One(c.txCq) + One(c.domain)
  }

  /** The single handle of a kind, where there is one. */
  predicate IsSlot(c: Conn, k: Kind, h: Option<nat>) {
    match k
    case Pep => h == c.pep
    case Mr => false
    case Ep => h == c.ep
    case Eq => h == c.eq
    case Cq => h == c.rxCq || h == c.txCq
    case Domain => h == c.domain
    case Fab => h == c.fab
  }

  lemma {:induction false} RegionKinds(objs: Objects, c: Conn)
    requires Owned(objs, c)
    ensures forall h :: h in Regions(c) ==> h < |objs| && objs[h].open && objs[h].kind.Mr?
  {
    forall h | h in Regions(c) ensures h < |objs| && objs[h].open && objs[h].kind.Mr? {
      var key :| key in c.mrs.value && c.mrs.value[key] == h;
      assert RegionOk(objs, key, h);
    }
  }

  /** The order respects the ranks. */
  lemma {:induction false} CloseOrder(objs: Objects, c: Conn, k: Kind)
    requires Owned(objs, c)
    ensures forall z :: z in Held(c) ==> z < |objs|
    ensures forall z :: z in Held(c) && Rank(objs[z].kind) < Rank(k) ==> z in Before(c, k)
  {
    RegionKinds(objs, c);
  }

  /** It closes nothing twice. */
  lemma {:induction false} CloseOnce(objs: Objects, c: Conn, k: Kind, h: Option<nat>)
    requires Owned(objs, c) && IsSlot(c, k, h) && h.Some?
    ensures h.value in Held(c) && IsOpen(objs, h.value) && objs[h.value].kind == k && h.value !in Before(c, k)
    ensures k.Cq? && h == c.txCq ==> h.value !in One(c.rxCq)
  {
    RegionKinds(objs, c);
  }

  /** What was tried when the regions with keys in `rest` are still to be closed. */
  function Tried(c: Conn, rest: set<nat>): set<nat>
    requires c.mrs.Some?
  {
    One(c.pep) + set key | key in c.mrs.value && key !in rest :: c.mrs.value[key]
  }

  lemma {:induction false} TriedStep(objs: Objects, c: Conn, rest: set<nat>, key: nat)
    requires Owned(objs, c) && c.mrs.Some? && key in c.mrs.value && key in rest
    ensures var h := c.mrs.value[key];
            h in Held(c) && h !in Tried(c, rest) && Tried(c, rest - {key}) == Tried(c, rest) + {h}
  {
    var m, h := c.mrs.value, c.mrs.value[key];
    assert RegionOk(objs, key, h) && h in Regions(c);
    forall k | k in m && m[k] == h ensures k == key {
      assert RegionOk(objs, k, h);
    }
    forall x ensures x in Tried(c, rest - {key}) <==> x in Tried(c, rest) + {h} {
      if x in Tried(c, rest - {key}) && x !in One(c.pep) {
        var k :| k in m && k !in rest - {key} && m[k] == x;
        assert k == key || x in Tried(c, rest);
      }
    }
  }

  lemma {:induction false} TriedEnds(c: Conn)
    ensures if c.mrs.None? then Before(c, Ep) == Before(c, Mr)
            else Tried(c, c.mrs.value.Keys) == Before(c, Mr) && Tried(c, {}) == Before(c, Ep)
  {
    if c.mrs.Some? {
      forall h | h in Regions(c) ensures h in Tried(c, {}) {
        var key :| key in c.mrs.value && c.mrs.value[key] == h;
      }
    }
  }

  lemma {:induction false} CloseSetIsLocal(objs: Objects, D: set<nat>, held: set<nat>)
    requires D <= held
    ensures Local(objs, CloseSet(objs, D), held, {})
  {
  }

  // ------------------------------------------------------------------------ region table

  /** Every open region on the connection's domain is in its table. */
  predicate TableComplete(objs: Objects, c: Conn) {
    c.domain.Some? && c.mrs.Some? &&
    forall z :: 0 <= z < |objs| && objs[z].open && objs[z].kind.Mr? && c.domain.value in objs[z].deps ==>
      objs[z].key in c.mrs.value && c.mrs.value[objs[z].key] == z
  }

  /** The table is complete, if there is a domain to register regions on. */
  predicate TableOk(objs: Objects, c: Conn) {
    c.domain.Some? && c.mrs.Some? ==> TableComplete(objs, c)
  }

  /** No two open regions on the connection's domain have the same key. */
  ghost predicate KeysDistinct(objs: Objects, c: Conn)
    requires c.domain.Some?
  {
    forall y: nat, z: nat :: OpenRegionOf(objs, c, y) && OpenRegionOf(objs, c, z) && objs[y].key == objs[z].key ==> y == z
  }

  predicate OpenRegionOf(objs: Objects, c: Conn, z: nat)
    requires c.domain.Some?
  {
    z < |objs| && objs[z].open && objs[z].kind.Mr? && c.domain.value in objs[z].deps
  }

  /** An operation of another connection, none of whose regions is on c's domain. */
  lemma {:induction false} TableKept(objs: Objects, objs': Objects, before: set<nat>, after: set<nat>, c: Conn)
    requires Ordered(objs) && Owned(objs, c) && TableOk(objs, c)
    requires Local(objs, objs', before, after) && Held(c) !! before
    requires c.domain.Some? ==> forall z :: z in before && z < |objs| && objs[z].kind.Mr? ==> c.domain.value !in objs[z].deps
    ensures TableOk(objs', c)
  {
    if c.domain.Some? && c.mrs.Some? {
      var d := c.domain.value;
      assert d in Held(c);
      forall z | 0 <= z < |objs'| && objs'[z].open && objs'[z].kind.Mr? && d in objs'[z].deps
        ensures objs'[z].key in c.mrs.value && c.mrs.value[objs'[z].key] == z
      {
        assert z < |objs| && d in objs[z].deps;
      }
    }
  }

  /** A domain that was opened meanwhile has no regions, if none was registered. */
  lemma {:induction false} NewDomainHasNoRegions(objs: Objects, objs': Objects, before: set<nat>,
      after: set<nat>, c: Conn)
    requires Ordered(objs) && Local(objs, objs', before, after) && NoNewRegions(objs, objs')
    requires c.domain.Some? ==> c.domain.value >= |objs|
    ensures TableOk(objs', c)
  {
    if c.domain.Some? {
      forall z | 0 <= z < |objs'| && objs'[z].kind.Mr? && z < |objs| ensures c.domain.value !in objs'[z].deps {
        assert ObjOk(objs, z);
      }
    }
  }

  predicate NoNewRegions(objs: Objects, objs': Objects) {
    forall z :: |objs| <= z < |objs'| ==> !objs'[z].kind.Mr?
  }

  /** Setting up an endpoint makes the table complete, or keeps it so: a new domain has no
      regions yet. */
  lemma {:induction false} SetupKeepsComplete(objs: Objects, objs': Objects, c: Conn, c': Conn)
    requires Ordered(objs) && Owned(objs, c) && Owned(objs', c') && Local(objs, objs', Held(c), Held(c'))
    requires NoNewRegions(objs, objs') && c'.mrs == c.mrs && c'.mrs.Some? && c'.domain.Some?
    requires c.domain.None? || TableComplete(objs, c)
    ensures TableComplete(objs', c')
  {
    forall z | 0 <= z < |objs'| && objs'[z].open && objs'[z].kind.Mr? && c'.domain.value in objs'[z].deps
      ensures objs'[z].key in c.mrs.value && c.mrs.value[objs'[z].key] == z
    {
      assert z < |objs|;
      if z in Held(c) {
        OwnRegionInTable(objs, c, z);
      } else {
        assert objs'[z] == objs[z] && ObjOk(objs, z) && c'.domain.value < |objs|;
        assert c'.domain.value in Held(c');
        OldDomainIsSame(objs, c, c'.domain.value);
      }
    }
  }

  lemma {:induction false} OwnRegionInTable(objs: Objects, c: Conn, z: nat)
    requires Owned(objs, c) && z in Held(c) && z < |objs| && objs[z].kind.Mr?
    ensures c.mrs.Some? && objs[z].key in c.mrs.value && c.mrs.value[objs[z].key] == z
  {
    assert z in Regions(c);
    var key :| key in c.mrs.value && c.mrs.value[key] == z;
    assert RegionOk(objs, key, z);
  }

  lemma {:induction false} OldDomainIsSame(objs: Objects, c: Conn, d: nat)
    requires Owned(objs, c) && d in Held(c) && d < |objs| && objs[d].kind.Domain?
    ensures c.domain == Some(d)
  {
    RegionKinds(objs, c);
  }

  /** A complete table of owned regions is exact: it maps each key to the one open region
      with that key. */
  lemma {:induction false} CompleteTableIsExact(objs: Objects, c: Conn)
    requires Owned(objs, c) && TableComplete(objs, c)
    ensures KeysDistinct(objs, c)
    ensures forall key :: key in c.mrs.value ==> RegionOk(objs, key, c.mrs.value[key])
  {
  }

  /** The objects after the region with key `key` was closed, if there was one. */
  function WithoutKey(objs: Objects, c: Conn, key: nat): Objects
    requires Owned(objs, c) && c.mrs.Some?
  {
    if key in c.mrs.value then
      assert RegionOk(objs, key, c.mrs.value[key]);
      Closed(objs, c.mrs.value[key])
    else objs
  }

  function WithRegion(c: Conn, key: nat, h: nat): Conn
    requires c.mrs.Some?
  {
    c.(mrs := Some(c.mrs.value[key := h]))
  }

  /** register_mr, asked for `key`, registered a region under newKey: the key itself if the
      table has it, and then the old region was closed; otherwise one that is new to the table. */
  predicate Registered(key: nat, objs: Objects, c: Conn, objs': Objects, c': Conn, newKey: nat) {
    && c.mrs.Some? && c.domain.Some?
    && (if key in c.mrs.value then newKey == key && c.mrs.value[key] < |objs| else newKey !in c.mrs.value)
    && c' == c.(mrs := Some(c.mrs.value[newKey := |objs|]))
    && objs' == (if key in c.mrs.value then Closed(objs, c.mrs.value[key]) else objs)
                + [Obj(Mr, {c.domain.value}, true, newKey)]
  }

  /** Registering a region under a key that is not, or no longer, in use. */
  lemma {:induction false} RegisterKeepsOwned(objs: Objects, c: Conn, key: nat)
    requires Owned(objs, c) && c.mrs.Some? && c.domain.Some?
    ensures var objs' := WithoutKey(objs, c, key) + [Obj(Mr, {c.domain.value}, true, key)];
            var c' := WithRegion(c, key, |objs|);
            Owned(objs', c') && Local(objs, objs', Held(c), Held(c')) && Keeps(objs, objs', Held(c), Held(c'))
  {
    var mid, m := WithoutKey(objs, c, key), c.mrs.value;
    var objs', c' := mid + [Obj(Mr, {c.domain.value}, true, key)], WithRegion(c, key, |objs|);
    forall k | k in c'.mrs.value ensures RegionOk(objs', k, c'.mrs.value[k]) {
      if k != key {
        assert RegionOk(objs, k, m[k]);
        if key in m {
          assert RegionOk(objs, key, m[key]);
        }
      }
    }
    forall h | h in Regions(c') ensures h in Regions(c) || h == |objs| {
      var k :| k in c'.mrs.value && c'.mrs.value[k] == h;
    }
    if key in m {
      assert RegionOk(objs, key, m[key]) && m[key] in Regions(c);
    }
    assert c'.mrs.value[key] == |objs|;
    forall h | h in Regions(c) && !(key in m && h == m[key]) ensures h in Regions(c') {
      var k :| k in m && m[k] == h;
      assert c'.mrs.value[k] == h;
    }
  }

  /** The table stays complete, and with it exact. */
  lemma {:induction false} RegisterKeepsComplete(objs: Objects, c: Conn, key: nat)
    requires Owned(objs, c) && TableComplete(objs, c)
    ensures TableComplete(WithoutKey(objs, c, key) + [Obj(Mr, {c.domain.value}, true, key)], WithRegion(c, key, |objs|))
  {
  }

  /** register_mr is one step of a sequence of registrations. */
  lemma {:induction false} RegisteredIsStep(key: nat, objs: Objects, c: Conn, objs': Objects, c': Conn, newKey: nat)
    requires Registered(key, objs, c, objs', c', newKey) && Owned(objs, c) && TableComplete(objs, c)
    ensures RegisterAll(objs, c, [newKey]) == (objs', c') && newKey in c'.mrs.value
  {
    RegisterKeepsOwned(objs, c, newKey);
    RegisterKeepsComplete(objs, c, newKey);
    assert [newKey][1..] == [];
  }

  lemma {:induction false} DomainSurvives(objs: Objects, c: Conn, key: nat)
    requires Owned(objs, c) && c.mrs.Some?
    ensures Slot(WithoutKey(objs, c, key), c.domain, Domain)
  {
    if key in c.mrs.value {
      assert RegionOk(objs, key, c.mrs.value[key]);
    }
  }

  /** A key that no open region has is not in the table. */
  lemma {:induction false} KeyIsNew(objs: Objects, c: Conn, key: nat)
    requires Owned(objs, c) && c.mrs.Some?
    requires forall z :: 0 <= z < |objs| && objs[z].open && objs[z].kind.Mr? ==> objs[z].key != key
    ensures key !in c.mrs.value
  {
    assert key in c.mrs.value ==> RegionOk(objs, key, c.mrs.value[key]);
  }

  /** Successive registrations that ended with the given keys. */
  ghost function RegisterAll(objs: Objects, c: Conn, keys: seq<nat>): (Objects, Conn)
    requires Owned(objs, c) && TableComplete(objs, c)
    decreases |keys|
  {
    if keys == [] then (objs, c)
    else
      RegisterKeepsOwned(objs, c, keys[0]);
      RegisterKeepsComplete(objs, c, keys[0]);
      RegisterAll(WithoutKey(objs, c, keys[0]) + [Obj(Mr, {c.domain.value}, true, keys[0])],
                  WithRegion(c, keys[0], |objs|), keys[1..])
  }

  /** The region table over any sequence of registrations: it maps each key to exactly one
      open region with that key, every open region of the connection's domain is in it,
      and it holds exactly the keys it held before and those registered since. */
  lemma {:induction false} TableOverRuns(objs: Objects, c: Conn, keys: seq<nat>)
    requires Owned(objs, c) && TableComplete(objs, c)
    ensures var (objs', c') := RegisterAll(objs, c, keys);
            && Owned(objs', c') && TableComplete(objs', c') && KeysDistinct(objs', c') && c'.domain == c.domain
            && c'.mrs.value.Keys == c.mrs.value.Keys + set i | 0 <= i < |keys| :: keys[i]
    decreases |keys|
  {
    if keys == [] {
      CompleteTableIsExact(objs, c);
    } else {
      var key := keys[0];
      var o1, c1 := WithoutKey(objs, c, key) + [Obj(Mr, {c.domain.value}, true, key)], WithRegion(c, key, |objs|);
      RegisterKeepsOwned(objs, c, key);
      RegisterKeepsComplete(objs, c, key);
      TableOverRuns(o1, c1, keys[1..]);
      KeysOfRest(keys);
    }
  }

  lemma {:induction false} KeysOfRest(keys: seq<nat>)
    requires keys != []
    ensures (set i | 0 <= i < |keys| :: keys[i]) == {keys[0]} + set i | 0 <= i < |keys[1..]| :: keys[1..][i]
  {
    var rest := set i | 0 <= i < |keys[1..]| :: keys[1..][i];
    forall k ensures k in rest || k == keys[0] <==> k in set i | 0 <= i < |keys| :: keys[i] {
      if k in rest {
        var i :| 0 <= i < |keys[1..]| && keys[1..][i] == k;
        assert keys[i + 1] == k;
      }
      if i :| 0 <= i < |keys| && keys[i] == k {
        assert i == 0 || keys[1..][i - 1] == k;
      }
    }
  }
}
