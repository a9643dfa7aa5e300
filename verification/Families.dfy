/**
 Which connections may depend on which: an accepted connection on the server that accepted
 it, and nothing else.

 A connection is represented by the set of objects it holds and by its origin, which
 travels with the objects when they are moved to another variable.
 */
module Families {
  import opened Common
  import opened Fabric
  import opened Ownership

  /** The number of the connection that was constructed or accepted, and that of the server
      it was accepted from. */
  datatype Origin = Origin(id: nat, parent: Option<nat>)

  predicate ChildOf(p: Origin, o: Origin) {
    p.parent == Some(o.id)
  }

  /** A child's objects may depend on the fabric and the event queue of its server.  In a
      run that is not careful, a region that a server registered may depend on a domain that
      it then handed to a child. */
  predicate MayRely(p: Origin, kind: Kind, o: Origin, on: Kind, careful: bool) {
    || (ChildOf(p, o) && (on.Fab? || on.Eq?))
    || (!careful && ChildOf(o, p) && kind.Mr?)
  }

  predicate InRange(objs: Objects, a: set<nat>) {
    forall h :: h in a ==> h < |objs|
  }

  /** The connections with objects a and b share none, and if one of a depends on one of b,
      then it may. */
  ghost predicate Related(objs: Objects, a: set<nat>, p: Origin, b: set<nat>, o: Origin, careful: bool) {
    && InRange(objs, a) && InRange(objs, b) && a !! b
    && forall z, h :: z in a && h in objs[z].deps && h in b ==> MayRely(p, objs[z].kind, o, objs[h].kind, careful)
  }

  ghost predicate Kindred(objs: Objects, hs: seq<set<nat>>, who: seq<Origin>, careful: bool) {
    && Ordered(objs) && |hs| == |who|
    && (forall i :: 0 <= i < |hs| ==> InRange(objs, hs[i]))
    && (forall i, j :: 0 <= i < |hs| && 0 <= j < |hs| && i != j ==> Related(objs, hs[i], who[i], hs[j], who[j], careful))
  }

  ghost predicate HeldBySome(hs: seq<set<nat>>, z: nat) {
    exists i :: 0 <= i < |hs| && z in hs[i]
  }

  /** No open object was forgotten. */
  ghost predicate AllHeld(objs: Objects, hs: seq<set<nat>>) {
    forall z :: 0 <= z < |objs| && objs[z].open ==> HeldBySome(hs, z)
  }

  predicate HasChild(who: seq<Origin>, i: nat)
    requires i < |who|
  {
    exists j :: 0 <= j < |who| && ChildOf(who[j], who[i])
  }

  /** s without its entry i. */
  function Without<T>(s: seq<T>, i: nat): (r: seq<T>)
    requires i < |s|
    ensures |r| == |s| - 1
    ensures forall k :: 0 <= k < |r| ==> r[k] == if k < i then s[k] else s[k + 1]
  {
    seq(|s| - 1, k requires 0 <= k < |s| - 1 => if k < i then s[k] else s[k + 1])
  }

  // --------------------------------------------------------------------- what is implied

  /** In every run: if a connection cannot be destroyed cleanly, the reason is a child of
      it, or a region that its server registered on its domain, or a forgotten object. */
  lemma {:induction false} EntangledOnlyInFamily(objs: Objects, hs: seq<set<nat>>, who: seq<Origin>,
      careful: bool, i: nat) returns (z: nat)
    requires Kindred(objs, hs, who, careful) && i < |hs| && Entangled(objs, hs[i])
    ensures z < |objs| && objs[z].open && z !in hs[i] && objs[z].deps * hs[i] != {}
    ensures || !HeldBySome(hs, z)
            || (exists j :: 0 <= j < |hs| && z in hs[j] && ChildOf(who[j], who[i]))
            || (!careful && objs[z].kind.Mr? && exists j :: 0 <= j < |hs| && z in hs[j] && ChildOf(who[i], who[j]))
  {
    var h :| h in hs[i] && NeededOutside(objs, hs[i], h);
    z :| 0 <= z < |objs| && z !in hs[i] && objs[z].open && h in objs[z].deps;
    assert h in objs[z].deps * hs[i];
    if j :| 0 <= j < |hs| && z in hs[j] {
      assert Related(objs, hs[j], who[j], hs[i], who[i], careful);
    }
  }

  /** In a careful run, a connection whose children are gone can be destroyed cleanly. */
  lemma {:induction false} ChildlessNotEntangled(objs: Objects, hs: seq<set<nat>>, who: seq<Origin>, i: nat)
    requires Kindred(objs, hs, who, true) && AllHeld(objs, hs) && i < |hs| && !HasChild(who, i)
    ensures !Entangled(objs, hs[i])
  {
    if Entangled(objs, hs[i]) {
      var z := EntangledOnlyInFamily(objs, hs, who, true, i);
    }
  }

  // ----------------------------------------------------------------- how it is preserved

  /** An operation of the connection with objects `before` keeps it related to another one
      with objects x, in both directions. */
  lemma {:induction false} LocalKeepsRelated(objs: Objects, objs': Objects, before: set<nat>, after: set<nat>,
      p: Origin, x: set<nat>, o: Origin, careful: bool)
    requires Ordered(objs) && Local(objs, objs', before, after) && InRange(objs', after)
    requires Related(objs, before, p, x, o, careful) && Related(objs, x, o, before, p, careful)
    ensures Related(objs', after, p, x, o, careful) && Related(objs', x, o, after, p, careful)
  {
    forall z, h | z in after && h in objs'[z].deps && h in x
      ensures MayRely(p, objs'[z].kind, o, objs'[h].kind, careful)
    {
      assert h < |objs| && h !in before;
      assert z < |objs| && h in objs[z].deps;
    }
    forall z, h | z in x && h in objs'[z].deps && h in after
      ensures MayRely(o, objs'[z].kind, p, objs'[h].kind, careful)
    {
      assert objs'[z] == objs[z] && ObjOk(objs, z);
    }
  }

  lemma {:induction false} LocalKeepsOthers(objs: Objects, objs': Objects, before: set<nat>, after: set<nat>,
      x: set<nat>, p: Origin, y: set<nat>, o: Origin, careful: bool)
    requires Local(objs, objs', before, after) && Related(objs, x, p, y, o, careful) && x !! before
    ensures Related(objs', x, p, y, o, careful)
  {
    forall z, h | z in x && h in objs'[z].deps && h in y ensures MayRely(p, objs'[z].kind, o, objs'[h].kind, careful) {
      assert objs'[z] == objs[z];
    }
  }

  /** One connection acts. */
  lemma {:induction false} ActKeepsFamilies(objs: Objects, objs': Objects, hs: seq<set<nat>>,
      who: seq<Origin>, careful: bool, i: nat, after: set<nat>)
    requires Kindred(objs, hs, who, careful) && i < |hs| && Ordered(objs')
    requires Local(objs, objs', hs[i], after) && InRange(objs', after)
    ensures Kindred(objs', hs[i := after], who, careful)
    ensures AllHeld(objs, hs) && Keeps(objs, objs', hs[i], after) ==> AllHeld(objs', hs[i := after])
  {
    var hs' := hs[i := after];
    forall a, b | 0 <= a < |hs'| && 0 <= b < |hs'| && a != b ensures Related(objs', hs'[a], who[a], hs'[b], who[b], careful) {
      assert Related(objs, hs[a], who[a], hs[b], who[b], careful) && Related(objs, hs[b], who[b], hs[a], who[a], careful);
      if a == i || b == i {
        var k := if a == i then b else a;
        LocalKeepsRelated(objs, objs', hs[i], after, who[i], hs[k], who[k], careful);
      } else {
        assert Related(objs, hs[a], who[a], hs[i], who[i], careful);
        LocalKeepsOthers(objs, objs', hs[i], after, hs[a], who[a], hs[b], who[b], careful);
      }
    }
    if AllHeld(objs, hs) && Keeps(objs, objs', hs[i], after) {
      forall z | 0 <= z < |objs'| && objs'[z].open ensures HeldBySome(hs', z) {
        if z in hs[i] || z >= |objs| {
          assert z in hs'[i];
        } else {
          var j :| 0 <= j < |hs| && z in hs[j];
          assert z in hs'[j];
        }
      }
    }
  }

  /** A connection that depends on no other, and no other on it, joins. */
  lemma {:induction false} AppendKeepsFamilies(objs: Objects, hs: seq<set<nat>>, who: seq<Origin>,
      careful: bool, a: set<nat>, p: Origin)
    requires Kindred(objs, hs, who, careful) && InRange(objs, a)
    requires forall i :: 0 <= i < |hs| ==> Related(objs, hs[i], who[i], a, p, careful) && Related(objs, a, p, hs[i], who[i], careful)
    ensures Kindred(objs, hs + [a], who + [p], careful)
  {
  }

  /** A new connection that took nothing existing joins. */
  lemma {:induction false} JoinKeepsFamilies(objs: Objects, objs': Objects, hs: seq<set<nat>>,
      who: seq<Origin>, careful: bool, after: set<nat>, p: Origin)
    requires Kindred(objs, hs, who, careful) && Ordered(objs') && Local(objs, objs', {}, after) && InRange(objs', after)
    ensures Kindred(objs', hs + [after], who + [p], careful)
    ensures AllHeld(objs, hs) && Keeps(objs, objs', {}, after) ==> AllHeld(objs', hs + [after])
  {
    AppendKeepsFamilies(objs, hs, who, careful, {}, p);
    ActKeepsFamilies(objs, objs', hs + [{}], who + [p], careful, |hs|, after);
    assert (hs + [{}])[|hs| := after] == hs + [after];
    assert forall i :: 0 <= i < |hs| ==> (hs + [{}])[i] == hs[i];
    if AllHeld(objs, hs) {
      forall z | 0 <= z < |objs| && objs[z].open ensures HeldBySome(hs + [{}], z) {
        var i :| 0 <= i < |hs| && z in hs[i];
        assert z in (hs + [{}])[i];
      }
    }
  }

  /** What accept leaves with the server, and what it gives to the new connection. */
  ghost predicate ServerSide(objs: Objects, a: set<nat>) {
    forall z :: z in a ==> z < |objs| && (objs[z].kind.Pep? || objs[z].kind.Mr? || objs[z].kind.Eq? || objs[z].kind.Fab?)
  }

  ghost predicate EndpointSide(objs: Objects, a: set<nat>) {
    forall z :: z in a ==> z < |objs| && (objs[z].kind.Ep? || objs[z].kind.Cq? || objs[z].kind.Domain?)
  }

  /** What was handed over is new, and the regions of the server are old. */
  ghost predicate NewAndOld(objs: Objects, objs': Objects, mine: set<nat>, given: set<nat>) {
    && (forall h :: h in given ==> h >= |objs|)
    && (forall z :: z in mine && z < |objs'| && objs'[z].kind.Mr? ==> z < |objs|)
  }

  lemma {:induction false} OldRegionOnOldDomain(objs: Objects, objs': Objects, before: set<nat>,
      after: set<nat>, z: nat, h: nat)
    requires Ordered(objs) && Local(objs, objs', before, after)
    requires z < |objs| && objs'[z].kind.Mr? && h in objs'[z].deps
    ensures h < |objs|
  {
    assert objs[z].kind == objs'[z].kind;
    assert ObjOk(objs, z);
  }

  /** The new connection depends on its server's event queue and fabric.  The server depends
      on it only by a region registered before, and not if what it was given is new. */
  lemma {:induction false} SidesAreRelated(objs: Objects, objs': Objects, before: set<nat>, mine: set<nat>,
      given: set<nat>, p: Origin, q: Origin, careful: bool)
    requires Ordered(objs) && Ordered(objs') && Local(objs, objs', before, mine + given)
    requires ServerSide(objs', mine) && EndpointSide(objs', given) && ChildOf(q, p)
    requires careful ==> NewAndOld(objs, objs', mine, given)
    ensures Related(objs', given, q, mine, p, careful) && Related(objs', mine, p, given, q, careful)
  {
    forall z, h | z in given && h in objs'[z].deps && h in mine ensures MayRely(q, objs'[z].kind, p, objs'[h].kind, careful) {
      assert ObjOk(objs', z);
    }
    forall z, h | z in mine && h in objs'[z].deps && h in given ensures MayRely(p, objs'[z].kind, q, objs'[h].kind, careful) {
      assert ObjOk(objs', z);
      if careful {
        OldRegionOnOldDomain(objs, objs', before, mine + given, z, h);
      }
    }
  }

  /** A third connection has nothing to do with what accept gave away. */
  lemma {:induction false} GivenIsUnrelated(objs: Objects, objs': Objects, before: set<nat>, given: set<nat>,
      p: Origin, q: Origin, x: set<nat>, o: Origin, careful: bool)
    requires Ordered(objs) && Local(objs, objs', before, given) && EndpointSide(objs', given) && p.parent.None?
    requires Related(objs, before, p, x, o, careful) && Related(objs, x, o, before, p, careful)
    ensures Related(objs', given, q, x, o, careful) && Related(objs', x, o, given, q, careful)
  {
    LocalKeepsRelated(objs, objs', before, given, p, x, o, careful);
    forall z, h | z in given && h in objs'[z].deps && h in x ensures false {}
    forall z, h | z in x && h in objs'[z].deps && h in given ensures false {}
  }

  /** accept: a server without a parent splits what it held and opened with a child. */
  lemma {:induction false} AcceptKeepsFamilies(objs: Objects, objs': Objects, hs: seq<set<nat>>,
      who: seq<Origin>, careful: bool, i: nat, mine: set<nat>, given: set<nat>, q: Origin)
    requires Kindred(objs, hs, who, careful) && i < |hs| && Ordered(objs')
    requires Local(objs, objs', hs[i], mine + given) && mine !! given
    requires ServerSide(objs', mine) && EndpointSide(objs', given) && who[i].parent.None? && ChildOf(q, who[i])
    requires careful ==> NewAndOld(objs, objs', mine, given)
    ensures Kindred(objs', hs[i := mine] + [given], who + [q], careful)
    ensures AllHeld(objs, hs) && Keeps(objs, objs', hs[i], mine + given) ==> AllHeld(objs', hs[i := mine] + [given])
  {
    var hs1 := hs[i := mine];
    ActKeepsFamilies(objs, objs', hs, who, careful, i, mine);
    forall k | 0 <= k < |hs1|
      ensures Related(objs', hs1[k], who[k], given, q, careful) && Related(objs', given, q, hs1[k], who[k], careful)
    {
      if k == i {
        SidesAreRelated(objs, objs', hs[i], mine, given, who[i], q, careful);
      } else {
        assert Related(objs, hs[i], who[i], hs[k], who[k], careful);
        GivenIsUnrelated(objs, objs', hs[i], given, who[i], q, hs[k], who[k], careful);
      }
    }
    AppendKeepsFamilies(objs', hs1, who, careful, given, q);
    if AllHeld(objs, hs) && Keeps(objs, objs', hs[i], mine + given) {
      AcceptKeepsHeld(objs, objs', hs, i, mine, given);
    }
  }

  lemma {:induction false} AcceptKeepsHeld(objs: Objects, objs': Objects, hs: seq<set<nat>>, i: nat,
      mine: set<nat>, given: set<nat>)
    requires AllHeld(objs, hs) && i < |hs| && Local(objs, objs', hs[i], mine + given) && Keeps(objs, objs', hs[i], mine + given)
    ensures AllHeld(objs', hs[i := mine] + [given])
  {
    var hs' := hs[i := mine] + [given];
    assert hs'[i] == mine && hs'[|hs|] == given;
    forall z | 0 <= z < |objs'| && objs'[z].open ensures HeldBySome(hs', z) {
      if z in hs[i] || z >= |objs| {
        assert z in mine + given;
      } else {
        var j :| 0 <= j < |hs| && z in hs[j];
        assert z in hs'[j];
      }
    }
  }

  /** Moves only change which variable has which objects: entry a of the new list is entry
      from[a] of the old one, or holds nothing. */
  lemma {:induction false} ReindexKeepsFamilies(objs: Objects, hs: seq<set<nat>>, who: seq<Origin>,
      careful: bool, hs': seq<set<nat>>, who': seq<Origin>, from: seq<nat>)
    requires Kindred(objs, hs, who, careful) && |hs'| == |who'| == |from|
    requires forall a :: 0 <= a < |from| ==>
               if from[a] < |hs| then hs'[a] == hs[from[a]] && who'[a] == who[from[a]] else hs'[a] == {}
    requires forall a, b :: 0 <= a < |from| && 0 <= b < |from| && a != b && from[a] < |hs| ==> from[a] != from[b]
    ensures Kindred(objs, hs', who', careful)
    ensures AllHeld(objs, hs) && (forall i :: 0 <= i < |hs| ==> i in from || hs[i] == {}) ==> AllHeld(objs, hs')
  {
    forall a, b | 0 <= a < |hs'| && 0 <= b < |hs'| && a != b ensures Related(objs, hs'[a], who'[a], hs'[b], who'[b], careful) {
      if from[a] < |hs| && from[b] < |hs| {
        assert Related(objs, hs[from[a]], who[from[a]], hs[from[b]], who[from[b]], careful);
      }
    }
    if AllHeld(objs, hs) && forall i :: 0 <= i < |hs| ==> i in from || hs[i] == {} {
      forall z | 0 <= z < |objs| && objs[z].open ensures HeldBySome(hs', z) {
        var i :| 0 <= i < |hs| && z in hs[i];
        var a :| 0 <= a < |from| && from[a] == i;
        assert z in hs'[a];
      }
    }
  }

  /** Moving the objects of entry i to a new entry. */
  lemma {:induction false} MoveKeepsFamilies(objs: Objects, hs: seq<set<nat>>, who: seq<Origin>,
      careful: bool, i: nat, p: Origin)
    requires Kindred(objs, hs, who, careful) && i < |hs|
    ensures Kindred(objs, hs[i := {}] + [hs[i]], who[i := p] + [who[i]], careful)
    ensures AllHeld(objs, hs) ==> AllHeld(objs, hs[i := {}] + [hs[i]])
  {
    var n := |hs|;
    var from := seq(n + 1, a => if a == i then n else if a == n then i else a);
    forall k | 0 <= k < n ensures k in from {
      assert from[if k == i then n else k] == k;
    }
    ReindexKeepsFamilies(objs, hs, who, careful, hs[i := {}] + [hs[i]], who[i := p] + [who[i]], from);
  }

  /** Removing entry i, which closed what it held. */
  lemma {:induction false} LeaveKeepsFamilies(objs: Objects, objs': Objects, hs: seq<set<nat>>,
      who: seq<Origin>, careful: bool, i: nat)
    requires Kindred(objs, hs, who, careful) && i < |hs| && Ordered(objs') && Local(objs, objs', hs[i], {})
    ensures Kindred(objs', Without(hs, i), Without(who, i), careful)
    ensures AllHeld(objs, hs) && Keeps(objs, objs', hs[i], {}) ==> AllHeld(objs', Without(hs, i))
  {
    ActKeepsFamilies(objs, objs', hs, who, careful, i, {});
    var from := seq(|hs| - 1, a => if a < i then a else a + 1);
    forall k | 0 <= k < |hs| && k != i ensures k in from {
      assert from[if k < i then k else k - 1] == k;
    }
    ReindexKeepsFamilies(objs', hs[i := {}], who, careful, Without(hs, i), Without(who, i), from);
  }

  /** Moving the objects of entry j to entry i, which closed what it held. */
  lemma {:induction false} AssignKeepsFamilies(objs: Objects, objs': Objects, hs: seq<set<nat>>,
      who: seq<Origin>, careful: bool, i: nat, j: nat, p: Origin)
    requires Kindred(objs, hs, who, careful) && i < |hs| && j < |hs| && i != j
    requires Ordered(objs') && Local(objs, objs', hs[i], {})
    ensures Kindred(objs', hs[i := hs[j]][j := {}], who[i := who[j]][j := p], careful)
    ensures AllHeld(objs, hs) && Keeps(objs, objs', hs[i], {}) ==> AllHeld(objs', hs[i := hs[j]][j := {}])
  {
    ActKeepsFamilies(objs, objs', hs, who, careful, i, {});
    var from := seq(|hs|, a => if a == i then j else if a == j then |hs| else a);
    forall k | 0 <= k < |hs| && k != i ensures k in from {
      assert from[if k == j then i else k] == k;
    }
    ReindexKeepsFamilies(objs', hs[i := {}], who, careful, hs[i := hs[j]][j := {}], who[i := who[j]][j := p], from);
  }
}
