/** Arbitrary runs of operations on any number of connections over one provider. */
module Ensemble {
  import opened Common
  import opened Fabric
  import opened Ownership
  import opened Setup
  import opened Families
  import opened Lifecycle
  import opened Effects

  /** The connections, the origin of what each of them holds, and the next free number. */
  datatype Group = Group(conns: seq<Connection>, who: seq<Origin>, next: nat)

  function Views(conns: seq<Connection>): (r: seq<Conn>)
    reads conns
    ensures |r| == |conns| && forall i :: 0 <= i < |conns| ==> r[i] == conns[i].View()
  {
    seq(|conns|, i requires 0 <= i < |conns| reads conns => conns[i].View())
  }

  /** The fields of a connection. */
  function Fields(k: Connection): Member
    reads k
  {
    Member(k.isServer, k.failed, k.View())
  }

  function Members(conns: seq<Connection>): (r: seq<Member>)
    reads conns
    ensures |r| == |conns| && forall i :: 0 <= i < |conns| ==> r[i] == Fields(conns[i])
  {
    seq(|conns|, i requires 0 <= i < |conns| reads conns => Fields(conns[i]))
  }

  function Snap(fabric: Provider, g: Group): Snapshot
    reads fabric, g.conns
  {
    Snapshot(fabric.objs, fabric.answers, Members(g.conns), g.who, g.next)
  }

  function Holdings(vs: seq<Conn>): (r: seq<set<nat>>)
    ensures |r| == |vs| && forall i :: 0 <= i < |vs| ==> r[i] == Held(vs[i])
  {
    seq(|vs|, i requires 0 <= i < |vs| => Held(vs[i]))
  }

  // ---------------------------------------------------------------------- on the values

  ghost predicate AllOwned(objs: Objects, vs: seq<Conn>) {
    forall i :: 0 <= i < |vs| ==> Owned(objs, vs[i])
  }

  ghost predicate TablesOk(objs: Objects, vs: seq<Conn>) {
    forall i :: 0 <= i < |vs| ==> TableOk(objs, vs[i])
  }

  /** Every connection owns its objects exclusively, and depends on others only as its origin
      allows; in a careful run, no open object was forgotten and every region table is
      complete. */
  ghost predicate Consistent(objs: Objects, vs: seq<Conn>, who: seq<Origin>, careful: bool) {
    && AllOwned(objs, vs)
    && Kindred(objs, Holdings(vs), who, careful)
    && (careful ==> AllHeld(objs, Holdings(vs)) && TablesOk(objs, vs))
  }

  /** No object is held by two connections. */
  lemma {:induction false} HeldOnce(objs: Objects, vs: seq<Conn>, who: seq<Origin>, careful: bool, i: nat, j: nat)
    requires Consistent(objs, vs, who, careful) && i < |vs| && j < |vs| && i != j
    ensures Held(vs[i]) !! Held(vs[j])
  {
    var hs := Holdings(vs);
    assert Related(objs, hs[i], who[i], hs[j], who[j], careful);
  }

  /** In a careful run, the region table of every connection that has a domain maps each key
      to the one open region of the domain with that key, and contains all of them. */
  lemma {:induction false} TableIsExact(objs: Objects, vs: seq<Conn>, who: seq<Origin>, i: nat)
    requires Consistent(objs, vs, who, true) && i < |vs| && vs[i].domain.Some? && vs[i].mrs.Some?
    ensures KeysDistinct(objs, vs[i])
    ensures forall key :: key in vs[i].mrs.value ==> RegionOk(objs, key, vs[i].mrs.value[key])
    ensures forall z: nat :: OpenRegionOf(objs, vs[i], z) ==>
              objs[z].key in vs[i].mrs.value && vs[i].mrs.value[objs[z].key] == z
  {
    assert TableOk(objs, vs[i]);
    CompleteTableIsExact(objs, vs[i]);
  }

  lemma {:induction false} OthersStayOwned(objs: Objects, objs': Objects, vs: seq<Conn>, who: seq<Origin>,
      careful: bool, i: nat, after: set<nat>)
    requires Consistent(objs, vs, who, careful) && i < |vs| && Local(objs, objs', Held(vs[i]), after)
    ensures forall k :: 0 <= k < |vs| && k != i ==> Owned(objs', vs[k])
  {
    forall k | 0 <= k < |vs| && k != i ensures Owned(objs', vs[k]) {
      HeldOnce(objs, vs, who, careful, k, i);
      OthersKeepTheirs(objs, objs', Held(vs[i]), after, vs[k]);
    }
  }

  /** The region tables of the other connections stay complete: none of i's regions is on
      their domains. */
  lemma {:induction false} OthersKeepTables(objs: Objects, objs': Objects, vs: seq<Conn>, who: seq<Origin>, i: nat,
      after: set<nat>)
    requires Consistent(objs, vs, who, true) && i < |vs| && Local(objs, objs', Held(vs[i]), after)
    ensures forall k :: 0 <= k < |vs| && k != i ==> TableOk(objs', vs[k])
  {
    forall k | 0 <= k < |vs| && k != i ensures TableOk(objs', vs[k]) {
      HeldOnce(objs, vs, who, true, k, i);
      if vs[k].domain.Some? {
        NoForeignRegions(objs, vs, who, i, k);
      }
      TableKept(objs, objs', Held(vs[i]), after, vs[k]);
    }
  }

  lemma {:induction false} NoForeignRegions(objs: Objects, vs: seq<Conn>, who: seq<Origin>, i: nat, k: nat)
    requires Consistent(objs, vs, who, true) && i < |vs| && k < |vs| && i != k && vs[k].domain.Some?
    ensures forall z :: z in Held(vs[i]) && z < |objs| && objs[z].kind.Mr? ==> vs[k].domain.value !in objs[z].deps
  {
    var hs := Holdings(vs);
    assert Related(objs, hs[i], who[i], hs[k], who[k], true);
    DomainIsHeld(objs, vs[k]);
  }

  lemma {:induction false} DomainIsHeld(objs: Objects, c: Conn)
    requires Owned(objs, c) && c.domain.Some?
    ensures c.domain.value in Held(c) && c.domain.value < |objs| && objs[c.domain.value].kind.Domain?
  {
  }

  /** One connection acts: it may only change what it held or opened. */
  lemma {:induction false} ActKeepsConsistent(objs: Objects, objs': Objects, vs: seq<Conn>, who: seq<Origin>,
      careful: bool, i: nat, v': Conn)
    requires Consistent(objs, vs, who, careful) && i < |vs| && Ordered(objs') && Owned(objs', v')
    requires Local(objs, objs', Held(vs[i]), Held(v'))
    requires careful ==> Keeps(objs, objs', Held(vs[i]), Held(v')) && TableOk(objs', v')
    ensures Consistent(objs', vs[i := v'], who, careful)
  {
    if careful {
      OthersKeepTables(objs, objs', vs, who, i, Held(v'));
    }
    OthersStayOwned(objs, objs', vs, who, careful, i, Held(v'));
    HeldInRange(objs', v');
    ActKeepsFamilies(objs, objs', Holdings(vs), who, careful, i, Held(v'));
    PartsUpdated(objs', vs, i, v', careful);
  }

  /** A new connection that took nothing existing joins. */
  lemma {:induction false} JoinKeepsConsistent(objs: Objects, objs': Objects, vs: seq<Conn>, who: seq<Origin>,
      careful: bool, v: Conn, p: Origin)
    requires Consistent(objs, vs, who, careful) && Ordered(objs') && Owned(objs', v)
    requires Local(objs, objs', {}, Held(v)) && (careful ==> Keeps(objs, objs', {}, Held(v)) && TableOk(objs', v))
    ensures Consistent(objs', vs + [v], who + [p], careful)
  {
    forall k | 0 <= k < |vs| ensures Owned(objs', vs[k]) && (careful ==> TableOk(objs', vs[k])) {
      OthersKeepTheirs(objs, objs', {}, Held(v), vs[k]);
      if careful {
        TableKept(objs, objs', {}, Held(v), vs[k]);
      }
    }
    HeldInRange(objs', v);
    JoinKeepsFamilies(objs, objs', Holdings(vs), who, careful, Held(v), p);
    PartsJoined(objs', vs, v, careful);
  }

  lemma {:induction false} SideOfServer(objs: Objects, c: Conn)
    requires Owned(objs, c) && c.domain.None? && c.ep.None? && c.rxCq.None? && c.txCq.None?
    ensures ServerSide(objs, Held(c))
    ensures forall z :: z in Held(c) && objs[z].kind.Mr? ==> z in Regions(c)
  {
    RegionKinds(objs, c);
  }

  lemma {:induction false} SideOfChild(objs: Objects, c: Conn)
    requires Owned(objs, c) && c.fab.None? && c.pep.None? && c.eq.None? && c.mrs == Some(map[])
    ensures EndpointSide(objs, Held(c))
  {
  }

  /** If there was nothing that the new endpoint could overwrite, then all that was handed
      over is new, and the regions are old. */
  lemma {:induction false} VacantHandsOverNew(objs: Objects, objs': Objects, c: Conn, v: Conn, w: Conn)
    requires Owned(objs, c) && c.domain.None? && c.ep.None? && c.rxCq.None? && c.txCq.None?
    requires Owned(objs', v) && Owned(objs', w) && HandsOver(c, v, w)
    requires Local(objs, objs', Held(c), Held(v) + Held(w))
    ensures NewAndOld(objs, objs', Held(v), Held(w))
  {
    SideOfServer(objs, c);
    SideOfServer(objs', v);
    SideOfChild(objs', w);
    RegionKinds(objs, c);
    forall h | h in Held(w) ensures h in Held(v) + Held(w) {}
  }

  lemma {:induction false} HoldingsSplit(vs: seq<Conn>, i: nat, v: Conn, w: Conn)
    requires i < |vs|
    ensures Holdings(vs[i := v] + [w]) == Holdings(vs)[i := Held(v)] + [Held(w)]
  {
  }

  lemma {:induction false} OwnedSplit(objs: Objects, vs: seq<Conn>, i: nat, v: Conn, w: Conn)
    requires i < |vs| && Owned(objs, v) && Owned(objs, w)
    requires forall k :: 0 <= k < |vs| && k != i ==> Owned(objs, vs[k])
    ensures AllOwned(objs, vs[i := v] + [w])
  {
  }

  lemma {:induction false} TablesSplit(objs: Objects, vs: seq<Conn>, i: nat, v: Conn, w: Conn)
    requires i < |vs| && TableOk(objs, v) && TableOk(objs, w)
    requires forall k :: 0 <= k < |vs| && k != i ==> TableOk(objs, vs[k])
    ensures TablesOk(objs, vs[i := v] + [w])
  {
  }

  lemma {:induction false} HoldingsAssigned(vs: seq<Conn>, i: nat, j: nat)
    requires i < |vs| && j < |vs| && i != j
    ensures Holdings(vs[i := vs[j]][j := MOVED_CONN]) == Holdings(vs)[i := Held(vs[j])][j := {}]
  {
  }

  /** accept: the server splits what it held or opened with a child. */
  lemma {:induction false} SplitKeepsConsistent(objs: Objects, objs': Objects, vs: seq<Conn>,
      who: seq<Origin>, careful: bool, i: nat, v: Conn, w: Conn, q: Origin)
    requires Consistent(objs, vs, who, careful) && i < |vs| && Ordered(objs') && Owned(objs', v) && Owned(objs', w)
    requires Held(v) !! Held(w) && Local(objs, objs', Held(vs[i]), Held(v) + Held(w))
    requires ServerSide(objs', Held(v)) && EndpointSide(objs', Held(w)) && who[i].parent.None? && ChildOf(q, who[i])
    requires careful ==>
               && Keeps(objs, objs', Held(vs[i]), Held(v) + Held(w)) && NewAndOld(objs, objs', Held(v), Held(w))
               && TableOk(objs', v) && TableOk(objs', w)
    ensures Consistent(objs', vs[i := v] + [w], who + [q], careful)
  {
    OthersStayOwned(objs, objs', vs, who, careful, i, Held(v) + Held(w));
    AcceptKeepsFamilies(objs, objs', Holdings(vs), who, careful, i, Held(v), Held(w), q);
    HoldingsSplit(vs, i, v, w);
    OwnedSplit(objs', vs, i, v, w);
    if careful {
      OthersKeepTables(objs, objs', vs, who, i, Held(v) + Held(w));
      TablesSplit(objs', vs, i, v, w);
    }
  }

  /** accept, whether it was successful or not. */
  lemma {:induction false} AcceptKeepsConsistent(objs: Objects, objs': Objects, vs: seq<Conn>,
      who: seq<Origin>, careful: bool, i: nat, v: Conn, w: Conn, q: Origin)
    requires Consistent(objs, vs, who, careful) && i < |vs| && Ordered(objs') && Owned(objs', v) && Owned(objs', w)
    requires Held(v) !! Held(w) && Local(objs, objs', Held(vs[i]), Held(v) + Held(w))
    requires careful ==> Keeps(objs, objs', Held(vs[i]), Held(v) + Held(w))
    requires w == NULL_CONN || (HandsOver(vs[i], v, w) && who[i].parent.None? && ChildOf(q, who[i]))
    requires careful && w != NULL_CONN ==> vs[i].domain.None? && vs[i].ep.None? && vs[i].rxCq.None? && vs[i].txCq.None?
    requires careful ==> TableOk(objs', v) && NoNewRegions(objs, objs')
    ensures Consistent(objs', vs[i := v] + [w], who + [q], careful)
  {
    if w == NULL_CONN {
      assert Held(v) + Held(w) == Held(v);
      ActKeepsConsistent(objs, objs', vs, who, careful, i, v);
      JoinKeepsConsistent(objs', objs', vs[i := v], who, careful, w, q);
    } else {
      SideOfServer(objs', v);
      SideOfChild(objs', w);
      if careful {
        VacantHandsOverNew(objs, objs', vs[i], v, w);
        NewDomainHasNoRegions(objs, objs', Held(vs[i]), Held(v) + Held(w), w);
      }
      SplitKeepsConsistent(objs, objs', vs, who, careful, i, v, w, q);
    }
  }

  lemma {:induction false} PartsAssigned(objs: Objects, vs: seq<Conn>, i: nat, j: nat, careful: bool)
    requires i < |vs| && j < |vs| && i != j
    requires forall k :: 0 <= k < |vs| && k != i ==> Owned(objs, vs[k]) && (careful ==> TableOk(objs, vs[k]))
    ensures var vs' := vs[i := vs[j]][j := MOVED_CONN];
            AllOwned(objs, vs') && (careful ==> TablesOk(objs, vs'))
  {
  }

  lemma {:induction false} PartsWithout(objs: Objects, vs: seq<Conn>, i: nat, careful: bool)
    requires i < |vs|
    requires forall k :: 0 <= k < |vs| && k != i ==> Owned(objs, vs[k]) && (careful ==> TableOk(objs, vs[k]))
    ensures var vs' := Without(vs, i);
            && AllOwned(objs, vs') && (careful ==> TablesOk(objs, vs'))
            && Holdings(vs') == Without(Holdings(vs), i)
  {
  }

  lemma {:induction false} PartsJoined(objs: Objects, vs: seq<Conn>, v: Conn, careful: bool)
    requires forall k :: 0 <= k < |vs| ==> Owned(objs, vs[k]) && (careful ==> TableOk(objs, vs[k]))
    requires Owned(objs, v) && (careful ==> TableOk(objs, v))
    ensures var vs' := vs + [v];
            && AllOwned(objs, vs') && (careful ==> TablesOk(objs, vs'))
            && Holdings(vs') == Holdings(vs) + [Held(v)]
  {
  }

  lemma {:induction false} PartsUpdated(objs: Objects, vs: seq<Conn>, i: nat, v: Conn, careful: bool)
    requires i < |vs|
    requires forall k :: 0 <= k < |vs| && k != i ==> Owned(objs, vs[k]) && (careful ==> TableOk(objs, vs[k]))
    requires Owned(objs, v) && (careful ==> TableOk(objs, v))
    ensures var vs' := vs[i := v];
            && AllOwned(objs, vs') && (careful ==> TablesOk(objs, vs'))
            && Holdings(vs') == Holdings(vs)[i := Held(v)]
  {
  }

  lemma {:induction false} PartsMoved(objs: Objects, vs: seq<Conn>, i: nat, careful: bool)
    requires i < |vs| && AllOwned(objs, vs) && (careful ==> TablesOk(objs, vs))
    ensures var vs' := vs[i := MOVED_CONN] + [vs[i]];
            && AllOwned(objs, vs') && (careful ==> TablesOk(objs, vs'))
            && Holdings(vs') == Holdings(vs)[i := {}] + [Held(vs[i])]
  {
  }

  /** The source of a move construction keeps nothing. */
  lemma {:induction false} MoveKeepsConsistent(objs: Objects, vs: seq<Conn>, who: seq<Origin>, careful: bool,
      i: nat, p: Origin)
    requires Consistent(objs, vs, who, careful) && i < |vs|
    ensures Consistent(objs, vs[i := MOVED_CONN] + [vs[i]], who[i := p] + [who[i]], careful)
  {
    MoveKeepsFamilies(objs, Holdings(vs), who, careful, i, p);
    PartsMoved(objs, vs, i, careful);
  }

  /** A connection closed its objects and was removed. */
  lemma {:induction false} LeaveKeepsConsistent(objs: Objects, objs': Objects, vs: seq<Conn>,
      who: seq<Origin>, careful: bool, i: nat)
    requires Consistent(objs, vs, who, careful) && i < |vs| && Ordered(objs') && Local(objs, objs', Held(vs[i]), {})
    requires careful ==> Keeps(objs, objs', Held(vs[i]), {})
    ensures Consistent(objs', Without(vs, i), Without(who, i), careful)
  {
    OthersStayOwned(objs, objs', vs, who, careful, i, {});
    if careful {
      OthersKeepTables(objs, objs', vs, who, i, {});
    }
    LeaveKeepsFamilies(objs, objs', Holdings(vs), who, careful, i);
    PartsWithout(objs', vs, i, careful);
  }

  /** A connection closed its objects and took over those of another one. */
  lemma {:induction false} AssignKeepsConsistent(objs: Objects, objs': Objects, vs: seq<Conn>,
      who: seq<Origin>, careful: bool, i: nat, j: nat, p: Origin)
    requires Consistent(objs, vs, who, careful) && i < |vs| && j < |vs| && i != j && Ordered(objs')
    requires Local(objs, objs', Held(vs[i]), {}) && (careful ==> Keeps(objs, objs', Held(vs[i]), {}))
    ensures Consistent(objs', vs[i := vs[j]][j := MOVED_CONN], who[i := who[j]][j := p], careful)
  {
    OthersStayOwned(objs, objs', vs, who, careful, i, {});
    if careful {
      OthersKeepTables(objs, objs', vs, who, i, {});
    }
    AssignKeepsFamilies(objs, objs', Holdings(vs), who, careful, i, j, p);
    HoldingsAssigned(vs, i, j);
    PartsAssigned(objs', vs, i, j, careful);
  }

  // --------------------------------------------------------------------- on the objects

  /** Numbers are used once, and children are younger than their server. */
  ghost predicate Named(who: seq<Origin>, next: nat) {
    && (forall i :: 0 <= i < |who| ==> who[i].id < next && (who[i].parent.Some? ==> who[i].parent.value < who[i].id))
    && (forall i, j :: 0 <= i < |who| && 0 <= j < |who| && i != j ==> who[i].id != who[j].id)
  }

  lemma {:induction false} NamedJoin(who: seq<Origin>, next: nat, q: Origin)
    requires Named(who, next) && q.id == next && (q.parent.Some? ==> q.parent.value < next)
    ensures Named(who + [q], next + 1)
  {
  }

  lemma {:induction false} NamedMove(who: seq<Origin>, next: nat, i: nat)
    requires Named(who, next) && i < |who|
    ensures Named(who[i := Origin(next, None)] + [who[i]], next + 1)
  {
  }

  lemma {:induction false} NamedAssign(who: seq<Origin>, next: nat, i: nat, j: nat)
    requires Named(who, next) && i < |who| && j < |who| && i != j
    ensures Named(who[i := who[j]][j := Origin(next, None)], next + 1)
  {
  }

  lemma {:induction false} NamedLeave(who: seq<Origin>, next: nat, i: nat)
    requires Named(who, next) && i < |who|
    ensures Named(Without(who, i), next)
  {
  }

  ghost predicate Distinct(fabric: Provider, conns: seq<Connection>) {
    && (forall i :: 0 <= i < |conns| ==> conns[i].fabric == fabric)
    && (forall i, j :: 0 <= i < |conns| && 0 <= j < |conns| && i != j ==> conns[i] != conns[j])
  }

  /** What was accepted is not a server. */
  ghost predicate Roles(conns: seq<Connection>, who: seq<Origin>)
    reads conns
  {
    |who| == |conns| && forall i :: 0 <= i < |conns| && conns[i].isServer ==> who[i].parent.None?
  }

  ghost predicate RolesIn(members: seq<Member>, who: seq<Origin>) {
    |who| == |members| && forall a :: 0 <= a < |members| && members[a].isServer ==> who[a].parent.None?
  }

  lemma {:induction false} RolesMove(conns: seq<Connection>, who: seq<Origin>, i: nat, k: Connection, p: Origin)
    requires |who| == |conns| && i < |who| && p.parent.None? && (k.isServer ==> who[i].parent.None?)
    requires forall a :: 0 <= a < |conns| && a != i && conns[a].isServer ==> who[a].parent.None?
    ensures Roles(conns + [k], who[i := p] + [who[i]])
  {
  }

  lemma {:induction false} RolesAssign(ms: seq<Member>, who: seq<Origin>, i: nat, j: nat, p: Origin)
    requires RolesIn(ms, who) && i < |who| && j < |who| && i != j && p.parent.None?
    ensures RolesIn(Assigned(ms, i, j), who[i := who[j]][j := p])
  {
  }

  lemma {:induction false} ConnsAssigned(ms: seq<Member>, vs: seq<Conn>, i: nat, j: nat)
    requires |vs| == |ms| && i < |ms| && j < |ms| && i != j && forall a :: 0 <= a < |ms| ==> ms[a].conn == vs[a]
    ensures forall a :: 0 <= a < |ms| ==> Assigned(ms, i, j)[a].conn == vs[i := vs[j]][j := MOVED_CONN][a]
  {
  }

  lemma {:induction false} RolesOf(conns: seq<Connection>, who: seq<Origin>)
    requires RolesIn(Members(conns), who)
    ensures Roles(conns, who)
  {
    forall a | 0 <= a < |conns| && conns[a].isServer ensures who[a].parent.None? {
      assert Members(conns)[a].isServer;
    }
  }

  lemma {:induction false} JoinKeepsPool(fabric: Provider, conns: seq<Connection>, who: seq<Origin>,
      k: Connection, q: Origin)
    requires Distinct(fabric, conns) && Roles(conns, who) && k !in conns && k.fabric == fabric
    requires k.isServer ==> q.parent.None?
    ensures Distinct(fabric, conns + [k]) && Roles(conns + [k], who + [q])
  {
  }

  lemma {:induction false} WithoutKeepsPool(fabric: Provider, conns: seq<Connection>, who: seq<Origin>, i: nat)
    requires Distinct(fabric, conns) && Roles(conns, who) && i < |conns|
    ensures Distinct(fabric, Without(conns, i)) && Roles(Without(conns, i), Without(who, i))
  {
  }

  ghost predicate Sound(fabric: Provider, g: Group, careful: bool)
    reads fabric, g.conns
  {
    && !fabric.dead && Distinct(fabric, g.conns) && Roles(g.conns, g.who) && Named(g.who, g.next)
    && Consistent(fabric.objs, Views(g.conns), g.who, careful)
  }

  /** No connection appears from outside. */
  twostate predicate Same(g: Group, new g': Group) {
    forall i :: 0 <= i < |g'.conns| ==> g'.conns[i] in g.conns || fresh(g'.conns[i])
  }

  predicate Careful(g: Group, c: Command)
    reads g.conns
    requires |g.who| == |g.conns|
  {
    CarefulIn(Members(g.conns), g.who, c)
  }

  lemma {:induction false} OneChanged(conns: seq<Connection>, vs: seq<Conn>, i: nat)
    requires i < |conns| == |vs|
    requires forall a :: 0 <= a < |conns| && a != i ==> conns[a].View() == vs[a]
    ensures Views(conns) == vs[i := conns[i].View()]
  {
  }

  lemma {:induction false} ViewsJoin(conns: seq<Connection>, k: Connection)
    ensures Views(conns + [k]) == Views(conns) + [k.View()]
  {
  }

  lemma {:induction false} ViewsFollow(conns: seq<Connection>, vs: seq<Conn>)
    requires |vs| == |conns| && forall a :: 0 <= a < |vs| ==> Members(conns)[a].conn == vs[a]
    ensures Views(conns) == vs
  {
    forall a | 0 <= a < |conns| ensures conns[a].View() == vs[a] {
      assert conns[a].View() == Fields(conns[a]).conn;
    }
  }

  lemma {:induction false} MembersOneChanged(conns: seq<Connection>, ms: seq<Member>, i: nat)
    requires i < |conns| == |ms|
    requires forall a :: 0 <= a < |conns| && a != i ==> Fields(conns[a]) == ms[a]
    ensures Members(conns) == ms[i := Fields(conns[i])]
  {
  }

  lemma {:induction false} MembersTwoChanged(conns: seq<Connection>, ms: seq<Member>, i: nat, j: nat)
    requires i < |conns| && j < |conns| == |ms| && i != j
    requires forall a :: 0 <= a < |conns| && a != i && a != j ==> Fields(conns[a]) == ms[a]
    ensures Members(conns) == ms[i := Fields(conns[i])][j := Fields(conns[j])]
  {
  }

  lemma {:induction false} MembersJoin(conns: seq<Connection>, k: Connection)
    ensures Members(conns + [k]) == Members(conns) + [Fields(k)]
  {
  }

  lemma {:induction false} IsSound(fabric: Provider, g: Group, vs: seq<Conn>, careful: bool)
    requires !fabric.dead && Distinct(fabric, g.conns) && Roles(g.conns, g.who) && Named(g.who, g.next)
    requires Views(g.conns) == vs && Consistent(fabric.objs, vs, g.who, careful)
    ensures Sound(fabric, g, careful)
  {
  }

  /** The other connections were not touched since s, when their handles were vs. */
  ghost predicate Apart(conns: seq<Connection>, who: seq<Origin>, vs: seq<Conn>, s: Snapshot, i: nat)
    reads conns
  {
    && |conns| == |vs| == |s.members| && s.who == who
    && forall a :: 0 <= a < |conns| && a != i ==> Fields(conns[a]) == s.members[a] && s.members[a].conn == vs[a]
  }

  lemma {:induction false} CreateKeeps(fabric: Provider, g: Group, g': Group, k: Connection, vs: seq<Conn>,
      s: Snapshot, careful: bool)
    requires !fabric.dead && Distinct(fabric, g.conns) && Roles(g.conns, g.who) && Named(g.who, g.next)
    requires g' == Group(g.conns + [k], g.who + [Origin(g.next, None)], g.next + 1) && s.next == g.next
    requires Apart(g.conns, g.who, vs, s, |g.conns|) && Consistent(s.objs, vs, g.who, careful)
    requires k !in g.conns && k.fabric == fabric && !k.failed && k.Ready()
    requires Local(s.objs, fabric.objs, {}, Held(k.View()))
    requires careful ==> Keeps(s.objs, fabric.objs, {}, Held(k.View())) && TableOk(fabric.objs, k.View())
    requires Created(k.isServer, s.objs, s.answers, fabric.objs, k.View(), fabric.answers)
    ensures Sound(fabric, g', careful) && CreateEffect(k.isServer, s, Snap(fabric, g'))
  {
    var q := Origin(g.next, None);
    assert Views(g.conns) == vs;
    ViewsJoin(g.conns, k);
    NamedJoin(g.who, g.next, q);
    JoinKeepsPool(fabric, g.conns, g.who, k, q);
    JoinKeepsConsistent(s.objs, fabric.objs, vs, g.who, careful, k.View(), q);
    IsSound(fabric, g', vs + [k.View()], careful);
    MembersJoin(g.conns, k);
    assert Members(g.conns) == s.members;
  }

  method DoCreate(fabric: Provider, g: Group, isServer: bool, ghost careful: bool) returns (g': Group)
    requires Sound(fabric, g, careful)
    modifies fabric, g.conns
    ensures Same(g, g') && (fabric.dead <==> old(Fatal(Create(isServer), Snap(fabric, g))))
    ensures fabric.dead || (Sound(fabric, g', careful) && Does(Create(isServer), old(Snap(fabric, g)), Snap(fabric, g')))
  {
    g' := g;
    ghost var s, vs := Snap(fabric, g), Views(g.conns);
    var k := new Connection.Create(fabric, isServer);
    if !fabric.dead {
      g' := Group(g.conns + [k], g.who + [Origin(g.next, None)], g.next + 1);
      assert Same(g, g');
      CreateKeeps(fabric, g, g', k, vs, s, careful);
    }
  }

  lemma {:induction false} ConnectKeeps(fabric: Provider, g: Group, i: nat, r: bool, vs: seq<Conn>, s: Snapshot,
      careful: bool)
    requires i < |g.conns| == |vs| == |s.members| && s.next == g.next
    requires var m, k := s.members[i], g.conns[i];
             fabric.dead ||
               (&& Distinct(fabric, g.conns) && Roles(g.conns, g.who) && Named(g.who, g.next)
                && Apart(g.conns, g.who, vs, s, i) && Consistent(s.objs, vs, g.who, careful)
                && m.conn == vs[i] && k.isServer == m.isServer && k.Ready()
                && Local(s.objs, fabric.objs, Held(vs[i]), Held(k.View()))
                && (careful ==> Keeps(s.objs, fabric.objs, Held(vs[i]), Held(k.View())) && TableOk(fabric.objs, k.View()))
                && Connected(m.isServer, s.objs, m.conn, s.answers, fabric.objs, k.View(), k.failed, fabric.answers, r))
    ensures fabric.dead || (Sound(fabric, g, careful) && ConnectEffect(i, s, Snap(fabric, g)))
  {
    if fabric.dead { return; }
    OneChanged(g.conns, vs, i);
    MembersOneChanged(g.conns, s.members, i);
    ActKeepsConsistent(s.objs, fabric.objs, vs, g.who, careful, i, g.conns[i].View());
  }

  method DoConnect(fabric: Provider, g: Group, i: nat, ghost careful: bool)
    requires Sound(fabric, g, careful) && i < |g.conns|
    requires careful && g.conns[i].isServer ==> g.conns[i].pep.None? && g.conns[i].Vacant()
    modifies fabric, g.conns
    ensures fabric.dead <==> old(Fatal(Connect(i), Snap(fabric, g)))
    ensures fabric.dead || (Sound(fabric, g, careful) && Does(Connect(i), old(Snap(fabric, g)), Snap(fabric, g)))
  {
    ghost var s, vs := Snap(fabric, g), Views(g.conns);
    var r := g.conns[i].Connect();
    ConnectKeeps(fabric, g, i, r, vs, s, careful);
  }

  lemma {:induction false} AcceptKeepsSound(fabric: Provider, g: Group, g': Group, i: nat, k: Connection, r: bool,
      vs: seq<Conn>, s: Snapshot, careful: bool)
    requires i < |g.conns| == |vs| == |s.members| && |g.who| == |g.conns| && s.who == g.who && s.next == g.next
    requires g' == Group(g.conns + [k], g.who + [Origin(g.next, Some(g.who[i].id))], g.next + 1)
    requires var m, c, w := s.members[i], g.conns[i], k.View();
             fabric.dead ||
               (&& Distinct(fabric, g.conns) && Roles(g.conns, g.who) && Named(g.who, g.next)
                && Apart(g.conns, g.who, vs, s, i) && Consistent(s.objs, vs, g.who, careful)
                && k !in g.conns && k.fabric == fabric && !k.isServer && !k.failed
                && m.conn == vs[i] && c.isServer == m.isServer && c.failed == m.failed
                && Ordered(fabric.objs)
                && Accepted(m.isServer, s.objs, m.conn, s.answers, fabric.objs, c.View(), fabric.answers, r, w)
                && (careful ==> Keeps(s.objs, fabric.objs, Held(vs[i]), Held(c.View()) + Held(w)))
                && (careful && m.isServer ==> NoHandles(vs[i])))
    ensures fabric.dead || (Sound(fabric, g', careful) && AcceptEffect(i, s, Snap(fabric, g')))
  {
    if fabric.dead { return; }
    var q := Origin(g.next, Some(g.who[i].id));
    OneChanged(g.conns, vs, i);
    ViewsJoin(g.conns, k);
    NamedJoin(g.who, g.next, q);
    JoinKeepsPool(fabric, g.conns, g.who, k, q);
    AcceptKeepsConsistent(s.objs, fabric.objs, vs, g.who, careful, i, g.conns[i].View(), k.View(), q);
    IsSound(fabric, g', vs[i := g.conns[i].View()] + [k.View()], careful);
    AcceptHasEffect(fabric, g, g', i, k, r, s);
  }

  lemma {:induction false} AcceptHasEffect(fabric: Provider, g: Group, g': Group, i: nat, k: Connection, r: bool, s: Snapshot)
    requires i < |g.conns| == |s.members| && |g.who| == |g.conns| && s.who == g.who && s.next == g.next
    requires g' == Group(g.conns + [k], g.who + [Origin(g.next, Some(g.who[i].id))], g.next + 1)
    requires !k.isServer && !k.failed && forall a :: 0 <= a < |g.conns| && a != i ==> Fields(g.conns[a]) == s.members[a]
    requires var m, c := s.members[i], g.conns[i];
             && c.isServer == m.isServer && c.failed == m.failed
             && (fabric.dead ||
                 Accepted(m.isServer, s.objs, m.conn, s.answers, fabric.objs, c.View(), fabric.answers, r, k.View()))
    ensures fabric.dead || AcceptEffect(i, s, Snap(fabric, g'))
  {
    MembersOneChanged(g.conns, s.members, i);
    MembersJoin(g.conns, k);
  }

  /** accept on one connection of the list. */
  method AcceptOne(fabric: Provider, conns: seq<Connection>, i: nat) returns (r: bool, k: Connection)
    requires Distinct(fabric, conns) && i < |conns| && conns[i].Ready()
    modifies fabric, conns
    ensures fresh(k) && k.fabric == fabric && !k.isServer && !k.failed
    ensures conns[i].isServer == old(conns[i].isServer) && conns[i].failed == old(conns[i].failed)
    ensures fabric.dead ||
              (&& Ordered(fabric.objs)
               && Accepted(conns[i].isServer, old(fabric.objs), old(conns[i].View()), old(fabric.answers),
                           fabric.objs, conns[i].View(), fabric.answers, r, k.View())
               && (old(conns[i].isServer ==> NoHandles(conns[i].View())) ==>
                     Keeps(old(fabric.objs), fabric.objs, Held(old(conns[i].View())), Held(conns[i].View()) + Held(k.View()))))
    ensures fabric.dead <==> old(conns[i].isServer && AcceptDies(conns[i].View(), fabric.answers))
    ensures forall a :: 0 <= a < |conns| && a != i ==> Fields(conns[a]) == old(Members(conns))[a]
  {
    ghost var ms := Members(conns);
    r, k := conns[i].Accept();
    forall a | 0 <= a < |conns| && a != i ensures Fields(conns[a]) == ms[a] {
      assert conns[a] != conns[i];
    }
  }

  method DoAccept(fabric: Provider, g: Group, i: nat, ghost careful: bool) returns (g': Group)
    requires Sound(fabric, g, careful) && i < |g.conns| && (careful && g.conns[i].isServer ==> g.conns[i].Vacant())
    modifies fabric, g.conns
    ensures Same(g, g') && (fabric.dead <==> old(Fatal(Accept(i), Snap(fabric, g))))
    ensures fabric.dead || (Sound(fabric, g', careful) && Does(Accept(i), old(Snap(fabric, g)), Snap(fabric, g')))
  {
    ghost var s, vs := Snap(fabric, g), Views(g.conns);
    var r, k := AcceptOne(fabric, g.conns, i);
    g' := Group(g.conns + [k], g.who + [Origin(g.next, Some(g.who[i].id))], g.next + 1);
    assert Same(g, g');
    AcceptKeepsSound(fabric, g, g', i, k, r, vs, s, careful);
    if !fabric.dead {
      DoesAccept(i, s, Snap(fabric, g'));
    }
  }

  lemma {:induction false} MoveKeepsSound(fabric: Provider, g: Group, g': Group, i: nat, k: Connection, vs: seq<Conn>,
      s: Snapshot, careful: bool)
    requires i < |g.conns| && Distinct(fabric, g.conns) && Named(g.who, g.next) && |g.who| == |g.conns|
    requires g' == Group(g.conns + [k], g.who[i := Origin(g.next, None)] + [g.who[i]], g.next + 1) && s.next == g.next
    requires Apart(g.conns, g.who, vs, s, i) && Consistent(s.objs, vs, g.who, careful)
    requires RolesIn(s.members, g.who)
    requires !fabric.dead && fabric.objs == s.objs && fabric.answers == s.answers
    requires k !in g.conns && k.fabric == fabric && vs[i] == s.members[i].conn && Fields(k) == s.members[i].(failed := false)
    requires Fields(g.conns[i]) == s.members[i].(conn := MOVED_CONN)
    ensures Sound(fabric, g', careful) && MoveConstructEffect(i, s, Snap(fabric, g'))
  {
    var p := Origin(g.next, None);
    OneChanged(g.conns, vs, i);
    ViewsJoin(g.conns, k);
    NamedMove(g.who, g.next, i);
    RolesMove(g.conns, g.who, i, k, p);
    MoveKeepsConsistent(fabric.objs, vs, g.who, careful, i, p);
    IsSound(fabric, g', vs[i := MOVED_CONN] + [vs[i]], careful);
    MembersOneChanged(g.conns, s.members, i);
    MembersJoin(g.conns, k);
  }

  method DoMoveConstruct(fabric: Provider, g: Group, i: nat, ghost careful: bool) returns (g': Group)
    requires Sound(fabric, g, careful) && i < |g.conns|
    modifies fabric, g.conns
    ensures Same(g, g') && Sound(fabric, g', careful)
    ensures Does(MoveConstruct(i), old(Snap(fabric, g)), Snap(fabric, g'))
  {
    ghost var s, vs := Snap(fabric, g), Views(g.conns);
    var k := new Connection.Move(g.conns[i]);
    g' := Group(g.conns + [k], g.who[i := Origin(g.next, None)] + [g.who[i]], g.next + 1);
    assert Same(g, g');
    MoveKeepsSound(fabric, g, g', i, k, vs, s, careful);
  }

  /** Nothing is left of a childless connection, whose objects were all closed. */
  lemma {:induction false} CleanClose(objs: Objects, vs: seq<Conn>, who: seq<Origin>, i: nat)
    requires Consistent(objs, vs, who, true) && i < |vs| && !HasChild(who, i)
    ensures !Entangled(objs, Held(vs[i])) && Keeps(objs, CloseSet(objs, Held(vs[i])), Held(vs[i]), {})
  {
    ChildlessNotEntangled(objs, Holdings(vs), who, i);
  }

  method DoSelfAssign(fabric: Provider, g: Group, i: nat, ghost careful: bool)
    requires Sound(fabric, g, careful) && i < |g.conns|
    modifies fabric, g.conns
    ensures Sound(fabric, g, careful) && Snap(fabric, g) == old(Snap(fabric, g))
  {
    ghost var s, vs := Snap(fabric, g), Views(g.conns);
    g.conns[i].MoveAssign(g.conns[i]);
    OneChanged(g.conns, vs, i);
    MembersOneChanged(g.conns, s.members, i);
    IsSound(fabric, g, vs, careful);
  }

  lemma {:induction false} AssignKeepsSound(fabric: Provider, g: Group, g': Group, i: nat, j: nat, vs: seq<Conn>,
      s: Snapshot, careful: bool)
    requires i < |g.conns| && j < |g.conns| && i != j && |vs| == |g.conns| == |g.who| == |s.members|
    requires g' == Group(g.conns, g.who[i := g.who[j]][j := Origin(g.next, None)], g.next + 1)
    requires fabric.dead ||
               (&& Distinct(fabric, g.conns) && Named(g.who, g.next) && Consistent(s.objs, vs, g.who, careful)
                && RolesIn(s.members, g.who) && (forall a :: 0 <= a < |vs| ==> vs[a] == s.members[a].conn)
                && Ordered(fabric.objs) && Members(g.conns) == Assigned(s.members, i, j)
                && s.who == g.who && s.next == g.next && fabric.answers == s.answers
                && ClosedWhatItCould(s.objs, Held(s.members[i].conn), fabric.objs)
                && Local(s.objs, fabric.objs, Held(vs[i]), {}) && (careful ==> Keeps(s.objs, fabric.objs, Held(vs[i]), {})))
    ensures fabric.dead || (Sound(fabric, g', careful) && Does(MoveAssign(i, j), s, Snap(fabric, g')))
  {
    if fabric.dead { return; }
    var p := Origin(g.next, None);
    DoesAssign(i, j, s, Snap(fabric, g'));
    ConnsAssigned(s.members, vs, i, j);
    ViewsFollow(g.conns, vs[i := vs[j]][j := MOVED_CONN]);
    NamedAssign(g.who, g.next, i, j);
    RolesAssign(s.members, g.who, i, j, p);
    RolesOf(g.conns, g'.who);
    AssignKeepsConsistent(s.objs, fabric.objs, vs, g.who, careful, i, j, p);
    IsSound(fabric, g', vs[i := vs[j]][j := MOVED_CONN], careful);
  }

  /** The assignment of one connection of the list to another. */
  method AssignOne(fabric: Provider, conns: seq<Connection>, i: nat, j: nat)
    requires Distinct(fabric, conns) && i < |conns| && j < |conns| && i != j
    requires conns[i].Ready() && conns[j].Ready() && Held(conns[i].View()) !! Held(conns[j].View())
    modifies fabric, conns
    ensures !fabric.dead
    ensures fabric.dead ||
              (&& Ordered(fabric.objs) && fabric.answers == old(fabric.answers)
               && Members(conns) == Assigned(old(Members(conns)), i, j)
               && Local(old(fabric.objs), fabric.objs, old(Held(conns[i].View())), {})
               && ClosedWhatItCould(old(fabric.objs), old(Held(conns[i].View())), fabric.objs))
    ensures !Entangled(old(fabric.objs), old(Held(conns[i].View()))) ==>
              fabric.objs == CloseSet(old(fabric.objs), old(Held(conns[i].View())))
  {
    ghost var ms := Members(conns);
    conns[i].MoveAssign(conns[j]);
    forall a | 0 <= a < |conns| && a != i && a != j ensures Fields(conns[a]) == ms[a] {
      assert conns[a] != conns[i] && conns[a] != conns[j];
    }
    MembersTwoChanged(conns, ms, i, j);
  }

  lemma {:induction false} ReadyToAssign(fabric: Provider, g: Group, careful: bool, i: nat, j: nat)
    requires Sound(fabric, g, careful) && i < |g.conns| && j < |g.conns| && i != j
    requires careful ==> !HasChild(g.who, i)
    ensures g.conns[i].Ready() && g.conns[j].Ready() && RolesIn(Members(g.conns), g.who)
    ensures forall a :: 0 <= a < |g.conns| ==> Views(g.conns)[a] == Members(g.conns)[a].conn
    ensures fabric.dead || Held(g.conns[i].View()) !! Held(g.conns[j].View())
    ensures careful ==> !Entangled(fabric.objs, Held(g.conns[i].View()))
  {
    HeldOnce(fabric.objs, Views(g.conns), g.who, careful, i, j);
    if careful {
      CleanClose(fabric.objs, Views(g.conns), g.who, i);
    }
  }

  /** A connection without children that is overwritten closes all its objects. */
  method DoMoveAssign(fabric: Provider, g: Group, i: nat, j: nat, ghost careful: bool) returns (g': Group)
    requires Sound(fabric, g, careful) && i < |g.conns| && j < |g.conns| && i != j
    requires careful ==> !HasChild(g.who, i)
    modifies fabric, g.conns
    ensures !fabric.dead && g'.conns == g.conns
    ensures fabric.dead || (Sound(fabric, g', careful) && Does(MoveAssign(i, j), old(Snap(fabric, g)), Snap(fabric, g')))
    ensures !careful || fabric.objs == CloseSet(old(fabric.objs), old(Held(g.conns[i].View())))
  {
    ghost var ms, vs := Members(g.conns), Views(g.conns);
    ghost var s := Snapshot(fabric.objs, fabric.answers, ms, g.who, g.next);
    ReadyToAssign(fabric, g, careful, i, j);
    AssignOne(fabric, g.conns, i, j);
    g' := Group(g.conns, g.who[i := g.who[j]][j := Origin(g.next, None)], g.next + 1);
    AssignKeepsSound(fabric, g, g', i, j, vs, s, careful);
  }

  lemma {:induction false} ViewsWithout(conns: seq<Connection>, i: nat)
    requires i < |conns|
    ensures Views(Without(conns, i)) == Without(Views(conns), i)
  {
  }

  lemma {:induction false} MembersWithout(conns: seq<Connection>, i: nat)
    requires i < |conns|
    ensures Members(Without(conns, i)) == Without(Members(conns), i)
  {
  }

  lemma {:induction false} LeaveKeepsSound(fabric: Provider, g: Group, g': Group, i: nat, vs: seq<Conn>, s: Snapshot,
      careful: bool)
    requires i < |g.conns| && Roles(g.conns, g.who) && Named(g.who, g.next) && Distinct(fabric, g.conns)
    requires g' == Group(Without(g.conns, i), Without(g.who, i), g.next) && s.next == g.next
    requires Apart(g.conns, g.who, vs, s, |g.conns|) && Consistent(s.objs, vs, g.who, careful)
    requires !fabric.dead && Ordered(fabric.objs) && fabric.answers == s.answers
    requires fabric.objs == CloseSet(s.objs, Held(vs[i])) && Local(s.objs, fabric.objs, Held(vs[i]), {})
    requires careful ==> Keeps(s.objs, fabric.objs, Held(vs[i]), {})
    ensures Sound(fabric, g', careful) && Does(Destroy(i), s, Snap(fabric, g'))
  {
    assert Views(g.conns) == vs && Members(g.conns) == s.members;
    ViewsWithout(g.conns, i);
    MembersWithout(g.conns, i);
    NamedLeave(g.who, g.next, i);
    WithoutKeepsPool(fabric, g.conns, g.who, i);
    LeaveKeepsConsistent(s.objs, fabric.objs, vs, g.who, careful, i);
    IsSound(fabric, g', Without(vs, i), careful);
  }

  /** The destructor.  If the connection has no children left, it does not meet a busy
      object. */
  method DoDestroy(fabric: Provider, g: Group, i: nat, ghost careful: bool) returns (g': Group)
    requires Sound(fabric, g, careful) && i < |g.conns| && (careful ==> !HasChild(g.who, i))
    modifies fabric, g.conns
    ensures careful ==> !fabric.dead
    ensures Same(g, g') && (fabric.dead <==> old(Fatal(Destroy(i), Snap(fabric, g))))
    ensures !fabric.dead ==> Sound(fabric, g', careful) && g'.conns == Without(g.conns, i)
    ensures fabric.dead || Does(Destroy(i), old(Snap(fabric, g)), Snap(fabric, g'))
  {
    g' := g;
    ghost var s, vs := Snap(fabric, g), Views(g.conns);
    assert s.members[i].conn == vs[i];
    if careful {
      CleanClose(s.objs, vs, g.who, i);
    }
    g.conns[i].Destroy();
    if !fabric.dead {
      g' := Group(Without(g.conns, i), Without(g.who, i), g.next);
      assert Same(g, g');
      LeaveKeepsSound(fabric, g, g', i, vs, s, careful);
    }
  }

  lemma {:induction false} RegisterKeepsSound(fabric: Provider, g: Group, i: nat, key: nat, newKey: nat, vs: seq<Conn>,
      s: Snapshot, careful: bool)
    requires i < |g.conns| && Distinct(fabric, g.conns) && Roles(g.conns, g.who) && Named(g.who, g.next)
    requires Apart(g.conns, g.who, vs, s, i) && Consistent(s.objs, vs, g.who, careful) && s.next == g.next
    requires fabric.answers == s.answers
    requires var m, k := s.members[i], g.conns[i];
             fabric.dead ||
               (&& m.conn == vs[i] && k.isServer == m.isServer && k.failed == m.failed && k.Ready()
                && Local(s.objs, fabric.objs, Held(vs[i]), Held(k.View()))
                && (careful ==> Keeps(s.objs, fabric.objs, Held(vs[i]), Held(k.View())) && TableOk(fabric.objs, k.View()))
                && Registered(key, s.objs, m.conn, fabric.objs, k.View(), newKey))
    ensures fabric.dead ||
              (&& Sound(fabric, g, careful) && !Fatal(Register(i, key), s)
               && RegisterEffect(i, key, s, Snap(fabric, g)))
  {
    if fabric.dead { return; }
    OneChanged(g.conns, vs, i);
    MembersOneChanged(g.conns, s.members, i);
    ActKeepsConsistent(s.objs, fabric.objs, vs, g.who, careful, i, g.conns[i].View());
  }

  method DoRegister(fabric: Provider, g: Group, i: nat, key: nat, ghost careful: bool)
    requires Sound(fabric, g, careful) && i < |g.conns|
    modifies fabric, g.conns
    ensures fabric.dead ||
              (&& Sound(fabric, g, careful) && !Fatal(Register(i, key), old(Snap(fabric, g)))
               && Does(Register(i, key), old(Snap(fabric, g)), Snap(fabric, g)))
  {
    ghost var s, vs := Snap(fabric, g), Views(g.conns);
    var _, newKey := g.conns[i].RegisterMr(key);
    RegisterKeepsSound(fabric, g, i, key, newKey, vs, s, careful);
    if !fabric.dead {
      DoesRegister(i, key, s, Snap(fabric, g));
    }
  }

  lemma {:induction false} CarefulMeans(g: Group, c: Command)
    requires |g.who| == |g.conns| && Exists(c, |g.conns|) && Careful(g, c)
    ensures c.Connect? && g.conns[c.i].isServer ==> g.conns[c.i].pep.None? && g.conns[c.i].Vacant()
    ensures c.Accept? && g.conns[c.i].isServer ==> g.conns[c.i].Vacant()
    ensures c.Destroy? || (c.MoveAssign? && c.i != c.j) ==> !HasChild(g.who, c.i)
  {
    assert !c.Create? ==> Members(g.conns)[c.i] == Fields(g.conns[c.i]);
  }

  /** One command; commands for connections that do not exist are skipped.  What the
      provider answers is arbitrary.  A careful destruction or assignment never ends the
      process. */
  method Step(fabric: Provider, g: Group, c: Command, ghost careful: bool) returns (g': Group)
    requires Sound(fabric, g, careful) && (careful ==> Careful(g, c))
    modifies fabric, g.conns
    ensures Same(g, g') && (fabric.dead || (Sound(fabric, g', careful) && Effect(c, old(Snap(fabric, g)), Snap(fabric, g'))))
    ensures !fabric.dead || Ends(c, old(Snap(fabric, g)), careful)
  {
    g' := g;
    if !Exists(c, |g.conns|) {
      return;
    }
    if careful {
      CarefulMeans(g, c);
    }
    match c
    case Create(isServer) => g' := DoCreate(fabric, g, isServer, careful);
    case Connect(i) => DoConnect(fabric, g, i, careful);
    case Accept(i) => g' := DoAccept(fabric, g, i, careful);
    case MoveConstruct(i) => g' := DoMoveConstruct(fabric, g, i, careful);
    case MoveAssign(i, j) =>
      if i == j {
        DoSelfAssign(fabric, g, i, careful);
      } else {
        g' := DoMoveAssign(fabric, g, i, j, careful);
      }
    case Destroy(i) => g' := DoDestroy(fabric, g, i, careful);
    case Register(i, key) => DoRegister(fabric, g, i, key, careful);
  }

  /** One command of a run, which leaves out careless ones if it is to be careful. */
  method Perform(fabric: Provider, g: Group, c: Command, careful: bool) returns (g': Group)
    requires Sound(fabric, g, careful)
    modifies fabric, g.conns
    ensures Same(g, g')
    ensures fabric.dead || (Sound(fabric, g', careful) && Obeys(c, old(Snap(fabric, g)), Snap(fabric, g'), careful))
    ensures !fabric.dead || Ends(c, old(Snap(fabric, g)), careful)
  {
    g' := g;
    if !careful || Careful(g, c) {
      g' := Step(fabric, g, c, careful);
    }
  }

  /** Whole runs: the group that a script leaves is the result of the effects of its commands,
      one after the other, with any answers of the provider.  After any commands no object is
      held twice, and, as every call met the provider's preconditions, none was used or closed
      after it had been closed.  If careless commands are left out, then no destruction or
      assignment ever met a busy object, and no open object is forgotten. */
  method Run(fabric: Provider, script: seq<Command>, careful: bool)
    returns (g: Group, ghost trace: seq<Snapshot>)
    requires !fabric.dead && fabric.objs == []
    modifies fabric
    ensures Trace(script, trace, old(fabric.answers), careful)
    ensures !fabric.dead ==>
              Sound(fabric, g, careful) && |trace| == |script| + 1 && trace[|script|] == Snap(fabric, g)
    ensures fabric.dead ==> |trace| <= |script| && Ends(script[|trace| - 1], trace[|trace| - 1], careful)
    ensures forall i :: 0 <= i < |g.conns| ==> fresh(g.conns[i])
  {
    g := Group([], [], 0);
    trace := [Snap(fabric, g)];
    var next := 0;
    while next < |script|
      invariant next <= |script| && !fabric.dead && Sound(fabric, g, careful)
      invariant |trace| == next + 1 && trace[next] == Snap(fabric, g)
      invariant Trace(script, trace, old(fabric.answers), careful)
      invariant forall i :: 0 <= i < |g.conns| ==> fresh(g.conns[i])
    {
      ghost var was := g.conns;
      g := Perform(fabric, g, script[next], careful);
      forall i | 0 <= i < |g.conns| ensures fresh(g.conns[i]) {
        assert g.conns[i] in was || fresh(g.conns[i]);
      }
      if fabric.dead { return; }
      TraceGrows(script, trace, old(fabric.answers), careful, Snap(fabric, g));
      trace := trace + [Snap(fabric, g)];
      next := next + 1;
    }
  }

  /** The connection with the largest number, which has no children. */
  method Youngest(who: seq<Origin>, ghost next: nat) returns (i: nat)
    requires who != [] && Named(who, next)
    ensures i < |who| && !HasChild(who, i)
  {
    i := 0;
    var k := 1;
    while k < |who|
      invariant i < |who| && k <= |who|
      invariant forall a :: 0 <= a < k ==> who[a].id <= who[i].id
    {
      if who[k].id > who[i].id {
        i := k;
      }
      k := k + 1;
    }
  }

  method DestroyYoungest(fabric: Provider, g: Group) returns (g': Group)
    requires Sound(fabric, g, true) && g.conns != []
    modifies fabric, g.conns
    ensures Sound(fabric, g', true) && |g'.conns| == |g.conns| - 1
    ensures forall i :: 0 <= i < |g'.conns| ==> g'.conns[i] in g.conns
  {
    var i := Youngest(g.who, g.next);
    g' := DoDestroy(fabric, g, i, true);
  }

  /** After a careful run the connections can be destroyed, youngest first, without meeting a
      busy object, and then every object ever opened is closed. */
  method DestroyAll(fabric: Provider, g: Group)
    requires Sound(fabric, g, true)
    modifies fabric, g.conns
    ensures !fabric.dead && forall z :: 0 <= z < |fabric.objs| ==> !fabric.objs[z].open
  {
    var rest := g;
    while rest.conns != []
      invariant Sound(fabric, rest, true)
      invariant forall i :: 0 <= i < |rest.conns| ==> rest.conns[i] in g.conns
      decreases |rest.conns|
    {
      rest := DestroyYoungest(fabric, rest);
    }
    NobodyHoldsNothingOpen(fabric.objs, Views(rest.conns), rest.who);
  }

  lemma {:induction false} NobodyHoldsNothingOpen(objs: Objects, vs: seq<Conn>, who: seq<Origin>)
    requires Consistent(objs, vs, who, true) && vs == []
    ensures forall z :: 0 <= z < |objs| ==> !objs[z].open
  {
    assert AllHeld(objs, Holdings(vs));
  }
}
