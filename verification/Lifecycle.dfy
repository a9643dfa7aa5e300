/**
 The life cycle of class Connection: construction, connect, accept, moves, destruction
 and memory regions, over the provider objects that its fields hold.

 After a failed SAFE_CALL or ERRCHK, a failed assertion or a null dereference the process
 is dead; the contracts speak about the calls that return.
 */
module Lifecycle {
  import opened Common
  import opened Fabric
  import opened Ownership
  import opened Setup

  /** How far a closing sequence has come; with `check`, a refusal has ended the process. */
  ghost predicate Underway(o: Objects, objs: Objects, dead: bool, c: Conn, check: bool, tried: set<nat>,
      D: set<nat>) {
    && Ordered(objs)
    && (dead ==> check && Entangled(o, Held(c)))
    && (!dead ==> Closing(o, objs, Held(c), tried, D) && (check ==> D == tried))
  }

  /** `if (h) fi_close(h)`.  With `check` a refusal ends the process (ERRCHK), without it
      is only reported (ERRREPORT). */
  method CloseHandle(fabric: Provider, h: Option<nat>, check: bool, ghost o: Objects, ghost c: Conn,
      ghost tried: set<nat>, ghost D: set<nat>)
    returns (ghost closed: set<nat>)
    requires !fabric.dead && Ordered(o) && Underway(o, fabric.objs, false, c, check, tried, D)
    requires h.Some? ==>
               && h.value in Held(c) && h.value !in tried && IsOpen(o, h.value)
               && forall z :: z in Held(c) && z < |o| && Rank(o[z].kind) < Rank(o[h.value].kind) ==> z in tried
    modifies fabric`objs, fabric`dead
    ensures Underway(o, fabric.objs, fabric.dead, c, check, tried + One(h), closed)
  {
    closed := D;
    if h.Some? {
      ClosingStep(o, fabric.objs, Held(c), tried, D, h.value);
      var ok := fabric.Close(h.value);
      if ok {
        closed := D + {h.value};
      }
      fabric.dead := check && !ok;
    } else {
      assert tried + One(h) == tried;
    }
  }

  method CloseSlot(fabric: Provider, k: Kind, h: Option<nat>, check: bool, ghost o: Objects, ghost c: Conn,
      ghost tried: set<nat>, ghost D: set<nat>)
    returns (ghost closed: set<nat>)
    requires !fabric.dead ==> Ordered(o) && Owned(o, c) && IsSlot(c, k, h)
    requires Underway(o, fabric.objs, fabric.dead, c, check, tried, D)
    requires tried == Before(c, k) || (k.Cq? && h == c.txCq && tried == Before(c, k) + One(c.rxCq))
    modifies fabric`objs, fabric`dead
    ensures Underway(o, fabric.objs, fabric.dead, c, check, tried + One(h), closed)
  {
    closed := D;
    if !fabric.dead {
      CloseOrder(o, c, k);
      if h.Some? {
        CloseOnce(o, c, k, h);
      }
      closed := CloseHandle(fabric, h, check, o, c, tried, D);
    }
  }

  /** One iteration of the loop over the memory regions. */
  method CloseRegion(fabric: Provider, c: Conn, key: nat, check: bool, ghost o: Objects, ghost rest: set<nat>,
      ghost D: set<nat>)
    returns (ghost closed: set<nat>)
    requires !fabric.dead && Ordered(o) && Owned(o, c) && c.mrs.Some? && key in c.mrs.value && key in rest
    requires Underway(o, fabric.objs, false, c, check, Tried(c, rest), D)
    modifies fabric`objs, fabric`dead
    ensures Underway(o, fabric.objs, fabric.dead, c, check, Tried(c, rest - {key}), closed)
  {
    var h := c.mrs.value[key];
    TriedStep(o, c, rest, key);
    assert RegionOk(o, key, h);
    closed := CloseHandle(fabric, Some(h), check, o, c, Tried(c, rest), D);
  }

  /** The loop over the memory regions. */
  method CloseRegions(fabric: Provider, c: Conn, check: bool, ghost o: Objects,
      ghost D: set<nat>) returns (ghost closed: set<nat>)
    requires Ordered(o) && Owned(o, c) && Underway(o, fabric.objs, fabric.dead, c, check, Before(c, Mr), D)
    modifies fabric`objs, fabric`dead
    ensures Underway(o, fabric.objs, fabric.dead, c, check, Before(c, Ep), closed)
  {
    closed := D;
    TriedEnds(c);
    if c.mrs.None? || fabric.dead {
      return;
    }
    var rest := c.mrs.value.Keys;
    while rest != {}
      invariant !fabric.dead && rest <= c.mrs.value.Keys
      invariant Underway(o, fabric.objs, false, c, check, Tried(c, rest), closed)
      decreases |rest|
    {
      var key :| key in rest;
      closed := CloseRegion(fabric, c, key, check, o, rest, closed);
      rest := rest - {key};
      if fabric.dead {
        return;
      }
    }
  }

  /** The closing sequence of the destructor and of the move assignment. */
  method CloseAll(fabric: Provider, c: Conn, check: bool) returns (ghost closed: set<nat>)
    requires !fabric.dead && Ordered(fabric.objs) && Owned(fabric.objs, c)
    modifies fabric`objs, fabric`dead
    ensures Ordered(fabric.objs)
    ensures fabric.dead <==> check && Entangled(old(fabric.objs), Held(c))
    ensures !fabric.dead ==> closed <= Held(c) && fabric.objs == CloseSet(old(fabric.objs), closed)
    ensures !Entangled(old(fabric.objs), Held(c)) ==> closed == Held(c)
    ensures !fabric.dead ==> forall h :: h in Held(c) ==> h < |fabric.objs| && (fabric.objs[h].open <==> Busy(fabric.objs, h))
  {
    ghost var o := fabric.objs;
    assert fabric.objs == CloseSet(o, {});
    closed := CloseSlot(fabric, Pep, c.pep, check, o, c, {}, {});
    assert {} + One(c.pep) == Before(c, Mr);
    closed := CloseRegions(fabric, c, check, o, closed);
    closed := CloseSlot(fabric, Ep, c.ep, check, o, c, Before(c, Ep), closed);
    closed := CloseSlot(fabric, Eq, c.eq, check, o, c, Before(c, Eq), closed);
    closed := CloseSlot(fabric, Cq, c.rxCq, check, o, c, Before(c, Cq), closed);
    closed := CloseSlot(fabric, Cq, c.txCq, check, o, c, Before(c, Cq) + One(c.rxCq), closed);
    closed := CloseSlot(fabric, Domain, c.domain, check, o, c, Before(c, Domain), closed);
    closed := CloseSlot(fabric, Fab, c.fab, check, o, c, Before(c, Fab), closed);
    assert Before(c, Fab) + One(c.fab) == Held(c);
    assert check && !fabric.dead ==> closed == Held(c);
    HeldInRange(o, c);
    if !fabric.dead {
      OpenIffNeeded(o, fabric.objs, Held(c), closed);
    }
  }

  class Connection {
    const fabric: Provider
    var isServer: bool
    var failed: bool
    var fab: Option<nat>
    var domain: Option<nat>
    var pep: Option<nat>
    var eq: Option<nat>
    var ep: Option<nat>
    var rxCq: Option<nat>
    var txCq: Option<nat>
    var mrs: Option<map<nat, nat>>

    function View(): Conn
      reads this
    {
      Conn(fab, domain, pep, eq, ep, rxCq, txCq, mrs)
    }

    predicate Ready()
      reads this, fabric
    {
      !fabric.dead && Ordered(fabric.objs) && Owned(fabric.objs, View())
    }

    /** This connection went from one consistent state to another, touching only what it
        held and what was opened meanwhile. */
    twostate predicate Evolved()
      reads this, fabric
    {
      !fabric.dead ==> Ready() && Local(old(fabric.objs), fabric.objs, Held(old(View())), Held(View()))
    }

    /** The same, and no memory region was opened. */
    twostate predicate Built()
      reads this, fabric
    {
      Evolved() && (!fabric.dead ==> NoNewRegions(old(fabric.objs), fabric.objs))
    }

    /** Nothing that was held or opened was forgotten while open. */
    twostate predicate Tracks()
      reads this, fabric
    {
      !fabric.dead ==> Keeps(old(fabric.objs), fabric.objs, Held(old(View())), Held(View()))
    }

    /** If the process goes on, nothing was closed and n answers were used up. */
    twostate predicate Took(n: nat)
      reads fabric
    {
      !fabric.dead ==> Went(old(fabric.objs), old(fabric.answers), fabric.objs, fabric.answers, n)
    }

    /** No endpoint, domain or queue that setting up an endpoint would overwrite. */
    predicate Vacant()
      reads this
    {
      domain.None? && ep.None? && rxCq.None? && txCq.None?
    }

    // ------------------------------------------------------------------ construction

    /** The default constructor. */
    constructor Null(fabric: Provider)
      ensures View() == NULL_CONN && !isServer && !failed && this.fabric == fabric
    {
      this.fabric := fabric;
      isServer, failed := false, false;
      fab, domain, pep, eq, ep, rxCq, txCq := None, None, None, None, None, None, None;
      mrs := Some(map[]);
    }

    /** The constructor of a server, which gets its endpoint in connect or accept, and of a
        client, which gets it here. */
    constructor Create(fabric: Provider, isServer: bool)
      requires !fabric.dead && Ordered(fabric.objs)
      modifies fabric
      ensures this.fabric == fabric && this.isServer == isServer && !failed
      ensures !fabric.dead ==>
                && Ready() && Local(old(fabric.objs), fabric.objs, {}, Held(View()))
                && Keeps(old(fabric.objs), fabric.objs, {}, Held(View()))
                && fab.Some? && eq.Some? && pep.None? && mrs == Some(map[])
                && ep.Some? == domain.Some? == rxCq.Some? == txCq.Some? == !isServer
                && (!isServer ==> TableComplete(fabric.objs, View()))
      ensures fabric.dead ||
                Created(isServer, old(fabric.objs), old(fabric.answers), fabric.objs, View(), fabric.answers)
      ensures fabric.dead <==> !Granted(old(fabric.answers), if isServer then 2 else 10)
    {
      this.fabric := fabric;
      this.isServer, failed := isServer, false;
      fab, domain, pep, eq, ep, rxCq, txCq := None, None, None, None, None, None, None;
      mrs := Some(map[]);
      new;
      assert View() == NULL_CONN;
      if isServer {
        OpenBase();
      } else {
        InitializeClient();
      }
    }

    method InitializeClient()
      requires Ready() && View() == NULL_CONN
      modifies this`fab, this`eq, this`domain, this`ep, this`rxCq, this`txCq, fabric
      ensures fabric.dead ||
                (&& Ready() && Local(old(fabric.objs), fabric.objs, {}, Held(View()))
                 && Keeps(old(fabric.objs), fabric.objs, {}, Held(View()))
                 && Created(false, old(fabric.objs), old(fabric.answers), fabric.objs, View(), fabric.answers)
                 && TableComplete(fabric.objs, View()))
      ensures fabric.dead <==> !Granted(old(fabric.answers), 10)
    {
      ghost var o, a := fabric.objs, fabric.answers;
      GrantedSplits(a, 2, 8);
      OpenBase();
      if fabric.dead { return; }
      ghost var o1, a1, v1, h1 := fabric.objs, fabric.answers, View(), Held(View());
      ClientEndpoint();
      if fabric.dead { return; }
      CreatedInTwo(o, a, o1, a1, v1, fabric.objs, fabric.answers, View());
      LocalTrans(o, o1, fabric.objs, {}, h1, Held(View()));
    }

    method ClientEndpoint()
      requires Ready() && Vacant() && mrs.Some?
      modifies this`domain, this`ep, this`rxCq, this`txCq, fabric
      ensures Built() && Tracks()
      ensures Took(8) && (fabric.dead || Equipped(old(fabric.objs), old(View()), fabric.objs, View(), old(fabric.answers)))
      ensures !fabric.dead ==> TableComplete(fabric.objs, View())
      ensures fabric.dead <==> fab.None? || eq.None? || !Granted(old(fabric.answers), 8)
    {
      ghost var o, v := fabric.objs, View();
      SetupOfClientDies(v, fabric.answers);
      var _ := SetupActiveEp(true);
      if fabric.dead { return; }
      SetupKeepsComplete(o, fabric.objs, v, View());
    }

    /** The fabric and the event queue, which servers and clients both open. */
    method OpenBase()
      requires Ready() && View() == NULL_CONN
      modifies this`fab, this`eq, fabric
      ensures Built() && Tracks()
      ensures !fabric.dead ==> New(old(fabric.objs), fab) && New(old(fabric.objs), eq) && On(fabric.objs, eq, fab)
      ensures Took(2) && (fabric.dead <==> !Granted(old(fabric.answers), 2))
    {
      ghost var o0, a0, h0 := fabric.objs, fabric.answers, Held(View());
      GrantedTwo(a0);
      OpenFab();
      if fabric.dead { return; }
      ghost var o1, a1, h1 := fabric.objs, fabric.answers, Held(View());
      OpenEq();
      if fabric.dead { return; }
      LocalTrans(o0, o1, fabric.objs, h0, h1, Held(View()));
      WentTrans(o0, a0, o1, a1, fabric.objs, fabric.answers, 1, 1);
    }

    method OpenFab()
      requires Ready()
      modifies this`fab, fabric
      ensures Built() && (!fabric.dead ==> New(old(fabric.objs), fab))
      ensures old(fab).None? ==> Tracks()
      ensures Took(1) && (fabric.dead <==> !Answer(old(fabric.answers), 0))
    {
      ghost var before, view := fabric.objs, View();
      fab := Open(Fab, {});
      if !fabric.dead {
        RegionsKept(before, fabric.objs, view);
      }
    }

    /** open_eq */
    method OpenEq()
      requires Ready() && fab.Some?
      modifies this`eq, fabric
      ensures Built() && (!fabric.dead ==> New(old(fabric.objs), eq) && On(fabric.objs, eq, fab))
      ensures old(eq).None? ==> Tracks()
      ensures Took(1) && (fabric.dead <==> !Answer(old(fabric.answers), 0))
    {
      ghost var before, view := fabric.objs, View();
      eq := Open(Eq, {fab.value});
      if !fabric.dead {
        RegionsKept(before, fabric.objs, view);
      }
    }

    /** Opening an object, or dying in SAFE_CALL or ERRCHK. */
    method Open(kind: Kind, deps: set<nat>) returns (r: Option<nat>)
      requires Ordered(fabric.objs) && !fabric.dead
      requires forall y :: y in deps ==> IsOpen(fabric.objs, y) && MayDepend(kind, fabric.objs[y].kind)
      modifies fabric
      ensures !fabric.dead ==>
                && r == Some(|old(fabric.objs)|) && Ordered(fabric.objs)
                && fabric.objs == old(fabric.objs) + [Obj(kind, deps, true, 0)]
      ensures fabric.answers == Skip(old(fabric.answers), 1)
      ensures fabric.dead <==> !Answer(old(fabric.answers), 0)
    {
      r := fabric.OpenObj(kind, deps);
      fabric.dead := r.None?;
    }

    /** fi_ep_bind of the endpoint; with `must`, a refusal ends the process. */
    method BindEp(y: Option<nat>, must: bool)
      requires Ready() && ep.Some?
      requires y.Some? ==> y.value in Held(View()) && MayDepend(Ep, fabric.objs[y.value].kind)
      modifies fabric
      ensures Built() && Tracks()
      ensures Took(1) && (fabric.dead <==> y.None? || (must && !Answer(old(fabric.answers), 0)))
      ensures !fabric.dead && Answer(old(fabric.answers), 0) ==> On(fabric.objs, ep, y)
    {
      ghost var before := fabric.objs;
      if y.None? {
        fabric.dead := true;
        return;
      }
      var ok := fabric.Bind(ep.value, y.value);
      fabric.dead := must && !ok;
      RegionsKept(before, fabric.objs, View());
    }

    method OpenTxCq()
      requires Ready() && domain.Some?
      modifies this`txCq, fabric
      ensures Built() && (!fabric.dead ==> txCq == Some(|old(fabric.objs)|) && On(fabric.objs, txCq, domain))
      ensures old(txCq).None? ==> Tracks()
      ensures Took(1) && (fabric.dead <==> !Answer(old(fabric.answers), 0))
    {
      ghost var before, view := fabric.objs, View();
      txCq := Open(Cq, {domain.value});
      if !fabric.dead {
        RegionsKept(before, fabric.objs, view);
      }
    }

    method OpenRxCq()
      requires Ready() && domain.Some?
      modifies this`rxCq, fabric
      ensures Built() && (!fabric.dead ==> rxCq == Some(|old(fabric.objs)|) && On(fabric.objs, rxCq, domain))
      ensures old(rxCq).None? ==> Tracks()
      ensures Took(1) && (fabric.dead <==> !Answer(old(fabric.answers), 0))
    {
      ghost var before, view := fabric.objs, View();
      rxCq := Open(Cq, {domain.value});
      if !fabric.dead {
        RegionsKept(before, fabric.objs, view);
      }
    }

    /** setup_cqs, all of whose calls are SAFE_CALLs.  Both queues are replaced. */
    method SetupCqs()
      requires Ready() && domain.Some?
      modifies this`rxCq, this`txCq, fabric
      ensures Built()
      ensures !fabric.dead ==> NewQueues(old(fabric.objs), fabric.objs, View()) && QueuesBound(fabric.objs, View())
      ensures old(rxCq.None? && txCq.None?) ==> Tracks()
      ensures Took(4) && (fabric.dead <==> ep.None? || !Granted(old(fabric.answers), 4))
    {
      ghost var o0, a0, h0 := fabric.objs, fabric.answers, Held(View());
      GrantedSplits(a0, 2, 2);
      OpenCqs();
      if fabric.dead { return; }
      ghost var o1, a1, h1 := fabric.objs, fabric.answers, Held(View());
      BindCqs();
      if fabric.dead { return; }
      LocalTrans(o0, o1, fabric.objs, h0, h1, Held(View()));
      WentTrans(o0, a0, o1, a1, fabric.objs, fabric.answers, 2, 2);
    }

    method OpenCqs()
      requires Ready() && domain.Some?
      modifies this`rxCq, this`txCq, fabric
      ensures Built()
      ensures !fabric.dead ==> NewQueues(old(fabric.objs), fabric.objs, View())
      ensures old(rxCq.None? && txCq.None?) ==> Tracks()
      ensures Took(2) && (fabric.dead <==> !Granted(old(fabric.answers), 2))
    {
      ghost var o0, a0, h0 := fabric.objs, fabric.answers, Held(View());
      GrantedTwo(a0);
      OpenTxCq();
      if fabric.dead { return; }
      ghost var o1, a1, h1 := fabric.objs, fabric.answers, Held(View());
      OpenRxCq();
      if fabric.dead { return; }
      LocalTrans(o0, o1, fabric.objs, h0, h1, Held(View()));
      WentTrans(o0, a0, o1, a1, fabric.objs, fabric.answers, 1, 1);
    }

    method BindCqs()
      requires Ready()
      modifies fabric
      ensures Built() && Tracks() && (!fabric.dead ==> QueuesBound(fabric.objs, View()))
      ensures Took(2)
      ensures fabric.dead <==> ep.None? || rxCq.None? || txCq.None? || !Granted(old(fabric.answers), 2)
    {
      if ep.None? {
        fabric.dead := true;
        return;
      }
      ghost var o0, a0, h := fabric.objs, fabric.answers, Held(View());
      GrantedTwo(a0);
      BindEp(txCq, true);
      if fabric.dead { return; }
      ghost var o1, a1 := fabric.objs, fabric.answers;
      BindEp(rxCq, true);
      if fabric.dead { return; }
      LocalTrans(o0, o1, fabric.objs, h, h, h);
      WentTrans(o0, a0, o1, a1, fabric.objs, fabric.answers, 1, 1);
    }

    /** fi_domain.  Unless it must succeed, a failure leaves the old handle in place. */
    method OpenDomain(must: bool)
      requires Ready() && fab.Some?
      modifies this`domain, fabric
      ensures Built()
      ensures must && !fabric.dead ==> domain.Some?
      ensures old(domain).None? ==> Tracks()
      ensures Took(1) && (fabric.dead <==> must && !Answer(old(fabric.answers), 0))
      ensures !fabric.dead ==> (domain.Some? <==> old(domain).Some? || Answer(old(fabric.answers), 0))
      ensures !fabric.dead && Answer(old(fabric.answers), 0) ==> NewDomain(old(fabric.objs), fabric.objs, View())
      ensures !fabric.dead && !Answer(old(fabric.answers), 0) ==> domain == old(domain)
    {
      ghost var before, view := fabric.objs, View();
      var found := fabric.OpenObj(Domain, {fab.value});
      if found.Some? {
        domain := found;
      }
      fabric.dead := must && found.None?;
      RegionsKept(before, fabric.objs, view);
    }

    /** fi_endpoint; a null domain is dereferenced. */
    method OpenEndpoint(must: bool)
      requires Ready()
      modifies this`ep, fabric
      ensures Built()
      ensures !fabric.dead ==> domain.Some? && (must ==> ep.Some?)
      ensures old(ep).None? ==> Tracks()
      ensures Took(1) && (fabric.dead <==> domain.None? || (must && !Answer(old(fabric.answers), 0)))
      ensures !fabric.dead ==> (ep.Some? <==> old(ep).Some? || Answer(old(fabric.answers), 0))
      ensures !fabric.dead ==>
                if Answer(old(fabric.answers), 0) then New(old(fabric.objs), ep) && On(fabric.objs, ep, domain) else ep == old(ep)
    {
      ghost var before, view := fabric.objs, View();
      if domain.None? {
        fabric.dead := true;
        return;
      }
      var found := fabric.OpenObj(Ep, {domain.value});
      if found.Some? {
        ep := found;
      }
      fabric.dead := must && found.None?;
      RegionsKept(before, fabric.objs, view);
    }

    /** The domain, then the endpoint on it. */
    method OpenActive(must: bool)
      requires Ready() && fab.Some?
      modifies this`domain, this`ep, fabric
      ensures Built() && (!fabric.dead ==> domain.Some?)
      ensures old(domain.None? && ep.None?) ==> Tracks()
      ensures Took(2)
      ensures fabric.dead <==>
                (old(domain).None? && !Answer(old(fabric.answers), 0)) || (must && !Granted(old(fabric.answers), 2))
      ensures !fabric.dead ==> (ep.Some? <==> old(ep).Some? || Answer(old(fabric.answers), 1))
      ensures fabric.dead || Opened(old(fabric.objs), old(View()), fabric.objs, View(), old(fabric.answers))
    {
      ghost var o0, a0, h0, v0 := fabric.objs, fabric.answers, Held(View()), View();
      GrantedTwo(a0);
      AnswerLater(a0, 1, 0);
      OpenDomain(must);
      if fabric.dead { return; }
      ghost var o1, a1, h1, v1 := fabric.objs, fabric.answers, Held(View()), View();
      OpenEndpoint(must);
      if fabric.dead { return; }
      OpenedInTwo(o0, v0, o1, v1, fabric.objs, View(), a0);
      LocalTrans(o0, o1, fabric.objs, h0, h1, Held(View()));
      WentTrans(o0, a0, o1, a1, fabric.objs, fabric.answers, 1, 1);
    }

    /** try_setup_active_ep (must == false) and setup_active_ep (must == true).  The result
        of ERRREPORT is a bool, so in the former the tests for a negative value never hold:
        after a failed fi_domain or fi_endpoint the code goes on with the handle it had
        before, and false is never returned.  The result says whether all eight calls
        succeeded only if they did. */
    method SetupActiveEp(must: bool) returns (r: bool)
      requires Ready()
      modifies this`domain, this`ep, this`rxCq, this`txCq, fabric
      ensures Built()
      ensures !fabric.dead ==> r && domain.Some? && ep.Some? && rxCq.Some? && txCq.Some? && eq.Some?
      ensures old(Vacant()) ==> Tracks()
      ensures Took(8) && (fabric.dead <==> SetupDies(old(View()), old(fabric.answers), must))
      ensures !fabric.dead ==> (r == Granted(old(fabric.answers), 8)) == Granted(old(fabric.answers), 8)
      ensures fabric.dead || Equipped(old(fabric.objs), old(View()), fabric.objs, View(), old(fabric.answers))
    {
      r := true;
      if fab.None? {
        fabric.dead := true;
        return;
      }
      SetUp(must);
    }

    method SetUp(must: bool)
      requires Ready() && fab.Some?
      modifies this`domain, this`ep, this`rxCq, this`txCq, fabric
      ensures Built() && (old(Vacant()) ==> Tracks())
      ensures !fabric.dead ==> eq.Some?
      ensures Took(8) && (fabric.dead <==> SetupDies(old(View()), old(fabric.answers), must))
      ensures fabric.dead || Equipped(old(fabric.objs), old(View()), fabric.objs, View(), old(fabric.answers))
    {
      ghost var o0, a0, h0, v0 := fabric.objs, fabric.answers, Held(View()), View();
      SetupDiesIff(View(), a0, must);
      AnswerLater(a0, 2, 4);
      OpenActive(must);
      if fabric.dead { return; }
      ghost var o1, a1, h1, v1 := fabric.objs, fabric.answers, Held(View()), View();
      Equip(must);
      if fabric.dead { return; }
      EquippedInTwo(o0, v0, o1, v1, fabric.objs, View(), a0);
      LocalTrans(o0, o1, fabric.objs, h0, h1, Held(View()));
      WentTrans(o0, a0, o1, a1, fabric.objs, fabric.answers, 2, 6);
    }

    /** The endpoint gets its queues and is enabled. */
    method Equip(must: bool)
      requires Ready() && domain.Some?
      modifies this`rxCq, this`txCq, fabric
      ensures Built()
      ensures !fabric.dead ==> eq.Some? && NewQueues(old(fabric.objs), fabric.objs, View()) && QueuesBound(fabric.objs, View())
      ensures !fabric.dead && Answer(old(fabric.answers), 4) ==> On(fabric.objs, ep, eq)
      ensures old(rxCq.None? && txCq.None?) ==> Tracks()
      ensures Took(6)
      ensures fabric.dead <==>
                ep.None? || eq.None? || !Granted(old(fabric.answers), 4) || (must && !Granted(old(fabric.answers), 6))
    {
      ghost var o0, a0, h0 := fabric.objs, fabric.answers, Held(View());
      GrantedSplits(a0, 4, 2);
      AnswerLater(a0, 4, 0);
      SetupCqs();
      if fabric.dead { return; }
      ghost var o1, a1, h1 := fabric.objs, fabric.answers, Held(View());
      BindAndEnable(must);
      if fabric.dead { return; }
      LocalTrans(o0, o1, fabric.objs, h0, h1, Held(View()));
      WentTrans(o0, a0, o1, a1, fabric.objs, fabric.answers, 4, 2);
    }

    method BindAndEnable(must: bool)
      requires Ready() && ep.Some?
      modifies fabric
      ensures Built() && Tracks() && (!fabric.dead ==> eq.Some?)
      ensures Took(2) && (fabric.dead <==> eq.None? || (must && !Granted(old(fabric.answers), 2)))
      ensures !fabric.dead && Answer(old(fabric.answers), 0) ==> On(fabric.objs, ep, eq)
    {
      ghost var o0, a0 := fabric.objs, fabric.answers;
      GrantedTwo(a0);
      BindEp(eq, must);
      if fabric.dead { return; }
      ghost var o1, a1 := fabric.objs, fabric.answers;
      var ok := fabric.Use(ep.value);
      fabric.dead := must && !ok;
      WentTrans(o0, a0, o1, a1, fabric.objs, fabric.answers, 1, 1);
    }

    /** createPep, whose calls are all checked by ERRCHK. */
    method CreatePep()
      requires Ready()
      modifies this`pep, fabric
      ensures Built() && (!fabric.dead ==> New(old(fabric.objs), pep) && On(fabric.objs, pep, fab) && On(fabric.objs, pep, eq))
      ensures old(pep).None? ==> Tracks()
      ensures Took(3) && (fabric.dead <==> fab.None? || eq.None? || !Granted(old(fabric.answers), 3))
    {
      if fab.None? || eq.None? {
        fabric.dead := true;
        return;
      }
      ghost var o0, a0, h0 := fabric.objs, fabric.answers, Held(View());
      GrantedSplits(a0, 1, 2);
      GrantedOne(a0);
      OpenPep();
      if fabric.dead { return; }
      ghost var o1, a1, h1 := fabric.objs, fabric.answers, Held(View());
      ListenPep();
      if fabric.dead { return; }
      LocalTrans(o0, o1, fabric.objs, h0, h1, Held(View()));
      WentTrans(o0, a0, o1, a1, fabric.objs, fabric.answers, 1, 2);
    }

    method OpenPep()
      requires Ready() && fab.Some?
      modifies this`pep, fabric
      ensures Built() && (!fabric.dead ==> New(old(fabric.objs), pep) && On(fabric.objs, pep, fab))
      ensures old(pep).None? ==> Tracks()
      ensures Took(1) && (fabric.dead <==> !Answer(old(fabric.answers), 0))
    {
      ghost var before, view := fabric.objs, View();
      pep := Open(Pep, {fab.value});
      if !fabric.dead {
        RegionsKept(before, fabric.objs, view);
      }
    }

    method ListenPep()
      requires Ready() && pep.Some? && eq.Some?
      modifies fabric
      ensures Built() && Tracks() && (!fabric.dead ==> On(fabric.objs, pep, eq))
      ensures Took(2) && (fabric.dead <==> !Granted(old(fabric.answers), 2))
    {
      ghost var before, answers := fabric.objs, fabric.answers;
      GrantedTwo(answers);
      var ok := fabric.Bind(pep.value, eq.value);
      RegionsKept(before, fabric.objs, View());
      if ok {
        ok := fabric.Use(pep.value);
      }
      fabric.dead := !ok;
    }

    // --------------------------------------------------------------- connect and accept

    /** wait_for_eq_connected */
    method WaitConnected() returns (r: bool)
      requires Ready()
      modifies fabric`dead, fabric`answers
      ensures fabric.dead <==> eq.None?
      ensures !fabric.dead ==> r == Answer(old(fabric.answers), 0) && fabric.answers == Skip(old(fabric.answers), 1)
    {
      r := false;
      if eq.None? {
        fabric.dead := true;
        return;
      }
      r := fabric.Use(eq.value);
    }

    /** Closing the passive endpoint in connect.  Nothing depends on one, so this works. */
    method ClosePep()
      requires Ready() && pep.Some?
      modifies this`pep, fabric`objs
      ensures Built() && Tracks() && View() == old(View()).(pep := None)
      ensures fabric.objs == Closed(old(fabric.objs), old(pep.value))
    {
      ghost var before, view, held := fabric.objs, View(), Held(View());
      HeldInRange(before, view);
      LowestNeverBusy(before, pep.value);
      var _ := fabric.Close(pep.value);
      pep := None;
      CloseKeepsOthers(before, view.pep.value, view, View());
    }

    /** One event is read; if it is a connection request, an endpoint is set up for it. */
    method AnswerEvent() returns (ok: bool)
      requires Ready() && eq.Some?
      modifies this`domain, this`ep, this`rxCq, this`txCq, fabric
      ensures Built()
      ensures !fabric.dead && ok ==> ep.Some? && domain.Some? && rxCq.Some? && txCq.Some?
      ensures old(Vacant()) ==> Tracks()
      ensures !fabric.dead ==> ok == Answer(old(fabric.answers), 0)
      ensures Took(if Answer(old(fabric.answers), 0) then 9 else 1)
      ensures fabric.dead <==>
                Answer(old(fabric.answers), 0) && SetupDies(old(View()), Skip(old(fabric.answers), 1), false)
      ensures fabric.dead ||
                if ok then Equipped(old(fabric.objs), old(View()), fabric.objs, View(), Skip(old(fabric.answers), 1))
                else View() == old(View())
    {
      ghost var o0, a0 := fabric.objs, fabric.answers;
      ok := fabric.Use(eq.value);
      ghost var o1, a1 := fabric.objs, fabric.answers;
      if ok {  // the event was read and is FI_CONNREQ
        ok := SetupActiveEp(false);
        if fabric.dead { return; }
        AnswerLater(a0, 1, 0);
        WentTrans(o0, a0, o1, a1, fabric.objs, fabric.answers, 1, 8);
      }
    }

    /** connect on a server, first part: listen, take one connection request, set up the
        endpoint, stop listening.  The passive endpoint is closed on every path. */
    method TakeRequest() returns (ok: bool)
      requires Ready()
      modifies this`pep, this`domain, this`ep, this`rxCq, this`txCq, fabric
      ensures Built() && (old(pep.None? && Vacant()) ==> Tracks())
      ensures fabric.dead ||
                (&& eq.Some? && ok == Answer(old(fabric.answers), 3)
                 && Requested(old(fabric.objs), old(View()), old(fabric.answers), fabric.objs, View())
                 && fabric.answers == Skip(old(fabric.answers), if ok then 12 else 4))
      ensures fabric.dead <==> ConnectDies(old(View()), old(fabric.answers))
    {
      ok := false;
      ghost var o0, a0, h0, v0 := fabric.objs, fabric.answers, Held(View()), View();
      AnswerLater(a0, 3, 0);
      SkipMore(a0, 3, 1);
      CreatePep();
      if fabric.dead { return; }
      ghost var o1, h1, v1 := fabric.objs, Held(View()), View();
      ok := AnswerAndStop();
      if fabric.dead { return; }
      LocalTrans(o0, o1, fabric.objs, h0, h1, Held(View()));
      RequestedInTwo(o0, v0, o1, v1, fabric.objs, View(), a0, fabric.answers);
    }

    method AnswerAndStop() returns (ok: bool)
      requires Ready() && eq.Some? && pep.Some?
      modifies this`pep, this`domain, this`ep, this`rxCq, this`txCq, fabric
      ensures Built() && (old(Vacant()) ==> Tracks())
      ensures fabric.dead ||
                (&& ok == Answer(old(fabric.answers), 0)
                 && Stopped(old(fabric.objs), old(View()), old(fabric.answers), fabric.objs, View(), fabric.answers))
      ensures fabric.dead <==>
                Answer(old(fabric.answers), 0) && SetupDies(old(View()), Skip(old(fabric.answers), 1), false)
    {
      ghost var o0, h0, a0, v0 := fabric.objs, Held(View()), fabric.answers, View();
      ok := AnswerEvent();
      if fabric.dead { return; }
      ghost var o1, h1, v1 := fabric.objs, Held(View()), View();
      StoppedAfterEvent(o0, v0, a0, o1, v1, fabric.answers);
      ClosePep();
      LocalTrans(o0, o1, fabric.objs, h0, h1, Held(View()));
    }

    /** connect on a server.  It succeeds exactly if the event is a connection request,
        fi_accept does not fail, and FI_CONNECTED follows. */
    method ConnectServer() returns (r: bool)
      requires Ready() && isServer
      modifies this`pep, this`domain, this`ep, this`rxCq, this`txCq, fabric
      ensures Built() && (old(pep.None? && Vacant()) ==> Tracks())
      ensures fabric.dead ||
                (&& Requested(old(fabric.objs), old(View()), old(fabric.answers), fabric.objs, View())
                 && fabric.answers == Skip(old(fabric.answers), ConnectUsed(old(fabric.answers)))
                 && (r <==> Answer(old(fabric.answers), 3) && Answer(old(fabric.answers), 12) && Answer(old(fabric.answers), 13)))
      ensures fabric.dead <==> ConnectDies(old(View()), old(fabric.answers))
    {
      ghost var a := fabric.answers;
      r := TakeRequest();
      if fabric.dead || !r { return; }
      AnswerLater(a, 12, 0);
      AnswerLater(a, 13, 0);
      SkipMore(a, 12, 1);
      SkipMore(a, 13, 1);
      r := fabric.Use(ep.value);  // fi_accept
      if r {
        r := WaitConnected();
      }
    }

    /** connect */
    method Connect() returns (r: bool)
      requires Ready()
      modifies this, fabric
      ensures Built() && isServer == old(isServer)
      ensures old(isServer ==> pep.None? && Vacant()) ==> Tracks()
      ensures fabric.dead <==> old(ConnectFatal(isServer, failed, View(), fabric.answers))
      ensures fabric.dead ||
                Connected(isServer, old(fabric.objs), old(View()), old(fabric.answers),
                          fabric.objs, View(), failed, fabric.answers, r)
      ensures !fabric.dead && old(TableOk(fabric.objs, View())) ==> TableOk(fabric.objs, View())
    {
      r := false;
      ghost var o, v := fabric.objs, View();
      if failed {
        fabric.dead := true;
        return;
      }
      if isServer {
        r := ConnectServer();
        if !fabric.dead && mrs.Some? && domain.Some? && TableOk(o, v) {
          SetupKeepsComplete(o, fabric.objs, v, View());
        }
        return;
      }
      if ep.None? {
        fabric.dead := true;
        return;
      }
      AnswerLater(fabric.answers, 1, 0);
      SkipMore(fabric.answers, 1, 1);
      var ok := fabric.Use(ep.value);  // fi_connect
      if !ok {
        failed := true;
        return;
      }
      r := WaitConnected();
    }

    /** The move constructor; `failed` is not moved. */
    constructor Move(other: Connection)
      modifies other
      ensures fabric == other.fabric && isServer == old(other.isServer) && !failed
      ensures other.isServer == old(other.isServer) && other.failed == old(other.failed)
      ensures View() == old(other.View()) && other.View() == MOVED_CONN
    {
      fabric := other.fabric;
      isServer, failed := other.isServer, false;
      fab, pep, domain, eq, ep := other.fab, other.pep, other.domain, other.eq, other.ep;
      rxCq, txCq, mrs := other.rxCq, other.txCq, other.mrs;
      new;
      other.fab, other.pep, other.domain, other.eq, other.ep := None, None, None, None, None;
      other.rxCq, other.txCq, other.mrs := None, None, None;
    }

    /** createPep, if there is no passive endpoint yet. */
    method EnsurePep()
      requires Ready()
      modifies this`pep, fabric
      ensures Built() && Tracks() && (!fabric.dead ==> pep.Some? && eq.Some?)
      ensures !fabric.dead ==> Listening(old(fabric.objs), old(View()), fabric.objs, View())
      ensures Took(PepAnswers(old(View())))
      ensures fabric.dead <==> eq.None? || (old(pep).None? && (fab.None? || !Granted(old(fabric.answers), 3)))
    {
      if pep.None? {
        CreatePep();
      } else if eq.None? {
        fabric.dead := true;
      }
    }

    /** Listening, and one event; true if it was a connection request, which has an endpoint
        then. */
    method TakeEvent() returns (ok: bool)
      requires Ready()
      modifies this`pep, this`domain, this`ep, this`rxCq, this`txCq, fabric
      ensures Built() && (old(Vacant()) ==> Tracks())
      ensures !fabric.dead ==> pep.Some? && eq.Some? && ok == Answer(old(fabric.answers), PepAnswers(old(View())))
      ensures !fabric.dead && ok ==> ep.Some? && domain.Some? && rxCq.Some? && txCq.Some?
      ensures Took(PepAnswers(old(View())) + if ok then 9 else 1)
      ensures fabric.dead <==> AcceptDies(old(View()), old(fabric.answers))
      ensures fabric.dead || Outfitted(old(fabric.objs), old(View()), old(fabric.answers), fabric.objs, View())
    {
      ok := false;
      ghost var o0, a0, h0, k := fabric.objs, fabric.answers, Held(View()), PepAnswers(View());
      ghost var v0 := View();
      EnsurePep();
      AcceptDiesIff(v0, View(), a0);
      if fabric.dead { return; }
      ghost var o1, a1, h1, v1 := fabric.objs, fabric.answers, Held(View()), View();
      AnswerLater(a0, k, 0);
      ok := AnswerEvent();
      if fabric.dead { return; }
      OutfittedInTwo(o0, v0, o1, v1, fabric.objs, View(), a0);
      LocalTrans(o0, o1, fabric.objs, h0, h1, Held(View()));
      WentTrans(o0, a0, o1, a1, fabric.objs, fabric.answers, k, if ok then 9 else 1);
    }

    /** The first half of accept: one connection request gets an endpoint.  It is served if
        the event is a connection request and fi_accept does not fail; no other failure is
        noticed. */
    method AcceptRequest() returns (ok: bool)
      requires Ready() && isServer
      modifies this`pep, this`domain, this`ep, this`rxCq, this`txCq, fabric
      ensures fabric.dead ||
                (&& Ordered(fabric.objs)
                 && Prepared(old(fabric.objs), old(View()), old(fabric.answers), fabric.objs, View(), fabric.answers, ok))
      ensures old(Vacant()) ==> Tracks()
      ensures fabric.dead <==> AcceptDies(old(View()), old(fabric.answers))
    {
      ghost var o0, a0, k := fabric.objs, fabric.answers, PepAnswers(View());
      ok := TakeEvent();
      if fabric.dead || !ok { return; }
      ghost var o1, a1 := fabric.objs, fabric.answers;
      AnswerLater(a0, k + 9, 0);
      ok := fabric.Use(ep.value);  // fi_accept
      WentTrans(o0, a0, o1, a1, fabric.objs, fabric.answers, k + 9, 1);
    }

    /** The second half: the endpoint, its domain and its queues go to a new connection,
        which borrows the event queue to wait and gives it back. */
    method HandOver() returns (r: bool, newConn: Connection)
      requires Ready() && eq.Some?
      modifies this`domain, this`ep, this`rxCq, this`txCq, fabric`dead, fabric`answers
      ensures fresh(newConn) && newConn.fabric == fabric && !newConn.isServer && !newConn.failed && !fabric.dead
      ensures View() == old(View()).(domain := None, ep := None, rxCq := None, txCq := None)
      ensures newConn.View() == NULL_CONN.(domain := old(domain), ep := old(ep), rxCq := old(rxCq), txCq := old(txCq))
      ensures r == Answer(old(fabric.answers), 0) && fabric.answers == Skip(old(fabric.answers), 1)
    {
      var conn := new Connection.Null(fabric);
      conn.domain, domain := domain, None;
      conn.ep, ep := ep, None;
      conn.txCq, txCq := txCq, None;
      conn.rxCq, rxCq := rxCq, None;
      conn.eq := eq;
      assert RegionsOk(fabric.objs, conn.mrs);
      r := conn.WaitConnected();
      conn.eq := None;
      newConn := new Connection.Move(conn);
    }

    /** The hand-over, and what it means since accept was called: o, v and a are the objects,
        the handles and the answers then. */
    method Serve(ghost o: Objects, ghost v: Conn, ghost a: seq<bool>) returns (r: bool, newConn: Connection)
      requires Ready() && Prepared(o, v, a, fabric.objs, View(), fabric.answers, true)
      modifies this`domain, this`ep, this`rxCq, this`txCq, fabric`dead, fabric`answers
      ensures fresh(newConn) && newConn.fabric == fabric && !newConn.isServer && !newConn.failed && !fabric.dead && pep.Some?
      ensures Divided(o, v, fabric.objs, View(), newConn.View())
      ensures old(Keeps(o, fabric.objs, Held(v), Held(View()))) ==>
                Keeps(o, fabric.objs, Held(v), Held(View()) + Held(newConn.View()))
      ensures Answered(o, v, a, fabric.objs, View(), fabric.answers, r, newConn.View())
    {
      ghost var whole, answers := View(), fabric.answers;
      r, newConn := HandOver();
      HandOverDivides(o, v, a, fabric.objs, whole, View(), answers, fabric.answers, r, newConn.View());
    }

    /** No hand-over. */
    method Refuse(ghost o: Objects, ghost v: Conn, ghost a: seq<bool>) returns (newConn: Connection)
      requires Ready() && Ordered(o) && Owned(o, v) && Prepared(o, v, a, fabric.objs, View(), fabric.answers, false)
      ensures fresh(newConn) && newConn.fabric == fabric && !newConn.isServer && !newConn.failed && pep.Some?
      ensures Divided(o, v, fabric.objs, View(), newConn.View())
      ensures Keeps(o, fabric.objs, Held(v), Held(View())) ==>
                Keeps(o, fabric.objs, Held(v), Held(View()) + Held(newConn.View()))
      ensures Answered(o, v, a, fabric.objs, View(), fabric.answers, false, newConn.View())
    {
      newConn := new Connection.Null(fabric);
      NullDivides(o, v, fabric.objs, View());
    }

    /** accept and nonblockingAccept, which differ only in how the event queue is read. */
    method Accept() returns (r: bool, newConn: Connection)
      requires Ready()
      modifies this`pep, this`domain, this`ep, this`rxCq, this`txCq, fabric
      ensures fresh(newConn) && newConn.fabric == fabric && !newConn.isServer && !newConn.failed
      ensures fabric.dead ||
                (&& Ordered(fabric.objs)
                 && Accepted(isServer, old(fabric.objs), old(View()), old(fabric.answers),
                             fabric.objs, View(), fabric.answers, r, newConn.View())
                 && (old(isServer ==> Vacant()) ==>
                       Keeps(old(fabric.objs), fabric.objs, Held(old(View())), Held(View()) + Held(newConn.View()))))
      ensures fabric.dead <==> old(isServer && AcceptDies(View(), fabric.answers))
    {
      if isServer {
        r, newConn := AcceptOnServer();
      } else {
        r := false;
        newConn := new Connection.Null(fabric);
        NullDivides(fabric.objs, View(), fabric.objs, View());
      }
    }

    method AcceptOnServer() returns (r: bool, newConn: Connection)
      requires Ready() && isServer
      modifies this`pep, this`domain, this`ep, this`rxCq, this`txCq, fabric
      ensures fresh(newConn) && newConn.fabric == fabric && !newConn.isServer && !newConn.failed
      ensures fabric.dead ||
                (&& Ordered(fabric.objs) && pep.Some?
                 && Divided(old(fabric.objs), old(View()), fabric.objs, View(), newConn.View())
                 && (old(Vacant()) ==>
                       Keeps(old(fabric.objs), fabric.objs, Held(old(View())), Held(View()) + Held(newConn.View())))
                 && Answered(old(fabric.objs), old(View()), old(fabric.answers),
                             fabric.objs, View(), fabric.answers, r, newConn.View()))
      ensures fabric.dead <==> AcceptDies(old(View()), old(fabric.answers))
    {
      ghost var o, v, a := fabric.objs, View(), fabric.answers;
      r := AcceptRequest();
      if fabric.dead {
        newConn := new Connection.Null(fabric);
      } else if r {
        r, newConn := Serve(o, v, a);
      } else {
        newConn := Refuse(o, v, a);
      }
    }

    // ------------------------------------------------------- destruction and assignment

    /** The destructor.  It ends the process if and only if some open object that is not
        this connection's own depends on one of its objects; otherwise it closes exactly
        the objects of this connection. */
    method Destroy()
      requires Ready()
      modifies fabric`objs, fabric`dead
      ensures fabric.dead <==> Entangled(old(fabric.objs), Held(View()))
      ensures !fabric.dead ==>
                && Ordered(fabric.objs) && fabric.objs == CloseSet(old(fabric.objs), Held(View()))
                && Local(old(fabric.objs), fabric.objs, Held(View()), {})
    {
      ghost var closed := CloseAll(fabric, View(), true);
      CloseSetIsLocal(old(fabric.objs), Held(View()), Held(View()));
    }

    /** Move assignment.  Self-assignment does nothing.  Refusals to close are ignored, so
        objects that others depend on stay open and are forgotten. */
    method MoveAssign(other: Connection)
      requires Ready() && other.Ready() && other.fabric == fabric
      requires other != this ==> Held(View()) !! Held(other.View())
      modifies this, other, fabric`objs, fabric`dead
      ensures !fabric.dead && Ready() && isServer == old(other.isServer) && failed == old(failed)
      ensures other.isServer == old(other.isServer) && other.failed == old(other.failed)
      ensures View() == old(other.View())
      ensures other == this ==> fabric.objs == old(fabric.objs)
      ensures other != this ==> other.View() == MOVED_CONN && Local(old(fabric.objs), fabric.objs, old(Held(View())), {})
      ensures other != this ==> ClosedWhatItCould(old(fabric.objs), old(Held(View())), fabric.objs)
      ensures other != this && !Entangled(old(fabric.objs), old(Held(View()))) ==>
                fabric.objs == CloseSet(old(fabric.objs), old(Held(View())))
    {
      if other == this {
        return;
      }
      ghost var o, held := fabric.objs, Held(View());
      ghost var closed := CloseAll(fabric, View(), false);
      CloseSetIsLocal(o, closed, held);
      OthersKeepTheirs(o, fabric.objs, held, {}, other.View());
      TakeFrom(other);
    }

    method TakeFrom(other: Connection)
      requires other != this
      modifies this, other
      ensures isServer == old(other.isServer) && failed == old(failed)
      ensures other.isServer == old(other.isServer) && other.failed == old(other.failed)
      ensures View() == old(other.View()) && other.View() == MOVED_CONN
    {
      isServer := other.isServer;
      fab, pep, domain, eq, ep := other.fab, other.pep, other.domain, other.eq, other.ep;
      rxCq, txCq, mrs := other.rxCq, other.txCq, other.mrs;
      other.fab, other.pep, other.domain, other.eq, other.ep := None, None, None, None, None;
      other.rxCq, other.txCq, other.mrs := None, None, None;
    }

    // ------------------------------------------------------------------ memory regions

    /** register_mr.  The result says whether the key was present; then exactly the old
        region was closed, and the new one has its key, or the process is dead. */
    method RegisterMr(key: nat) returns (r: bool, newKey: nat)
      requires Ready()
      modifies this`mrs, fabric`objs, fabric`dead
      ensures Evolved() && Tracks()
      ensures fabric.dead ||
                (r == old(mrs.Some? && key in mrs.value)
                 && Registered(key, old(fabric.objs), old(View()), fabric.objs, View(), newKey))
      ensures !fabric.dead && old(TableComplete(fabric.objs, View())) ==> TableComplete(fabric.objs, View())
    {
      r, newKey := false, key;
      if mrs.None? || domain.None? {
        fabric.dead := true;
        return;
      }
      ghost var o, v := fabric.objs, View();
      r := key in mrs.value;
      if r {
        assert RegionOk(o, key, mrs.value[key]);
        LowestNeverBusy(o, mrs.value[key]);
        var _ := fabric.Close(mrs.value[key]);
      }
      assert fabric.objs == WithoutKey(o, v, key);
      DomainSurvives(o, v, key);
      var region := CreateMr();
      if fabric.dead { return; }
      if r && region.1 != key {
        fabric.dead := true;  // the assertion that the key is kept
        return;
      }
      newKey := region.1;
      if !r {
        KeyIsNew(o, v, newKey);
      }
      mrs := Some(mrs.value[newKey := region.0]);
      assert WithoutKey(o, v, newKey) == WithoutKey(o, v, key);
      RegisterKeepsOwned(o, v, newKey);
      if TableComplete(o, v) {
        RegisterKeepsComplete(o, v, newKey);
      }
    }

    /** create_mr: the region's handle and the key the provider gave it. */
    method CreateMr() returns (region: (nat, nat))
      requires !fabric.dead && Ordered(fabric.objs) && Slot(fabric.objs, domain, Domain) && domain.Some?
      modifies fabric`objs, fabric`dead
      ensures !fabric.dead ==>
                && Ordered(fabric.objs) && region.0 == |old(fabric.objs)|
                && fabric.objs == old(fabric.objs) + [Obj(Mr, {domain.value}, true, region.1)]
                && forall z :: 0 <= z < |old(fabric.objs)| && old(fabric.objs)[z].open && old(fabric.objs)[z].kind.Mr? ==>
                     old(fabric.objs)[z].key != region.1
    {
      region := (0, 0);
      var r := fabric.OpenRegion(domain.value);
      if r.None? {
        fabric.dead := true;
        return;
      }
      region := (r.value, fabric.objs[r.value].key);
    }
  }

  // ----------------------------------------------------------------------- runs that occur

  /** A client whose request was sent but not answered with FI_CONNECTED can try again. */
  method ClientRetries(fabric: Provider) returns (first: bool, second: bool)
    requires !fabric.dead && fabric.objs == [] && fabric.answers == seq(10, _ => true) + [true, false]
    modifies fabric
    ensures !fabric.dead && !first && second
  {
    ghost var a := fabric.answers;
    assert Granted(a, 10);
    var client := new Connection.Create(fabric, false);
    assert fabric.answers == a[10..] == [true, false];
    first := client.Connect();
    assert fabric.answers == [];
    second := client.Connect();
  }

  /** A client whose fi_connect failed remembers it, and its next connect ends the process;
      the object it is moved to does not, and connects. */
  method FailedClient(fabric: Provider, move: bool) returns (first: bool, alive: bool, second: bool)
    requires !fabric.dead && fabric.objs == [] && fabric.answers == seq(10, _ => true) + [false]
    modifies fabric
    ensures !first && alive && (move ==> !fabric.dead && second) && (!move ==> fabric.dead)
  {
    ghost var a := fabric.answers;
    assert Granted(a, 10);
    var client := new Connection.Create(fabric, false);
    assert fabric.answers == a[10..] == [false];
    first := client.Connect();
    assert fabric.answers == [];
    alive := !fabric.dead;
    if move {
      var moved := new Connection.Move(client);
      second := moved.Connect();
    } else {
      second := client.Connect();
    }
  }

  /** A server that is asked for a connection connects exactly if FI_CONNECTED follows; in
      either case it has an endpoint, and its passive one is closed. */
  method ServerConnects(fabric: Provider, established: bool) returns (r: bool, server: Connection)
    requires !fabric.dead && fabric.objs == [] && fabric.answers == seq(15, _ => true) + [established]
    modifies fabric
    ensures !fabric.dead && r == established && server.Ready() && server.ep.Some? && server.pep.None?
    ensures exists p :: 0 <= p < |fabric.objs| && PepClosed(fabric.objs, server.View(), p)
  {
    ghost var a := fabric.answers;
    server := new Connection.Create(fabric, true);
    ghost var a1 := fabric.answers;
    assert a1 == a[2..] == seq(13, _ => true) + [established];
    assert Granted(a1, 13);
    GrantedSplits(a1, 4, 9);
    assert Granted(Skip(a1, 4), 9) && Granted(Skip(Skip(a1, 4), 2), 4) by {
      GrantedSplits(Skip(a1, 4), 2, 7);
    }
    r := server.Connect();
  }

  /** accept is documented as returning false with a null connection.  Here everything
      succeeds but the final wait, and it returns false with a connection that owns an
      endpoint. */
  method AcceptFailsWithOwner(fabric: Provider) returns (r: bool, newConn: Connection)
    requires !fabric.dead && fabric.objs == [] && fabric.answers == seq(15, _ => true) + [false]
    modifies fabric
    ensures !fabric.dead && !r && newConn.Ready() && newConn.ep.Some? && newConn.View() != NULL_CONN
  {
    ghost var a := fabric.answers;
    var server := new Connection.Create(fabric, true);
    ghost var a1 := fabric.answers;
    assert a1 == a[2..] == seq(13, _ => true) + [false];
    AcceptSurvives(server.View(), a1);
    assert Serves(server.View(), a1) && !Answer(a1, 13);
    r, newConn := server.Accept();
  }

  /** The endpoint of the new connection was not enabled, but accept reports success. */
  method AcceptWithoutEnable(fabric: Provider) returns (r: bool, newConn: Connection)
    requires !fabric.dead && fabric.objs == [] && fabric.answers == seq(13, _ => true) + [false]
    modifies fabric
    ensures !fabric.dead && r && newConn.Ready() && newConn.ep.Some?
  {
    ghost var a := fabric.answers;
    var server := new Connection.Create(fabric, true);
    ghost var a1 := fabric.answers;
    assert a1 == a[2..] == seq(11, _ => true) + [false];
    AcceptSurvives(server.View(), a1);
    assert Serves(server.View(), a1) && Answer(a1, 13);
    r, newConn := server.Accept();
  }

  /** An accept all of whose calls succeed but fi_accept: the new domain stays with the
      server. */
  method RefusedAccept(fabric: Provider, server: Connection, ghost rest: seq<bool>) returns (r: bool, c: Connection)
    requires server.Ready() && server.fabric == fabric && server.isServer && server.fab.Some? && server.eq.Some?
    requires fabric.answers == seq(PepAnswers(server.View()) + 9, _ => true) + ([false] + rest)
    modifies server`pep, server`domain, server`ep, server`rxCq, server`txCq, fabric
    ensures server.Ready() && !r && c.View() == NULL_CONN && server.pep.Some? && fabric.answers == rest
    ensures NewDomain(old(fabric.objs), fabric.objs, server.View()) && Grows(old(fabric.objs), fabric.objs)
  {
    ghost var a, k := fabric.answers, PepAnswers(server.View());
    assert Granted(a, k + 7) && Answer(a, k) && Answer(a, k + 1) && !Answer(a, k + 9);
    AcceptSurvives(server.View(), a);
    assert Skip(a, k + 10) == rest;
    r, c := server.Accept();
  }

  /** An accept whose fi_accept fails leaves its domain with the server, and the next accept
      overwrites the handle.  The domain that was forgotten depends on the server's fabric, so
      destroying the server ends the process, although nothing was ever accepted from it. */
  method RetriedAcceptBlocks(fabric: Provider) returns (first: bool, second: bool, alive: bool)
    requires !fabric.dead && fabric.objs == []
    requires fabric.answers == seq(14, _ => true) + [false] + seq(9, _ => true) + [false]
    modifies fabric
    ensures !first && !second && alive && fabric.dead
  {
    ghost var a, rest := fabric.answers, seq(9, _ => true) + ([false] + []);
    var server := new Connection.Create(fabric, true);
    assert fabric.answers == a[2..] == seq(12, _ => true) + ([false] + rest);
    var c;
    first, c := RefusedAccept(fabric, server, rest);
    ghost var o1, v1 := fabric.objs, server.View();
    second, c := RefusedAccept(fabric, server, []);
    alive := !fabric.dead;
    ForgottenDomain(o1, v1, fabric.objs, server.View());
    server.Destroy();
  }

  /** The old domain is open, depends on the fabric, and is not held any more. */
  lemma {:induction false} ForgottenDomain(objs: Objects, c: Conn, objs': Objects, c': Conn)
    requires Owned(objs, c) && Owned(objs', c') && Grows(objs, objs') && c'.fab == c.fab
    requires c.domain.Some? && c.fab.Some? && c.fab.value in objs[c.domain.value].deps
    requires NewDomain(objs, objs', c')
    ensures Entangled(objs', Held(c'))
  {
    var d, f := c.domain.value, c.fab.value;
    assert objs'[d].open && f in objs'[d].deps;
    if d in Held(c') {
      OldDomainIsSame(objs', c', d);
    }
    assert f in Held(c');
    assert NeededOutside(objs', Held(c'), f);
  }
}
