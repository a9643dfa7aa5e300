/** What the flooding broadcast guarantees in every reachable state, and at quiescence. */
module Agreement {
  import opened Common
  import opened Flooding

  ghost predicate Reachable(g: Graph, s: State) {
    exists run :: ValidRun(g, Init(g), run) && After(g, Init(g), run) == s
  }

  /** No live node is inside a call, and no channel into a live node holds a message. */
  ghost predicate Quiescent(s: State) {
    && (forall p :: 0 <= p < |s.nodes| && s.nodes[p].alive ==> s.nodes[p].call.Idle?)
    && (forall pk :: pk in s.net && pk.dst < |s.nodes| ==> !s.nodes[pk.dst].alive)
  }

  /** A set of nodes, as one flag per node. */
  type Members = seq<bool>

  predicate In(q: nat, via: Members) {
    q < |via| && via[q]
  }

  function Live(s: State): Members {
    seq(|s.nodes|, p requires 0 <= p < |s.nodes| => s.nodes[p].alive)
  }

  function Everyone(g: Graph): Members {
    seq(|g|, _ => true)
  }

  /** A path along connection lists whose nodes after the first are all in `via`. */
  ghost predicate Path(g: Graph, via: Members, path: seq<nat>) {
    && |path| >= 1 && path[0] < |g|
    && (|path| > 1 ==> In(path[1], via) && path[1] in g[path[0]] && Path(g, via, path[1..]))
  }

  /** q can be reached from p over at least one connection, through nodes in `via`. */
  ghost predicate Downstream(g: Graph, via: Members, p: nat, q: nat) {
    exists path :: |path| > 1 && path[0] == p && path[|path| - 1] == q && Path(g, via, path)
  }

  lemma {:induction false} InitInv(g: Graph)
    ensures Inv(g, Init(g))
  {
    forall p | 0 <= p < |g| ensures LocalInv(g, Init(g), p) {
      assert Init(g).nodes[p] == FRESH;
    }
  }

  lemma {:induction false} ReachableInv(g: Graph, s: State)
    requires ValidGraph(g) && Reachable(g, s)
    ensures Inv(g, s)
  {
    var run :| ValidRun(g, Init(g), run) && After(g, Init(g), run) == s;
    InitInv(g);
    RunKeepsInv(g, Init(g), run);
  }

  // ------------------------------------------------------------- relay before deliver

  /** A node that marked m has sent m on every connection of its list. */
  lemma {:induction false} RelayBeforeDeliver(g: Graph, s: State, p: nat, m: Message, i: nat)
    requires ValidGraph(g) && Reachable(g, s)
    requires p < |g| && i < |g[p]| && m in s.nodes[p].marked
    ensures Packet(p, g[p][i], m) in s.nodes[p].log
  {
    ReachableInv(g, s);
    assert LocalInv(g, s, p);
    LoopsContain(p, g[p], s.nodes[p].rounds, m, i);
  }

  /** A node stopped inside a send loop has sent its earlier loops in full, then exactly
      the first `next` copies of the current one. */
  lemma {:induction false} StoppedMidLoop(g: Graph, s: State, p: nat)
    requires ValidGraph(g) && Reachable(g, s) && p < |g| && s.nodes[p].call.Relaying?
    ensures var Relaying(m, next, _) := s.nodes[p].call;
            next <= |g[p]| &&
            s.nodes[p].log == Loops(p, g[p], s.nodes[p].rounds) + Copies(p, g[p][..next], m)
  {
    ReachableInv(g, s);
    assert LocalInv(g, s, p);
  }

  // ------------------------------------------------------- no duplication, no creation

  /** m was passed to reliableBroadcast at a node that q is downstream of. */
  ghost predicate FromOrigin(g: Graph, s: State, q: nat, m: Message) {
    exists o: nat :: o < |s.nodes| && m in s.nodes[o].origins && Downstream(g, Everyone(g), o, q)
  }

  ghost predicate NodeSourced(g: Graph, s: State, p: nat)
    requires p < |s.nodes|
  {
    var n := s.nodes[p];
    && (forall m :: m in Accepted(n) ==> FromOrigin(g, s, p, m))
    && (n.call.Relaying? && n.call.origin ==> n.call.msg in n.origins)
  }

  ghost predicate Sourced(g: Graph, s: State) {
    && (forall p :: 0 <= p < |s.nodes| ==> NodeSourced(g, s, p))
    && (forall pk :: pk in s.net ==> FromOrigin(g, s, pk.dst, pk.msg))
  }

  lemma {:induction false} PathExtend(g: Graph, via: Members, path: seq<nat>, q: nat)
    requires Path(g, via, path) && In(q, via) && path[|path| - 1] < |g| && q in g[path[|path| - 1]] && q < |g|
    ensures Path(g, via, path + [q])
  {
    if |path| > 1 {
      PathExtend(g, via, path[1..], q);
      assert (path + [q])[1..] == path[1..] + [q];
    } else {
      assert (path + [q])[1..] == [q];
    }
  }

  lemma {:induction false} DownstreamExtend(g: Graph, o: nat, p: nat, q: nat)
    requires ValidGraph(g) && p < |g| && q in g[p]
    requires o == p || Downstream(g, Everyone(g), o, p)
    ensures Downstream(g, Everyone(g), o, q)
  {
    var path := [p];
    if o != p {
      path :| |path| > 1 && path[0] == o && path[|path| - 1] == p && Path(g, Everyone(g), path);
    }
    PathExtend(g, Everyone(g), path, q);
    var longer := path + [q];
    assert longer[0] == o && longer[|longer| - 1] == q;
  }

  lemma {:induction false} InitSourced(g: Graph)
    ensures Sourced(g, Init(g))
  {
    forall p | 0 <= p < |g| ensures NodeSourced(g, Init(g), p) {
      assert Init(g).nodes[p] == FRESH;
    }
  }

  lemma {:induction false} StepKeepsFromOrigin(g: Graph, s: State, e: Step, q: nat, m: Message)
    requires Enabled(g, s, e) && FromOrigin(g, s, q, m)
    ensures FromOrigin(g, Apply(g, s, e), q, m)
  {
    var o: nat :| o < |s.nodes| && m in s.nodes[o].origins && Downstream(g, Everyone(g), o, q);
    assert m in Apply(g, s, e).nodes[o].origins;
  }

  lemma {:induction false} SendIsSourced(g: Graph, s: State, e: Step)
    requires ValidGraph(g) && Enabled(g, s, e) && e.SendNext? && NodeSourced(g, s, e.p)
    ensures FromOrigin(g, s, g[e.p][s.nodes[e.p].call.next], s.nodes[e.p].call.msg)
  {
    var Relaying(m, next, origin) := s.nodes[e.p].call;
    var o: nat := e.p;
    if !origin {
      assert FromOrigin(g, s, e.p, m);
      o :| 0 <= o < |s.nodes| && m in s.nodes[o].origins && Downstream(g, Everyone(g), o, e.p);
    }
    DownstreamExtend(g, o, e.p, g[e.p][next]);
  }

  lemma {:induction false} StepKeepsNodeSourced(g: Graph, s: State, e: Step, p: nat)
    requires Enabled(g, s, e) && p < |g| && NodeSourced(g, s, p)
    requires e.Receive? ==> FromOrigin(g, s, e.p, e.msg)
    ensures NodeSourced(g, Apply(g, s, e), p)
  {
    var t := Apply(g, s, e);
    forall m | m in Accepted(t.nodes[p]) ensures FromOrigin(g, t, p, m) {
      assert FromOrigin(g, s, p, m);
      StepKeepsFromOrigin(g, s, e, p, m);
    }
  }

  lemma {:induction false} StepKeepsSourced(g: Graph, s: State, e: Step)
    requires ValidGraph(g) && Enabled(g, s, e) && Sourced(g, s)
    ensures Sourced(g, Apply(g, s, e))
  {
    var t := Apply(g, s, e);
    forall p | 0 <= p < |t.nodes| ensures NodeSourced(g, t, p) {
      assert NodeSourced(g, s, p);
      StepKeepsNodeSourced(g, s, e, p);
    }
    forall pk | pk in t.net ensures FromOrigin(g, t, pk.dst, pk.msg) {
      if pk !in s.net {
        assert NodeSourced(g, s, e.p);
        SendIsSourced(g, s, e);
      }
      StepKeepsFromOrigin(g, s, e, pk.dst, pk.msg);
    }
  }

  lemma {:induction false} RunKeepsSourced(g: Graph, s: State, run: seq<Step>)
    requires ValidGraph(g) && ValidRun(g, s, run) && Sourced(g, s)
    ensures Sourced(g, After(g, s, run))
    decreases |run|
  {
    if run != [] {
      StepKeepsSourced(g, s, run[0]);
      RunKeepsSourced(g, Apply(g, s, run[0]), run[1..]);
    }
  }

  /** A receive returns true at most once per node and message. */
  lemma {:induction false} NoDuplication(g: Graph, s: State, p: nat, m: Message)
    requires ValidGraph(g) && Reachable(g, s) && p < |g|
    ensures s.nodes[p].returned[m] == (if m in s.nodes[p].marked then 1 else 0)
  {
    ReachableInv(g, s);
    assert LocalInv(g, s, p);
  }

  /** A receive returns true only for a message that was passed to reliableBroadcast at a
      node upstream. */
  lemma {:induction false} NoCreation(g: Graph, s: State, p: nat, m: Message)
    requires ValidGraph(g) && Reachable(g, s) && p < |g| && m in s.nodes[p].returned
    ensures FromOrigin(g, s, p, m)
  {
    NoDuplication(g, s, p, m);
    var run :| ValidRun(g, Init(g), run) && After(g, Init(g), run) == s;
    InitSourced(g);
    RunKeepsSourced(g, Init(g), run);
    assert NodeSourced(g, s, p);
  }

  // ------------------------------------------------------------------------- agreement

  lemma {:induction false} MarkedAcrossLink(g: Graph, s: State, p: nat, q: nat, m: Message)
    requires ValidGraph(g) && Inv(g, s) && Quiescent(s)
    requires p < |g| && q in g[p] && In(q, Live(s)) && m in s.nodes[p].rounds
    ensures m in s.nodes[q].marked && m in s.nodes[q].rounds
  {
    assert LocalInv(g, s, p) && LocalInv(g, s, q);
    var i :| 0 <= i < |g[p]| && g[p][i] == q;
    LoopsContain(p, g[p], s.nodes[p].rounds, m, i);
    assert Settled(s, Packet(p, q, m));
  }

  lemma {:induction false} MarkedAlongPath(g: Graph, s: State, path: seq<nat>, m: Message)
    requires ValidGraph(g) && Inv(g, s) && Quiescent(s)
    requires Path(g, Live(s), path) && |path| > 1 && m in s.nodes[path[0]].rounds
    ensures path[|path| - 1] < |g| && m in s.nodes[path[|path| - 1]].marked
  {
    MarkedAcrossLink(g, s, path[0], path[1], m);
    if |path| > 2 {
      MarkedAlongPath(g, s, path[1..], m);
    }
  }

  /** A completed send loop for m at p reaches every live node downstream of p. */
  lemma {:induction false} CompletedLoopReaches(g: Graph, s: State, p: nat, q: nat, m: Message)
    requires ValidGraph(g) && Reachable(g, s) && Quiescent(s)
    requires p < |g| && m in s.nodes[p].rounds && Downstream(g, Live(s), p, q)
    ensures q < |g| && s.nodes[q].returned[m] == 1
  {
    ReachableInv(g, s);
    var path :| |path| > 1 && path[0] == p && path[|path| - 1] == q && Path(g, Live(s), path);
    MarkedAlongPath(g, s, path, m);
    assert LocalInv(g, s, q);
  }

  /** Uniform agreement.  Whatever crashed and wherever: if any node, even one that is
      crashed by now, ever returned true for m, then at quiescence it did so once, and
      every node it reaches through live nodes has returned true for m exactly once. */
  lemma {:induction false} UniformAgreement(g: Graph, s: State, p: nat, m: Message)
    requires ValidGraph(g) && Reachable(g, s) && Quiescent(s)
    requires p < |g| && m in s.nodes[p].returned
    ensures s.nodes[p].returned[m] == 1
    ensures forall q: nat :: Downstream(g, Live(s), p, q) ==> q < |g| && s.nodes[q].returned[m] == 1
  {
    ReachableInv(g, s);
    assert LocalInv(g, s, p);
    forall q: nat | Downstream(g, Live(s), p, q) ensures q < |g| && s.nodes[q].returned[m] == 1 {
      CompletedLoopReaches(g, s, p, q, m);
    }
  }

  /** Validity.  A message broadcast by a node that stays alive is delivered exactly once
      at every node that it reaches through live nodes. */
  lemma {:induction false} Validity(g: Graph, s: State, o: nat, m: Message)
    requires ValidGraph(g) && Reachable(g, s) && Quiescent(s)
    requires In(o, Live(s)) && m in s.nodes[o].origins
    ensures forall q: nat :: Downstream(g, Live(s), o, q) ==> q < |g| && s.nodes[q].returned[m] == 1
  {
    ReachableInv(g, s);
    assert LocalInv(g, s, o);
    forall q: nat | Downstream(g, Live(s), o, q) ensures q < |g| && s.nodes[q].returned[m] == 1 {
      CompletedLoopReaches(g, s, o, q, m);
    }
  }

  /** Without crashes, the nodes that delivered m at quiescence are exactly those
      downstream of a node that broadcast it. */
  lemma {:induction false} CrashFreeDeliveryIsExact(g: Graph, s: State, q: nat, m: Message)
    requires ValidGraph(g) && Reachable(g, s) && Quiescent(s)
    requires q < |g| && forall p :: 0 <= p < |g| ==> s.nodes[p].alive
    ensures s.nodes[q].returned[m] == (if FromOrigin(g, s, q, m) then 1 else 0)
  {
    ReachableInv(g, s);
    NoDuplication(g, s, q, m);
    if m in s.nodes[q].returned {
      NoCreation(g, s, q, m);
    }
    if FromOrigin(g, s, q, m) {
      var o: nat :| o < |s.nodes| && m in s.nodes[o].origins && Downstream(g, Everyone(g), o, q);
      assert Live(s) == Everyone(g);
      Validity(g, s, o, m);
    }
  }

  // -------------------------------------------------------- one call without interference

  function Burst(p: nat, count: nat): seq<Step> {
    seq(count, _ => SendNext(p))
  }

  /** The copies that the next `count` sends of n make. */
  function Pending(p: nat, peers: seq<nat>, n: Node, count: nat): seq<Packet>
    requires n.call.Relaying? && n.call.next + count <= |peers|
  {
    Copies(p, peers[n.call.next..n.call.next + count], n.call.msg)
  }

  function Advanced(p: nat, peers: seq<nat>, n: Node, count: nat): Node
    requires n.call.Relaying? && n.call.next + count <= |peers|
  {
    n.(call := Relaying(n.call.msg, n.call.next + count, n.call.origin),
       log := n.log + Pending(p, peers, n, count))
  }

  lemma {:induction false} AdvanceOne(p: nat, peers: seq<nat>, n: Node, count: nat)
    requires NodeEnabled(peers, n, SendNext(p)) && count > 0 && n.call.next + count <= |peers|
    ensures var n1 := NodeStep(peers, n, SendNext(p));
            && Pending(p, peers, n, count) == [Packet(p, peers[n.call.next], n.call.msg)] + Pending(p, peers, n1, count - 1)
            && Advanced(p, peers, n1, count - 1) == Advanced(p, peers, n, count)
  {
    var n1 := NodeStep(peers, n, SendNext(p));
    var first, rest := [Packet(p, peers[n.call.next], n.call.msg)], Pending(p, peers, n1, count - 1);
    assert Pending(p, peers, n, count) == first + rest;
    assert n1.log + rest == n.log + (first + rest);
  }

  lemma {:induction false} UpdateTwice(nodes: seq<Node>, p: nat, a: Node, b: Node)
    requires p < |nodes|
    ensures nodes[p := a][p := b] == nodes[p := b]
  {
  }

  /** The state after `count` sends of p in a row. */
  function AfterBurst(g: Graph, s: State, p: nat, count: nat): State
    requires p < |g| == |s.nodes| && s.nodes[p].call.Relaying? && s.nodes[p].call.next + count <= |g[p]|
  {
    State(s.nodes[p := Advanced(p, g[p], s.nodes[p], count)],
          s.net + multiset(Pending(p, g[p], s.nodes[p], count)))
  }

  lemma {:induction false} BurstStep(g: Graph, s: State, p: nat, count: nat)
    requires Enabled(g, s, SendNext(p)) && count > 0 && s.nodes[p].call.next + count <= |g[p]|
    ensures AfterBurst(g, Apply(g, s, SendNext(p)), p, count - 1) == AfterBurst(g, s, p, count)
  {
    var n, s1 := s.nodes[p], Apply(g, s, SendNext(p));
    var n1 := s1.nodes[p];
    AdvanceOne(p, g[p], n, count);
    UpdateTwice(s.nodes, p, n1, Advanced(p, g[p], n, count));
    var first, rest := Packet(p, g[p][n.call.next], n.call.msg), Pending(p, g[p], n1, count - 1);
    assert multiset([first] + rest) == multiset{first} + multiset(rest);
  }

  /** `count` consecutive sends of p put exactly its next `count` copies into the channels. */
  lemma {:induction false} BurstRuns(g: Graph, s: State, p: nat, count: nat)
    requires |s.nodes| == |g| && p < |g| && s.nodes[p].alive && s.nodes[p].call.Relaying?
    requires s.nodes[p].call.next + count <= |g[p]|
    ensures ValidRun(g, s, Burst(p, count))
    ensures After(g, s, Burst(p, count)) == AfterBurst(g, s, p, count)
    decreases count
  {
    var n := s.nodes[p];
    if count == 0 {
      assert Burst(p, 0) == [];
      assert Pending(p, g[p], n, 0) == [];
      assert Advanced(p, g[p], n, 0) == n;
    } else {
      var s1, run := Apply(g, s, SendNext(p)), Burst(p, count);
      assert run[0] == SendNext(p) && run[1..] == Burst(p, count - 1);
      BurstRuns(g, s1, p, count - 1);
      BurstStep(g, s, p, count);
    }
  }

  lemma {:induction false} RunsCompose(g: Graph, s: State, r1: seq<Step>, r2: seq<Step>)
    requires ValidRun(g, s, r1) && ValidRun(g, After(g, s, r1), r2)
    ensures ValidRun(g, s, r1 + r2) && After(g, s, r1 + r2) == After(g, After(g, s, r1), r2)
    decreases |r1|
  {
    if r1 == [] {
      assert r1 + r2 == r2;
    } else {
      var e, s1, run := r1[0], Apply(g, s, r1[0]), r1 + r2;
      assert run[0] == e && run[1..] == r1[1..] + r2;
      assert After(g, s, r1) == After(g, s1, r1[1..]);
      RunsCompose(g, s1, r1[1..], r2);
      assert ValidRun(g, s, run);
      assert After(g, s, run) == After(g, s1, run[1..]);
    }
  }

  /** The steps of one undisturbed reliableBroadcastReceiveFrom of a new message. */
  function RelayCall(g: Graph, p: nat, src: nat, m: Message): seq<Step>
    requires p < |g|
  {
    [Receive(p, src, m)] + (Burst(p, |g[p]|) + [Return(p)])
  }

  /** The same call in one go: consume the copy, send one copy to each entry of the
      connection list, mark the message and return true. */
  function RelayAtOnce(g: Graph, s: State, p: nat, src: nat, m: Message): State
    requires p < |g| == |s.nodes|
  {
    var n, sent := s.nodes[p], Copies(p, g[p], m);
    State(s.nodes[p := n.(marked := n.marked + {m}, returned := n.returned + multiset{m},
                          rounds := n.rounds + [m], log := n.log + sent)],
          s.net - multiset{Packet(src, p, m)} + multiset(sent))
  }

  /** The fine-grained steps of an undisturbed call add up to the call in one go. */
  lemma {:induction false} RelayCallRefines(g: Graph, s: State, p: nat, src: nat, m: Message)
    requires Enabled(g, s, Receive(p, src, m)) && m !in s.nodes[p].marked
    ensures ValidRun(g, s, RelayCall(g, p, src, m))
    ensures After(g, s, RelayCall(g, p, src, m)) == RelayAtOnce(g, s, p, src, m)
  {
    var run, s1 := RelayCall(g, p, src, m), Apply(g, s, Receive(p, src, m));
    var burst := Burst(p, |g[p]|);
    assert run[0] == Receive(p, src, m) && run[1..] == burst + [Return(p)];
    BurstRuns(g, s1, p, |g[p]|);
    ReturnRuns(g, After(g, s1, burst), p);
    RunsCompose(g, s1, burst, [Return(p)]);
    RelayEnds(g, s, p, src, m);
  }

  lemma {:induction false} RelayEnds(g: Graph, s: State, p: nat, src: nat, m: Message)
    requires Enabled(g, s, Receive(p, src, m)) && m !in s.nodes[p].marked
    ensures var s2 := AfterBurst(g, Apply(g, s, Receive(p, src, m)), p, |g[p]|);
            Enabled(g, s2, Return(p)) && Apply(g, s2, Return(p)) == RelayAtOnce(g, s, p, src, m)
  {
    var n, n1 := s.nodes[p], NodeStep(g[p], s.nodes[p], Receive(p, src, m));
    var n2 := Advanced(p, g[p], n1, |g[p]|);
    assert g[p][0..|g[p]|] == g[p] && n2.log == n.log + Copies(p, g[p], m);
    UpdateTwice(s.nodes, p, n1, n2);
    UpdateTwice(s.nodes, p, n2, NodeStep(g[p], n2, Return(p)));
  }

  lemma {:induction false} ReturnRuns(g: Graph, s: State, p: nat)
    requires Enabled(g, s, Return(p))
    ensures ValidRun(g, s, [Return(p)]) && After(g, s, [Return(p)]) == Apply(g, s, Return(p))
  {
    assert [Return(p)][1..] == [];
  }
}
