/**
 The flooding reliable broadcast as a step system over an arbitrary finite graph.

 Node p's connection list is g[p].  A call of reliableBroadcast or of
 reliableBroadcastReceiveFrom is split at every send, so that other nodes may act, and
 p itself may crash, between any two sends.  A node runs one call at a time, because
 the connections it sends on are not safe to share between threads.
 */
module Flooding {
  import opened Common
  import opened Totals

  type Graph = seq<seq<nat>>

  predicate ValidGraph(g: Graph) {
    forall p, i :: 0 <= p < |g| && 0 <= i < |g[p]| ==> g[p][i] < |g|
  }

  datatype Packet = Packet(src: nat, dst: nat, msg: Message)

  /** Idle, or inside the send loop of bestEffortBroadcast with peers[..next] served. */
  datatype Call = Idle | Relaying(msg: Message, next: nat, origin: bool)

  /** The fields from `returned` on are history: they influence no step. */
  datatype Node = Node(
    alive: bool,
    call: Call,
    marked: set<Message>,        // markAsReceived was called
    returned: multiset<Message>, // receive calls that returned true
    origins: seq<Message>,       // messages handed to reliableBroadcast here
    rounds: seq<Message>,        // messages whose send loop ran to its end
    log: seq<Packet>             // every copy sent, in order
  )

  datatype State = State(nodes: seq<Node>, net: multiset<Packet>)

  datatype Step =
    | Broadcast(p: nat, msg: Message)          // reliableBroadcast is called
    | Receive(p: nat, src: nat, msg: Message)  // recv, then checkIfReceivedBefore
    | SendNext(p: nat)                         // one c.send of the loop completes
    | Return(p: nat)                           // the loop is over: mark and return
    | Crash(p: nat)                            // at any point, also inside the loop

  const FRESH := Node(true, Idle, {}, multiset{}, [], [], [])

  function Init(g: Graph): State {
    State(seq(|g|, _ => FRESH), multiset{})
  }

  predicate Enabled(g: Graph, s: State, e: Step) {
    && |s.nodes| == |g|
    && e.p < |g|
    && (e.Receive? ==> Packet(e.src, e.p, e.msg) in s.net)
    && NodeEnabled(g[e.p], s.nodes[e.p], e)
  }

  predicate NodeEnabled(peers: seq<nat>, n: Node, e: Step) {
    n.alive &&
    match e
    case Broadcast(_, _) => n.call.Idle?
    case Receive(_, _, _) => n.call.Idle?
    case SendNext(_) => n.call.Relaying? && n.call.next < |peers|
    case Return(_) => n.call.Relaying? && n.call.next == |peers|
    case Crash(_) => true
  }

  /** What a step does to the node that takes it. */
  function NodeStep(peers: seq<nat>, n: Node, e: Step): Node
    requires NodeEnabled(peers, n, e)
  {
    match e
    case Broadcast(_, m) => n.(call := Relaying(m, 0, true), origins := n.origins + [m])
    case Receive(_, _, m) => if m in n.marked then n else n.(call := Relaying(m, 0, false))
    case SendNext(p) =>
      var Relaying(m, next, origin) := n.call;
      n.(call := Relaying(m, next + 1, origin), log := n.log + [Packet(p, peers[next], m)])
    case Return(_) =>
      var Relaying(m, next, origin) := n.call;
      var finished := n.(call := Idle, rounds := n.rounds + [m]);
      if origin then finished
      else finished.(marked := n.marked + {m}, returned := n.returned + multiset{m})
    case Crash(_) => n.(alive := false)
  }

  /** What a step of node n does to the channels. */
  function NetStep(peers: seq<nat>, n: Node, net: multiset<Packet>, e: Step): multiset<Packet>
    requires NodeEnabled(peers, n, e)
  {
    match e
    case Receive(p, src, m) => net - multiset{Packet(src, p, m)}
    case SendNext(p) => net + multiset{Packet(p, peers[n.call.next], n.call.msg)}
    case _ => net
  }

  function Apply(g: Graph, s: State, e: Step): State
    requires Enabled(g, s, e)
  {
    var n := s.nodes[e.p];
    State(s.nodes[e.p := NodeStep(g[e.p], n, e)], NetStep(g[e.p], n, s.net, e))
  }

  ghost predicate ValidRun(g: Graph, s: State, run: seq<Step>)
    decreases |run|
  {
    run == [] || (Enabled(g, s, run[0]) && ValidRun(g, Apply(g, s, run[0]), run[1..]))
  }

  /** The state that a run from s ends in. */
  ghost function After(g: Graph, s: State, run: seq<Step>): State
    requires ValidRun(g, s, run)
    ensures |After(g, s, run).nodes| == |s.nodes|
    decreases |run|
  {
    if run == [] then s else After(g, Apply(g, s, run[0]), run[1..])
  }

  // ------------------------------------------------------------------ invariant

  /** Messages p has taken on as a receiver: marked, or being relayed before marking. */
  function Accepted(n: Node): set<Message> {
    if n.call.Relaying? && !n.call.origin then n.marked + {n.call.msg} else n.marked
  }

  function Copies(p: nat, peers: seq<nat>, m: Message): seq<Packet> {
    seq(|peers|, i requires 0 <= i < |peers| => Packet(p, peers[i], m))
  }

  /** The sends of complete loops over `peers`, one loop per message. */
  function Loops(p: nat, peers: seq<nat>, msgs: seq<Message>): seq<Packet> {
    if msgs == [] then []
    else Loops(p, peers, msgs[..|msgs| - 1]) + Copies(p, peers, msgs[|msgs| - 1])
  }

  ghost predicate LoopInv(p: nat, peers: seq<nat>, n: Node) {
    match n.call
    case Idle => n.log == Loops(p, peers, n.rounds)
    case Relaying(m, next, origin) =>
      && next <= |peers|
      && (!origin ==> m !in n.marked)
      && n.log == Loops(p, peers, n.rounds) + Copies(p, peers[..next], m)
  }

  ghost predicate HistoryInv(n: Node) {
    && n.returned == multiset(n.marked)
    && (forall m :: m in n.marked ==> m in n.rounds)
    && |n.rounds| + (if n.call.Relaying? then 1 else 0) == |n.origins| + |Accepted(n)|
    && (forall m :: m in n.origins ==> m in n.rounds || (n.call.Relaying? && n.call.origin && n.call.msg == m))
  }

  /** A copy that was sent is still in the channel, or was lost with the receiver, or
      the receiver has taken the message on. */
  predicate Settled(s: State, pk: Packet) {
    pk.dst < |s.nodes| &&
    (pk in s.net || !s.nodes[pk.dst].alive || pk.msg in Accepted(s.nodes[pk.dst]))
  }

  ghost predicate Begun(s: State, m: Message) {
    exists o :: 0 <= o < |s.nodes| && m in s.nodes[o].origins
  }

  ghost predicate KnownInv(s: State, n: Node) {
    && (forall pk :: pk in n.log ==> Begun(s, pk.msg))
    && (forall m :: m in Accepted(n) ==> Begun(s, m))
    && (n.call.Relaying? ==> Begun(s, n.call.msg))
  }

  ghost predicate LocalInv(g: Graph, s: State, p: nat)
    requires p < |s.nodes| == |g|
  {
    LoopInv(p, g[p], s.nodes[p]) && HistoryInv(s.nodes[p]) && KnownInv(s, s.nodes[p])
  }

  ghost predicate NodesInv(g: Graph, s: State) {
    |s.nodes| == |g| && forall p :: 0 <= p < |g| ==> LocalInv(g, s, p)
  }

  ghost predicate SettledInv(s: State) {
    forall p, pk :: 0 <= p < |s.nodes| && pk in s.nodes[p].log ==> Settled(s, pk)
  }

  ghost predicate NetInv(s: State) {
    forall pk :: pk in s.net ==> pk.src < |s.nodes| && pk in s.nodes[pk.src].log
  }

  ghost predicate Inv(g: Graph, s: State) {
    NodesInv(g, s) && SettledInv(s) && NetInv(s)
  }

  lemma {:induction false} CopiesExtend(p: nat, peers: seq<nat>, next: nat, m: Message)
    requires next < |peers|
    ensures Copies(p, peers[..next + 1], m) == Copies(p, peers[..next], m) + [Packet(p, peers[next], m)]
  {
  }

  lemma {:induction false} LoopsExtend(p: nat, peers: seq<nat>, msgs: seq<Message>, m: Message)
    ensures Loops(p, peers, msgs + [m]) == Loops(p, peers, msgs) + Copies(p, peers, m)
  {
    assert (msgs + [m])[..|msgs|] == msgs;
  }

  /** A complete loop over the peers contains a copy for each of them. */
  lemma {:induction false} LoopsContain(p: nat, peers: seq<nat>, msgs: seq<Message>, m: Message, i: nat)
    requires m in msgs && i < |peers|
    ensures Packet(p, peers[i], m) in Loops(p, peers, msgs)
  {
    var front, last := msgs[..|msgs| - 1], msgs[|msgs| - 1];
    if last == m {
      assert Copies(p, peers, m)[i] == Packet(p, peers[i], m);
    } else {
      assert msgs == front + [last];
      LoopsContain(p, peers, front, m, i);
    }
  }

  lemma {:induction false} LoopsLength(p: nat, peers: seq<nat>, msgs: seq<Message>)
    ensures |Loops(p, peers, msgs)| == |peers| * |msgs|
  {
    if msgs != [] {
      LoopsLength(p, peers, msgs[..|msgs| - 1]);
      assert |peers| * |msgs| == |peers| * (|msgs| - 1) + |peers|;
    }
  }

  /** Node-local parts of the invariant: only the acting node changes. */
  lemma {:induction false} NodeStepKeepsLoopInv(peers: seq<nat>, n: Node, e: Step)
    requires NodeEnabled(peers, n, e) && LoopInv(e.p, peers, n)
    ensures LoopInv(e.p, peers, NodeStep(peers, n, e))
  {
    match e
    case Broadcast(p, m) => assert Copies(p, peers[..0], m) == [];
    case Receive(p, _, m) => assert Copies(p, peers[..0], m) == [];
    case SendNext(p) => CopiesExtend(p, peers, n.call.next, n.call.msg);
    case Return(p) =>
      LoopsExtend(p, peers, n.rounds, n.call.msg);
      assert peers[..|peers|] == peers;
    case Crash(_) =>
  }

  lemma {:induction false} NodeStepKeepsHistoryInv(peers: seq<nat>, n: Node, e: Step)
    requires NodeEnabled(peers, n, e) && LoopInv(e.p, peers, n) && HistoryInv(n)
    ensures HistoryInv(NodeStep(peers, n, e))
  {
    var n' := NodeStep(peers, n, e);
    if e.Return? {
      assert n'.rounds == n.rounds + [n.call.msg];
      if !n.call.origin {
        assert multiset(n'.marked) == multiset(n.marked) + multiset{n.call.msg};
      }
    }
  }

  lemma {:induction false} StepKeepsBegun(g: Graph, s: State, e: Step, m: Message)
    requires Enabled(g, s, e) && Begun(s, m)
    ensures Begun(Apply(g, s, e), m)
  {
    var o :| 0 <= o < |s.nodes| && m in s.nodes[o].origins;
    assert m in Apply(g, s, e).nodes[o].origins;
  }

  lemma {:induction false} StepKeepsKnown(g: Graph, s: State, e: Step, q: nat)
    requires Enabled(g, s, e) && q < |g| && KnownInv(s, s.nodes[q])
    requires e.Receive? ==> Begun(s, e.msg)
    ensures KnownInv(Apply(g, s, e), Apply(g, s, e).nodes[q])
  {
    var t := Apply(g, s, e);
    forall m | Begun(s, m) ensures Begun(t, m) { StepKeepsBegun(g, s, e, m); }
    if e.Broadcast? {
      assert e.msg in t.nodes[e.p].origins;
    }
  }

  lemma {:induction false} StepKeepsNodesInv(g: Graph, s: State, e: Step)
    requires NodesInv(g, s) && NetInv(s) && Enabled(g, s, e)
    ensures NodesInv(g, Apply(g, s, e))
  {
    var t := Apply(g, s, e);
    assert LocalInv(g, s, e.p);
    NodeStepKeepsLoopInv(g[e.p], s.nodes[e.p], e);
    NodeStepKeepsHistoryInv(g[e.p], s.nodes[e.p], e);
    if e.Receive? {
      assert LocalInv(g, s, e.src) && Packet(e.src, e.p, e.msg) in s.nodes[e.src].log;
    }
    forall q | 0 <= q < |g| ensures LocalInv(g, t, q) {
      assert LocalInv(g, s, q);
      StepKeepsKnown(g, s, e, q);
    }
  }

  lemma {:induction false} StepKeepsSettled(g: Graph, s: State, e: Step, pk: Packet)
    requires Enabled(g, s, e) && Settled(s, pk) && LoopInv(e.p, g[e.p], s.nodes[e.p])
    ensures Settled(Apply(g, s, e), pk)
  {
    var t := Apply(g, s, e);
    assert pk.dst == e.p || t.nodes[pk.dst] == s.nodes[pk.dst];
  }

  lemma {:induction false} StepKeepsSettledInv(g: Graph, s: State, e: Step)
    requires ValidGraph(g) && NodesInv(g, s) && SettledInv(s) && Enabled(g, s, e)
    ensures SettledInv(Apply(g, s, e))
  {
    var t := Apply(g, s, e);
    assert LocalInv(g, s, e.p);
    forall q, pk | 0 <= q < |t.nodes| && pk in t.nodes[q].log ensures Settled(t, pk) {
      if pk in s.nodes[q].log {
        StepKeepsSettled(g, s, e, pk);
      } else {
        assert e.SendNext? && pk in t.net;
      }
    }
  }

  lemma {:induction false} StepKeepsNetInv(g: Graph, s: State, e: Step)
    requires NetInv(s) && Enabled(g, s, e)
    ensures NetInv(Apply(g, s, e))
  {
    var t := Apply(g, s, e);
    forall pk | pk in t.net ensures pk.src < |t.nodes| && pk in t.nodes[pk.src].log {
      if pk in s.net {
        assert pk in s.nodes[pk.src].log;
      }
    }
  }

  /** Every step keeps the invariant. */
  lemma {:induction false} StepKeepsInv(g: Graph, s: State, e: Step)
    requires ValidGraph(g) && Inv(g, s) && Enabled(g, s, e)
    ensures Inv(g, Apply(g, s, e))
  {
    StepKeepsNodesInv(g, s, e);
    StepKeepsSettledInv(g, s, e);
    StepKeepsNetInv(g, s, e);
  }

  /** The invariant holds after every run. */
  lemma {:induction false} RunKeepsInv(g: Graph, s: State, run: seq<Step>)
    requires ValidGraph(g) && Inv(g, s) && ValidRun(g, s, run)
    ensures Inv(g, After(g, s, run))
    decreases |run|
  {
    if run != [] {
      StepKeepsInv(g, s, run[0]);
      RunKeepsInv(g, Apply(g, s, run[0]), run[1..]);
    }
  }
}
