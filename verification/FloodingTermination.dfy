/** The flooding broadcast stops: bounds on sends and steps, and absence of deadlock. */
module FloodingTermination {
  import opened Totals
  import opened Common
  import opened Flooding
  import opened Agreement

  /** The messages broadcast by a run. */
  function Messages(run: seq<Step>): set<Message> {
    set i | 0 <= i < |run| && run[i].Broadcast? :: run[i].msg
  }

  function Degrees(g: Graph): seq<nat> {
    seq(|g|, p requires 0 <= p < |g| => |g[p]|)
  }

  /** The number of copies each node has sent. */
  function Sends(s: State): seq<nat> {
    seq(|s.nodes|, p requires 0 <= p < |s.nodes| => |s.nodes[p].log|)
  }

  /** For each node, its degree times the number of broadcasts begun there. */
  function OriginLoad(g: Graph, s: State): seq<nat>
    requires |s.nodes| == |g|
  {
    seq(|g|, p requires 0 <= p < |g| => |g[p]| * |s.nodes[p].origins|)
  }

  // ------------------------------------------------------------------------ send bound

  /** Node by node: the copies sent and the copies still owed by the current loop make
      one full loop for each broadcast begun and each message taken on. */
  lemma {:induction false} SendsPerNode(g: Graph, s: State, p: nat)
    requires Inv(g, s) && p < |g|
    ensures var n := s.nodes[p];
            var owed := if n.call.Relaying? then |g[p]| - n.call.next else 0;
            |n.log| + owed == |g[p]| * (|n.origins| + |Accepted(n)|)
  {
    assert LocalInv(g, s, p);
    var n, d := s.nodes[p], |g[p]|;
    LoopsLength(p, g[p], n.rounds);
    if n.call.Relaying? {
      assert |n.log| + (d - n.call.next) == d * |n.rounds| + d;
      assert d * (|n.rounds| + 1) == d * |n.rounds| + d;
    }
  }

  lemma {:induction false} SubsetSize<T>(a: set<T>, b: set<T>)
    requires a <= b
    ensures |a| <= |b|
  {
    assert b == a + (b - a);
  }

  ghost predicate AllIn(s: State, all: set<Message>) {
    forall o, i :: 0 <= o < |s.nodes| && 0 <= i < |s.nodes[o].origins| ==> s.nodes[o].origins[i] in all
  }

  lemma {:induction false} AcceptedBounded(g: Graph, s: State, p: nat, all: set<Message>)
    requires Inv(g, s) && p < |g| && AllIn(s, all)
    ensures Accepted(s.nodes[p]) <= all
  {
    assert LocalInv(g, s, p);
    forall m | m in Accepted(s.nodes[p]) ensures m in all {
      assert Begun(s, m);
    }
  }

  lemma {:induction false} RunKeepsAllIn(g: Graph, s: State, run: seq<Step>, all: set<Message>)
    requires ValidRun(g, s, run) && AllIn(s, all) && Messages(run) <= all
    ensures AllIn(After(g, s, run), all)
    decreases |run|
  {
    if run != [] {
      assert run[0].Broadcast? ==> run[0].msg in Messages(run);
      forall m | m in Messages(run[1..]) ensures m in all {
        var i :| 0 <= i < |run[1..]| && run[1..][i].Broadcast? && run[1..][i].msg == m;
        assert run[i + 1].msg in Messages(run);
      }
      RunKeepsAllIn(g, Apply(g, s, run[0]), run[1..], all);
    }
  }

  lemma {:induction false} NodeSendsBounded(g: Graph, s: State, p: nat, all: set<Message>)
    requires Inv(g, s) && AllIn(s, all) && p < |g|
    ensures |s.nodes[p].log| <= |g[p]| * |s.nodes[p].origins| + |g[p]| * |all|
  {
    var n, d := s.nodes[p], |g[p]|;
    SendsPerNode(g, s, p);
    AcceptedBounded(g, s, p, all);
    SubsetSize(Accepted(n), all);
    MulMonotone(d, |Accepted(n)|, |all|);
    Distribute(d, |n.origins|, |Accepted(n)|);
    assert LocalInv(g, s, p);
  }

  lemma {:induction false} SendsBoundedBy(g: Graph, s: State, all: set<Message>)
    requires Inv(g, s) && AllIn(s, all)
    ensures Total(Sends(s)) <= Total(OriginLoad(g, s)) + Total(Degrees(g)) * |all|
  {
    var relays: seq<nat> := seq(|g|, p requires 0 <= p < |g| => |g[p]| * |all|);
    forall p | 0 <= p < |g| ensures Sends(s)[p] <= OriginLoad(g, s)[p] + relays[p] {
      NodeSendsBounded(g, s, p, all);
    }
    TotalBound(Sends(s), OriginLoad(g, s), relays);
    TotalScale(Degrees(g), relays, |all|);
  }

  lemma {:induction false} Distribute(a: nat, b: nat, c: nat)
    ensures a * (b + c) == a * b + a * c
  {
  }

  lemma {:induction false} MulMonotone(a: nat, b: nat, c: nat)
    requires b <= c
    ensures a * b <= a * c
  {
  }

  /** Every run sends at most the sum of the origins' degrees over all broadcasts, plus
      the sum of deg(n) over all pairs of a node n and a distinct message. */
  lemma {:induction false} FloodingSendBound(g: Graph, run: seq<Step>)
    requires ValidGraph(g) && ValidRun(g, Init(g), run)
    ensures var s := After(g, Init(g), run);
            Total(Sends(s)) <= Total(OriginLoad(g, s)) + Total(Degrees(g)) * |Messages(run)|
  {
    InitInv(g);
    RunKeepsInv(g, Init(g), run);
    RunKeepsAllIn(g, Init(g), run, Messages(run));
    SendsBoundedBy(g, After(g, Init(g), run), Messages(run));
  }

  // ------------------------------------------------------------------------ step bound

  /** The steps a node may still cause: a full relay for each message of `all` it has not
      taken on, and what is left of its current call. */
  function NodeRank(degree: nat, n: Node, all: set<Message>): nat {
    (2 * degree + 1) * |all - Accepted(n)| +
    if !n.alive then 0
    else if n.call.Relaying? && n.call.next <= degree then 2 * (degree - n.call.next) + 2
    else 1
  }

  function Ranks(g: Graph, s: State, all: set<Message>): seq<nat>
    requires |s.nodes| == |g|
  {
    seq(|g|, p requires 0 <= p < |g| => NodeRank(|g[p]|, s.nodes[p], all))
  }

  function Rank(g: Graph, s: State, all: set<Message>): nat
    requires |s.nodes| == |g|
  {
    Total(Ranks(g, s, all)) + |s.net|
  }

  /** What a broadcast step adds to the rank. */
  function Raise(g: Graph, e: Step): nat {
    if e.Broadcast? && e.p < |g| then 2 * |g[e.p]| + 1 else 0
  }

  lemma {:induction false} RemoveOne(all: set<Message>, a: set<Message>, m: Message)
    requires m in all && m !in a
    ensures |all - (a + {m})| == |all - a| - 1
  {
    assert all - (a + {m}) == (all - a) - {m};
  }

  lemma {:induction false} NodeRankStep(peers: seq<nat>, n: Node, e: Step, all: set<Message>)
    requires NodeEnabled(peers, n, e) && LoopInv(e.p, peers, n)
    requires e.Receive? ==> e.msg in all
    ensures var before, after := NodeRank(|peers|, n, all), NodeRank(|peers|, NodeStep(peers, n, e), all);
            match e
            case Broadcast(_, _) => after == before + 2 * |peers| + 1
            case Receive(_, _, _) => after == before
            case SendNext(_) => after == before - 2
            case Return(_) => after == before - 1
            case Crash(_) => after < before
  {
    var n', w := NodeStep(peers, n, e), 2 * |peers| + 1;
    if e.Receive? && e.msg !in n.marked {
      RemoveOne(all, n.marked, e.msg);
      var k := |all - n.marked|;
      assert w * (k - 1) == w * k - w;
    } else {
      assert Accepted(n') == Accepted(n);
    }
  }

  /** A message in a channel was broadcast. */
  lemma {:induction false} ReceivedWasBroadcast(g: Graph, s: State, e: Step, all: set<Message>)
    requires Inv(g, s) && Enabled(g, s, e) && AllIn(s, all) && e.Receive?
    ensures e.msg in all
  {
    assert LocalInv(g, s, e.src) && Packet(e.src, e.p, e.msg) in s.nodes[e.src].log;
    assert Begun(s, e.msg);
  }

  lemma {:induction false} RankStep(g: Graph, s: State, e: Step, all: set<Message>)
    requires Inv(g, s) && Enabled(g, s, e) && AllIn(s, all)
    ensures Rank(g, Apply(g, s, e), all) < Rank(g, s, all) + Raise(g, e) + (if e.Broadcast? then 1 else 0)
  {
    var t := Apply(g, s, e);
    if e.Receive? {
      ReceivedWasBroadcast(g, s, e, all);
    }
    assert LoopInv(e.p, g[e.p], s.nodes[e.p]) by {
      assert LocalInv(g, s, e.p);
    }
    NodeRankStep(g[e.p], s.nodes[e.p], e, all);
    assert t.nodes[e.p] == NodeStep(g[e.p], s.nodes[e.p], e);
    TotalUpdate(Ranks(g, s, all), Ranks(g, t, all), e.p);
  }

  function Raises(g: Graph, run: seq<Step>): nat {
    if run == [] then 0
    else Raise(g, run[0]) + (if run[0].Broadcast? then 1 else 0) + Raises(g, run[1..])
  }

  lemma {:induction false} RunLength(g: Graph, s: State, run: seq<Step>, all: set<Message>)
    requires ValidGraph(g) && Inv(g, s) && ValidRun(g, s, run) && AllIn(s, all) && Messages(run) <= all
    ensures |run| + Rank(g, After(g, s, run), all) <= Rank(g, s, all) + Raises(g, run)
    decreases |run|
  {
    if run != [] {
      var s1, rest := Apply(g, s, run[0]), run[1..];
      StepKeepsInv(g, s, run[0]);
      RankStep(g, s, run[0], all);
      assert run[0].Broadcast? ==> run[0].msg in Messages(run);
      StepKeepsAllIn(g, s, run[0], all);
      forall m | m in Messages(rest) ensures m in all {
        var i :| 0 <= i < |rest| && rest[i].Broadcast? && rest[i].msg == m;
        assert run[i + 1].msg in Messages(run);
      }
      RunLength(g, s1, rest, all);
    }
  }

  lemma {:induction false} InitRank(g: Graph, all: set<Message>)
    ensures Rank(g, Init(g), all) == |g| + (2 * Total(Degrees(g)) + |g|) * |all|
  {
    var ones: seq<nat> := seq(|g|, _ => 1);
    RankTotals(Degrees(g), Ranks(g, Init(g), all), |all|);
    forall p | 0 <= p < |g| ensures Ranks(g, Init(g), all)[p] == (2 * |g[p]| + 1) * |all| + 1 {
      assert Init(g).nodes[p] == FRESH;
      assert all - Accepted(FRESH) == all;
    }
  }

  lemma {:induction false} RankArithmetic(d: nat, r: nat, n: nat, k: nat)
    ensures (2 * d + 1) * k + (2 * r + n) * k == (2 * (d + r) + (n + 1)) * k
  {
    Distribute(k, 2 * d + 1, 2 * r + n);
  }

  lemma {:induction false} RankTotals(ds: seq<nat>, rs: seq<nat>, k: nat)
    requires |ds| == |rs| && forall p :: 0 <= p < |ds| ==> rs[p] == (2 * ds[p] + 1) * k + 1
    ensures Total(rs) == |ds| + (2 * Total(ds) + |ds|) * k
  {
    if ds != [] {
      RankTotals(ds[1..], rs[1..], k);
      var d, r, n := ds[0], Total(ds[1..]), |ds| - 1;
      RankArithmetic(d, r, n, k);
    }
  }

  /** Flooding terminates.  The length of every run is bounded by the graph, the number of
      distinct messages, and the degrees of the nodes that broadcast. */
  lemma {:induction false} FloodingTerminates(g: Graph, run: seq<Step>)
    requires ValidGraph(g) && ValidRun(g, Init(g), run)
    ensures |run| <= |g| + (2 * Total(Degrees(g)) + |g|) * |Messages(run)| + Raises(g, run)
  {
    InitInv(g);
    RunLength(g, Init(g), run, Messages(run));
    InitRank(g, Messages(run));
  }

  // -------------------------------------------------------------------------- progress

  /** The peer that p sends to next has not crashed. */
  predicate PeerAlive(g: Graph, s: State, p: nat)
    requires p < |g| == |s.nodes| && s.nodes[p].call.Relaying? && s.nodes[p].call.next < |g[p]|
  {
    var q := g[p][s.nodes[p].call.next];
    q < |s.nodes| && s.nodes[q].alive
  }

  /** A send to a peer that has crashed does not return: its completion fails, which ends the
      sender, or the sender waits for ever.  So nodes send only to live peers, and a node
      stops when, and only when, its next peer has crashed.  Nothing is broadcast. */
  predicate CarriesOn(g: Graph, s: State, e: Step)
    requires Enabled(g, s, e)
  {
    match e
    case Broadcast(_, _) => false
    case Receive(_, _, _) => true
    case SendNext(p) => PeerAlive(g, s, p)
    case Return(_) => true
    case Crash(p) => s.nodes[p].call.Relaying? && s.nodes[p].call.next < |g[p]| && !PeerAlive(g, s, p)
  }

  ghost predicate CarryOnRun(g: Graph, s: State, run: seq<Step>)
    decreases |run|
  {
    run == [] || (Enabled(g, s, run[0]) && CarriesOn(g, s, run[0]) && CarryOnRun(g, Apply(g, s, run[0]), run[1..]))
  }

  lemma {:induction false} CarryOnIsValid(g: Graph, s: State, run: seq<Step>)
    requires CarryOnRun(g, s, run)
    ensures ValidRun(g, s, run)
    decreases |run|
  {
    if run != [] {
      CarryOnIsValid(g, Apply(g, s, run[0]), run[1..]);
    }
  }

  /** In a state that is not quiescent, some live node can receive, send to a live peer,
      return, or must stop because its next peer has crashed. */
  lemma {:induction false} Progress(g: Graph, s: State) returns (e: Step)
    requires Inv(g, s) && !Quiescent(s)
    ensures Enabled(g, s, e) && CarriesOn(g, s, e)
  {
    if p: nat :| p < |g| && s.nodes[p].alive && s.nodes[p].call.Relaying? {
      assert LocalInv(g, s, p);
      if s.nodes[p].call.next == |g[p]| {
        e := Return(p);
      } else {
        e := if PeerAlive(g, s, p) then SendNext(p) else Crash(p);
      }
    } else {
      var pk :| pk in s.net && pk.dst < |g| && s.nodes[pk.dst].alive;
      e := Receive(pk.dst, pk.src, pk.msg);
    }
  }

  lemma {:induction false} StepKeepsAllIn(g: Graph, s: State, e: Step, all: set<Message>)
    requires Enabled(g, s, e) && AllIn(s, all) && (e.Broadcast? ==> e.msg in all)
    ensures AllIn(Apply(g, s, e), all)
  {
  }

  lemma {:induction false} PrependStep(g: Graph, s: State, e: Step, rest: seq<Step>)
    requires Enabled(g, s, e) && CarriesOn(g, s, e) && CarryOnRun(g, Apply(g, s, e), rest)
    ensures CarryOnRun(g, s, [e] + rest) && ValidRun(g, s, [e] + rest) && ValidRun(g, Apply(g, s, e), rest)
    ensures After(g, s, [e] + rest) == After(g, Apply(g, s, e), rest)
  {
    assert ([e] + rest)[1..] == rest;
    CarryOnIsValid(g, s, [e] + rest);
    CarryOnIsValid(g, Apply(g, s, e), rest);
  }

  lemma {:induction false} DrainStep(g: Graph, s: State, e: Step, all: set<Message>)
    requires ValidGraph(g) && Inv(g, s) && AllIn(s, all) && Enabled(g, s, e) && !e.Broadcast?
    ensures var t := Apply(g, s, e); Inv(g, t) && AllIn(t, all) && Rank(g, t, all) < Rank(g, s, all)
  {
    StepKeepsInv(g, s, e);
    StepKeepsAllIn(g, s, e, all);
    RankStep(g, s, e, all);
  }

  /** From every state of the protocol, the live nodes can carry on to quiescence. */
  lemma {:induction false} Drain(g: Graph, s: State, all: set<Message>) returns (run: seq<Step>)
    requires ValidGraph(g) && Inv(g, s) && AllIn(s, all)
    ensures CarryOnRun(g, s, run) && ValidRun(g, s, run) && Quiescent(After(g, s, run))
    decreases Rank(g, s, all)
  {
    if Quiescent(s) {
      run := [];
    } else {
      var e := Progress(g, s);
      DrainStep(g, s, e, all);
      var rest := Drain(g, Apply(g, s, e), all);
      run := [e] + rest;
      PrependStep(g, s, e, rest);
    }
  }

  /** Every run can be continued to a quiescent state, without broadcasts, without sends to
      crashed peers, and with no node stopping but those whose next peer has crashed. */
  lemma {:induction false} RunReachesQuiescence(g: Graph, run: seq<Step>) returns (rest: seq<Step>)
    requires ValidGraph(g) && ValidRun(g, Init(g), run)
    ensures CarryOnRun(g, After(g, Init(g), run), rest)
    ensures ValidRun(g, Init(g), run + rest) && Quiescent(After(g, Init(g), run + rest))
  {
    var s := After(g, Init(g), run);
    InitInv(g);
    RunKeepsInv(g, Init(g), run);
    RunKeepsAllIn(g, Init(g), run, Messages(run));
    rest := Drain(g, s, Messages(run));
    RunsCompose(g, Init(g), run, rest);
  }
}
