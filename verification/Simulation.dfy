/**
 Members over their Connections behave as the nodes of the step system.

 The members' connections lead to the peers of a graph.  An action is one whole call at one
 member, computed by the functions that the methods of Transmit and Relay are proved against,
 with any scripts of the provider.  A member whose send does not return is stopped; the copy
 of that send may still arrive.  Runs of such actions project to runs of module Flooding.
 */
module Simulation {
  import opened Common
  import Spec = Completions
  import Relay
  import opened Flooding
  import opened Agreement

  datatype System = System(groups: seq<Relay.Group>, crashed: seq<bool>, net: multiset<Packet>)

  /** `arrives`: whether the copy of a send that does not return arrives all the same. */
  datatype Action =
    | Originate(p: nat, m: Message, arrives: bool)            // reliableBroadcast
    | Incoming(p: nat, src: nat, m: Message, arrives: bool)   // reliableBroadcastReceiveFrom
    | Fail(p: nat)

  /** One connection for each entry of a member's list. */
  predicate Shaped(g: Graph, s: System) {
    && |s.groups| == |s.crashed| == |g|
    && forall p :: 0 <= p < |g| ==> |s.groups[p].txs| == |g[p]|
  }

  predicate Up(s: System, p: nat)
    requires p < |s.groups| == |s.crashed|
  {
    !s.crashed[p] && Relay.AllOn(s.groups[p].txs)
  }

  /** How many sends of the loop from connection i on have returned, counted from the first. */
  function Returned(txs: seq<Spec.Tx>, m: Message, i: nat): (r: nat)
    requires i <= |txs|
    ensures i <= r <= |txs|
    decreases |txs| - i
  {
    if i == |txs| then i
    else
      var t := Spec.Send(txs[i], m, 0);
      if t.status.Running? then Returned(txs[i := t], m, i + 1) else i
  }

  /** The number of copies that the loop puts into the channels. */
  function Sent(txs: seq<Spec.Tx>, m: Message, arrives: bool): (r: nat)
    ensures r <= |txs|
  {
    var n := Returned(txs, m, 0);
    if n < |txs| && arrives then n + 1 else n
  }

  predicate Can(g: Graph, s: System, a: Action) {
    && Shaped(g, s) && a.p < |g| && Up(s, a.p)
    && (a.Incoming? ==> Packet(a.src, a.p, a.m) in s.net)
  }

  function Act(g: Graph, s: System, a: Action): System
    requires Can(g, s, a)
  {
    match a
    case Originate(p, m, arrives) =>
      var txs := s.groups[p].txs;
      s.(groups := s.groups[p := s.groups[p].(txs := Relay.SendAll(txs, m, 0))],
         net := s.net + multiset(Copies(p, g[p][..Sent(txs, m, arrives)], m)))
    case Incoming(p, src, m, arrives) =>
      var net := s.net - multiset{Packet(src, p, m)};
      if m in s.groups[p].marked then s.(net := net)
      else s.(groups := s.groups[p := Relay.Receive(s.groups[p], m)],
              net := net + multiset(Copies(p, g[p][..Sent(s.groups[p].txs, m, arrives)], m)))
    case Fail(p) => s.(crashed := s.crashed[p := true])
  }

  ghost predicate ValidActions(g: Graph, s: System, actions: seq<Action>)
    decreases |actions|
  {
    actions == [] || (Can(g, s, actions[0]) && ValidActions(g, Act(g, s, actions[0]), actions[1..]))
  }

  ghost function ActAll(g: Graph, s: System, actions: seq<Action>): System
    requires ValidActions(g, s, actions)
    ensures Shaped(g, s) ==> Shaped(g, ActAll(g, s, actions))
    decreases |actions|
  {
    if actions == [] then s else ActAll(g, Act(g, s, actions[0]), actions[1..])
  }

  // --------------------------------------------------------------- what the copies stand for

  /** The loop goes through exactly if all sends return. */
  lemma {:induction false} ReturnedAllIff(txs: seq<Spec.Tx>, m: Message, i: nat)
    requires i <= |txs| && Relay.AllOn(txs)
    ensures Returned(txs, m, i) == |txs| <==> Relay.AllOn(Relay.SendAll(txs, m, i))
    decreases |txs| - i
  {
    if i < |txs| {
      var t := Spec.Send(txs[i], m, 0);
      if t.status.Running? {
        ReturnedAllIff(txs[i := t], m, i + 1);
      } else {
        assert !txs[i := t][i].status.Running?;
      }
    }
  }

  /** Each of the counted copies is a send of m that completed on its connection. */
  lemma {:induction false} CopiesWereSent(txs: seq<Spec.Tx>, m: Message, i: nat, k: nat)
    requires i <= |txs| && i <= k < Returned(txs, m, i) && Relay.AllOn(txs) && Relay.Ready(txs[k])
    ensures Relay.HandedOver(Relay.SendAll(txs, m, i)[k], m)
    decreases |txs| - i
  {
    var t := Spec.Send(txs[i], m, 0);
    if k == i {
      Relay.SendHandsOver(txs[i], m);
      Relay.SendAllEffect(txs[i := t], m, i + 1, k);
    } else {
      CopiesWereSent(txs[i := t], m, i + 1, k);
    }
  }

  /** The counted sends are exactly those that returned: the next one, if any, did not, and
      the later ones were not begun. */
  lemma {:induction false} CountedAreReturned(txs: seq<Spec.Tx>, m: Message, i: nat, k: nat)
    requires i <= |txs| && i <= k < |txs|
    ensures var t, n := Relay.SendAll(txs, m, i)[k], Returned(txs, m, i);
            && (k < n ==> t.status.Running? && t == Spec.Send(txs[k], m, 0))
            && (k == n ==> !t.status.Running? && t == Spec.Send(txs[k], m, 0))
            && (k > n ==> t == txs[k])
    decreases |txs| - i
  {
    var t := Spec.Send(txs[i], m, 0);
    if t.status.Running? {
      if k == i {
        BeforeStays(txs[i := t], m, i + 1, k);
      } else {
        CountedAreReturned(txs[i := t], m, i + 1, k);
      }
    }
  }

  lemma {:induction false} PrefixOn(txs: seq<Spec.Tx>, m: Message, k: nat)
    requires Relay.AllOn(txs) && k <= |txs|
    ensures Relay.AllOn(Relay.SendAll(txs, m, 0)[..k]) <==> k <= Returned(txs, m, 0)
  {
    var r, n := Relay.SendAll(txs, m, 0), Returned(txs, m, 0);
    forall j | 0 <= j < |txs| ensures r[j].status.Running? <==> j != n {
      CountedAreReturned(txs, m, 0, j);
    }
    if n < k {
      assert !r[..k][n].status.Running?;
    }
  }

  /** Which copies reach the channels: that of every send up to the first that does not
      return, and the copy of that one if it arrives all the same. */
  lemma {:induction false} CopyArrivesIff(txs: seq<Spec.Tx>, m: Message, arrives: bool, k: nat)
    requires Relay.AllOn(txs) && k < |txs|
    ensures var r := Relay.SendAll(txs, m, 0);
            k < Sent(txs, m, arrives) <==> Relay.AllOn(r[..k + 1]) || (arrives && Relay.AllOn(r[..k]))
  {
    PrefixOn(txs, m, k);
    PrefixOn(txs, m, k + 1);
  }

  lemma {:induction false} BeforeStays(txs: seq<Spec.Tx>, m: Message, i: nat, k: nat)
    requires k < i <= |txs|
    ensures Relay.SendAll(txs, m, i)[k] == txs[k]
    decreases |txs| - i
  {
    if i < |txs| {
      var t := Spec.Send(txs[i], m, 0);
      if t.status.Running? {
        BeforeStays(txs[i := t], m, i + 1, k);
      }
    }
  }

  // ------------------------------------------------------------------------ the projection

  /** The step system's state t stands for the members' state s. */
  ghost predicate StandsFor(g: Graph, t: State, s: System) {
    && Shaped(g, s) && |t.nodes| == |g| && t.net == s.net
    && forall p :: 0 <= p < |g| ==> NodeStandsFor(t.nodes[p], s, p)
  }

  predicate NodeStandsFor(n: Node, s: System, p: nat)
    requires p < |s.groups| == |s.crashed|
  {
    n.marked == s.groups[p].marked && n.alive == Up(s, p) && (n.alive ==> n.call.Idle?)
  }

  /** The end of a send loop with n copies: it is through, or the node stops. */
  function Loop(p: nat, n: nat, through: bool): seq<Step> {
    Burst(p, n) + [if through then Return(p) else Crash(p)]
  }

  /** The steps that one action stands for. */
  function Steps(g: Graph, s: System, a: Action): seq<Step>
    requires Can(g, s, a)
  {
    match a
    case Originate(p, m, arrives) =>
      var txs := s.groups[p].txs;
      [Broadcast(p, m)] + Loop(p, Sent(txs, m, arrives), Relay.AllOn(Relay.SendAll(txs, m, 0)))
    case Incoming(p, src, m, arrives) =>
      var txs := s.groups[p].txs;
      if m in s.groups[p].marked then [Receive(p, src, m)]
      else [Receive(p, src, m)] + Loop(p, Sent(txs, m, arrives), Relay.AllOn(Relay.SendAll(txs, m, 0)))
    case Fail(p) => [Crash(p)]
  }

  lemma {:induction false} OneStep(g: Graph, t: State, e: Step)
    requires Enabled(g, t, e)
    ensures ValidRun(g, t, [e]) && After(g, t, [e]) == Apply(g, t, e)
  {
    assert [e][1..] == [];
  }

  lemma {:induction false} Prepend(g: Graph, t: State, e: Step, rest: seq<Step>)
    requires Enabled(g, t, e) && ValidRun(g, Apply(g, t, e), rest)
    ensures ValidRun(g, t, [e] + rest) && After(g, t, [e] + rest) == After(g, Apply(g, t, e), rest)
  {
    assert ([e] + rest)[1..] == rest;
  }

  /** A loop in the step system: n copies, then the end of the call or of the node. */
  lemma {:induction false} LoopRuns(g: Graph, t: State, p: nat, m: Message, origin: bool, n: nat, through: bool)
    requires |t.nodes| == |g| && p < |g| && t.nodes[p].alive && t.nodes[p].call == Relaying(m, 0, origin)
    requires n <= |g[p]| && (through ==> n == |g[p]|)
    ensures ValidRun(g, t, Loop(p, n, through))
    ensures var u := After(g, t, Loop(p, n, through));
            && |u.nodes| == |g| && u.net == t.net + multiset(Copies(p, g[p][..n], m))
            && (forall q :: 0 <= q < |g| && q != p ==> u.nodes[q] == t.nodes[q])
            && u.nodes[p].alive == through && (through ==> u.nodes[p].call.Idle?)
            && u.nodes[p].marked == t.nodes[p].marked + if through && !origin then {m} else {}
  {
    var last := if through then Return(p) else Crash(p);
    BurstRuns(g, t, p, n);
    var b := AfterBurst(g, t, p, n);
    assert Pending(p, g[p], t.nodes[p], n) == Copies(p, g[p][..n], m);
    OneStep(g, b, last);
    RunsCompose(g, t, Burst(p, n), [last]);
  }

  lemma {:induction false} OriginateProjects(g: Graph, t: State, s: System, a: Action)
    requires StandsFor(g, t, s) && Can(g, s, a) && a.Originate?
    ensures ValidRun(g, t, Steps(g, s, a)) && StandsFor(g, After(g, t, Steps(g, s, a)), Act(g, s, a))
  {
    var txs := s.groups[a.p].txs;
    var through, n := Relay.AllOn(Relay.SendAll(txs, a.m, 0)), Sent(txs, a.m, a.arrives);
    assert NodeStandsFor(t.nodes[a.p], s, a.p);
    ReturnedAllIff(txs, a.m, 0);
    var e := Broadcast(a.p, a.m);
    LoopRuns(g, Apply(g, t, e), a.p, a.m, true, n, through);
    Prepend(g, t, e, Loop(a.p, n, through));
    OthersStandFor(g, t, After(g, t, Steps(g, s, a)), s, Act(g, s, a), a.p);
  }

  lemma {:induction false} SeenProjects(g: Graph, t: State, s: System, a: Action)
    requires StandsFor(g, t, s) && Can(g, s, a) && a.Incoming? && a.m in s.groups[a.p].marked
    ensures ValidRun(g, t, Steps(g, s, a)) && StandsFor(g, After(g, t, Steps(g, s, a)), Act(g, s, a))
  {
    assert NodeStandsFor(t.nodes[a.p], s, a.p);
    OneStep(g, t, Receive(a.p, a.src, a.m));
    OthersStandFor(g, t, After(g, t, Steps(g, s, a)), s, Act(g, s, a), a.p);
  }

  lemma {:induction false} NewProjects(g: Graph, t: State, s: System, a: Action)
    requires StandsFor(g, t, s) && Can(g, s, a) && a.Incoming? && a.m !in s.groups[a.p].marked
    ensures ValidRun(g, t, Steps(g, s, a)) && StandsFor(g, After(g, t, Steps(g, s, a)), Act(g, s, a))
  {
    var txs, e := s.groups[a.p].txs, Receive(a.p, a.src, a.m);
    var through, n := Relay.AllOn(Relay.SendAll(txs, a.m, 0)), Sent(txs, a.m, a.arrives);
    assert NodeStandsFor(t.nodes[a.p], s, a.p);
    ReturnedAllIff(txs, a.m, 0);
    LoopRuns(g, Apply(g, t, e), a.p, a.m, false, n, through);
    Prepend(g, t, e, Loop(a.p, n, through));
    OthersStandFor(g, t, After(g, t, Steps(g, s, a)), s, Act(g, s, a), a.p);
  }

  lemma {:induction false} FailProjects(g: Graph, t: State, s: System, a: Action)
    requires StandsFor(g, t, s) && Can(g, s, a) && a.Fail?
    ensures ValidRun(g, t, Steps(g, s, a)) && StandsFor(g, After(g, t, Steps(g, s, a)), Act(g, s, a))
  {
    assert NodeStandsFor(t.nodes[a.p], s, a.p);
    OneStep(g, t, Crash(a.p));
    OthersStandFor(g, t, After(g, t, Steps(g, s, a)), s, Act(g, s, a), a.p);
  }

  /** Only member p has changed. */
  lemma {:induction false} OthersStandFor(g: Graph, t: State, t': State, s: System, s': System, p: nat)
    requires StandsFor(g, t, s) && p < |g| && Shaped(g, s') && |t'.nodes| == |g| && t'.net == s'.net
    requires forall q :: 0 <= q < |g| && q != p ==>
               t'.nodes[q] == t.nodes[q] && s'.groups[q] == s.groups[q] && s'.crashed[q] == s.crashed[q]
    requires NodeStandsFor(t'.nodes[p], s', p)
    ensures StandsFor(g, t', s')
  {
    forall q | 0 <= q < |g| ensures NodeStandsFor(t'.nodes[q], s', q) {
      assert NodeStandsFor(t.nodes[q], s, q);
    }
  }

  /** One call at one member is a run of the step system. */
  lemma {:induction false} ActionProjects(g: Graph, t: State, s: System, a: Action)
    requires StandsFor(g, t, s) && Can(g, s, a)
    ensures ValidRun(g, t, Steps(g, s, a)) && StandsFor(g, After(g, t, Steps(g, s, a)), Act(g, s, a))
  {
    match a
    case Originate(_, _, _) => OriginateProjects(g, t, s, a);
    case Incoming(p, _, m, _) =>
      if m in s.groups[p].marked {
        SeenProjects(g, t, s, a);
      } else {
        NewProjects(g, t, s, a);
      }
    case Fail(_) => FailProjects(g, t, s, a);
  }

  /** A receive that goes through is the relay in one go. */
  lemma {:induction false} ReceiveIsRelayAtOnce(g: Graph, t: State, s: System, a: Action)
    requires StandsFor(g, t, s) && Can(g, s, a) && a.Incoming? && a.m !in s.groups[a.p].marked
    requires Up(Act(g, s, a), a.p)
    ensures StandsFor(g, RelayAtOnce(g, t, a.p, a.src, a.m), Act(g, s, a))
  {
    assert NodeStandsFor(t.nodes[a.p], s, a.p);
    ReturnedAllIff(s.groups[a.p].txs, a.m, 0);
    assert Steps(g, s, a) == RelayCall(g, a.p, a.src, a.m);
    RelayCallRefines(g, t, a.p, a.src, a.m);
    ActionProjects(g, t, s, a);
  }

  /** Every run of members over their connections projects to a run of the step system. */
  lemma {:induction false} RunProjects(g: Graph, t: State, s: System, actions: seq<Action>) returns (run: seq<Step>)
    requires StandsFor(g, t, s) && ValidActions(g, s, actions)
    ensures ValidRun(g, t, run) && StandsFor(g, After(g, t, run), ActAll(g, s, actions))
    decreases |actions|
  {
    if actions == [] {
      run := [];
    } else {
      var first, s1 := Steps(g, s, actions[0]), Act(g, s, actions[0]);
      ActionProjects(g, t, s, actions[0]);
      var rest := RunProjects(g, After(g, t, first), s1, actions[1..]);
      RunsCompose(g, t, first, rest);
      run := first + rest;
    }
  }

  // ------------------------------------------------------------------- agreement of members

  /** Members with usable connections, whatever the provider will do, and empty channels. */
  predicate Starts(g: Graph, s: System) {
    && Shaped(g, s) && s.net == multiset{}
    && forall p :: 0 <= p < |g| ==> s.groups[p].marked == {} && Up(s, p)
  }

  function Alive(s: System): seq<bool>
    requires |s.groups| == |s.crashed|
  {
    seq(|s.groups|, p requires 0 <= p < |s.groups| => Up(s, p))
  }

  /** No copy is in flight to a member that is up. */
  ghost predicate Quiet(s: System)
    requires |s.groups| == |s.crashed|
  {
    forall pk :: pk in s.net ==> !(pk.dst < |s.groups| && Up(s, pk.dst))
  }

  lemma {:induction false} InitStandsFor(g: Graph, s: System)
    requires Starts(g, s)
    ensures StandsFor(g, Init(g), s)
  {
    forall p | 0 <= p < |g| ensures NodeStandsFor(Init(g).nodes[p], s, p) {
      assert Init(g).nodes[p] == FRESH;
    }
  }

  lemma {:induction false} QuietIsQuiescent(g: Graph, t: State, s: System)
    requires StandsFor(g, t, s) && Quiet(s)
    ensures Quiescent(t) && Live(t) == Alive(s)
  {
    forall p | 0 <= p < |g| ensures t.nodes[p].alive == Up(s, p) && (t.nodes[p].alive ==> t.nodes[p].call.Idle?) {
      assert NodeStandsFor(t.nodes[p], s, p);
    }
  }

  /** Uniform agreement of the members themselves: whatever the provider did on any of their
      connections, and whoever stopped or crashed, when no copy is in flight to a member that
      is up, a message marked by any member has been marked by every member that it reaches
      through members that are up. */
  lemma {:induction false} MembersAgree(g: Graph, s0: System, actions: seq<Action>, p: nat, m: Message)
    requires ValidGraph(g) && Starts(g, s0) && ValidActions(g, s0, actions) && p < |g|
    requires Quiet(ActAll(g, s0, actions))
    requires m in ActAll(g, s0, actions).groups[p].marked
    ensures var s := ActAll(g, s0, actions);
            forall q: nat :: Downstream(g, Alive(s), p, q) ==> q < |g| && m in s.groups[q].marked
  {
    var s := ActAll(g, s0, actions);
    InitStandsFor(g, s0);
    var run := RunProjects(g, Init(g), s0, actions);
    var t := After(g, Init(g), run);
    QuietIsQuiescent(g, t, s);
    assert NodeStandsFor(t.nodes[p], s, p);
    NoDuplication(g, t, p, m);
    UniformAgreement(g, t, p, m);
    forall q: nat | Downstream(g, Alive(s), p, q) ensures q < |g| && m in s.groups[q].marked {
      NoDuplication(g, t, q, m);
      assert NodeStandsFor(t.nodes[q], s, q);
    }
  }
}
