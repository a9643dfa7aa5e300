/**
 bestEffortBroadcast and reliableBroadcastReceiveFrom over Connection objects.

 One iteration of the send loop is one SendNext step of module Flooding: it puts a copy
 into the peer's channel and returns.  A send that does not return is the crash, or the
 endless wait, of the node inside its loop.
 */
module Relay {
  import opened Common
  import opened CompletionQueue
  import opened Spec = Completions
  import opened Transmit

  // ---------------------------------------------------------------------- on the values

  /** The connections of a member and the messages it has marked. */
  datatype Group = Group(txs: seq<Tx>, marked: set<Message>)

  predicate AllOn(txs: seq<Tx>) {
    forall i :: 0 <= i < |txs| ==> txs[i].status.Running?
  }

  /** The send loop from connection i on; it ends inside the first send that does not return. */
  function SendAll(txs: seq<Tx>, m: Message, i: nat): (r: seq<Tx>)
    requires i <= |txs|
    ensures |r| == |txs|
    decreases |txs| - i
  {
    if i == |txs| then txs
    else
      var t := Spec.Send(txs[i], m, 0);
      if t.status.Running? then SendAll(txs[i := t], m, i + 1) else txs[i := t]
  }

  /** reliableBroadcastReceiveFrom after its recv. */
  function Receive(g: Group, m: Message): Group {
    if m in g.marked then g
    else
      var txs := SendAll(g.txs, m, 0);
      Group(txs, if AllOn(txs) then g.marked + {m} else g.marked)
  }

  /** A receive, or any other call of the application on one of the connections. */
  datatype Event = Incoming(m: Message) | Use(i: nat, c: Call)

  function Happen(g: Group, e: Event): Group {
    match e
    case Incoming(m) => Receive(g, m)
    case Use(i, c) => if i < |g.txs| then g.(txs := g.txs[i := Do(g.txs[i], c)]) else g
  }

  function HappenAll(g: Group, events: seq<Event>): Group
    decreases |events|
  {
    if events == [] then g else HappenAll(Happen(g, events[0]), events[1..])
  }

  function Uses(i: nat, calls: seq<Call>): seq<Event> {
    seq(|calls|, k requires 0 <= k < |calls| => Use(i, calls[k]))
  }

  /** The application's calls on one connection are those of module Completions, and change
      nothing else. */
  lemma {:induction false} UsesAreCalls(g: Group, i: nat, calls: seq<Call>)
    requires i < |g.txs|
    ensures HappenAll(g, Uses(i, calls)) == g.(txs := g.txs[i := DoAll(g.txs[i], calls)])
    decreases |calls|
  {
    if calls != [] {
      assert Uses(i, calls)[1..] == Uses(i, calls[1..]);
      UsesAreCalls(Happen(g, Use(i, calls[0])), i, calls[1..]);
    }
  }

  /** The bookkeeping of the connection is consistent and its counter has room. */
  ghost predicate Ready(t: Tx) {
    Spec.Inv(t) && Owed(t) + 1 < UINT64
  }

  /** A send of m completed. */
  ghost predicate Sent(q: Queue<Op>, m: Message) {
    exists id :: id in q.delivered && id < |q.ops| && q.ops[id] == Op(SendOp, m)
  }

  lemma {:induction false} SentStays(q: Queue<Op>, later: Queue<Op>, m: Message)
    requires Continues(q, later) && Sent(q, m)
    ensures Sent(later, m)
  {
    var id :| id in q.delivered && id < |q.ops| && q.ops[id] == Op(SendOp, m);
    assert later.ops[..|q.ops|][id] == later.ops[id];
  }

  /** The last operation posted is the send of m, it completed, nothing is owed, and the
      counter is back at 0. */
  ghost predicate HandedOver(t: Tx, m: Message) {
    var q := t.queue;
    && Spec.Inv(t) && t.msgSends == 0 && Owed(t) == 0 && q.outstanding == {} && |q.ops| > 0
    && q.ops[|q.ops| - 1] == Op(SendOp, m) && |q.ops| - 1 in q.delivered
  }

  lemma {:induction false} SendHandsOver(t: Tx, m: Message)
    requires Ready(t) && t.status.Running? && Spec.Send(t, m, 0).status.Running?
    ensures HandedOver(Spec.Send(t, m, 0), m) && Sent(Spec.Send(t, m, 0).queue, m)
  {
    SendReturned(t, m, 0);
    CallKeepsInv(t, CallSend(m, 0));
  }

  lemma {:induction false} SendAllStep(txs: seq<Tx>, m: Message, i: nat)
    requires i < |txs|
    ensures var t := Spec.Send(txs[i], m, 0);
            SendAll(txs, m, i) == if t.status.Running? then SendAll(txs[i := t], m, i + 1) else txs[i := t]
  {
  }

  /** The whole loop: consistent connections stay so, nothing delivered is lost, at most one
      more is owed, and if every send returned, every connection has m handed over. */
  lemma {:induction false} SendAllEffect(txs: seq<Tx>, m: Message, i: nat, k: nat)
    requires i <= |txs| && k < |txs| && Spec.Inv(txs[k])
    ensures var t := SendAll(txs, m, i)[k];
            && Spec.Inv(t) && Continues(txs[k].queue, t.queue) && Owed(t) <= Owed(txs[k]) + 1
            && (k < i ==> t == txs[k])
            && (i <= k && Ready(txs[k]) && AllOn(SendAll(txs, m, i)) ==> HandedOver(t, m) && Sent(t.queue, m))
    decreases |txs| - i
  {
    if i < |txs| {
      var t := Spec.Send(txs[i], m, 0);
      var txs1 := txs[i := t];
      if k == i {
        CallKeepsInv(txs[i], CallSend(m, 0));
        CallContinues(txs[i], CallSend(m, 0));
        CallOwes(txs[i], CallSend(m, 0));
        if txs[i].status.Running? && t.status.Running? && Ready(txs[i]) {
          SendHandsOver(txs[i], m);
        }
        if !t.status.Running? {
          assert !SendAll(txs, m, i)[i].status.Running?;
        }
      }
      if t.status.Running? {
        SendAllEffect(txs1, m, i + 1, k);
      } else {
        assert SendAll(txs, m, i) == txs1 && !txs1[i].status.Running?;
      }
    }
  }

  /** Every connection is consistent and owes at most `owed`; every marked message has been
      delivered on every connection. */
  ghost predicate GroupInv(g: Group, owed: nat) {
    && (forall i :: 0 <= i < |g.txs| ==> Spec.Inv(g.txs[i]) && Owed(g.txs[i]) <= owed)
    && (forall m, i :: m in g.marked && 0 <= i < |g.txs| ==> Sent(g.txs[i].queue, m))
  }

  lemma {:induction false} ReceiveKeepsInv(g: Group, m: Message, owed: nat)
    requires GroupInv(g, owed) && owed + 1 < UINT64
    ensures GroupInv(Receive(g, m), owed + 1)
  {
    if m !in g.marked {
      var txs := SendAll(g.txs, m, 0);
      forall i | 0 <= i < |txs|
        ensures Spec.Inv(txs[i]) && Owed(txs[i]) <= owed + 1 && Continues(g.txs[i].queue, txs[i].queue)
        ensures AllOn(txs) ==> Sent(txs[i].queue, m)
      {
        SendAllEffect(g.txs, m, 0, i);
      }
      forall k, i | k in g.marked && 0 <= i < |txs| ensures Sent(txs[i].queue, k) {
        SentStays(g.txs[i].queue, txs[i].queue, k);
      }
    }
  }

  /** A receive all of whose sends returned. */
  lemma {:induction false} ReceiveDelivers(g: Group, m: Message, owed: nat)
    requires GroupInv(g, owed) && owed + 1 < UINT64
    requires m !in g.marked && AllOn(SendAll(g.txs, m, 0))
    ensures forall i :: 0 <= i < |g.txs| ==> HandedOver(Receive(g, m).txs[i], m)
    ensures GroupInv(Receive(g, m), 0)
  {
    forall i | 0 <= i < |g.txs| ensures HandedOver(Receive(g, m).txs[i], m) {
      SendAllEffect(g.txs, m, 0, i);
    }
    ReceiveKeepsInv(g, m, owed);
  }

  lemma {:induction false} UseKeepsInv(g: Group, i: nat, c: Call, owed: nat)
    requires GroupInv(g, owed)
    ensures GroupInv(Happen(g, Use(i, c)), owed + 1)
  {
    if i < |g.txs| {
      var t := Do(g.txs[i], c);
      CallKeepsInv(g.txs[i], c);
      CallContinues(g.txs[i], c);
      CallOwes(g.txs[i], c);
      forall k | k in g.marked ensures Sent(t.queue, k) {
        SentStays(g.txs[i].queue, t.queue, k);
      }
    }
  }

  lemma {:induction false} EventsKeepInv(g: Group, events: seq<Event>, owed: nat)
    requires GroupInv(g, owed) && owed + |events| < UINT64
    ensures GroupInv(HappenAll(g, events), owed + |events|)
    decreases |events|
  {
    if events != [] {
      match events[0] {
        case Incoming(m) => ReceiveKeepsInv(g, m, owed);
        case Use(i, c) => UseKeepsInv(g, i, c, owed);
      }
      EventsKeepInv(Happen(g, events[0]), events[1..], owed + 1);
    }
  }

  /** Relay before deliver, composed with the accounting: after any sequence of receives and
      other calls, too short to wrap a 64-bit counter, a send of every marked message has
      completed on every connection of the list. */
  lemma {:induction false} MarkedIsSentEverywhere(txs: seq<Tx>, events: seq<Event>, m: Message, i: nat)
    requires forall k :: 0 <= k < |txs| ==> Spec.Inv(txs[k]) && Owed(txs[k]) == 0
    requires |events| < UINT64
    requires m in HappenAll(Group(txs, {}), events).marked && i < |HappenAll(Group(txs, {}), events).txs|
    ensures Sent(HappenAll(Group(txs, {}), events).txs[i].queue, m)
  {
    EventsKeepInv(Group(txs, {}), events, 0);
  }

  // --------------------------------------------------------------------- on the objects

  /** Stopped(sent): the call ended inside the send after the first `sent` ones. */
  datatype Outcome = Delivered | SeenBefore | Stopped(sent: nat)

  ghost predicate Distinct(connections: seq<Connection>) {
    forall i, j :: 0 <= i < j < |connections| ==> connections[i] != connections[j]
  }

  ghost function Views(connections: seq<Connection>): (r: seq<Tx>)
    reads connections
    ensures |r| == |connections| && forall i :: 0 <= i < |r| ==> r[i] == connections[i].View()
  {
    seq(|connections|, i requires 0 <= i < |connections| reads connections => connections[i].View())
  }

  /** One iteration of the loop. */
  method SendOn(connections: seq<Connection>, i: nat, m: Message)
    requires Distinct(connections) && i < |connections| && connections[i].status.Running?
    modifies connections
    ensures Views(connections) == old(Views(connections))[i := Spec.Send(old(Views(connections))[i], m, 0)]
  {
    connections[i].Send(m, 0);
  }

  method BestEffortBroadcast(connections: seq<Connection>, m: Message) returns (sent: nat)
    requires Distinct(connections) && AllOn(Views(connections))
    modifies connections
    ensures Views(connections) == SendAll(old(Views(connections)), m, 0)
    ensures sent <= |connections| && (sent == |connections| <==> AllOn(Views(connections)))
    ensures Served(old(Views(connections)), Views(connections), m, sent)
    ensures sent < |connections| ==> !connections[sent].status.Running?
  {
    ghost var before := Views(connections);
    sent := 0;
    while sent < |connections|
      invariant sent <= |connections|
      invariant SendAll(Views(connections), m, sent) == SendAll(before, m, 0)
      invariant Served(before, Views(connections), m, sent)
      invariant sent < |connections| ==> Views(connections)[sent] == before[sent]
    {
      ghost var now := Views(connections);
      assert now[sent].status.Running?;
      SendAllStep(now, m, sent);
      SendOn(connections, sent, m);
      assert Views(connections)[sent].status == connections[sent].status;
      if !connections[sent].status.Running? {
        return;
      }
      sent := sent + 1;
    }
  }

  /** Before and after: the first `sent` connections have the send of m behind them, and those
      after the next one are untouched. */
  ghost predicate Served(before: seq<Tx>, now: seq<Tx>, m: Message, sent: nat) {
    && |now| == |before|
    && (forall i :: 0 <= i < |now| && i < sent ==> now[i].status.Running? && now[i] == Spec.Send(before[i], m, 0))
    && (forall i :: sent < i < |now| ==> now[i] == before[i])
  }

  /** A member of the broadcast group: its connection list and its record of messages. */
  class Member {
    const connections: seq<Connection>
    var marked: set<Message>

    ghost function View(): Group
      reads this, connections
    {
      Group(Views(connections), marked)
    }

    ghost predicate Valid(owed: nat)
      reads this, connections
    {
      Distinct(connections) && GroupInv(View(), owed)
    }

    constructor (connections: seq<Connection>, ghost owed: nat)
      requires Distinct(connections)
      requires forall i :: 0 <= i < |connections| ==> Spec.Inv(connections[i].View()) && Owed(connections[i].View()) <= owed
      ensures this.connections == connections && marked == {} && Valid(owed)
    {
      this.connections := connections;
      marked := {};
    }

    /** `m` is the whole buffer that recv filled. */
    method ReliableBroadcastReceiveFrom(m: Message, ghost owed: nat) returns (outcome: Outcome)
      requires Valid(owed) && owed + 1 < UINT64 && AllOn(Views(connections))
      modifies this, connections
      ensures View() == Receive(old(View()), m) && Valid(owed + 1)
      ensures outcome.SeenBefore? <==> m in old(marked)
      ensures marked == if outcome.Delivered? then old(marked) + {m} else old(marked)
      ensures outcome.SeenBefore? ==> View() == old(View())
      ensures outcome.Delivered? ==>
                AllOn(Views(connections)) && Valid(0) && AllHandedOver(Views(connections), m, |connections|)
      ensures outcome.Stopped? ==>
                && outcome.sent < |connections| && !connections[outcome.sent].status.Running?
                && AllHandedOver(Views(connections), m, outcome.sent)
                && Served(old(Views(connections)), Views(connections), m, outcome.sent)
    {
      ghost var g := View();
      ReceiveKeepsInv(g, m, owed);
      if m in marked {
        return SeenBefore;
      }
      var sent := BestEffortBroadcast(connections, m);
      ServedHandsOver(g, Views(connections), m, owed, sent);
      if sent < |connections| {
        return Stopped(sent);
      }
      ReceiveDelivers(g, m, owed);
      marked := marked + {m};
      outcome := Delivered;
    }
  }

  /** The first `sent` connections have m handed over. */
  ghost predicate AllHandedOver(txs: seq<Tx>, m: Message, sent: nat) {
    forall i :: 0 <= i < |txs| && i < sent ==> HandedOver(txs[i], m)
  }

  lemma {:induction false} ServedHandsOver(g: Group, now: seq<Tx>, m: Message, owed: nat, sent: nat)
    requires GroupInv(g, owed) && owed + 1 < UINT64 && AllOn(g.txs) && Served(g.txs, now, m, sent)
    ensures AllHandedOver(now, m, sent)
  {
    forall i | 0 <= i < |now| && i < sent ensures HandedOver(now[i], m) {
      assert g.txs[i].status.Running? && now[i].status.Running?;
      SendHandsOver(g.txs[i], m);
    }
  }
}
