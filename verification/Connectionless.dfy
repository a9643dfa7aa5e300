/** The retry loops of the connectionless broadcasts, over a shared transmit queue. */
module Connectionless {
  import opened Common
  import opened CompletionQueue
  import opened Tagged

  const BROADCAST_TAG := 3

  function Copies(self: nat, addresses: seq<nat>, message: string): seq<Packet> {
    seq(|addresses|, i requires 0 <= i < |addresses| => Packet(self, addresses[i], BROADCAST_TAG, message))
  }

  /** One copy for each occurrence of an address, and nothing else. */
  lemma {:induction false} CopiesCount(self: nat, addresses: seq<nat>, message: string, pk: Packet)
    ensures multiset(Copies(self, addresses, message))[pk] ==
            if pk == Packet(self, pk.dst, BROADCAST_TAG, message) then multiset(addresses)[pk.dst] else 0
  {
    if addresses == [] {
      assert Copies(self, addresses, message) == [];
    } else {
      var front, last := addresses[..|addresses| - 1], addresses[|addresses| - 1];
      CopiesCount(self, front, message, pk);
      assert addresses == front + [last];
      assert Copies(self, addresses, message) == Copies(self, front, message) + [Packet(self, last, BROADCAST_TAG, message)];
    }
  }

  /** The copies are received by broadcast receives, which ask for tag 3, and by no accept,
      which asks for tag 1, or recv, which asks for tag 2. */
  lemma {:induction false} CopiesMatchIff(self: nat, addresses: seq<nat>, message: string, i: nat, post: Posted)
    requires i < |addresses|
    ensures Matches(post, addresses[i], Copies(self, addresses, message)[i]) <==>
              post.tag == 3 && (post.from.Some? ==> post.from.value == self)
  {
  }

  // ---------------------------------------------------------------------- on the values

  /** The transmit side of an endpoint; queue.ops are the messages posted. */
  datatype Sender = Sender(queue: Queue<Packet>, status: Status)

  /** try_send_tag: post, then read one completion, whichever message it belongs to. */
  function TrySend(s: Sender, pk: Packet): (r: (Sender, bool))
    ensures |r.0.queue.posts| <= |s.queue.posts|
    ensures s.status.Running? && !Accepts(s.queue) ==> |r.0.queue.posts| < |s.queue.posts|
  {
    if !s.status.Running? then (s, false)
    else if !Accepts(s.queue) then (s.(queue := Post(s.queue, pk)), false)
    else
      ReadFrame(Post(s.queue, pk));
      match ReadQueue(Post(s.queue, pk))
      case (q, Completed) => (s.(queue := q), true)
      case (q, Failed) => (Sender(q, Exited), false)
      case (q, Pending) => (Sender(q, Blocked), false)
  }

  /** What becomes of the process in a send: it goes on if the post was refused, or its read
      finds a success; it ends if that finds an error, and waits if it finds nothing. */
  lemma {:induction false} TrySendOutcome(s: Sender, pk: Packet)
    requires s.status.Running?
    ensures var (r, ok) := TrySend(s, pk);
            && (r.status.Running? <==> Accepts(s.queue) ==> ReadQueue(Post(s.queue, pk)).1.Completed?)
            && (r.status.Exited? <==> Accepts(s.queue) && ReadQueue(Post(s.queue, pk)).1.Failed?)
            && (r.status.Blocked? <==> Accepts(s.queue) && ReadQueue(Post(s.queue, pk)).1.Pending?)
            && (ok <==> Accepts(s.queue) && r.status.Running?)
  {
  }

  /** `while (!try_send_tag(...));` */
  function SendOne(s: Sender, pk: Packet): Sender
    decreases |s.queue.posts|
  {
    var (s1, ok) := TrySend(s, pk);
    if ok || !s1.status.Running? then s1 else SendOne(s1, pk)
  }

  function SendAll(s: Sender, pks: seq<Packet>): Sender
    decreases |pks|
  {
    if pks == [] || !s.status.Running? then s else SendAll(SendOne(s, pks[0]), pks[1..])
  }

  /** An accepted post, and the read after it. */
  lemma {:induction false} AcceptedEffect(s: Sender, pk: Packet)
    requires QueueInv(s.queue) && s.status.Running? && Accepts(s.queue)
    ensures var (r, ok) := TrySend(s, pk);
            && QueueInv(r.queue) && r.queue.ops == s.queue.ops + [pk] && s.queue.delivered <= r.queue.delivered
            && (ok <==> r.status.Running?)
            && (ok ==> |r.queue.outstanding| == |s.queue.outstanding|)
            && (ok && s.queue.outstanding == {} ==> r.queue.outstanding == {} && |s.queue.ops| in r.queue.delivered)
  {
    var q := Post(s.queue, pk);
    PostEffect(s.queue, pk);
    ReadEffect(q);
    if s.queue.outstanding == {} {
      assert q.outstanding == {|s.queue.ops|};
    }
  }

  /** Whatever posts are refused, the loop posts exactly once.  When it is left, as many
      messages are outstanding as before; if there were none, this one was delivered. */
  lemma {:induction false} SendOneEffect(s: Sender, pk: Packet)
    requires QueueInv(s.queue) && s.status.Running?
    ensures var r := SendOne(s, pk);
            && QueueInv(r.queue) && r.queue.ops == s.queue.ops + [pk] && s.queue.delivered <= r.queue.delivered
            && (r.status.Running? ==> |r.queue.outstanding| == |s.queue.outstanding|)
            && (r.status.Running? && s.queue.outstanding == {} ==>
                  r.queue.outstanding == {} && |s.queue.ops| in r.queue.delivered)
    decreases |s.queue.posts|
  {
    if Accepts(s.queue) {
      AcceptedEffect(s, pk);
    } else {
      SendOneEffect(s.(queue := Post(s.queue, pk)), pk);
    }
  }

  lemma {:induction false} OneMore(ops: seq<Packet>, pks: seq<Packet>, rest: nat)
    requires rest < |pks|
    ensures (ops + [pks[0]]) + pks[1..][..rest] == ops + pks[..rest + 1]
  {
    assert pks[..rest + 1] == [pks[0]] + pks[1..][..rest];
  }

  /** The broadcast posts exactly one message for each entry of pks, or, if the process
      stopped inside, for the first `sent` of them. */
  lemma {:induction false} SendAllEffect(s: Sender, pks: seq<Packet>) returns (sent: nat)
    requires QueueInv(s.queue) && s.status.Running?
    ensures var r := SendAll(s, pks);
            && QueueInv(r.queue) && sent <= |pks| && r.queue.ops == s.queue.ops + pks[..sent]
            && (r.status.Running? ==> sent == |pks| && |r.queue.outstanding| == |s.queue.outstanding|)
            && (!r.status.Running? ==> sent > 0)
    decreases |pks|
  {
    if pks == [] {
      sent := 0;
    } else {
      var s1 := SendOne(s, pks[0]);
      SendOneEffect(s, pks[0]);
      if s1.status.Running? {
        var rest := SendAllEffect(s1, pks[1..]);
        sent := rest + 1;
        OneMore(s.queue.ops, pks, rest);
      } else {
        sent := 1;
        assert pks[..1] == [pks[0]];
      }
    }
  }

  /** The `count` messages posted from id `first` on were delivered. */
  ghost predicate Arrived(q: Queue<Packet>, first: nat, count: nat) {
    forall id :: first <= id < first + count ==> id in q.delivered
  }

  /** With nothing outstanding at the call, all copies are delivered when it returns. */
  lemma {:induction false} SendAllDelivers(s: Sender, pks: seq<Packet>)
    requires QueueInv(s.queue) && s.status.Running? && s.queue.outstanding == {}
    requires SendAll(s, pks).status.Running?
    ensures var r := SendAll(s, pks).queue;
            r.outstanding == {} && s.queue.delivered <= r.delivered && Arrived(r, |s.queue.ops|, |pks|)
    decreases |pks|
  {
    if pks != [] {
      var s1 := SendOne(s, pks[0]);
      SendOneEffect(s, pks[0]);
      assert s1.status.Running?;
      SendAllDelivers(s1, pks[1..]);
    }
  }

  function WithPolls(s: Sender, polls: seq<Poll>): Sender {
    s.(queue := s.queue.(polls := polls))
  }

  /** With something outstanding, every send can reap the completion of another message. */
  lemma {:induction false} SendAllLags(s: Sender, pks: seq<Packet>) returns (polls: seq<Poll>)
    requires QueueInv(s.queue) && s.status.Running? && s.queue.outstanding != {}
    ensures var r := SendAll(WithPolls(s, polls), pks);
            r.status.Running? && (pks != [] ==> |s.queue.ops| + |pks| - 1 !in r.queue.delivered)
    decreases |pks|
  {
    polls := [];
    if pks != [] {
      var id :| id in s.queue.outstanding;
      var s1 := LagOnce(s, pks[0], id);
      var rest := SendAllLags(s1, pks[1..]);
      polls := [Done(id)] + rest;
      LagsThen(s, pks, id, s1, rest);
    }
  }

  /** One send that reaps the completion of `id`. */
  lemma {:induction false} LagOnce(s: Sender, pk: Packet, id: nat) returns (s1: Sender)
    requires QueueInv(s.queue) && s.status.Running? && id in s.queue.outstanding
    ensures s1 == SendOne(WithPolls(s, [Done(id)]), pk)
    ensures QueueInv(s1.queue) && s1.status.Running? && |s1.queue.ops| == |s.queue.ops| + 1
    ensures |s.queue.ops| in s1.queue.outstanding && |s.queue.ops| !in s1.queue.delivered
  {
    s1 := SendOne(WithPolls(s, [Done(id)]), pk);
    SendOneLags(s, pk, id, []);
    SendOneEffect(WithPolls(s, [Done(id)]), pk);
    assert [Done(id)] + [] == [Done(id)];
  }

  lemma {:induction false} LagsThen(s: Sender, pks: seq<Packet>, id: nat, s1: Sender, rest: seq<Poll>)
    requires QueueInv(s.queue) && s.status.Running? && id in s.queue.outstanding && pks != []
    requires s1 == SendOne(WithPolls(s, [Done(id)]), pks[0])
    ensures SendAll(WithPolls(s, [Done(id)] + rest), pks) == SendAll(WithPolls(s1, rest), pks[1..])
    ensures |pks| == 1 ==> SendAll(WithPolls(s1, rest), pks[1..]) == WithPolls(s1, rest)
  {
    SendOneLags(s, pks[0], id, rest);
  }

  lemma {:induction false} SendOneLags(s: Sender, pk: Packet, id: nat, rest: seq<Poll>)
    requires QueueInv(s.queue) && s.status.Running? && id in s.queue.outstanding
    ensures var r := SendOne(WithPolls(s, [Done(id)] + rest), pk);
            && r.status.Running? && r.queue.polls == rest
            && |s.queue.ops| in r.queue.outstanding && |s.queue.ops| !in r.queue.delivered
            && r == WithPolls(SendOne(WithPolls(s, [Done(id)]), pk), rest)
    decreases |s.queue.posts|
  {
    assert [Done(id)] + [] == [Done(id)] && ([Done(id)] + rest)[1..] == rest && [Done(id)][1..] == [];
    if !Accepts(s.queue) {
      SendOneLags(s.(queue := Post(s.queue, pk)), pk, id, rest);
    }
  }

  /** When the broadcast returns, all its copies have been delivered, whatever the provider
      does, if and only if nothing, such as an async_send, was outstanding at the call. */
  lemma {:induction false} ReturnMeansDeliveredIff(s: Sender, pks: seq<Packet>)
    requires QueueInv(s.queue) && s.status.Running? && pks != []
    ensures (forall polls :: var r := SendAll(WithPolls(s, polls), pks);
                             r.status.Running? ==> Arrived(r.queue, |s.queue.ops|, |pks|))
            <==> s.queue.outstanding == {}
  {
    if s.queue.outstanding == {} {
      forall polls | SendAll(WithPolls(s, polls), pks).status.Running?
        ensures Arrived(SendAll(WithPolls(s, polls), pks).queue, |s.queue.ops|, |pks|)
      {
        SendAllDelivers(WithPolls(s, polls), pks);
      }
    } else {
      var polls := SendAllLags(s, pks);
      var r := SendAll(WithPolls(s, polls), pks);
      assert |s.queue.ops| + |pks| - 1 !in r.queue.delivered;
    }
  }

  // --------------------------------------------------------------------- on the objects

  /** ConnectionlessServer, or one ConnectionlessClient with its single address. */
  class Endpoint {
    const self: nat
    var queue: Queue<Packet>
    var status: Status

    function View(): Sender
      reads this
    {
      Sender(queue, status)
    }

    constructor (self: nat, posts: seq<bool>, polls: seq<Poll>)
      ensures this.self == self && View() == Sender(NewQueue(posts, polls), Running) && QueueInv(queue)
    {
      this.self, queue, status := self, NewQueue(posts, polls), Running;
    }

    /** False from a process that goes on means that nothing was posted. */
    method TrySendTag(dst: nat, message: string, tag: nat) returns (r: bool)
      requires status.Running?
      modifies this
      ensures (View(), r) == TrySend(old(View()), Packet(self, dst, tag, message))
      ensures queue.ops == if old(Accepts(queue)) then old(queue.ops) + [Packet(self, dst, tag, message)] else old(queue.ops)
      ensures status.Running? ==> (r <==> old(Accepts(queue)))
    {
      ReadFrame(Post(queue, Packet(self, dst, tag, message)));
      var accepted := Accepts(queue);
      queue := Post(queue, Packet(self, dst, tag, message));
      if !accepted {
        return false;
      }
      var ret;
      queue, ret := WaitForCompletion(queue);
      if ret.Completed? {
        return true;
      }
      status := if ret.Failed? then Exited else Blocked;
      r := false;
    }

    /** The inner loop, which retries until the post is accepted or the process stops. */
    method SendTag(dst: nat, message: string, tag: nat)
      requires status.Running?
      modifies this
      ensures View() == SendOne(old(View()), Packet(self, dst, tag, message))
    {
      ghost var pk := Packet(self, dst, tag, message);
      var done := false;
      while !done && status.Running?
        invariant done || !status.Running? ==> View() == SendOne(old(View()), pk)
        invariant !done && status.Running? ==> SendOne(View(), pk) == SendOne(old(View()), pk)
        decreases !done && status.Running?, |queue.posts|
      {
        done := TrySendTag(dst, message, tag);
      }
    }

    /** The two loops compute the specified state; exactly one message is posted for each
        occurrence of an address, in order, or for the first `sent` if the process stopped. */
    method BestEffortBroadcast(addresses: seq<nat>, message: string) returns (ghost sent: nat)
      requires status.Running? && QueueInv(queue)
      modifies this
      ensures View() == SendAll(old(View()), Copies(self, addresses, message)) && QueueInv(queue)
      ensures sent <= |addresses| && queue.ops == old(queue.ops) + Copies(self, addresses, message)[..sent]
      ensures status.Running? ==> sent == |addresses|
      ensures status.Running? && old(queue.outstanding) == {} ==>
                queue.outstanding == {} && Arrived(queue, |old(queue.ops)|, |addresses|)
    {
      ghost var s, copies := View(), Copies(self, addresses, message);
      sent := SendAllEffect(s, copies);
      if SendAll(s, copies).status.Running? && s.queue.outstanding == {} {
        SendAllDelivers(s, copies);
      }
      assert copies[0..] == copies;
      var next := 0;
      while next < |addresses| && status.Running?
        invariant next <= |addresses|
        invariant SendAll(View(), copies[next..]) == SendAll(s, copies)
      {
        assert copies[next..][0] == copies[next] && copies[next..][1..] == copies[next + 1..];
        SendTag(addresses[next], message, BROADCAST_TAG);
        next := next + 1;
      }
      assert SendAll(View(), copies[next..]) == View();
    }

    /** For every finite pattern of refused posts: exactly one more message posted for each
        occurrence of an address, and none else. */
    method ReliableBroadcast(addresses: seq<nat>, message: string)
      requires status.Running? && QueueInv(queue)
      modifies this
      ensures status.Running? ==>
                forall pk :: multiset(queue.ops)[pk] == multiset(old(queue.ops))[pk] +
                  if pk == Packet(self, pk.dst, BROADCAST_TAG, message) then multiset(addresses)[pk.dst] else 0
    {
      var _ := BestEffortBroadcast(addresses, message);
      ghost var copies := Copies(self, addresses, message);
      assert copies[..|addresses|] == copies;
      forall pk {
        CopiesCount(self, addresses, message, pk);
      }
    }
  }

  // ---------------------------------------------------------------------------- relaying

  /** An endpoint that takes part in the reliable broadcast, and the messages it has marked. */
  datatype Peer = Peer(sender: Sender, marked: set<string>)

  /** reliableBroadcastReceiveFrom after its receive. */
  function Receive(self: nat, addresses: seq<nat>, p: Peer, message: string): Peer {
    if message in p.marked then p
    else
      var s := SendAll(p.sender, Copies(self, addresses, message));
      Peer(s, if s.status.Running? then p.marked + {message} else p.marked)
  }

  /** A receive, an async_send of the application, or its wait_send. */
  datatype Event = Incoming(message: string) | AsyncSend(pk: Packet) | WaitSend

  function Happen(self: nat, addresses: seq<nat>, p: Peer, e: Event): Peer {
    if !p.sender.status.Running? then p
    else match e
      case Incoming(message) => Receive(self, addresses, p, message)
      case AsyncSend(pk) => p.(sender := p.sender.(queue := Post(p.sender.queue, pk)))
      case WaitSend =>
        match ReadQueue(p.sender.queue)
        case (q, Completed) => p.(sender := Sender(q, Running))
        case (q, Failed) => p.(sender := Sender(q, Exited))
        case (q, Pending) => p.(sender := Sender(q, Blocked))
  }

  function HappenAll(self: nat, addresses: seq<nat>, p: Peer, events: seq<Event>): Peer
    decreases |events|
  {
    if events == [] then p else HappenAll(self, addresses, Happen(self, addresses, p, events[0]), events[1..])
  }

  /** The application's own messages do not have the tag of the broadcasts. */
  predicate Separate(events: seq<Event>) {
    forall i :: 0 <= i < |events| && events[i].AsyncSend? ==> events[i].pk.tag != BROADCAST_TAG
  }

  /** An async_send that is accepted posts its message; a wait_send reads one entry, and ends
      the process if that is an error. */
  lemma {:induction false} UseOutcome(self: nat, addresses: seq<nat>, p: Peer, e: Event)
    requires p.sender.status.Running? && !e.Incoming?
    ensures var r, q := Happen(self, addresses, p, e), p.sender.queue;
            && r.marked == p.marked
            && r.sender.queue.ops == (if e.AsyncSend? && Accepts(q) then q.ops + [e.pk] else q.ops)
            && (r.sender.status.Running? <==> e.AsyncSend? || ReadQueue(q).1.Completed?)
            && (r.sender.status.Exited? <==> e.WaitSend? && ReadQueue(q).1.Failed?)
  {
    ReadFrame(p.sender.queue);
  }

  /** For every marked message one tag-3 copy was posted for each occurrence of an address,
      and for no other message any. */
  ghost predicate RelayInv(self: nat, addresses: seq<nat>, p: Peer) {
    && QueueInv(p.sender.queue)
    && (p.sender.status.Running? ==>
          forall message, a: nat :: CopiesPosted(self, p, message, a) ==
            if message in p.marked then multiset(addresses)[a] else 0)
  }

  function CopiesPosted(self: nat, p: Peer, message: string, a: nat): nat {
    multiset(p.sender.queue.ops)[Packet(self, a, BROADCAST_TAG, message)]
  }

  lemma {:induction false} ReceiveKeepsInv(self: nat, addresses: seq<nat>, p: Peer, message: string)
    requires RelayInv(self, addresses, p) && p.sender.status.Running?
    ensures RelayInv(self, addresses, Receive(self, addresses, p, message))
  {
    if message !in p.marked {
      var copies, r := Copies(self, addresses, message), Receive(self, addresses, p, message);
      var sent := SendAllEffect(p.sender, copies);
      if r.sender.status.Running? {
        assert copies[..sent] == copies;
        forall other, a: nat ensures CopiesPosted(self, r, other, a) ==
          if other in r.marked then multiset(addresses)[a] else 0
        {
          CopiesCount(self, addresses, message, Packet(self, a, BROADCAST_TAG, other));
          assert CopiesPosted(self, p, other, a) == if other in p.marked then multiset(addresses)[a] else 0;
        }
      }
    }
  }

  lemma {:induction false} EventKeepsInv(self: nat, addresses: seq<nat>, p: Peer, e: Event)
    requires RelayInv(self, addresses, p) && (e.AsyncSend? ==> e.pk.tag != BROADCAST_TAG)
    ensures RelayInv(self, addresses, Happen(self, addresses, p, e))
  {
    if p.sender.status.Running? {
      match e
      case Incoming(message) => ReceiveKeepsInv(self, addresses, p, message);
      case AsyncSend(pk) =>
        PostEffect(p.sender.queue, pk);
        var r := Happen(self, addresses, p, e);
        forall message, a: nat ensures CopiesPosted(self, r, message, a) == CopiesPosted(self, p, message, a) {}
      case WaitSend =>
        ReadEffect(p.sender.queue);
        var r := Happen(self, addresses, p, e);
        forall message, a: nat ensures CopiesPosted(self, r, message, a) == CopiesPosted(self, p, message, a) {}
    }
  }

  lemma {:induction false} EventsKeepInv(self: nat, addresses: seq<nat>, p: Peer, events: seq<Event>)
    requires RelayInv(self, addresses, p) && Separate(events)
    ensures RelayInv(self, addresses, HappenAll(self, addresses, p, events))
    decreases |events|
  {
    if events != [] {
      EventKeepsInv(self, addresses, p, events[0]);
      EventsKeepInv(self, addresses, Happen(self, addresses, p, events[0]), events[1..]);
    }
  }

  /** Relay before deliver: after any sequence of receives and other sends, whatever posts were
      refused, an endpoint that is still running has posted exactly one tag-3 copy of every
      marked message for each occurrence of an address, and none of any other message. */
  lemma {:induction false} MarkedIsPostedOnce(self: nat, addresses: seq<nat>, posts: seq<bool>, polls: seq<Poll>,
      events: seq<Event>, message: string, a: nat)
    requires Separate(events)
    ensures var p := HappenAll(self, addresses, Peer(Sender(NewQueue(posts, polls), Running), {}), events);
            p.sender.status.Running? ==>
              CopiesPosted(self, p, message, a) == if message in p.marked then multiset(addresses)[a] else 0
  {
    EventsKeepInv(self, addresses, Peer(Sender(NewQueue(posts, polls), Running), {}), events);
  }

  /** The endpoint with its addresses and its record of messages. */
  class Relayer {
    const endpoint: Endpoint
    const addresses: seq<nat>
    var marked: set<string>

    function View(): Peer
      reads this, endpoint
    {
      Peer(endpoint.View(), marked)
    }

    ghost predicate Valid()
      reads this, endpoint
    {
      RelayInv(endpoint.self, addresses, View())
    }

    constructor (endpoint: Endpoint, addresses: seq<nat>)
      requires QueueInv(endpoint.queue) && endpoint.queue.ops == []
      ensures this.endpoint == endpoint && this.addresses == addresses && marked == {} && Valid()
    {
      this.endpoint, this.addresses, marked := endpoint, addresses, {};
    }

    /** True exactly for a new message all of whose copies were posted. */
    method ReliableBroadcastReceiveFrom(message: string) returns (r: bool)
      requires Valid() && endpoint.status.Running?
      modifies this`marked, endpoint
      ensures View() == Receive(endpoint.self, addresses, old(View()), message) && Valid()
      ensures r <==> message !in old(marked) && endpoint.status.Running?
      ensures marked == if r then old(marked) + {message} else old(marked)
      ensures r && old(endpoint.queue.outstanding) == {} ==>
                Arrived(endpoint.queue, |old(endpoint.queue.ops)|, |addresses|)
    {
      ReceiveKeepsInv(endpoint.self, addresses, View(), message);
      if message in marked {
        return false;
      }
      var _ := endpoint.BestEffortBroadcast(addresses, message);
      if endpoint.status.Running? {
        marked := marked + {message};
        return true;
      }
      r := false;
    }
  }
}
