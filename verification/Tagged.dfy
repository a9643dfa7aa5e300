/**
 Tagged messages between connectionless endpoints: 1 for the address handshake, 2 for send
 and recv, 3 for the broadcasts.

 A blocking receive posts a tagged receive and then takes the next completion from the
 endpoint's receive queue, whichever posted receive it belongs to; wait_accept takes one
 without posting.  The network delivers messages in any order.
 */
module Tagged {
  import opened Common

  datatype Packet = Packet(src: nat, dst: nat, tag: nat, payload: string)

  /** A posted receive: from one peer or from anyone, with one tag.  libfabric honours the
      peer only on an endpoint that asked for directed receives; only servers do. */
  datatype Posted = Posted(from: Option<nat>, tag: nat)

  /** A running call waits for its own receive.  `alone`: when the call began, no other
      receive of the endpoint was outstanding. */
  datatype Waiting = Waiting(own: nat, alone: bool)

  /** A finished call, and the receive whose completion it took. */
  datatype Finished = Finished(own: nat, taken: nat, alone: bool)

  /** An endpoint: the receives ever posted, what was put in their buffers, the completions
      not yet read, the async_accepts not yet waited for, the running call, and the finished
      ones.  The flags `alone`, and `returned`, are history. */
  datatype End = End(
    directed: bool,
    posts: seq<Posted>,
    filled: seq<Option<Packet>>,
    unread: set<nat>,
    pending: set<nat>,
    call: Option<Waiting>,
    returned: seq<Finished>
  )

  /** sent is history. */
  datatype State = State(ends: seq<End>, net: multiset<Packet>, sent: multiset<Packet>)

  datatype Step =
    | Send(p: nat, dst: nat, tag: nat, payload: string)  // connect, send or one broadcast copy
    | AsyncAccept(p: nat)                                // posts a receive with tag 1
    | WaitAccept(p: nat, id: nat)                        // waits for the async_accept's receive
    | StartRecv(p: nat, from: Option<nat>, tag: nat)     // accept, recv or a broadcast receive
    | Match(p: nat, id: nat, pk: Packet)                 // the provider fills a posted receive
    | Return(p: nat, id: nat)                            // the call reads the completion of id

  function FreshEnd(directed: bool): End {
    End(directed, [], [], {}, {}, None, [])
  }

  /** Any number of servers (directed) and clients. */
  function Init(directed: seq<bool>): State {
    State(seq(|directed|, p requires 0 <= p < |directed| => FreshEnd(directed[p])), multiset{}, multiset{})
  }

  predicate Matches(post: Posted, p: nat, pk: Packet) {
    pk.dst == p && pk.tag == post.tag && (post.from.Some? ==> pk.src == post.from.value)
  }

  /** Posted, and its completion was not read yet. */
  predicate Outstanding(n: End, id: nat) {
    id < |n.posts| && id < |n.filled| && (n.filled[id].None? || id in n.unread)
  }

  /** No receive but `own` is outstanding. */
  predicate Alone(n: End, own: nat) {
    forall id :: 0 <= id < |n.posts| && id != own ==> !Outstanding(n, id)
  }

  predicate Enabled(s: State, e: Step) {
    && e.p < |s.ends|
    && var n := s.ends[e.p];
       match e
       case Send(_, _, _, _) => true
       case AsyncAccept(_) => n.call.None?
       case WaitAccept(_, id) => n.call.None? && id in n.pending
       case StartRecv(_, _, _) => n.call.None?
       case Match(p, id, pk) =>
         id < |n.posts| && id < |n.filled| && n.filled[id].None? && pk in s.net && Matches(n.posts[id], p, pk)
       case Return(_, id) => n.call.Some? && id in n.unread
  }

  function EndStep(n: End, e: Step): End
    requires e.Match? ==> e.id < |n.filled|
    requires e.Return? ==> n.call.Some?
  {
    match e
    case Send(_, _, _, _) => n
    case AsyncAccept(_) =>
      n.(posts := n.posts + [Posted(None, 1)], filled := n.filled + [None], pending := n.pending + {|n.posts|})
    case WaitAccept(_, id) => n.(pending := n.pending - {id}, call := Some(Waiting(id, Alone(n, id))))
    case StartRecv(_, from, tag) =>
      var own := |n.posts|;
      n.(posts := n.posts + [Posted(if n.directed then from else None, tag)], filled := n.filled + [None],
         call := Some(Waiting(own, Alone(n, own))))
    case Match(_, id, pk) => n.(filled := n.filled[id := Some(pk)], unread := n.unread + {id})
    case Return(_, id) =>
      var Waiting(own, alone) := n.call.value;
      n.(unread := n.unread - {id}, call := None, returned := n.returned + [Finished(own, id, alone)])
  }

  function Apply(s: State, e: Step): State
    requires Enabled(s, e)
  {
    var ends := s.ends[e.p := EndStep(s.ends[e.p], e)];
    match e
    case Send(p, dst, tag, payload) =>
      var pk := Packet(p, dst, tag, payload);
      State(ends, s.net + multiset{pk}, s.sent + multiset{pk})
    case Match(_, _, pk) => State(ends, s.net - multiset{pk}, s.sent)
    case _ => s.(ends := ends)
  }

  ghost predicate ValidRun(s: State, run: seq<Step>)
    decreases |run|
  {
    run == [] || (Enabled(s, run[0]) && ValidRun(Apply(s, run[0]), run[1..]))
  }

  ghost function After(s: State, run: seq<Step>): (r: State)
    requires ValidRun(s, run)
    ensures |r.ends| == |s.ends|
    decreases |run|
  {
    if run == [] then s else After(Apply(s, run[0]), run[1..])
  }

  // ---------------------------------------------------------------------- conservation

  function One(o: Option<Packet>, pk: Packet): nat {
    if o == Some(pk) then 1 else 0
  }

  /** How many of the receives `ids` have the message pk in their buffer. */
  function Contents(filled: seq<Option<Packet>>, ids: set<nat>, pk: Packet): nat
    decreases |filled|
  {
    if filled == [] then 0
    else
      var last := |filled| - 1;
      Contents(filled[..last], ids, pk) + if last in ids then One(filled[last], pk) else 0
  }

  /** How many of the finished calls took the completion of a receive of pk. */
  function Taken(filled: seq<Option<Packet>>, returned: seq<Finished>, pk: Packet): nat
    decreases |returned|
  {
    if returned == [] then 0
    else
      var id := returned[|returned| - 1].taken;
      Taken(filled, returned[..|returned| - 1], pk) + if id < |filled| then One(filled[id], pk) else 0
  }

  function Received(n: End, pk: Packet): nat {
    Taken(n.filled, n.returned, pk) + Contents(n.filled, n.unread, pk)
  }

  function AllReceived(ends: seq<End>, pk: Packet): nat
    decreases |ends|
  {
    if ends == [] then 0
    else AllReceived(ends[..|ends| - 1], pk) + Received(ends[|ends| - 1], pk)
  }

  lemma {:induction false} ContentsAgree(filled: seq<Option<Packet>>, a: set<nat>, b: set<nat>, pk: Packet)
    requires forall id :: 0 <= id < |filled| ==> (id in a <==> id in b)
    ensures Contents(filled, a, pk) == Contents(filled, b, pk)
    decreases |filled|
  {
    if filled != [] {
      ContentsAgree(filled[..|filled| - 1], a, b, pk);
    }
  }

  lemma {:induction false} ContentsPost(filled: seq<Option<Packet>>, ids: set<nat>, pk: Packet)
    ensures Contents(filled + [None], ids, pk) == Contents(filled, ids, pk)
  {
    assert (filled + [None])[..|filled|] == filled;
  }

  /** Filling an empty buffer. */
  lemma {:induction false} ContentsFill(filled: seq<Option<Packet>>, ids: set<nat>, id: nat, m: Packet, pk: Packet)
    requires id < |filled| && filled[id].None?
    ensures Contents(filled[id := Some(m)], ids + {id}, pk) == Contents(filled, ids, pk) + One(Some(m), pk)
    decreases |filled|
  {
    var last, after := |filled| - 1, filled[id := Some(m)];
    if id == last {
      assert after[..last] == filled[..last];
      ContentsAgree(filled[..last], ids, ids + {id}, pk);
    } else {
      assert after[..last] == filled[..last][id := Some(m)];
      ContentsFill(filled[..last], ids, id, m, pk);
    }
  }

  /** Reading a completion. */
  lemma {:induction false} ContentsRead(filled: seq<Option<Packet>>, ids: set<nat>, id: nat, pk: Packet)
    requires id < |filled| && id in ids
    ensures Contents(filled, ids, pk) == Contents(filled, ids - {id}, pk) + One(filled[id], pk)
    decreases |filled|
  {
    var last := |filled| - 1;
    if id == last {
      ContentsAgree(filled[..last], ids, ids - {id}, pk);
    } else {
      ContentsRead(filled[..last], ids, id, pk);
    }
  }

  /** What was taken is not touched by later posts and fills. */
  lemma {:induction false} TakenAgree(a: seq<Option<Packet>>, b: seq<Option<Packet>>, returned: seq<Finished>,
      pk: Packet)
    requires forall i :: 0 <= i < |returned| ==>
               returned[i].taken < |a| && returned[i].taken < |b| && a[returned[i].taken] == b[returned[i].taken]
    ensures Taken(a, returned, pk) == Taken(b, returned, pk)
    decreases |returned|
  {
    if returned != [] {
      TakenAgree(a, b, returned[..|returned| - 1], pk);
    }
  }

  lemma {:induction false} ReceivedUpdate(ends: seq<End>, p: nat, n: End, pk: Packet)
    requires p < |ends|
    ensures AllReceived(ends[p := n], pk) + Received(ends[p], pk) == AllReceived(ends, pk) + Received(n, pk)
    decreases |ends|
  {
    var last := |ends| - 1;
    if p == last {
      assert ends[p := n][..last] == ends[..last];
    } else {
      assert ends[p := n][..last] == ends[..last][p := n];
      ReceivedUpdate(ends[..last], p, n, pk);
    }
  }

  /** Each message put in a buffer matches the receive; each completion is unread or was
      taken by exactly one call. */
  ghost predicate EndInv(n: End, p: nat) {
    && |n.filled| == |n.posts|
    && (forall id :: 0 <= id < |n.posts| && n.filled[id].Some? ==> Matches(n.posts[id], p, n.filled[id].value))
    && (forall id :: id in n.unread ==> id < |n.posts| && n.filled[id].Some?)
    && (forall id :: id in n.pending ==> id < |n.posts| && n.posts[id] == Posted(None, 1))
    && (n.call.Some? ==> n.call.value.own < |n.posts|)
    && (forall i :: 0 <= i < |n.returned| ==>
          && n.returned[i].own < |n.posts| && n.returned[i].taken < |n.posts|
          && n.filled[n.returned[i].taken].Some? && n.returned[i].taken !in n.unread)
    && (forall i, j :: 0 <= i < j < |n.returned| ==> n.returned[i].taken != n.returned[j].taken)
    && (forall id :: 0 <= id < |n.posts| && n.filled[id].Some? && id !in n.unread ==> TakenOnce(n, id))
  }

  ghost predicate TakenOnce(n: End, id: nat) {
    exists i :: 0 <= i < |n.returned| && n.returned[i].taken == id
  }

  ghost predicate Inv(s: State) {
    && (forall pk :: s.sent[pk] == s.net[pk] + AllReceived(s.ends, pk))
    && forall p :: 0 <= p < |s.ends| ==> EndInv(s.ends[p], p)
  }

  lemma {:induction false} EndStepKeepsInv(s: State, e: Step)
    requires Enabled(s, e) && EndInv(s.ends[e.p], e.p)
    ensures EndInv(EndStep(s.ends[e.p], e), e.p)
  {
    var n, n' := s.ends[e.p], EndStep(s.ends[e.p], e);
    if e.Return? {
      ReturnKeepsInv(n, e, e.p);
    } else {
      forall id | 0 <= id < |n'.posts| && n'.filled[id].Some? && id !in n'.unread ensures TakenOnce(n', id) {
        assert TakenOnce(n, id);
      }
    }
  }

  lemma {:induction false} ReturnKeepsInv(n: End, e: Step, p: nat)
    requires EndInv(n, p) && e.Return? && n.call.Some? && e.id in n.unread
    ensures EndInv(EndStep(n, e), p)
  {
    var n' := EndStep(n, e);
    forall id | 0 <= id < |n'.posts| && n'.filled[id].Some? && id !in n'.unread ensures TakenOnce(n', id) {
      if id == e.id {
        assert n'.returned[|n.returned|].taken == id;
      } else {
        assert TakenOnce(n, id);
        var i :| 0 <= i < |n.returned| && n.returned[i].taken == id;
        assert n'.returned[i].taken == id;
      }
    }
  }

  /** What a step puts into buffers is what it removes from the network. */
  lemma {:induction false} StepReceives(n: End, e: Step, p: nat, pk: Packet)
    requires EndInv(n, p) && (e.Match? ==> e.id < |n.filled| && n.filled[e.id].None?)
    requires e.Return? ==> n.call.Some? && e.id in n.unread
    ensures Received(EndStep(n, e), pk) == Received(n, pk) + if e.Match? then One(Some(e.pk), pk) else 0
  {
    var n' := EndStep(n, e);
    if e.AsyncAccept? || e.StartRecv? {
      ContentsPost(n.filled, n.unread, pk);
      TakenAgree(n.filled, n'.filled, n.returned, pk);
    } else if e.Match? {
      ContentsFill(n.filled, n.unread, e.id, e.pk, pk);
      TakenAgree(n.filled, n'.filled, n.returned, pk);
    } else if e.Return? {
      ContentsRead(n.filled, n.unread, e.id, pk);
      assert n'.returned[..|n.returned|] == n.returned;
    }
  }

  lemma {:induction false} StepConserves(s: State, e: Step, pk: Packet)
    requires Inv(s) && Enabled(s, e)
    ensures Apply(s, e).sent[pk] == Apply(s, e).net[pk] + AllReceived(Apply(s, e).ends, pk)
  {
    var n := s.ends[e.p];
    StepReceives(n, e, e.p, pk);
    ReceivedUpdate(s.ends, e.p, EndStep(n, e), pk);
    assert s.sent[pk] == s.net[pk] + AllReceived(s.ends, pk);
  }

  lemma {:induction false} StepKeepsEnds(s: State, e: Step, p: nat)
    requires Inv(s) && Enabled(s, e) && p < |s.ends|
    ensures EndInv(Apply(s, e).ends[p], p)
  {
    assert EndInv(s.ends[p], p);
    if p == e.p {
      EndStepKeepsInv(s, e);
    }
  }

  lemma {:induction false} StepKeepsInv(s: State, e: Step)
    requires Inv(s) && Enabled(s, e)
    ensures Inv(Apply(s, e))
  {
    forall p | 0 <= p < |s.ends| ensures EndInv(Apply(s, e).ends[p], p) {
      StepKeepsEnds(s, e, p);
    }
    forall pk ensures Apply(s, e).sent[pk] == Apply(s, e).net[pk] + AllReceived(Apply(s, e).ends, pk) {
      StepConserves(s, e, pk);
    }
  }

  lemma {:induction false} RunKeepsInv(s: State, run: seq<Step>)
    requires Inv(s) && ValidRun(s, run)
    ensures Inv(After(s, run))
    decreases |run|
  {
    if run != [] {
      StepKeepsInv(s, run[0]);
      RunKeepsInv(Apply(s, run[0]), run[1..]);
    }
  }

  lemma {:induction false} InitInv(directed: seq<bool>)
    ensures Inv(Init(directed))
  {
    forall pk ensures AllReceived(Init(directed).ends, pk) == 0 {
      NothingReceived(Init(directed).ends, pk);
    }
  }

  lemma {:induction false} NothingReceived(ends: seq<End>, pk: Packet)
    requires forall p :: 0 <= p < |ends| ==> ends[p] == FreshEnd(ends[p].directed)
    ensures AllReceived(ends, pk) == 0
    decreases |ends|
  {
    if ends != [] {
      NothingReceived(ends[..|ends| - 1], pk);
    }
  }

  lemma {:induction false} ContentsMember(filled: seq<Option<Packet>>, ids: set<nat>, pk: Packet)
    requires Contents(filled, ids, pk) > 0
    ensures exists id :: 0 <= id < |filled| && filled[id] == Some(pk)
    decreases |filled|
  {
    var last := |filled| - 1;
    if filled[last] != Some(pk) {
      ContentsMember(filled[..last], ids, pk);
      var id :| 0 <= id < last && filled[..last][id] == Some(pk);
      assert filled[id] == Some(pk);
    }
  }

  lemma {:induction false} TakenMember(filled: seq<Option<Packet>>, returned: seq<Finished>, pk: Packet)
    requires Taken(filled, returned, pk) > 0
    ensures exists id :: 0 <= id < |filled| && filled[id] == Some(pk)
    decreases |returned|
  {
    var id := returned[|returned| - 1].taken;
    if !(id < |filled| && filled[id] == Some(pk)) {
      TakenMember(filled, returned[..|returned| - 1], pk);
    }
  }

  /** An endpoint receives only messages for it. */
  lemma {:induction false} ReceivedAtDestination(ends: seq<End>, pk: Packet)
    requires forall p :: 0 <= p < |ends| ==> EndInv(ends[p], p)
    ensures AllReceived(ends, pk) == if pk.dst < |ends| then Received(ends[pk.dst], pk) else 0
    decreases |ends|
  {
    if ends != [] {
      var last := |ends| - 1;
      ReceivedAtDestination(ends[..last], pk);
      if last != pk.dst && Received(ends[last], pk) > 0 {
        assert EndInv(ends[last], last);
        if Contents(ends[last].filled, ends[last].unread, pk) > 0 {
          ContentsMember(ends[last].filled, ends[last].unread, pk);
        } else {
          TakenMember(ends[last].filled, ends[last].returned, pk);
        }
        assert false;
      }
    }
  }

  /** How often the run sends pk. */
  function Sends(run: seq<Step>, pk: Packet): nat {
    if run == [] then 0
    else (if run[0] == Send(pk.src, pk.dst, pk.tag, pk.payload) then 1 else 0) + Sends(run[1..], pk)
  }

  lemma {:induction false} SentIsSends(s: State, run: seq<Step>, pk: Packet)
    requires ValidRun(s, run)
    ensures After(s, run).sent[pk] == s.sent[pk] + Sends(run, pk)
    decreases |run|
  {
    if run != [] {
      SentIsSends(Apply(s, run[0]), run[1..], pk);
    }
  }

  /** Over every run and any reordering, for every message, and so for every pair of peers
      and every tag: the copies that the run sends are those in flight, those whose completion
      a call of the destination took, and those in a buffer of the destination with the
      completion unread. */
  lemma {:induction false} TagConservation(directed: seq<bool>, run: seq<Step>, pk: Packet)
    requires ValidRun(Init(directed), run) && pk.dst < |directed|
    ensures var s := After(Init(directed), run);
            var e := s.ends[pk.dst];
            Sends(run, pk) == s.net[pk] + Taken(e.filled, e.returned, pk) + Contents(e.filled, e.unread, pk)
  {
    InitInv(directed);
    SentIsSends(Init(directed), run, pk);
    RunKeepsInv(Init(directed), run);
    ReceivedAtDestination(After(Init(directed), run).ends, pk);
  }

  /** A buffer only ever gets a message with the tag and from the peer that its receive names;
      its completion is unread or was taken by one call, and no other call took it. */
  lemma {:induction false} BuffersMatch(directed: seq<bool>, run: seq<Step>, p: nat, id: nat)
    requires ValidRun(Init(directed), run) && p < |directed|
    ensures var e := After(Init(directed), run).ends[p];
            id < |e.posts| && id < |e.filled| && e.filled[id].Some? ==>
              && Matches(e.posts[id], p, e.filled[id].value)
              && (id !in e.unread <==> TakenOnce(e, id))
              && forall i, j :: 0 <= i < j < |e.returned| ==> e.returned[i].taken != e.returned[j].taken
  {
    InitInv(directed);
    RunKeepsInv(Init(directed), run);
    assert EndInv(After(Init(directed), run).ends[p], p);
  }

  // ------------------------------------------------------------------ non-interference

  /** A call that began alone stays alone, and takes the completion of its own receive. */
  ghost predicate AloneInv(n: End) {
    && (n.call.Some? && n.call.value.alone ==> Alone(n, n.call.value.own))
    && (forall i :: 0 <= i < |n.returned| && n.returned[i].alone ==> n.returned[i].taken == n.returned[i].own)
  }

  lemma {:induction false} StepKeepsAlone(s: State, e: Step, p: nat)
    requires Inv(s) && Enabled(s, e) && p < |s.ends| && AloneInv(s.ends[p])
    ensures AloneInv(Apply(s, e).ends[p])
  {
    var n, n' := s.ends[p], Apply(s, e).ends[p];
    assert EndInv(n, p);
    if p == e.p && n'.call.Some? && n'.call.value.alone {
      var own := n'.call.value.own;
      forall id | 0 <= id < |n'.posts| && id != own ensures !Outstanding(n', id) {
        assert !Outstanding(n, id);
      }
    }
    if p == e.p && e.Return? {
      assert Outstanding(n, e.id);
    }
  }

  lemma {:induction false} RunKeepsAlone(s: State, run: seq<Step>, p: nat)
    requires Inv(s) && ValidRun(s, run) && p < |s.ends| && AloneInv(s.ends[p])
    ensures AloneInv(After(s, run).ends[p])
    decreases |run|
  {
    if run != [] {
      StepKeepsAlone(s, run[0], p);
      StepKeepsInv(s, run[0]);
      RunKeepsAlone(Apply(s, run[0]), run[1..], p);
    }
  }

  /** In every run, with any number of async_accepts: a receiving call that began when no
      other receive of the endpoint was outstanding has in its own buffer a message with its
      own tag, on a server also from the peer it named.  recv never sees a broadcast, nor the other way round. */
  lemma {:induction false} TagNonInterference(directed: seq<bool>, run: seq<Step>, p: nat, i: nat)
    requires ValidRun(Init(directed), run) && p < |directed|
    requires i < |After(Init(directed), run).ends[p].returned| && After(Init(directed), run).ends[p].returned[i].alone
    ensures var e := After(Init(directed), run).ends[p];
            var own := e.returned[i].own;
            && e.returned[i].taken == own && own < |e.posts| && own < |e.filled| && e.filled[own].Some?
            && Matches(e.posts[own], p, e.filled[own].value)
  {
    InitInv(directed);
    RunKeepsInv(Init(directed), run);
    RunKeepsAlone(Init(directed), run, p);
    assert EndInv(After(Init(directed), run).ends[p], p);
  }

  /** What a caller can see to: nothing is received, and no second async_accept made, between
      an async_accept and its wait_accept. */
  predicate Orderly(n: End, e: Step) {
    e.AsyncAccept? || e.StartRecv? ==> n.pending == {}
  }

  ghost predicate OrderlyRun(s: State, run: seq<Step>, p: nat)
    requires ValidRun(s, run) && p < |s.ends|
    decreases |run|
  {
    run == [] || ((run[0].p == p ==> Orderly(s.ends[p], run[0])) && OrderlyRun(Apply(s, run[0]), run[1..], p))
  }

  /** Only the receive of one async_accept or that of the running call is outstanding, and
      all calls began alone. */
  ghost predicate OrderlyInv(n: End) {
    && (forall id: nat :: Outstanding(n, id) ==> id in n.pending || (n.call.Some? && n.call.value.own == id))
    && (forall a, b :: a in n.pending && b in n.pending ==> a == b)
    && (n.call.Some? ==> n.pending == {} && n.call.value.alone)
    && (forall i :: 0 <= i < |n.returned| ==> n.returned[i].alone)
  }

  lemma {:induction false} StepKeepsOrderly(s: State, e: Step, p: nat)
    requires Inv(s) && Enabled(s, e) && p < |s.ends| && AloneInv(s.ends[p])
    requires OrderlyInv(s.ends[p]) && (e.p == p ==> Orderly(s.ends[p], e))
    ensures OrderlyInv(Apply(s, e).ends[p])
  {
    if p == e.p {
      EndStepKeepsOrderly(s.ends[p], e, p);
    }
  }

  lemma {:induction false} EndStepKeepsOrderly(n: End, e: Step, p: nat)
    requires EndInv(n, p) && AloneInv(n) && OrderlyInv(n) && Orderly(n, e)
    requires e.AsyncAccept? || e.StartRecv? || e.WaitAccept? ==> n.call.None?
    requires e.WaitAccept? ==> e.id in n.pending
    requires e.Match? ==> e.id < |n.posts| && n.filled[e.id].None?
    requires e.Return? ==> n.call.Some? && e.id in n.unread
    ensures OrderlyInv(EndStep(n, e))
  {
    var n' := EndStep(n, e);
    if e.Return? {
      assert Outstanding(n, e.id);
    }
    forall id: nat | Outstanding(n', id) ensures id in n'.pending || (n'.call.Some? && n'.call.value.own == id) {
      if id < |n.posts| {
        assert Outstanding(n, id);
      }
    }
  }

  lemma {:induction false} RunKeepsOrderly(s: State, run: seq<Step>, p: nat)
    requires Inv(s) && ValidRun(s, run) && p < |s.ends| && AloneInv(s.ends[p])
    requires OrderlyInv(s.ends[p]) && OrderlyRun(s, run, p)
    ensures OrderlyInv(After(s, run).ends[p])
    decreases |run|
  {
    if run != [] {
      StepKeepsOrderly(s, run[0], p);
      StepKeepsAlone(s, run[0], p);
      StepKeepsInv(s, run[0]);
      RunKeepsOrderly(Apply(s, run[0]), run[1..], p);
    }
  }

  /** With any number of async_accept and wait_accept pairs, but no receive in between, every
      call that returns has its own message in its own buffer. */
  lemma {:induction false} OrderlyCallsTakeOwn(directed: seq<bool>, run: seq<Step>, p: nat, i: nat)
    requires ValidRun(Init(directed), run) && p < |directed| && OrderlyRun(Init(directed), run, p)
    requires i < |After(Init(directed), run).ends[p].returned|
    ensures var e := After(Init(directed), run).ends[p];
            var own := e.returned[i].own;
            && e.returned[i].taken == own && own < |e.posts| && own < |e.filled| && e.filled[own].Some?
            && Matches(e.posts[own], p, e.filled[own].value)
  {
    InitInv(directed);
    RunKeepsOrderly(Init(directed), run, p);
    TagNonInterference(directed, run, p, i);
  }

  // ----------------------------------------------------- what the caller asked for

  /** The receive that a call waits for: the one it posts, or that of its async_accept. */
  function Own(n: End, e: Step): nat
    requires e.StartRecv? || e.WaitAccept?
  {
    if e.StartRecv? then |n.posts| else e.id
  }

  /** The message is one that the call which begins with step e asked for. */
  predicate Asked(e: Step, directed: bool, pk: Packet)
    requires e.StartRecv? || e.WaitAccept?
  {
    && pk.dst == e.p
    && (if e.StartRecv? then pk.tag == e.tag && (directed && e.from.Some? ==> pk.src == e.from.value) else pk.tag == 1)
  }

  /** Posted receives, finished calls and the kind of the endpoint stay. */
  predicate Extends(n: End, n': End) {
    n.directed == n'.directed && n.posts <= n'.posts && n.returned <= n'.returned
  }

  lemma {:induction false} RunExtends(s: State, run: seq<Step>, p: nat)
    requires ValidRun(s, run) && p < |s.ends|
    ensures Extends(s.ends[p], After(s, run).ends[p])
    decreases |run|
  {
    if run != [] {
      RunExtends(Apply(s, run[0]), run[1..], p);
    }
  }

  lemma {:induction false} CallStep(s: State, e: Step, p: nat)
    requires Enabled(s, e) && p < |s.ends| && s.ends[p].call.Some?
    ensures var n, n' := s.ends[p], Apply(s, e).ends[p];
            var Waiting(own, alone) := n.call.value;
            if e.Return? && e.p == p then n'.returned == n.returned + [Finished(own, e.id, alone)] && n'.call.None?
            else n'.call == n.call && n'.returned == n.returned
  {
  }

  /** The running call is the next to return. */
  lemma {:induction false} CallReturnsNext(s: State, run: seq<Step>, p: nat)
    requires ValidRun(s, run) && p < |s.ends| && s.ends[p].call.Some?
    ensures var n, n' := s.ends[p], After(s, run).ends[p];
            |n.returned| < |n'.returned| ==>
              n'.returned[|n.returned|].own == n.call.value.own && n'.returned[|n.returned|].alone == n.call.value.alone
    decreases |run|
  {
    if run != [] {
      var e, s1 := run[0], Apply(s, run[0]);
      CallStep(s, e, p);
      if e.Return? && e.p == p {
        RunExtends(s1, run[1..], p);
        assert s1.ends[p].returned <= After(s1, run[1..]).ends[p].returned;
      } else {
        CallReturnsNext(s1, run[1..], p);
      }
    }
  }

  /** The call that begins alone takes its own completion, and its buffer matches its post. */
  lemma {:induction false} CallTakesOwn(s: State, e: Step, post: seq<Step>)
    requires Inv(s) && e.p < |s.ends| && (e.StartRecv? || e.WaitAccept?) && Enabled(s, e) && AloneInv(s.ends[e.p])
    requires Alone(s.ends[e.p], Own(s.ends[e.p], e)) && ValidRun(Apply(s, e), post)
    ensures var n, n', own := s.ends[e.p], After(Apply(s, e), post).ends[e.p], Own(s.ends[e.p], e);
            |n.returned| < |n'.returned| ==>
              && n'.returned[|n.returned|].taken == own && own < |n'.filled| && own < |n'.posts| && n'.filled[own].Some?
              && Matches(n'.posts[own], e.p, n'.filled[own].value)
  {
    var s1, p := Apply(s, e), e.p;
    BeginsAlone(s, e);
    StepKeepsInv(s, e);
    StepKeepsAlone(s, e, p);
    RunKeepsInv(s1, post);
    RunKeepsAlone(s1, post, p);
    CallReturnsNext(s1, post, p);
    assert EndInv(After(s1, post).ends[p], p);
  }

  /** Let a call begin with step e at any point of any run, when no other receive of its
      endpoint is outstanding.  However the run goes on, if the call returns (as the next one
      of the endpoint), it has taken the completion of its own receive, and the buffer holds a
      message for this endpoint with the tag of the call, which for accepts is 1, and on an
      endpoint with directed receives from the peer that the call named. */
  lemma {:induction false} CallGetsWhatItAsked(directed: seq<bool>, pre: seq<Step>, e: Step, post: seq<Step>)
    requires ValidRun(Init(directed), pre) && e.p < |directed| && (e.StartRecv? || e.WaitAccept?)
    requires var s := After(Init(directed), pre);
             Enabled(s, e) && Alone(s.ends[e.p], Own(s.ends[e.p], e)) && ValidRun(Apply(s, e), post)
    ensures var s := After(Init(directed), pre);
            var n, n' := s.ends[e.p], After(Apply(s, e), post).ends[e.p];
            var own := Own(n, e);
            |n.returned| < |n'.returned| ==>
              && n'.returned[|n.returned|].taken == own && own < |n'.filled| && n'.filled[own].Some?
              && Asked(e, directed[e.p], n'.filled[own].value)
  {
    var s0 := Init(directed);
    var s := After(s0, pre);
    var s1, p, own := Apply(s, e), e.p, Own(s.ends[e.p], e);
    InitInv(directed);
    RunKeepsInv(s0, pre);
    RunKeepsAlone(s0, pre, p);
    RunExtends(s0, pre, p);
    assert EndInv(s.ends[p], p);
    CallTakesOwn(s, e, post);
    RunExtends(s1, post, p);
    assert s1.ends[p].posts[own] == After(s1, post).ends[p].posts[own];
  }

  /** A recv, which asks for tag 2, never returns a broadcast, and a broadcast receive, which
      asks for tag 3, never returns anything else. */
  lemma {:induction false} TagsStayApart(directed: seq<bool>, pre: seq<Step>, e: Step, post: seq<Step>, tag: nat)
    requires ValidRun(Init(directed), pre) && e.p < |directed| && e.StartRecv? && tag != e.tag
    requires var s := After(Init(directed), pre);
             Enabled(s, e) && Alone(s.ends[e.p], |s.ends[e.p].posts|) && ValidRun(Apply(s, e), post)
    ensures var s := After(Init(directed), pre);
            var n, n' := s.ends[e.p], After(Apply(s, e), post).ends[e.p];
            |n.returned| < |n'.returned| ==>
              var id := n'.returned[|n.returned|].taken;
              id < |n'.filled| && n'.filled[id].Some? && n'.filled[id].value.tag != tag
  {
    CallGetsWhatItAsked(directed, pre, e, post);
  }

  /** In an orderly run no condition on the state is needed: every call that returns has what
      it asked for. */
  lemma {:induction false} OrderlyCallGetsWhatItAsked(directed: seq<bool>, pre: seq<Step>, e: Step, post: seq<Step>)
    requires ValidRun(Init(directed), pre) && e.p < |directed| && (e.StartRecv? || e.WaitAccept?)
    requires OrderlyRun(Init(directed), pre, e.p)
    requires var s := After(Init(directed), pre);
             Enabled(s, e) && Orderly(s.ends[e.p], e) && ValidRun(Apply(s, e), post)
    ensures var s := After(Init(directed), pre);
            var n, n' := s.ends[e.p], After(Apply(s, e), post).ends[e.p];
            var own := Own(n, e);
            |n.returned| < |n'.returned| ==>
              && n'.returned[|n.returned|].taken == own && own < |n'.filled| && n'.filled[own].Some?
              && Asked(e, directed[e.p], n'.filled[own].value)
  {
    InitInv(directed);
    RunKeepsOrderly(Init(directed), pre, e.p);
    CallGetsWhatItAsked(directed, pre, e, post);
  }

  /** An async_accept stays there to be waited for until it is, whatever else happens. */
  lemma {:induction false} AcceptStaysPending(s: State, e: Step, run: seq<Step>)
    requires Inv(s) && e.AsyncAccept? && Enabled(s, e) && ValidRun(Apply(s, e), run)
    requires forall i :: 0 <= i < |run| ==> run[i] != WaitAccept(e.p, |s.ends[e.p].posts|)
    ensures After(Apply(s, e), run).ends[e.p].call.None? ==>
              Enabled(After(Apply(s, e), run), WaitAccept(e.p, |s.ends[e.p].posts|))
  {
    StaysPending(Apply(s, e), run, e.p, |s.ends[e.p].posts|);
  }

  lemma {:induction false} StaysPending(s: State, run: seq<Step>, p: nat, id: nat)
    requires ValidRun(s, run) && p < |s.ends| && id in s.ends[p].pending
    requires forall i :: 0 <= i < |run| ==> run[i] != WaitAccept(p, id)
    ensures id in After(s, run).ends[p].pending
    decreases |run|
  {
    if run != [] {
      StaysPending(Apply(s, run[0]), run[1..], p, id);
    }
  }

  // --------------------------------------------------- when another completion can come

  predicate NoReturn(p: nat, run: seq<Step>) {
    forall i :: 0 <= i < |run| ==> !(run[i].Return? && run[i].p == p)
  }

  /** The call that begins with step e can return with the completion of another receive. */
  ghost predicate CanTakeForeign(s: State, e: Step)
    requires (e.StartRecv? || e.WaitAccept?) && e.p < |s.ends|
  {
    exists run, id :: NoReturn(e.p, run) && id != Own(s.ends[e.p], e) && ValidRun(s, [e] + run + [Return(e.p, id)])
  }

  lemma {:induction false} StaysAlone(s: State, e: Step, p: nat, own: nat)
    requires Inv(s) && Enabled(s, e) && p < |s.ends| && AloneInv(s.ends[p])
    requires s.ends[p].call == Some(Waiting(own, true)) && !(e.Return? && e.p == p)
    ensures var s1 := Apply(s, e);
            && Inv(s1) && AloneInv(s1.ends[p]) && s1.ends[p].call == Some(Waiting(own, true)) && Alone(s1.ends[p], own)
  {
    StepKeepsInv(s, e);
    StepKeepsAlone(s, e, p);
  }

  lemma {:induction false} AloneUntilReturn(s: State, run: seq<Step>, p: nat, own: nat, last: Step)
    requires Inv(s) && p < |s.ends| && s.ends[p].call == Some(Waiting(own, true)) && Alone(s.ends[p], own)
    requires AloneInv(s.ends[p]) && NoReturn(p, run)
    requires last.Return? && last.p == p && ValidRun(s, run + [last])
    ensures last.id == own
    decreases |run|
  {
    if run == [] {
      assert run + [last] == [last];
      assert EndInv(s.ends[p], p) && Outstanding(s.ends[p], last.id);
    } else {
      var e := run[0];
      assert (run + [last])[0] == e && (run + [last])[1..] == run[1..] + [last];
      assert !(e.Return? && e.p == p) && NoReturn(p, run[1..]);
      StaysAlone(s, e, p, own);
      AloneUntilReturn(Apply(s, e), run[1..], p, own, last);
    }
  }

  lemma {:induction false} Prepend(s: State, e: Step, rest: seq<Step>)
    requires Enabled(s, e) && ValidRun(Apply(s, e), rest)
    ensures ValidRun(s, [e] + rest) && After(s, [e] + rest) == After(Apply(s, e), rest)
  {
    assert ([e] + rest)[1..] == rest;
  }

  /** From inside a call, a run in which it takes the completion of `other`. */
  lemma {:induction false} ForeignReturn(s: State, p: nat, other: nat) returns (run: seq<Step>)
    requires Inv(s) && p < |s.ends| && s.ends[p].call.Some? && Outstanding(s.ends[p], other)
    requires s.ends[p].posts[other].from.Some? ==> s.ends[p].posts[other].from.value < |s.ends|
    ensures NoReturn(p, run) && ValidRun(s, run + [Return(p, other)])
  {
    assert EndInv(s.ends[p], p);
    if other in s.ends[p].unread {
      run := [];
      Prepend(s, Return(p, other), []);
      assert [] + [Return(p, other)] == [Return(p, other)] + [];
    } else {
      run := ForeignFill(s, p, other);
    }
  }

  lemma {:induction false} ForeignFill(s: State, p: nat, other: nat) returns (run: seq<Step>)
    requires p < |s.ends| && s.ends[p].call.Some? && other < |s.ends[p].posts| == |s.ends[p].filled|
    requires s.ends[p].filled[other].None?
    requires s.ends[p].posts[other].from.Some? ==> s.ends[p].posts[other].from.value < |s.ends|
    ensures NoReturn(p, run) && ValidRun(s, run + [Return(p, other)])
  {
    var post := s.ends[p].posts[other];
    var src := if post.from.Some? then post.from.value else 0;
    var pk := Packet(src, p, post.tag, "");
    var send, fill, last := Send(src, p, post.tag, ""), Match(p, other, pk), Return(p, other);
    var s1 := Apply(s, send);
    assert s1.ends[p] == s.ends[p] && pk in s1.net;
    var s2 := Apply(s1, fill);
    assert other in s2.ends[p].unread;
    Prepend(s2, last, []);
    Prepend(s1, fill, [last] + []);
    Prepend(s, send, [fill] + ([last] + []));
    run := [send, fill];
    assert run + [last] == [send] + ([fill] + ([last] + []));
  }

  /** The receive that begins with step e can get a message from src into its own buffer. */
  ghost predicate CanReceiveFrom(s: State, e: Step, src: nat)
    requires e.StartRecv? && e.p < |s.ends|
  {
    exists run :: ValidRun(s, [e] + run) && GotFrom(After(s, [e] + run).ends[e.p], |s.ends[e.p].posts|, src)
  }

  predicate GotFrom(n: End, own: nat, src: nat) {
    own < |n.filled| && n.filled[own].Some? && n.filled[own].value.src == src && own !in n.unread
  }

  /** Only an endpoint with directed receives honours the peer that a receive names: with one,
      messages from that peer can be received and from no other; a client's receive takes them
      from anyone. */
  lemma {:induction false} ReceivesFromIff(s: State, e: Step, src: nat)
    requires Inv(s) && e.StartRecv? && Enabled(s, e) && src < |s.ends|
    ensures CanReceiveFrom(s, e, src) <==> (s.ends[e.p].directed && e.from.Some? ==> e.from.value == src)
  {
    var p, own, s1 := e.p, |s.ends[e.p].posts|, Apply(s, e);
    assert EndInv(s.ends[p], p);
    if CanReceiveFrom(s, e, src) {
      var run :| ValidRun(s, [e] + run) && GotFrom(After(s, [e] + run).ends[p], own, src);
      assert ([e] + run)[1..] == run;
      StepKeepsInv(s, e);
      RunKeepsInv(s1, run);
      RunExtends(s1, run, p);
      assert EndInv(After(s1, run).ends[p], p);
      assert s1.ends[p].posts[own] == After(s1, run).ends[p].posts[own];
    }
    if s.ends[p].directed && e.from.Some? ==> e.from.value == src {
      ReceiveFrom(s, e, src);
    }
  }

  lemma {:induction false} ReceiveFrom(s: State, e: Step, src: nat)
    requires Inv(s) && e.StartRecv? && Enabled(s, e) && src < |s.ends|
    requires s.ends[e.p].directed && e.from.Some? ==> e.from.value == src
    ensures CanReceiveFrom(s, e, src)
  {
    assert EndInv(s.ends[e.p], e.p);
    var run := FillAndReturn(Apply(s, e), e.p, |s.ends[e.p].posts|, src);
    Prepend(s, e, run);
  }

  /** From inside a call, a run in which the empty buffer `own` gets a message from src. */
  lemma {:induction false} FillAndReturn(s: State, p: nat, own: nat, src: nat) returns (run: seq<Step>)
    requires p < |s.ends| && src < |s.ends| && s.ends[p].call.Some? && own < |s.ends[p].posts| == |s.ends[p].filled|
    requires s.ends[p].filled[own].None? && (s.ends[p].posts[own].from.Some? ==> s.ends[p].posts[own].from.value == src)
    ensures ValidRun(s, run) && GotFrom(After(s, run).ends[p], own, src)
  {
    var tag := s.ends[p].posts[own].tag;
    var send, fill, last := Send(src, p, tag, ""), Match(p, own, Packet(src, p, tag, "")), Return(p, own);
    var s1 := Apply(s, send);
    assert s1.ends[p] == s.ends[p] && Packet(src, p, tag, "") in s1.net;
    var s2 := Apply(s1, fill);
    Prepend(s2, last, []);
    Prepend(s1, fill, [last] + []);
    Prepend(s, send, [fill] + ([last] + []));
    run := [send] + ([fill] + ([last] + []));
  }

  /** A blocking receive, or a wait_accept, is meant to return when its own message has
      arrived.  It does so, whatever the network does, if and only if no other receive of the
      endpoint, such as that of another async_accept, is outstanding when it is called. */
  lemma {:induction false} RecvTakesOwnIff(s: State, e: Step)
    requires Inv(s) && (e.StartRecv? || e.WaitAccept?) && Enabled(s, e) && AloneInv(s.ends[e.p])
    requires forall i :: 0 <= i < |s.ends[e.p].posts| && s.ends[e.p].posts[i].from.Some? ==>
               s.ends[e.p].posts[i].from.value < |s.ends|
    ensures CanTakeForeign(s, e) <==> !Alone(s.ends[e.p], Own(s.ends[e.p], e))
  {
    if Alone(s.ends[e.p], Own(s.ends[e.p], e)) {
      AloneTakesOwn(s, e);
    } else {
      var run, other := ForeignCall(s, e);
      assert NoReturn(e.p, run);
    }
  }

  lemma {:induction false} BeginsAlone(s: State, e: Step)
    requires Inv(s) && (e.StartRecv? || e.WaitAccept?) && Enabled(s, e)
    requires Alone(s.ends[e.p], Own(s.ends[e.p], e))
    ensures var n', own := Apply(s, e).ends[e.p], Own(s.ends[e.p], e);
            n'.call == Some(Waiting(own, true)) && Alone(n', own)
  {
    var n, n', own := s.ends[e.p], Apply(s, e).ends[e.p], Own(s.ends[e.p], e);
    assert EndInv(n, e.p);
    forall id | 0 <= id < |n'.posts| && id != own ensures !Outstanding(n', id) {
      assert !Outstanding(n, id);
    }
  }

  lemma {:induction false} WithoutFirst(s: State, e: Step, run: seq<Step>, last: Step)
    requires Enabled(s, e) && ValidRun(s, [e] + run + [last])
    ensures ValidRun(Apply(s, e), run + [last])
  {
    assert ([e] + run + [last])[1..] == run + [last];
  }

  lemma {:induction false} AloneTakesOwn(s: State, e: Step)
    requires Inv(s) && (e.StartRecv? || e.WaitAccept?) && Enabled(s, e) && AloneInv(s.ends[e.p])
    requires Alone(s.ends[e.p], Own(s.ends[e.p], e))
    ensures !CanTakeForeign(s, e)
  {
    var p, own, s1 := e.p, Own(s.ends[e.p], e), Apply(s, e);
    BeginsAlone(s, e);
    StepKeepsInv(s, e);
    StepKeepsAlone(s, e, p);
    forall run, id | NoReturn(p, run) && ValidRun(s, [e] + run + [Return(p, id)]) ensures id == own {
      WithoutFirst(s, e, run, Return(p, id));
      AloneUntilReturn(s1, run, p, own, Return(p, id));
    }
  }

  lemma {:induction false} StaysOutstanding(n: End, e: Step, other: nat)
    requires (e.StartRecv? || e.WaitAccept?) && Outstanding(n, other)
    ensures Outstanding(EndStep(n, e), other) && EndStep(n, e).posts[other] == n.posts[other]
  {
  }

  lemma {:induction false} ForeignCall(s: State, e: Step) returns (run: seq<Step>, other: nat)
    requires Inv(s) && (e.StartRecv? || e.WaitAccept?) && Enabled(s, e)
    requires !Alone(s.ends[e.p], Own(s.ends[e.p], e))
    requires forall i :: 0 <= i < |s.ends[e.p].posts| && s.ends[e.p].posts[i].from.Some? ==>
               s.ends[e.p].posts[i].from.value < |s.ends|
    ensures NoReturn(e.p, run) && other != Own(s.ends[e.p], e)
    ensures ValidRun(s, [e] + run + [Return(e.p, other)])
  {
    var p, n, s1 := e.p, s.ends[e.p], Apply(s, e);
    assert EndInv(n, p);
    StepKeepsInv(s, e);
    other :| other < |n.posts| && other != Own(n, e) && Outstanding(n, other);
    StaysOutstanding(n, e, other);
    run := ForeignReturn(s1, p, other);
    Prepend(s, e, run + [Return(p, other)]);
    assert [e] + (run + [Return(p, other)]) == [e] + run + [Return(p, other)];
  }
}
