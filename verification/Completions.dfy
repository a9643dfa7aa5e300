/**
 Accounting of transmit completions on one Connection.

 Sends and RMA operations share one completion queue.  When its `polls` are used up inside
 a call the run observed so far ends there, and the call is Blocked.
 */
module Completions {
  import opened Common
  import opened CompletionQueue
  import opened Totals

  datatype Kind = SendOp | WriteOp | ReadOp

  datatype Op = Op(kind: Kind, payload: Message)

  /** msgSends is the source's msg_sends; refused counts the async_send posts that the
      provider refused, swallowed the error entries that try_wait_for_sends consumed. */
  datatype Tx = Tx(msgSends: nat, refused: nat, swallowed: nat, queue: Queue<Op>, status: Status)

  function NewTx(posts: seq<bool>, polls: seq<Poll>): Tx {
    Tx(0, 0, 0, NewQueue(posts, polls), Running)
  }

  // --------------------------------------------------------------------- specification

  function AsyncSend(t: Tx, m: Message, offset: nat): Tx {
    if !t.status.Running? then t
    else if |m.bytes| + offset > MAX_MSG_SIZE then t.(status := Exited)
    else t.(msgSends := (t.msgSends + 1) % UINT64,
            refused := if Accepts(t.queue) then t.refused else t.refused + 1,
            queue := Post(t.queue, Op(SendOp, m)))
  }

  function WaitForSends(t: Tx): Tx
    decreases |t.queue.polls|
  {
    if !t.status.Running? || t.msgSends == 0 then t
    else match ReadQueue(t.queue)
      case (q, Completed) => WaitForSends(t.(msgSends := t.msgSends - 1, queue := q))
      case (q, Failed) => t.(queue := q, status := Exited)
      case (q, Pending) => t.(queue := q, status := Blocked)
  }

  function Send(t: Tx, m: Message, offset: nat): Tx {
    WaitForSends(AsyncSend(t, m, offset))
  }

  /** The int that receives ERRREPORT's bool is 1 or 0, so the test for a negative value
      never holds and an error entry only costs the loop one more read. */
  function TryWaitForSends(t: Tx): Tx
    decreases |t.queue.polls|
  {
    if !t.status.Running? || t.msgSends == 0 then t
    else match ReadQueue(t.queue)
      case (q, Completed) => TryWaitForSends(t.(msgSends := t.msgSends - 1, queue := q))
      case (q, Failed) => TryWaitForSends(t.(swallowed := t.swallowed + 1, queue := q))
      case (q, Pending) => t.(queue := q, status := Blocked)
  }

  /** The state after the first iteration of try_wait_for_sends that read an entry. */
  function TryWaitNext(t: Tx): Tx
    requires t.msgSends > 0
  {
    var (q, reading) := ReadQueue(t.queue);
    if reading.Completed? then t.(msgSends := t.msgSends - 1, queue := q)
    else t.(swallowed := t.swallowed + 1, queue := q)
  }

  /** write and read: post, then read one entry, whichever operation it belongs to. */
  function Rma(t: Tx, op: Op): Tx {
    if !t.status.Running? then t
    else if !Accepts(t.queue) then t.(queue := Post(t.queue, op), status := Exited)
    else match ReadQueue(Post(t.queue, op))
      case (q, Completed) => t.(queue := q)
      case (q, Failed) => t.(queue := q, status := Exited)
      case (q, Pending) => t.(queue := q, status := Blocked)
  }

  /** try_write and try_read, with their result. */
  function TryRma(t: Tx, op: Op): (Tx, bool) {
    if !t.status.Running? then (t, false)
    else if !Accepts(t.queue) then (t.(queue := Post(t.queue, op)), false)
    else match ReadQueue(Post(t.queue, op))
      case (q, Completed) => (t.(queue := q), true)
      case (q, Failed) => (t.(queue := q), false)
      case (q, Pending) => (t.(queue := q, status := Blocked), false)
  }

  datatype Call =
    | CallAsyncSend(m: Message, offset: nat)
    | CallSend(m: Message, offset: nat)
    | CallWaitForSends
    | CallTryWaitForSends
    | CallRma(op: Op)
    | CallTryRma(op: Op)

  function Do(t: Tx, c: Call): Tx {
    match c
    case CallAsyncSend(m, offset) => AsyncSend(t, m, offset)
    case CallSend(m, offset) => Send(t, m, offset)
    case CallWaitForSends => WaitForSends(t)
    case CallTryWaitForSends => TryWaitForSends(t)
    case CallRma(op) => Rma(t, op)
    case CallTryRma(op) => TryRma(t, op).0
  }

  function DoAll(t: Tx, calls: seq<Call>): Tx
    decreases |calls|
  {
    if calls == [] then t else DoAll(Do(t, calls[0]), calls[1..])
  }

  // ---------------------------------------------------------------------- conservation

  /** Transmit operations posted and not yet reaped, plus the failed async_send posts,
      plus the error entries that try_wait_for_sends swallowed. */
  function Owed(t: Tx): nat {
    |t.queue.outstanding| + t.refused + t.swallowed
  }

  ghost predicate Inv(t: Tx) {
    QueueInv(t.queue) && (t.status.Running? ==> t.msgSends == Owed(t) % UINT64)
  }

  lemma {:induction false} ModStep(a: nat, m: nat)
    requires m == a % UINT64
    ensures (m + 1) % UINT64 == (a + 1) % UINT64
    ensures m > 0 ==> a > 0 && m - 1 == (a - 1) % UINT64
  {
  }

  lemma {:induction false} AsyncSendKeepsInv(t: Tx, m: Message, offset: nat)
    requires Inv(t)
    ensures Inv(AsyncSend(t, m, offset))
  {
    PostEffect(t.queue, Op(SendOp, m));
    if t.status.Running? {
      ModStep(Owed(t), t.msgSends);
    }
  }

  /** One iteration of either wait that read an entry. */
  lemma {:induction false} ReapKeepsInv(t: Tx)
    requires Inv(t) && t.status.Running? && t.msgSends > 0
    ensures var (q, reading) := ReadQueue(t.queue);
            && QueueInv(q)
            && (reading.Completed? ==> Inv(t.(msgSends := t.msgSends - 1, queue := q)))
            && (reading.Failed? ==> Inv(t.(swallowed := t.swallowed + 1, queue := q)))
  {
    ReadEffect(t.queue);
    ModStep(Owed(t), t.msgSends);
    var (q, reading) := ReadQueue(t.queue);
    if reading.Completed? {
      assert Owed(t.(msgSends := t.msgSends - 1, queue := q)) == Owed(t) - 1;
    } else if reading.Failed? {
      assert Owed(t.(swallowed := t.swallowed + 1, queue := q)) == Owed(t);
    }
  }

  lemma {:induction false} WaitKeepsInv(t: Tx)
    requires Inv(t)
    ensures Inv(WaitForSends(t))
    decreases |t.queue.polls|
  {
    if t.status.Running? && t.msgSends > 0 {
      ReapKeepsInv(t);
      var (q, reading) := ReadQueue(t.queue);
      if reading.Completed? {
        WaitKeepsInv(t.(msgSends := t.msgSends - 1, queue := q));
      }
    }
  }

  lemma {:induction false} TryWaitKeepsInv(t: Tx)
    requires Inv(t)
    ensures Inv(TryWaitForSends(t))
    decreases |t.queue.polls|
  {
    if t.status.Running? && t.msgSends > 0 {
      ReapKeepsInv(t);
      if !ReadQueue(t.queue).1.Pending? {
        TryWaitKeepsInv(TryWaitNext(t));
      }
    }
  }

  /** An RMA call posts one operation and reaps one, not always the same. */
  lemma {:induction false} RmaKeepsInv(t: Tx, op: Op)
    requires Inv(t)
    ensures Inv(Rma(t, op)) && Inv(TryRma(t, op).0)
  {
    PostEffect(t.queue, op);
    ReadEffect(Post(t.queue, op));
  }

  lemma {:induction false} CallKeepsInv(t: Tx, c: Call)
    requires Inv(t)
    ensures Inv(Do(t, c))
  {
    match c
    case CallAsyncSend(m, offset) => AsyncSendKeepsInv(t, m, offset);
    case CallSend(m, offset) =>
      AsyncSendKeepsInv(t, m, offset);
      WaitKeepsInv(AsyncSend(t, m, offset));
    case CallWaitForSends => WaitKeepsInv(t);
    case CallTryWaitForSends => TryWaitKeepsInv(t);
    case CallRma(op) => RmaKeepsInv(t, op);
    case CallTryRma(op) => RmaKeepsInv(t, op);
  }

  lemma {:induction false} CallsKeepInv(t: Tx, calls: seq<Call>)
    requires Inv(t)
    ensures Inv(DoAll(t, calls))
    decreases |calls|
  {
    if calls != [] {
      CallKeepsInv(t, calls[0]);
      CallsKeepInv(Do(t, calls[0]), calls[1..]);
    }
  }

  /** Completion conservation: after any calls, in any order, and whatever the provider
      did, msg_sends is the number of operations owed, as a 64-bit counter. */
  lemma {:induction false} CompletionConservation(posts: seq<bool>, polls: seq<Poll>, calls: seq<Call>)
    ensures var t := DoAll(NewTx(posts, polls), calls);
            t.status.Running? ==> t.msgSends == (|t.queue.outstanding| + t.refused + t.swallowed) % UINT64
  {
    CallsKeepInv(NewTx(posts, polls), calls);
  }

  // ------------------------------------------------------- what a returning wait implies

  /** The counter has not wrapped. */
  predicate InRange(t: Tx) {
    Owed(t) < UINT64
  }

  /** One iteration of a wait that returns. */
  lemma {:induction false} WaitStep(t: Tx)
    requires Inv(t) && t.status.Running? && InRange(t) && t.msgSends > 0 && WaitForSends(t).status.Running?
    ensures ReadQueue(t.queue).1.Completed?
    ensures var t1 := t.(msgSends := t.msgSends - 1, queue := ReadQueue(t.queue).0);
            && Inv(t1) && InRange(t1) && WaitForSends(t) == WaitForSends(t1) && t1.queue.ops == t.queue.ops
            && t1.queue.outstanding + t1.queue.delivered == t.queue.outstanding + t.queue.delivered
  {
    ReadEffect(t.queue);
    assert ReadQueue(t.queue).1.Completed?;
    ModStep(Owed(t), t.msgSends);
  }

  /** When wait_for_sends returns, every transmit operation ever posted was reaped, the
      ones it waited for completed successfully, and no async_send post had failed. */
  lemma {:induction false} WaitReturned(t: Tx)
    requires Inv(t) && t.status.Running? && InRange(t) && WaitForSends(t).status.Running?
    ensures t.refused == 0 && t.swallowed == 0
    ensures var r := WaitForSends(t);
            && r.msgSends == 0 && r.refused == 0 && r.swallowed == 0
            && r.queue.ops == t.queue.ops && r.queue.outstanding == {}
            && r.queue.delivered == t.queue.delivered + t.queue.outstanding
    decreases |t.queue.polls|
  {
    if t.msgSends == 0 {
      assert |t.queue.outstanding| == 0;
    } else {
      WaitStep(t);
      WaitReturned(t.(msgSends := t.msgSends - 1, queue := ReadQueue(t.queue).0));
    }
  }

  /** When send returns, the message and every message of an earlier async_send went out:
      nothing is outstanding and no earlier post had failed. */
  lemma {:induction false} SendReturned(t: Tx, m: Message, offset: nat)
    requires Inv(t) && t.status.Running? && Owed(t) + 1 < UINT64
    requires Send(t, m, offset).status.Running?
    ensures |m.bytes| + offset <= MAX_MSG_SIZE && t.refused == 0 && t.swallowed == 0 && Accepts(t.queue)
    ensures var r := Send(t, m, offset);
            && r.msgSends == 0 && r.refused == 0 && r.swallowed == 0
            && r.queue.ops == t.queue.ops + [Op(SendOp, m)] && r.queue.outstanding == {}
            && r.queue.delivered == t.queue.delivered + t.queue.outstanding + {|t.queue.ops|}
  {
    var u := AsyncSend(t, m, offset);
    AsyncSendKeepsInv(t, m, offset);
    PostEffect(t.queue, Op(SendOp, m));
    WaitReturned(u);
  }

  /** After any calls: whenever a send returns, every transmit operation ever posted on
      the connection has been reaped, so every buffer handed out before is reusable. */
  lemma {:induction false} SendReturnedAfterCalls(posts: seq<bool>, polls: seq<Poll>, calls: seq<Call>,
      m: Message, offset: nat)
    requires var t := DoAll(NewTx(posts, polls), calls);
             t.status.Running? && Owed(t) + 1 < UINT64 && Send(t, m, offset).status.Running?
    ensures var r := DoAll(NewTx(posts, polls), calls + [CallSend(m, offset)]);
            && r.queue.outstanding == {} && r.refused == 0 && r.msgSends == 0
            && |r.queue.ops| > 0 && |r.queue.ops| - 1 in r.queue.delivered
            && r.queue.ops[|r.queue.ops| - 1] == Op(SendOp, m)
  {
    var t := DoAll(NewTx(posts, polls), calls);
    CallsKeepInv(NewTx(posts, polls), calls);
    DoAllAppend(NewTx(posts, polls), calls, CallSend(m, offset));
    SendLastOp(t, m, offset);
  }

  lemma {:induction false} SendLastOp(t: Tx, m: Message, offset: nat)
    requires Inv(t) && t.status.Running? && Owed(t) + 1 < UINT64 && Send(t, m, offset).status.Running?
    ensures var r := Send(t, m, offset);
            && r.queue.outstanding == {} && r.refused == 0 && r.msgSends == 0
            && |r.queue.ops| > 0 && |r.queue.ops| - 1 in r.queue.delivered
            && r.queue.ops[|r.queue.ops| - 1] == Op(SendOp, m)
  {
    SendReturned(t, m, offset);
  }

  lemma {:induction false} DoAllAppend(t: Tx, calls: seq<Call>, c: Call)
    ensures DoAll(t, calls + [c]) == Do(DoAll(t, calls), c)
    decreases |calls|
  {
    if calls == [] {
      assert calls + [c] == [c] && [c][1..] == [];
    } else {
      assert (calls + [c])[1..] == calls[1..] + [c];
      DoAllAppend(Do(t, calls[0]), calls[1..], c);
    }
  }

  lemma {:induction false} TryWaitStep(t: Tx)
    requires Inv(t) && t.status.Running? && InRange(t) && t.msgSends > 0 && !ReadQueue(t.queue).1.Pending?
    ensures Inv(TryWaitNext(t)) && InRange(TryWaitNext(t))
    ensures TryWaitForSends(t) == TryWaitForSends(TryWaitNext(t))
  {
    ReadEffect(t.queue);
    ModStep(Owed(t), t.msgSends);
  }

  /** try_wait_for_sends returns only when it met no error entry, and then it did exactly
      what wait_for_sends does. */
  lemma {:induction false} TryWaitReturned(t: Tx)
    requires Inv(t) && t.status.Running? && InRange(t) && TryWaitForSends(t).status.Running?
    ensures TryWaitForSends(t) == WaitForSends(t)
    ensures t.swallowed == 0 && t.refused == 0
    decreases |t.queue.polls|
  {
    if t.msgSends > 0 {
      TryWaitStep(t);
      TryWaitReturned(TryWaitNext(t));
    }
  }

  /** The converse: if wait_for_sends returns, try_wait_for_sends does the same. */
  lemma {:induction false} WaitReturnsTryWait(t: Tx)
    requires t.status.Running? && WaitForSends(t).status.Running?
    ensures TryWaitForSends(t) == WaitForSends(t)
    decreases |t.queue.polls|
  {
    if t.msgSends > 0 {
      WaitReturnsTryWait(t.(msgSends := t.msgSends - 1, queue := ReadQueue(t.queue).0));
    }
  }

  lemma {:induction false} TryWaitReturnsOrBlocks(t: Tx)
    requires t.status.Running?
    ensures TryWaitForSends(t).status.Running? || TryWaitForSends(t).status.Blocked?
    decreases |t.queue.polls|
  {
    if t.msgSends > 0 && !ReadQueue(t.queue).1.Pending? {
      TryWaitReturnsOrBlocks(TryWaitNext(t));
    }
  }

  /** try_wait_for_sends is documented as returning true on success.  On every behaviour of
      the provider it returns, then with true, if and only if wait_for_sends does; where
      wait_for_sends ends the process for an error, it waits forever. */
  lemma {:induction false} TryWaitReturnsIff(t: Tx)
    requires Inv(t) && t.status.Running? && InRange(t)
    ensures TryWaitForSends(t).status.Running? <==> WaitForSends(t).status.Running?
    ensures TryWaitForSends(t).status.Running? ==> TryWaitForSends(t) == WaitForSends(t)
    ensures WaitForSends(t).status.Exited? ==> TryWaitForSends(t).status.Blocked?
  {
    if TryWaitForSends(t).status.Running? {
      TryWaitReturned(t);
    }
    if WaitForSends(t).status.Running? {
      WaitReturnsTryWait(t);
    }
    TryWaitReturnsOrBlocks(t);
  }

  // ------------------------------------------------------------ when the waits terminate

  function WithPolls(t: Tx, polls: seq<Poll>): Tx {
    t.(queue := t.queue.(polls := polls))
  }

  /** What the next n reads of the queue find, one after the other, until one finds nothing. */
  function Readings(q: Queue<Op>, n: nat): seq<Reading>
    decreases n
  {
    if n == 0 then []
    else
      var (r, reading) := ReadQueue(q);
      [reading] + if reading.Pending? then [] else Readings(r, n - 1)
  }

  predicate AllCompleted(rs: seq<Reading>) {
    forall k :: 0 <= k < |rs| ==> rs[k].Completed?
  }

  /** The first reading that is no success is r. */
  predicate FirstOther(rs: seq<Reading>, r: Reading) {
    exists k :: 0 <= k < |rs| && rs[k] == r && AllCompleted(rs[..k])
  }

  lemma {:induction false} AllOfMore(reading: Reading, rest: seq<Reading>)
    ensures AllCompleted([reading] + rest) <==> reading.Completed? && AllCompleted(rest)
  {
    var rs := [reading] + rest;
    if AllCompleted(rs) {
      assert rs[0] == reading && forall k :: 0 <= k < |rest| ==> rs[k + 1] == rest[k];
    }
  }

  lemma {:induction false} FirstOfMore(reading: Reading, rest: seq<Reading>, r: Reading)
    requires !r.Completed?
    ensures var rs := [reading] + rest;
            FirstOther(rs, r) <==> if reading.Completed? then FirstOther(rest, r) else reading == r
  {
    var rs := [reading] + rest;
    if k :| 0 <= k < |rs| && rs[k] == r && AllCompleted(rs[..k]) {
      if k > 0 {
        assert rs[..k][0] == reading;
        assert rest[..k - 1] == rs[..k][1..];
      }
    }
    if !reading.Completed? {
      assert AllCompleted(rs[..0]);
    } else if k :| 0 <= k < |rest| && rest[k] == r && AllCompleted(rest[..k]) {
      assert rs[k + 1] == r && rs[..k + 1] == [reading] + rest[..k];
    }
  }

  /** What the first reading that is no success makes of a wait. */
  function Verdict(rs: seq<Reading>): Status {
    if rs == [] then Running
    else match rs[0]
      case Completed => Verdict(rs[1..])
      case Failed => Exited
      case Pending => Blocked
  }

  lemma {:induction false} VerdictMeans(rs: seq<Reading>)
    ensures Verdict(rs).Running? <==> AllCompleted(rs)
    ensures Verdict(rs).Exited? <==> FirstOther(rs, Failed)
    ensures Verdict(rs).Blocked? <==> FirstOther(rs, Pending)
    decreases |rs|
  {
    if rs != [] {
      assert rs == [rs[0]] + rs[1..];
      AllOfMore(rs[0], rs[1..]);
      FirstOfMore(rs[0], rs[1..], Failed);
      FirstOfMore(rs[0], rs[1..], Pending);
      VerdictMeans(rs[1..]);
    }
  }

  lemma {:induction false} WaitVerdict(t: Tx)
    requires t.status.Running?
    ensures WaitForSends(t).status == Verdict(Readings(t.queue, t.msgSends))
    decreases |t.queue.polls|
  {
    if t.msgSends > 0 {
      var (q, reading) := ReadQueue(t.queue);
      if reading.Completed? {
        WaitVerdict(t.(msgSends := t.msgSends - 1, queue := q));
      }
    }
  }

  /** wait_for_sends reads as many entries as it counts.  It returns exactly if all of them
      are successes, ends the process exactly if the first one that is not is an error, and
      waits exactly if the queue yields too few. */
  lemma {:induction false} WaitOutcome(t: Tx)
    requires t.status.Running?
    ensures var rs := Readings(t.queue, t.msgSends);
            && (WaitForSends(t).status.Running? <==> AllCompleted(rs))
            && (WaitForSends(t).status.Exited? <==> FirstOther(rs, Failed))
            && (WaitForSends(t).status.Blocked? <==> FirstOther(rs, Pending))
  {
    WaitVerdict(t);
    VerdictMeans(Readings(t.queue, t.msgSends));
  }

  /** Every outstanding operation completes successfully within the polls. */
  ghost predicate Fair(q: Queue<Op>) {
    && (forall id :: id in q.outstanding ==> Done(id) in q.polls)
    && (forall id :: id in q.outstanding ==> Fault(id) !in q.polls)
  }

  lemma {:induction false} FairRead(q: Queue<Op>)
    requires Fair(q) && q.outstanding != {}
    ensures ReadQueue(q).1.Completed? && Fair(ReadQueue(q).0)
    decreases |q.polls|
  {
    var id :| id in q.outstanding;
    assert Done(id) in q.polls;
    var poll, rest := q.polls[0], q.(polls := q.polls[1..]);
    assert q.polls == [poll] + rest.polls;
    if poll.Done? && poll.id in q.outstanding {
    } else {
      assert poll.Fault? ==> poll.id !in q.outstanding;
      FairRead(rest);
    }
  }

  lemma {:induction false} FairStep(t: Tx)
    requires Inv(t) && t.status.Running? && InRange(t) && t.msgSends > 0
    requires t.refused == 0 && t.swallowed == 0 && Fair(t.queue)
    ensures ReadQueue(t.queue).1.Completed?
    ensures var t1 := t.(msgSends := t.msgSends - 1, queue := ReadQueue(t.queue).0);
            Inv(t1) && InRange(t1) && Fair(t1.queue)
  {
    var q := t.queue;
    assert Owed(t) == |q.outstanding| && Owed(t) > 0;
    assert q.outstanding != {};
    ReadEffect(q);
    FairRead(q);
    ModStep(Owed(t), t.msgSends);
    var t1 := t.(msgSends := t.msgSends - 1, queue := ReadQueue(q).0);
    assert Owed(t1) == Owed(t) - 1;
  }

  /** If no post failed and every operation completes successfully, however late and in
      whatever order, wait_for_sends returns. */
  lemma {:induction false} WaitTerminates(t: Tx)
    requires Inv(t) && t.status.Running? && InRange(t)
    requires t.refused == 0 && t.swallowed == 0 && Fair(t.queue)
    ensures WaitForSends(t).status.Running?
    decreases |t.queue.polls|
  {
    if t.msgSends > 0 {
      FairStep(t);
      WaitTerminates(t.(msgSends := t.msgSends - 1, queue := ReadQueue(t.queue).0));
    }
  }

  lemma {:induction false} FairPollsExist(outstanding: set<nat>) returns (polls: seq<Poll>)
    ensures forall id :: id in outstanding ==> Done(id) in polls
    ensures forall i :: 0 <= i < |polls| ==> polls[i].Done?
    decreases |outstanding|
  {
    if outstanding == {} {
      polls := [];
    } else {
      var id :| id in outstanding;
      var rest := FairPollsExist(outstanding - {id});
      polls := [Done(id)] + rest;
    }
  }

  /** wait_for_sends is documented as blocking until the sends are complete.  It can
      return, under some behaviour of the provider, if and only if no async_send post has
      failed and try_wait_for_sends has swallowed no error; otherwise it waits forever. */
  lemma {:induction false} WaitCanReturnIff(t: Tx)
    requires Inv(t) && t.status.Running? && InRange(t)
    ensures (exists polls :: WaitForSends(WithPolls(t, polls)).status.Running?) <==> t.refused == 0 && t.swallowed == 0
  {
    if polls :| WaitForSends(WithPolls(t, polls)).status.Running? {
      WaitReturned(WithPolls(t, polls));
    }
    if t.refused == 0 && t.swallowed == 0 {
      var polls := FairPollsExist(t.queue.outstanding);
      WaitTerminates(WithPolls(t, polls));
      assert WaitForSends(WithPolls(t, polls)).status.Running?;
    }
  }

  /** The same condition for try_wait_for_sends. */
  lemma {:induction false} TryWaitCanReturnIff(t: Tx)
    requires Inv(t) && t.status.Running? && InRange(t)
    ensures (exists polls :: TryWaitForSends(WithPolls(t, polls)).status.Running?) <==> t.refused == 0 && t.swallowed == 0
  {
    WaitCanReturnIff(t);
    if polls :| TryWaitForSends(WithPolls(t, polls)).status.Running? {
      TryWaitReturnsIff(WithPolls(t, polls));
    }
    if polls :| WaitForSends(WithPolls(t, polls)).status.Running? {
      TryWaitReturnsIff(WithPolls(t, polls));
      assert TryWaitForSends(WithPolls(t, polls)).status.Running?;
    }
  }

  /** One send whose completion is an error: wait_for_sends ends the process, and
      try_wait_for_sends, whatever comes next, does not return. */
  lemma {:induction false} FailedSendHangs(m: Message, polls: seq<Poll>)
    requires |m.bytes| <= MAX_MSG_SIZE
    ensures WaitForSends(AsyncSend(NewTx([], [Fault(0)] + polls), m, 0)).status.Exited?
    ensures TryWaitForSends(AsyncSend(NewTx([], [Fault(0)] + polls), m, 0)).status.Blocked?
  {
    var t := AsyncSend(NewTx([], [Fault(0)] + polls), m, 0);
    AsyncSendKeepsInv(NewTx([], [Fault(0)] + polls), m, 0);
    assert t.queue.polls == [Fault(0)] + polls && t.queue.outstanding == {0};
    assert ReadQueue(t.queue).1.Failed?;
    TryWaitReturnsIff(t);
    TryWaitReturnsOrBlocks(t);
  }

  /** One refused async_send, then wait_for_sends: no completion ever balances the count. */
  lemma {:induction false} RefusedPostHangs(m: Message, polls: seq<Poll>)
    requires |m.bytes| <= MAX_MSG_SIZE
    ensures var t := AsyncSend(NewTx([false], polls), m, 0);
            t.msgSends == 1 && t.queue.ops == [] && !WaitForSends(t).status.Running?
  {
    var t := AsyncSend(NewTx([false], polls), m, 0);
    AsyncSendKeepsInv(NewTx([false], polls), m, 0);
    if WaitForSends(t).status.Running? {
      WaitReturned(t);
    }
  }

  /** send can return, under some behaviour of the provider, if and only if its message has
      an admissible size, its own post is accepted, no earlier async_send post has failed,
      and no error was swallowed. */
  lemma {:induction false} SendCanReturnIff(t: Tx, m: Message, offset: nat)
    requires Inv(t) && t.status.Running? && Owed(t) + 1 < UINT64
    ensures (exists polls :: Send(WithPolls(t, polls), m, offset).status.Running?)
            <==> |m.bytes| + offset <= MAX_MSG_SIZE && Accepts(t.queue) && t.refused == 0 && t.swallowed == 0
  {
    if polls :| Send(WithPolls(t, polls), m, offset).status.Running? {
      SendReturned(WithPolls(t, polls), m, offset);
    }
    if |m.bytes| + offset <= MAX_MSG_SIZE && Accepts(t.queue) && t.refused == 0 && t.swallowed == 0 {
      var polls := SendPossible(t, m, offset);
    }
  }

  lemma {:induction false} SendPossible(t: Tx, m: Message, offset: nat) returns (polls: seq<Poll>)
    requires Inv(t) && t.status.Running? && Owed(t) + 1 < UINT64
    requires |m.bytes| + offset <= MAX_MSG_SIZE && Accepts(t.queue) && t.refused == 0 && t.swallowed == 0
    ensures Send(WithPolls(t, polls), m, offset).status.Running?
  {
    var u := AsyncSend(t, m, offset);
    AsyncSendKeepsInv(t, m, offset);
    PostEffect(t.queue, Op(SendOp, m));
    polls := FairPollsExist(u.queue.outstanding);
    WaitTerminates(WithPolls(u, polls));
    assert AsyncSend(WithPolls(t, polls), m, offset) == WithPolls(u, polls);
  }

  // ------------------------------------------------------------- whose completion it was

  /** With nothing outstanding, the entry that is read is the call's own. */
  lemma {:induction false} RmaAlone(t: Tx, op: Op)
    requires Inv(t) && t.status.Running? && Accepts(t.queue) && t.queue.outstanding == {}
    ensures Rma(t, op).status.Running? ==> |t.queue.ops| in Rma(t, op).queue.delivered
    ensures var (r, ok) := TryRma(t, op);
            r.status.Running? ==> r.queue.outstanding == {} && (ok <==> |t.queue.ops| in r.queue.delivered)
  {
    var q := Post(t.queue, op);
    PostEffect(t.queue, op);
    ReadEffect(q);
    assert q.outstanding == {|t.queue.ops|};
  }

  /** write and read are documented as blocking until completion.  A returning call has
      reaped its own operation, whatever the provider does, if and only if nothing was
      outstanding when it was called. */
  lemma {:induction false} RmaReapsItselfIff(t: Tx, op: Op)
    requires Inv(t) && t.status.Running? && Accepts(t.queue)
    ensures (forall polls :: var r := Rma(WithPolls(t, polls), op);
                             r.status.Running? ==> |t.queue.ops| in r.queue.delivered)
            <==> t.queue.outstanding == {}
  {
    var own := |t.queue.ops|;
    if t.queue.outstanding == {} {
      forall polls | Rma(WithPolls(t, polls), op).status.Running?
        ensures own in Rma(WithPolls(t, polls), op).queue.delivered
      {
        RmaAlone(WithPolls(t, polls), op);
      }
    } else {
      var id :| id in t.queue.outstanding;
      var r := Rma(WithPolls(t, [Done(id)]), op);
      assert r.status.Running? && own !in r.queue.delivered;
    }
  }

  /** A returning write or read was posted, and one outstanding operation, perhaps an older
      one, completed during the call.  A refused post and a failed completion end the process. */
  lemma {:induction false} RmaOutcome(t: Tx, op: Op)
    requires QueueInv(t.queue) && t.status.Running?
    ensures var r := Rma(t, op);
            && (r.status.Running? ==> Accepts(t.queue))
            && (r.status.Exited? <==> !Accepts(t.queue) || ReadQueue(Post(t.queue, op)).1.Failed?)
            && r.queue.ops == (if Accepts(t.queue) then t.queue.ops + [op] else t.queue.ops)
            && r.msgSends == t.msgSends
            && |r.queue.delivered| == |t.queue.delivered| + if r.status.Running? then 1 else 0
  {
    var q := Post(t.queue, op);
    PostEffect(t.queue, op);
    ReadEffect(q);
    DeliveredByRead(q);
  }

  lemma {:induction false} DeliveredByRead(q: Queue<Op>)
    requires QueueInv(q)
    ensures var (r, reading) := ReadQueue(q);
            |r.delivered| == |q.delivered| + if reading.Completed? then 1 else 0
    decreases |q.polls|
  {
    if q.polls != [] {
      var poll := q.polls[0];
      if poll.Again? || poll.id !in q.outstanding {
        DeliveredByRead(q.(polls := q.polls[1..]));
      } else if poll.Done? {
        assert poll.id !in q.delivered;
      }
    }
  }

  /** The result of try_write and try_read: true exactly if the post was accepted and one
      outstanding operation completed during the call.  A refused post gives false, and then
      nothing was posted and the connection goes on as before. */
  lemma {:induction false} TryRmaOutcome(t: Tx, op: Op)
    requires QueueInv(t.queue) && t.status.Running?
    ensures var (r, ok) := TryRma(t, op);
            && (ok ==> Accepts(t.queue) && r.status.Running?)
            && (!Accepts(t.queue) ==> !ok && r.status.Running? && r.queue.outstanding == t.queue.outstanding)
            && !r.status.Exited?
            && r.queue.ops == (if Accepts(t.queue) then t.queue.ops + [op] else t.queue.ops)
            && r.msgSends == t.msgSends
            && |r.queue.delivered| == |t.queue.delivered| + if ok then 1 else 0
  {
    var q := Post(t.queue, op);
    PostEffect(t.queue, op);
    ReadEffect(q);
    DeliveredByRead(q);
  }

  /** What a call means that returns on a consistent connection: async_send hands its message
      to an accepting provider; send and both waits leave nothing outstanding and the counter
      at 0; the RMA calls post their own operation and reap one. */
  lemma {:induction false} CallOutcome(t: Tx, c: Call)
    requires Inv(t) && t.status.Running? && Owed(t) + 1 < UINT64 && Do(t, c).status.Running?
    ensures var r, q := Do(t, c), t.queue;
            match c
            case CallAsyncSend(m, offset) =>
              && |m.bytes| + offset <= MAX_MSG_SIZE && r.queue.delivered == q.delivered
              && r.queue.ops == (if Accepts(q) then q.ops + [Op(SendOp, m)] else q.ops)
            case CallSend(m, _) =>
              r.queue.ops == q.ops + [Op(SendOp, m)] && r.queue.outstanding == {} && r.msgSends == 0
            case CallWaitForSends => r.queue.ops == q.ops && r.queue.outstanding == {} && r.msgSends == 0
            case CallTryWaitForSends => r.queue.ops == q.ops && r.queue.outstanding == {} && r.msgSends == 0
            case CallRma(op) =>
              r.queue.ops == q.ops + [op] && |r.queue.delivered| == |q.delivered| + 1 && r.msgSends == t.msgSends
            case CallTryRma(op) =>
              && r.queue.ops == (if Accepts(q) then q.ops + [op] else q.ops) && r.msgSends == t.msgSends
              && |r.queue.delivered| == |q.delivered| + if TryRma(t, op).1 then 1 else 0
  {
    match c
    case CallAsyncSend(_, _) =>
    case CallSend(m, offset) => SendReturned(t, m, offset);
    case CallWaitForSends => WaitReturned(t);
    case CallTryWaitForSends =>
      TryWaitReturned(t);
      WaitReturned(t);
    case CallRma(op) => RmaOutcome(t, op);
    case CallTryRma(op) => TryRmaOutcome(t, op);
  }

  /** try_write and try_read are documented as returning true on success.  The result of a
      returning call says whether its own operation completed, whatever the provider does,
      if and only if nothing was outstanding when it was called. */
  lemma {:induction false} TryRmaTellsIff(t: Tx, op: Op)
    requires Inv(t) && t.status.Running? && Accepts(t.queue)
    ensures (forall polls :: var (r, ok) := TryRma(WithPolls(t, polls), op);
                             r.status.Running? ==> (ok <==> |t.queue.ops| in r.queue.delivered))
            <==> t.queue.outstanding == {}
  {
    var own := |t.queue.ops|;
    if t.queue.outstanding == {} {
      forall polls | TryRma(WithPolls(t, polls), op).0.status.Running?
        ensures TryRma(WithPolls(t, polls), op).1 <==> own in TryRma(WithPolls(t, polls), op).0.queue.delivered
      {
        RmaAlone(WithPolls(t, polls), op);
      }
    } else {
      var id :| id in t.queue.outstanding;
      var (r, ok) := TryRma(WithPolls(t, [Done(id)]), op);
      assert r.status.Running? && ok && own !in r.queue.delivered;
    }
  }

  /** With a send outstanding, a true can come while the write is still under way, and a
      false although the write then completes. */
  lemma {:induction false} TryRmaMisleads(m: Message, op: Op)
    requires |m.bytes| <= MAX_MSG_SIZE
    ensures var (r, ok) := TryRma(AsyncSend(NewTx([], [Done(0)]), m, 0), op);
            r.status.Running? && ok && r.queue.outstanding == {1} && 1 !in r.queue.delivered
    ensures var (r, ok) := TryRma(AsyncSend(NewTx([], [Fault(0), Done(1)]), m, 0), op);
            r.status.Running? && !ok && r.queue.outstanding == {1} && 1 in ReadQueue(r.queue).0.delivered
  {
    var t := AsyncSend(NewTx([], [Done(0)]), m, 0);
    assert Post(t.queue, op).outstanding == {0, 1};
    assert {0, 1} - {0} == {1};
    var u := AsyncSend(NewTx([], [Fault(0), Done(1)]), m, 0);
    assert Post(u.queue, op).polls == [Fault(0), Done(1)];
    assert [Fault(0), Done(1)][1..] == [Done(1)];
  }

  // ------------------------------------------------------------ what every call preserves

  lemma {:induction false} WaitContinues(t: Tx)
    requires QueueInv(t.queue)
    ensures QueueInv(WaitForSends(t).queue) && Continues(t.queue, WaitForSends(t).queue)
    decreases |t.queue.polls|
  {
    if t.status.Running? && t.msgSends > 0 {
      ReadEffect(t.queue);
      ReadContinues(t.queue);
      var (q, reading) := ReadQueue(t.queue);
      if reading.Completed? {
        var t1 := t.(msgSends := t.msgSends - 1, queue := q);
        WaitContinues(t1);
        ContinuesTrans(t.queue, q, WaitForSends(t1).queue);
      }
    }
  }

  lemma {:induction false} TryWaitContinues(t: Tx)
    requires QueueInv(t.queue)
    ensures QueueInv(TryWaitForSends(t).queue) && Continues(t.queue, TryWaitForSends(t).queue)
    decreases |t.queue.polls|
  {
    if t.status.Running? && t.msgSends > 0 {
      ReadEffect(t.queue);
      ReadContinues(t.queue);
      var (q, reading) := ReadQueue(t.queue);
      if !reading.Pending? {
        var t1 := if reading.Completed? then t.(msgSends := t.msgSends - 1, queue := q)
                  else t.(swallowed := t.swallowed + 1, queue := q);
        TryWaitContinues(t1);
        ContinuesTrans(t.queue, q, TryWaitForSends(t1).queue);
      }
    }
  }

  /** What was delivered stays delivered, whatever calls follow. */
  lemma {:induction false} CallContinues(t: Tx, c: Call)
    requires QueueInv(t.queue)
    ensures QueueInv(Do(t, c).queue) && Continues(t.queue, Do(t, c).queue)
  {
    match c
    case CallAsyncSend(m, _) => PostEffect(t.queue, Op(SendOp, m));
    case CallSend(m, offset) =>
      PostEffect(t.queue, Op(SendOp, m));
      var u := AsyncSend(t, m, offset);
      WaitContinues(u);
      ContinuesTrans(t.queue, u.queue, WaitForSends(u).queue);
    case CallWaitForSends => WaitContinues(t);
    case CallTryWaitForSends => TryWaitContinues(t);
    case CallRma(op) => RmaContinues(t.queue, op);
    case CallTryRma(op) => RmaContinues(t.queue, op);
  }

  lemma {:induction false} RmaContinues(q: Queue<Op>, op: Op)
    requires QueueInv(q)
    ensures var p := Post(q, op);
            QueueInv(p) && Continues(q, p) && QueueInv(ReadQueue(p).0) && Continues(q, ReadQueue(p).0)
  {
    var p := Post(q, op);
    PostEffect(q, op);
    ReadEffect(p);
    ReadContinues(p);
    ContinuesTrans(q, p, ReadQueue(p).0);
  }

  lemma {:induction false} WaitOwes(t: Tx)
    requires QueueInv(t.queue)
    ensures Owed(WaitForSends(t)) <= Owed(t) && Owed(TryWaitForSends(t)) <= Owed(t)
    decreases |t.queue.polls|
  {
    if t.status.Running? && t.msgSends > 0 {
      ReadEffect(t.queue);
      var (q, reading) := ReadQueue(t.queue);
      if reading.Completed? {
        WaitOwes(t.(msgSends := t.msgSends - 1, queue := q));
      } else if reading.Failed? {
        WaitOwes(t.(swallowed := t.swallowed + 1, queue := q));
      }
    }
  }

  /** One call adds at most one to what is owed. */
  lemma {:induction false} CallOwes(t: Tx, c: Call)
    requires QueueInv(t.queue)
    ensures Owed(Do(t, c)) <= Owed(t) + 1
  {
    match c
    case CallAsyncSend(m, _) => PostEffect(t.queue, Op(SendOp, m));
    case CallSend(m, offset) =>
      PostEffect(t.queue, Op(SendOp, m));
      WaitOwes(AsyncSend(t, m, offset));
    case CallWaitForSends => WaitOwes(t);
    case CallTryWaitForSends => WaitOwes(t);
    case CallRma(op) => RmaOwes(t, op);
    case CallTryRma(op) => RmaOwes(t, op);
  }

  lemma {:induction false} RmaOwes(t: Tx, op: Op)
    requires QueueInv(t.queue)
    ensures Owed(Rma(t, op)) <= Owed(t) + 1 && Owed(TryRma(t, op).0) <= Owed(t) + 1
  {
    PostEffect(t.queue, op);
    ReadEffect(Post(t.queue, op));
  }

  // -------------------------------------------------------------- what returning calls leave

  /** A call that swallowed an error never returns. */
  lemma {:induction false} ReturningSwallowsNothing(t: Tx, c: Call)
    requires Inv(t) && Owed(t) + 1 < UINT64 && t.swallowed == 0 && Do(t, c).status.Running?
    ensures Do(t, c).swallowed == 0
  {
    match c
    case CallAsyncSend(_, _) =>
    case CallSend(m, offset) => SendReturned(t, m, offset);
    case CallWaitForSends => WaitReturned(t);
    case CallTryWaitForSends =>
      TryWaitReturned(t);
      WaitReturned(t);
    case CallRma(_) =>
    case CallTryRma(_) =>
  }

  lemma {:induction false} StoppedStays(t: Tx, calls: seq<Call>)
    requires !t.status.Running?
    ensures DoAll(t, calls) == t
    decreases |calls|
  {
    if calls != [] {
      assert Do(t, calls[0]) == t;
      StoppedStays(t, calls[1..]);
    }
  }

  lemma {:induction false} CallsSwallowNothing(t: Tx, calls: seq<Call>)
    requires Inv(t) && t.status.Running? && t.swallowed == 0 && Owed(t) + |calls| < UINT64
    requires DoAll(t, calls).status.Running?
    ensures var r := DoAll(t, calls);
            Inv(r) && r.swallowed == 0 && Owed(r) <= Owed(t) + |calls|
    decreases |calls|
  {
    if calls != [] {
      var t1 := Do(t, calls[0]);
      if !t1.status.Running? {
        StoppedStays(t1, calls[1..]);
      }
      CallKeepsInv(t, calls[0]);
      CallOwes(t, calls[0]);
      ReturningSwallowsNothing(t, calls[0]);
      CallsSwallowNothing(t1, calls[1..]);
    }
  }

  /** As long as fewer than 2^64 calls were made, and whenever all of them have returned: the
      counter is exactly the operations posted and not reaped plus the failed async_send
      posts, and wait_for_sends can return if and only if no async_send post has failed. */
  lemma {:induction false} CounterIsExact(posts: seq<bool>, polls: seq<Poll>, calls: seq<Call>)
    requires |calls| < UINT64 && DoAll(NewTx(posts, polls), calls).status.Running?
    ensures var t := DoAll(NewTx(posts, polls), calls);
            && t.msgSends == |t.queue.outstanding| + t.refused
            && ((exists more :: WaitForSends(WithPolls(t, more)).status.Running?) <==> t.refused == 0)
  {
    var t := DoAll(NewTx(posts, polls), calls);
    CallsSwallowNothing(NewTx(posts, polls), calls);
    WaitCanReturnIff(t);
  }

  // ------------------------------------------------------------------------------- moves

  /** What a move leaves behind: the counter was copied, not reset, but the queue is gone. */
  function MovedFrom(t: Tx): Tx {
    t.(queue := NewQueue([], []), status := Moved)
  }

  /** Any number of connections, which are called, moved into new ones and moved over others. */
  datatype Event =
    | Construct(posts: seq<bool>, polls: seq<Poll>)
    | On(i: nat, c: Call)
    | MoveConstruct(i: nat)
    | MoveAssign(i: nat, j: nat)

  /** Callers do not use a connection that was moved from. */
  predicate Can(txs: seq<Tx>, e: Event) {
    match e
    case Construct(_, _) => true
    case On(i, _) => i < |txs| && txs[i].status.Running?
    case MoveConstruct(i) => i < |txs|
    case MoveAssign(i, j) => i < |txs| && j < |txs|
  }

  function Happen(txs: seq<Tx>, e: Event): seq<Tx>
    requires Can(txs, e)
  {
    match e
    case Construct(posts, polls) => txs + [NewTx(posts, polls)]
    case On(i, c) => txs[i := Do(txs[i], c)]
    case MoveConstruct(i) => txs[i := MovedFrom(txs[i])] + [txs[i]]
    case MoveAssign(i, j) => if i == j then txs else txs[i := txs[j]][j := MovedFrom(txs[j])]
  }

  predicate ValidEvents(txs: seq<Tx>, events: seq<Event>)
    decreases |events|
  {
    events == [] || (Can(txs, events[0]) && ValidEvents(Happen(txs, events[0]), events[1..]))
  }

  function HappenAll(txs: seq<Tx>, events: seq<Event>): seq<Tx>
    requires ValidEvents(txs, events)
    decreases |events|
  {
    if events == [] then txs else HappenAll(Happen(txs, events[0]), events[1..])
  }

  predicate Usable(t: Tx) {
    t.status.Running?
  }

  function UsableFlags(txs: seq<Tx>): (r: seq<nat>)
    ensures |r| == |txs|
  {
    seq(|txs|, i requires 0 <= i < |txs| => if Usable(txs[i]) then 1 else 0)
  }

  /** A move duplicates no connection: the number of usable ones stays, or falls by the one
      that is overwritten, and the target is what the source was. */
  lemma {:induction false} MoveOutcome(txs: seq<Tx>, e: Event)
    requires Can(txs, e) && (e.MoveConstruct? || (e.MoveAssign? && e.i != e.j))
    ensures var r := Happen(txs, e);
            var target := if e.MoveConstruct? then r[|txs|] else r[e.i];
            var source := if e.MoveConstruct? then e.i else e.j;
            && target == txs[source] && !Usable(r[source]) && r[source].queue.outstanding == {}
            && Total(UsableFlags(r)) + (if e.MoveAssign? && Usable(txs[e.i]) then 1 else 0) == Total(UsableFlags(txs))
  {
    var r := Happen(txs, e);
    if e.MoveConstruct? {
      var moved := txs[e.i := MovedFrom(txs[e.i])];
      TotalUpdate(UsableFlags(txs), UsableFlags(moved), e.i);
      assert UsableFlags(r) == UsableFlags(moved) + [if Usable(txs[e.i]) then 1 else 0];
      TotalAppend(UsableFlags(moved), if Usable(txs[e.i]) then 1 else 0);
    } else {
      var taken := txs[e.i := txs[e.j]];
      TotalUpdate(UsableFlags(txs), UsableFlags(taken), e.i);
      TotalUpdate(UsableFlags(taken), UsableFlags(r), e.j);
    }
  }

  ghost predicate AllInv(txs: seq<Tx>) {
    forall i :: 0 <= i < |txs| ==> Inv(txs[i])
  }

  lemma {:induction false} EventsKeepInv(txs: seq<Tx>, events: seq<Event>)
    requires AllInv(txs) && ValidEvents(txs, events)
    ensures AllInv(HappenAll(txs, events))
    decreases |events|
  {
    if events != [] {
      var e := events[0];
      if e.On? {
        CallKeepsInv(txs[e.i], e.c);
      }
      EventsKeepInv(Happen(txs, e), events[1..]);
    }
  }

  /** Completion conservation with moves: after any calls on any connections, in any order,
      with connections moved to new variables and over one another, the counter of every
      usable connection is what its own queue owes. */
  lemma {:induction false} ConservationAcrossMoves(events: seq<Event>, i: nat)
    requires ValidEvents([], events) && i < |HappenAll([], events)|
    ensures var t := HappenAll([], events)[i];
            t.status.Running? ==> t.msgSends == (|t.queue.outstanding| + t.refused + t.swallowed) % UINT64
  {
    EventsKeepInv([], events);
    assert Inv(HappenAll([], events)[i]);
  }
}
