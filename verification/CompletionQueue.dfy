/**
 The transmit side of the provider: posting operations, and reading one completion queue
 that does not tell which operation finished.

 The provider is an environment: `posts` says which of the coming posts it accepts (all,
 once the list is used up) and `polls` what the coming reads of the queue find.  A read
 yields at most one entry; an error entry is consumed by fi_cq_readerr.
 */
module CompletionQueue {

  /** What one fi_cq_read finds: nothing, a completion, or an error entry.  An entry for
      an operation that is not outstanding cannot occur and reads as nothing. */
  datatype Poll = Again | Done(id: nat) | Fault(id: nat)

  /** An operation's id is its index in `ops`. */
  datatype Queue<T> = Queue(
    ops: seq<T>,
    outstanding: set<nat>,  // posted, entry not yet read
    delivered: set<nat>,    // completed successfully and read
    posts: seq<bool>,
    polls: seq<Poll>
  )

  datatype Reading = Completed | Failed | Pending

  /** Blocked: the call waits, as far as the run was observed.  Exited: the process ended in
      exit or _exit.  Moved: the object was moved from and has no queue any more. */
  datatype Status = Running | Blocked | Exited | Moved

  function NewQueue<T>(posts: seq<bool>, polls: seq<Poll>): Queue<T> {
    Queue([], {}, {}, posts, polls)
  }

  predicate Accepts<T>(q: Queue<T>) {
    q.posts == [] || q.posts[0]
  }

  function Post<T>(q: Queue<T>, op: T): Queue<T> {
    var rest := if q.posts == [] then [] else q.posts[1..];
    if Accepts(q) then q.(ops := q.ops + [op], outstanding := q.outstanding + {|q.ops|}, posts := rest)
    else q.(posts := rest)
  }

  /** wait_for_completion: consumes polls up to the first entry of an outstanding
      operation; Pending if there is none. */
  function ReadQueue<T>(q: Queue<T>): (r: (Queue<T>, Reading))
    ensures r.1.Pending? || |r.0.polls| < |q.polls|
    decreases |q.polls|
  {
    if q.polls == [] then (q, Pending)
    else
      var rest := q.(polls := q.polls[1..]);
      match q.polls[0]
      case Done(id) =>
        if id in q.outstanding
        then (rest.(outstanding := q.outstanding - {id}, delivered := q.delivered + {id}), Completed)
        else ReadQueue(rest)
      case Fault(id) =>
        if id in q.outstanding then (rest.(outstanding := q.outstanding - {id}), Failed)
        else ReadQueue(rest)
      case Again => ReadQueue(rest)
  }

  /** The polling loop of wait_for_completion, on a Connection and on both kinds of
      connectionless endpoints. */
  method WaitForCompletion<T>(q: Queue<T>) returns (r: Queue<T>, ret: Reading)
    ensures (r, ret) == ReadQueue(q)
  {
    r := q;
    while r.polls != []
      invariant ReadQueue(r) == ReadQueue(q)
      decreases |r.polls|
    {
      var poll := r.polls[0];
      r := r.(polls := r.polls[1..]);
      if poll.Done? && poll.id in r.outstanding {
        r := r.(outstanding := r.outstanding - {poll.id}, delivered := r.delivered + {poll.id});
        return r, Completed;
      }
      if poll.Fault? && poll.id in r.outstanding {
        r := r.(outstanding := r.outstanding - {poll.id});
        return r, Failed;
      }
    }
    ret := Pending;
  }

  /** Reading posts nothing. */
  lemma {:induction false} ReadFrame<T>(q: Queue<T>)
    ensures ReadQueue(q).0.ops == q.ops && ReadQueue(q).0.posts == q.posts
    decreases |q.polls|
  {
    if q.polls != [] {
      var poll := q.polls[0];
      if poll.Again? || poll.id !in q.outstanding {
        ReadFrame(q.(polls := q.polls[1..]));
      }
    }
  }

  ghost predicate QueueInv<T>(q: Queue<T>) {
    && (forall id :: id in q.outstanding ==> id < |q.ops|)
    && (forall id :: id in q.delivered ==> id < |q.ops|)
    && q.outstanding !! q.delivered
  }

  /** `later` continues `q`: operations are only added, and what was delivered stays so. */
  ghost predicate Continues<T>(q: Queue<T>, later: Queue<T>) {
    |q.ops| <= |later.ops| && later.ops[..|q.ops|] == q.ops && q.delivered <= later.delivered
  }

  lemma {:induction false} ContinuesTrans<T>(a: Queue<T>, b: Queue<T>, c: Queue<T>)
    requires Continues(a, b) && Continues(b, c)
    ensures Continues(a, c)
  {
    assert c.ops[..|a.ops|] == c.ops[..|b.ops|][..|a.ops|];
  }

  lemma {:induction false} RemoveId(a: set<nat>, id: nat)
    requires id in a
    ensures |a - {id}| == |a| - 1
  {
  }

  /** Posting adds exactly the new operation; a refused post adds nothing. */
  lemma {:induction false} PostEffect<T>(q: Queue<T>, op: T)
    requires QueueInv(q)
    ensures QueueInv(Post(q, op)) && Continues(q, Post(q, op)) && Post(q, op).polls == q.polls
    ensures |Post(q, op).outstanding| == |q.outstanding| + if Accepts(q) then 1 else 0
  {
    if Accepts(q) {
      assert |q.ops| !in q.outstanding;
    }
  }

  /** A read reaps one outstanding operation, of any kind, or none. */
  lemma {:induction false} ReadEffect<T>(q: Queue<T>)
    requires QueueInv(q)
    ensures var (r, reading) := ReadQueue(q);
            && QueueInv(r) && r.ops == q.ops && r.posts == q.posts
            && |r.outstanding| == |q.outstanding| - (if reading.Pending? then 0 else 1)
            && r.outstanding <= q.outstanding && q.delivered <= r.delivered
            && (!reading.Failed? ==> r.outstanding + r.delivered == q.outstanding + q.delivered)
            && (reading.Failed? ==> r.delivered == q.delivered)
    decreases |q.polls|
  {
    if q.polls != [] {
      var poll := q.polls[0];
      if !poll.Again? && poll.id in q.outstanding {
        RemoveId(q.outstanding, poll.id);
      } else {
        ReadEffect(q.(polls := q.polls[1..]));
      }
    }
  }

  lemma {:induction false} ReadContinues<T>(q: Queue<T>)
    requires QueueInv(q)
    ensures Continues(q, ReadQueue(q).0)
  {
    ReadEffect(q);
    assert q.ops[..|q.ops|] == q.ops;
  }
}
