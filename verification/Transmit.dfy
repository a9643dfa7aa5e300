/** The transmit part of class Connection, proved against its specification. */
module Transmit {
  import opened Common
  import opened CompletionQueue
  import opened Spec = Completions

  class Connection {
    var msgSends: nat
    var refused: nat
    var swallowed: nat
    var queue: Queue<Op>
    var status: Status

    function View(): Tx
      reads this
    {
      Tx(msgSends, refused, swallowed, queue, status)
    }

    constructor (posts: seq<bool>, polls: seq<Poll>)
      ensures View() == NewTx(posts, polls)
    {
      msgSends, refused, swallowed := 0, 0, 0;
      queue := NewQueue(posts, polls);
      status := Running;
    }

    /** The move constructor: the counter is copied, and the source has no queue any more. */
    constructor Move(other: Connection)
      modifies other
      ensures View() == old(other.View()) && other.View() == MovedFrom(old(other.View()))
    {
      msgSends, refused, swallowed := other.msgSends, other.refused, other.swallowed;
      queue, status := other.queue, other.status;
      new;
      other.queue, other.status := NewQueue([], []), Moved;
    }

    method MoveAssign(other: Connection)
      modifies this, other
      ensures View() == old(other.View())
      ensures other != this ==> other.View() == MovedFrom(old(other.View()))
    {
      if other == this {
        return;
      }
      msgSends, refused, swallowed := other.msgSends, other.refused, other.swallowed;
      queue, status := other.queue, other.status;
      other.queue, other.status := NewQueue([], []), Moved;
    }

    /** fi_send, fi_write and fi_read; the result says whether the post was accepted. */
    method PostOp(op: Op) returns (ok: bool)
      modifies this`queue
      ensures ok == Accepts(old(queue)) && queue == Post(old(queue), op)
    {
      ok := Accepts(queue);
      queue := Post(queue, op);
    }

    method AsyncSend(m: Message, offset: nat) returns (ok: bool)
      requires status.Running?
      modifies this
      ensures View() == Spec.AsyncSend(old(View()), m, offset)
      ensures ok == (status.Running? && Accepts(old(queue)))
    {
      if |m.bytes| + offset > MAX_MSG_SIZE {
        status := Exited;
        return false;
      }
      msgSends := (msgSends + 1) % UINT64;
      ok := PostOp(Op(SendOp, m));
      if !ok {
        refused := refused + 1;
      }
    }

    method WaitForSends()
      requires status.Running?
      modifies this
      ensures View() == Spec.WaitForSends(old(View()))
    {
      while msgSends > 0
        invariant status.Running?
        invariant Spec.WaitForSends(View()) == Spec.WaitForSends(old(View()))
        decreases |queue.polls|
      {
        var ret;
        queue, ret := WaitForCompletion(queue);
        match ret
        case Completed => msgSends := msgSends - 1;
        case Failed => status := Exited; return;
        case Pending => status := Blocked; return;
      }
    }

    method Send(m: Message, offset: nat)
      requires status.Running?
      modifies this
      ensures View() == Spec.Send(old(View()), m, offset)
    {
      var _ := AsyncSend(m, offset);
      if status.Running? {
        WaitForSends();
      }
    }

    /** A result of false is never returned. */
    method TryWaitForSends() returns (r: bool)
      requires status.Running?
      modifies this
      ensures View() == Spec.TryWaitForSends(old(View()))
      ensures r == status.Running?
    {
      while msgSends > 0
        invariant status.Running?
        invariant Spec.TryWaitForSends(View()) == Spec.TryWaitForSends(old(View()))
        decreases |queue.polls|
      {
        var reading;
        queue, reading := WaitForCompletion(queue);
        if reading.Pending? {
          status := Blocked;
          return false;
        }
        var ret: int := if reading.Completed? then 1 else 0;
        if ret >= 0 {
          msgSends := msgSends - ret;
          if ret == 0 {
            swallowed := swallowed + 1;
          }
        }
      }
      r := true;
    }

    method WriteOrRead(op: Op)
      requires status.Running?
      modifies this
      ensures View() == Rma(old(View()), op)
      ensures status.Running? ==> old(Accepts(queue))
      ensures !old(Accepts(queue)) ==> status.Exited? && queue.ops == old(queue.ops)
    {
      var ok := PostOp(op);
      if !ok {
        status := Exited;
        return;
      }
      var ret;
      queue, ret := WaitForCompletion(queue);
      match ret
      case Completed =>
      case Failed => status := Exited;
      case Pending => status := Blocked;
    }

    method TryWriteOrRead(op: Op) returns (r: bool)
      requires status.Running?
      modifies this
      ensures (View(), r) == TryRma(old(View()), op)
      ensures r ==> old(Accepts(queue)) && status.Running?
      ensures !old(Accepts(queue)) ==> !r && status.Running? && queue.ops == old(queue.ops)
      ensures old(Inv(View()) && Accepts(queue) && queue.outstanding == {}) && status.Running? ==>
                (r <==> |old(queue.ops)| in queue.delivered)
    {
      ghost var t := View();
      if Inv(t) && Accepts(t.queue) && t.queue.outstanding == {} {
        RmaAlone(t, op);
      }
      var ok := PostOp(op);
      if !ok {
        return false;
      }
      var ret;
      queue, ret := WaitForCompletion(queue);
      if ret.Pending? {
        status := Blocked;
      }
      r := ret.Completed?;
    }
  }
}
