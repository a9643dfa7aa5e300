/** What the RPC server computes, and why a remote call equals a local one. */
module RpcSpec {
  import opened Common
  import opened Wire

  /** Function 0 is registered by the constructor and ends the server; the others may keep
      a state of type S between calls. */
  datatype Handler<!S> = Shutdown | User(fn: (S, Bytes) -> (S, Bytes))

  function Call<S>(h: Handler<S>, s: S, data: Bytes): (S, Bytes) {
    match h
    case Shutdown => (s, data)
    case User(fn) => fn(s, data)
  }

  /** Waiting: no further request.  Done: function 0 was called.  Aborted: an assertion or
      a failed receive ended the process.  Undefined: the code would leave its buffers. */
  datatype Stop = Waiting | Done | Aborted | Undefined

  datatype Reply = Reply(addr: Bytes, frame: Bytes)

  datatype Served<S> = Served(replies: seq<Reply>, state: S, stop: Stop)

  function Prepend<S>(reply: Reply, rest: Served<S>): Served<S> {
    rest.(replies := [reply] + rest.replies)
  }

  /** One iteration on a received buffer: a reply, or the reason to stop. */
  function Answer<S>(fnMap: map<U64, Handler<S>>, s: S, buffer: Bytes): (S, Option<Reply>, Stop) {
    match ParseRequest(buffer)
    case None => (s, None, Undefined)
    case Some(r) =>
      if r.fnID !in fnMap then (s, None, Aborted)
      else
        var (s', res) := Call(fnMap[r.fnID], s, r.data);
        if 8 + |res| > MAX_MSG_SIZE then (s', None, Undefined)
        else (s', Some(Reply(r.addr, Counted(res))), if fnMap[r.fnID].Shutdown? then Done else Waiting)
  }

  /** The server loop over the requests that arrive, starting with buffer contents `stale`. */
  function Serve<S>(fnMap: map<U64, Handler<S>>, s: S, stale: Bytes, incoming: seq<Bytes>): Served<S>
    requires |stale| == MAX_MSG_SIZE
    decreases |incoming|
  {
    if incoming == [] then Served([], s, Waiting)
    else if |incoming[0]| > MAX_MSG_SIZE then Served([], s, Aborted)
    else
      var buffer := Received(stale, incoming[0]);
      match Answer(fnMap, s, buffer)
      case (s', None, stop) => Served([], s', stop)
      case (s', Some(reply), Done) => Served([reply], s', Done)
      case (s', Some(reply), _) => Prepend(reply, Serve(fnMap, s', buffer, incoming[1..]))
  }

  lemma {:induction false} ServeOne<S>(fnMap: map<U64, Handler<S>>, s: S, stale: Bytes, incoming: seq<Bytes>)
    requires |stale| == MAX_MSG_SIZE && incoming != [] && |incoming[0]| <= MAX_MSG_SIZE
    ensures var buffer := Received(stale, incoming[0]);
            var (s', reply, stop) := Answer(fnMap, s, buffer);
            Serve(fnMap, s, stale, incoming) ==
              if reply.None? then Served([], s', stop)
              else if stop.Done? then Served([reply.value], s', Done)
              else Prepend(reply.value, Serve(fnMap, s', buffer, incoming[1..]))
  {
  }

  /** As the constructor and registerRPC leave it: exactly id 0 shuts down. */
  predicate ValidMap<S>(fnMap: map<U64, Handler<S>>) {
    0 in fnMap && forall id :: id in fnMap ==> (fnMap[id].Shutdown? <==> id == 0)
  }

  /** Every request fits, and every client buffer has the fixed size. */
  predicate Sendable(calls: seq<Request>, stales: seq<Bytes>) {
    && |calls| == |stales|
    && forall i :: 0 <= i < |calls| ==> SendLength(calls[i]) <= |stales[i]| == MAX_MSG_SIZE
  }

  // ----------------------------------------------------------------------- local calls

  /** What the calls come to without a network: the results, the final state, and why there
      are no more results. */
  datatype Outcome<S> = Outcome(results: seq<Bytes>, state: S, stop: Stop)

  /** The registered functions applied directly, one after the other.  It ends with the first
      call of function 0, which returns its argument, at an id that is not registered, or
      when a result does not fit into a reply. */
  function Local<S>(fnMap: map<U64, Handler<S>>, s: S, calls: seq<Request>): Outcome<S>
    decreases |calls|
  {
    if calls == [] then Outcome([], s, Waiting)
    else if calls[0].fnID !in fnMap then Outcome([], s, Aborted)
    else match fnMap[calls[0].fnID]
      case Shutdown => Outcome([calls[0].data], s, Done)
      case User(fn) =>
        var (s', res) := fn(s, calls[0].data);
        if 8 + |res| > MAX_MSG_SIZE then Outcome([], s', Undefined)
        else
          var rest := Local(fnMap, s', calls[1..]);
          rest.(results := [res] + rest.results)
  }

  /** Why a sequence of local calls ends where it does. */
  lemma {:induction false} LocalStops<S>(fnMap: map<U64, Handler<S>>, s: S, calls: seq<Request>)
    requires ValidMap(fnMap)
    ensures var o := Local(fnMap, s, calls);
            var k := |o.results|;
            && k <= |calls| && (forall i :: 0 <= i < k ==> calls[i].fnID in fnMap && (i < k - 1 ==> calls[i].fnID != 0))
            && (o.stop.Done? <==> k > 0 && calls[k - 1].fnID == 0)
            && (o.stop.Waiting? <==> k == |calls| && forall i :: 0 <= i < k ==> calls[i].fnID != 0)
            && (o.stop.Aborted? ==> k < |calls| && calls[k].fnID !in fnMap)
            && (o.stop.Undefined? ==> k < |calls| && calls[k].fnID in fnMap)
    decreases |calls|
  {
    if calls != [] && calls[0].fnID in fnMap && fnMap[calls[0].fnID].User? {
      var (s', res) := fnMap[calls[0].fnID].fn(s, calls[0].data);
      if 8 + |res| <= MAX_MSG_SIZE {
        LocalStops(fnMap, s', calls[1..]);
        var k, rest := |Local(fnMap, s', calls[1..]).results|, calls[1..];
        assert forall i :: 0 <= i < k ==> calls[i + 1] == rest[i];
        assert forall i :: 1 <= i <= k ==> calls[i] == rest[i - 1];
      }
    }
  }

  function Transmissions(calls: seq<Request>, stales: seq<Bytes>): (msgs: seq<Bytes>)
    requires Sendable(calls, stales)
    ensures |msgs| == |calls|
  {
    seq(|calls|, i requires 0 <= i < |calls| => Transmission(calls[i], stales[i]))
  }

  /** The server's answer to a framed request, whatever the buffers held: the registered
      function's result on exactly the payload, to the address in the request. */
  lemma {:induction false} AnswerToRequest<S>(fnMap: map<U64, Handler<S>>, s: S, r: Request,
      clientStale: Bytes, serverStale: Bytes)
    requires SendLength(r) <= MAX_MSG_SIZE && |clientStale| == |serverStale| == MAX_MSG_SIZE
    ensures var answer := Answer(fnMap, s, Received(serverStale, Transmission(r, clientStale)));
            if r.fnID !in fnMap then answer == (s, None, Aborted)
            else match fnMap[r.fnID]
              case Shutdown => answer == (s, Some(Reply(r.addr, Counted(r.data))), Done)
              case User(fn) =>
                var (s', res) := fn(s, r.data);
                answer == if 8 + |res| > MAX_MSG_SIZE then (s', None, Undefined)
                          else (s', Some(Reply(r.addr, Counted(res))), Waiting)
  {
    FramingRoundTrip(r, clientStale, serverStale);
  }

  /** The reasons to stop: an unknown id, or a request or result that leaves the buffers. */
  lemma {:induction false} AnswerStopsIff<S>(fnMap: map<U64, Handler<S>>, s: S, buffer: Bytes)
    requires |buffer| == MAX_MSG_SIZE
    ensures var stop, r := Answer(fnMap, s, buffer).2, ParseRequest(buffer);
            && (stop.Aborted? <==> r.Some? && r.value.fnID !in fnMap)
            && (stop.Undefined? <==>
                  r.None? || (r.value.fnID in fnMap && fnMap[r.value.fnID].User?
                              && 8 + |fnMap[r.value.fnID].fn(s, r.value.data).1| > MAX_MSG_SIZE))
  {
  }

  /** A message that is longer than the buffer ends the process in the failed receive. */
  lemma {:induction false} OversizeAborts<S>(fnMap: map<U64, Handler<S>>, s: S, stale: Bytes, incoming: seq<Bytes>,
      long: Bytes)
    requires |stale| == MAX_MSG_SIZE && |long| > MAX_MSG_SIZE && Serve(fnMap, s, stale, incoming).stop.Waiting?
    ensures Serve(fnMap, s, stale, incoming + [long]) == Serve(fnMap, s, stale, incoming).(stop := Aborted)
    decreases |incoming|
  {
    if incoming == [] {
      assert incoming + [long] == [long];
    } else {
      var buffer := Received(stale, incoming[0]);
      assert (incoming + [long])[0] == incoming[0] && (incoming + [long])[1..] == incoming[1..] + [long];
      ServeOne(fnMap, s, stale, incoming);
      ServeOne(fnMap, s, stale, incoming + [long]);
      OversizeAborts(fnMap, Answer(fnMap, s, buffer).0, buffer, incoming[1..], long);
    }
  }

  /** The first of several framed requests, and the rest. */
  lemma {:induction false} FirstTransmission(calls: seq<Request>, stales: seq<Bytes>)
    requires Sendable(calls, stales) && calls != []
    ensures Transmissions(calls, stales)[0] == Transmission(calls[0], stales[0])
    ensures Sendable(calls[1..], stales[1..]) && Transmissions(calls, stales)[1..] == Transmissions(calls[1..], stales[1..])
  {
  }

  /** The replies that carry the results. */
  predicate Carry(replies: seq<Reply>, calls: seq<Request>, results: seq<Bytes>) {
    && |replies| == |results| <= |calls|
    && forall i :: 0 <= i < |results| ==>
         8 + |results[i]| <= MAX_MSG_SIZE && replies[i] == Reply(calls[i].addr, Counted(results[i]))
  }

  lemma {:induction false} CarryMore(replies: seq<Reply>, calls: seq<Request>, results: seq<Bytes>, res: Bytes)
    requires calls != [] && Carry(replies, calls[1..], results) && 8 + |res| <= MAX_MSG_SIZE
    ensures Carry([Reply(calls[0].addr, Counted(res))] + replies, calls, [res] + results)
  {
    assert forall i :: 1 <= i < |calls| ==> calls[i] == calls[1..][i - 1];
  }

  /** Remote equals local.  For every sequence of requests that fit, with registered ids and
      others, whatever stale bytes all buffers held, the server replies with the results of
      applying the registered functions in order, each to the address framed in its own
      request, ends up in their state, and stops where and why they do. */
  lemma {:induction false} RemoteEqualsLocal<S>(fnMap: map<U64, Handler<S>>, s: S, stale: Bytes,
      calls: seq<Request>, stales: seq<Bytes>)
    requires ValidMap(fnMap) && |stale| == MAX_MSG_SIZE && Sendable(calls, stales)
    ensures var served, o := Serve(fnMap, s, stale, Transmissions(calls, stales)), Local(fnMap, s, calls);
            Carry(served.replies, calls, o.results) && served.state == o.state && served.stop == o.stop
    decreases |calls|
  {
    if calls != [] {
      var c := calls[0];
      var buffer := Received(stale, Transmission(c, stales[0]));
      FirstTransmission(calls, stales);
      AnswerToRequest(fnMap, s, c, stales[0], stale);
      ServeOne(fnMap, s, stale, Transmissions(calls, stales));
      if c.fnID in fnMap && fnMap[c.fnID].User? {
        var (s', res) := fnMap[c.fnID].fn(s, c.data);
        RemoteEqualsLocal(fnMap, s', buffer, calls[1..], stales[1..]);
        if 8 + |res| <= MAX_MSG_SIZE {
          CarryMore(Serve(fnMap, s', buffer, Transmissions(calls[1..], stales[1..])).replies, calls,
            Local(fnMap, s', calls[1..]).results, res);
        }
      }
    }
  }

  /** What the client decodes, into a buffer with any contents, is the local result. */
  lemma {:induction false} ClientSeesLocalResult(res: Bytes, clientStale: Bytes)
    requires 8 + |res| <= |clientStale| == MAX_MSG_SIZE
    ensures ParseCounted(Received(clientStale, Counted(res))) == Some(res)
  {
    ReplyRoundTrip(res, clientStale);
  }
}

/** FabricRPC and FabricRPClient on their byte buffers. */
module Rpc {
  import opened Common
  import opened Wire
  import opened RpcSpec

  /** The buffer with src written at position `at`. */
  function Splice(buffer: Bytes, at: nat, src: Bytes): Bytes
    requires at + |src| <= |buffer|
  {
    buffer[..at] + src + buffer[at + |src|..]
  }

  lemma {:induction false} SpliceAfter(done: Bytes, tail: Bytes, src: Bytes)
    requires |src| <= |tail|
    ensures Splice(done + tail, |done|, src) == (done + src) + tail[|src|..]
  {
  }

  /** memcpy into a buffer. */
  method Memcpy(dst: array<Byte>, at: nat, src: Bytes)
    requires at + |src| <= dst.Length
    modifies dst
    ensures dst[..] == Splice(old(dst[..]), at, src)
  {
    ghost var was := dst[..];
    var i := 0;
    while i < |src|
      invariant i <= |src|
      invariant dst[..] == Splice(was, at, src[..i])
    {
      OneByte(was, at, src, i);
      dst[at + i] := src[i];
      i := i + 1;
    }
    assert src[..|src|] == src;
  }

  lemma {:induction false} OneByte(buffer: Bytes, at: nat, src: Bytes, i: nat)
    requires at + |src| <= |buffer| && i < |src|
    ensures Splice(buffer, at, src[..i])[at + i := src[i]] == Splice(buffer, at, src[..i + 1])
  {
    assert src[..i + 1] == src[..i] + [src[i]];
  }

  /** A length and then that many bytes, by two copies. */
  method CopyCounted(dst: array<Byte>, at: nat, bytes: Bytes)
    requires at + 8 + |bytes| <= dst.Length && |bytes| < UINT64
    modifies dst
    ensures dst[..] == Splice(old(dst[..]), at, Counted(bytes))
  {
    ghost var b := dst[..];
    Memcpy(dst, at, Word(|bytes|));
    Memcpy(dst, at + 8, bytes);
    SpliceTwice(b, at, Word(|bytes|), bytes);
  }

  /** fi_recv: the message replaces the front of the buffer. */
  method ReceiveInto(buffer: array<Byte>, msg: Bytes)
    requires |msg| <= buffer.Length
    modifies buffer
    ensures buffer[..] == Received(old(buffer[..]), msg)
  {
    Memcpy(buffer, 0, msg);
  }

  lemma {:induction false} SpliceTwice(buffer: Bytes, at: nat, a: Bytes, b: Bytes)
    requires at + |a| + |b| <= |buffer|
    ensures Splice(Splice(buffer, at, a), at + |a|, b) == Splice(buffer, at, a + b)
  {
    var once := Splice(buffer, at, a);
    assert once[..at + |a|] == buffer[..at] + a;
    assert once[at + |a| + |b|..] == buffer[at + |a| + |b|..];
  }

  class FabricRPC<S> {
    var fnMap: map<U64, Handler<S>>
    var state: S                 // what the registered functions keep between calls
    var done: bool
    var av: multiset<Bytes>      // address vector
    const localBuf: array<Byte>
    const remoteBuf: array<Byte>

    ghost predicate Valid()
      reads this
    {
      localBuf != remoteBuf && localBuf.Length == remoteBuf.Length == MAX_MSG_SIZE && ValidMap(fnMap)
    }

    constructor (state: S, localBuf: array<Byte>, remoteBuf: array<Byte>)
      requires localBuf != remoteBuf && localBuf.Length == remoteBuf.Length == MAX_MSG_SIZE
      ensures Valid() && !done && av == multiset{} && fnMap.Keys == {0} && this.state == state
      ensures this.localBuf == localBuf && this.remoteBuf == remoteBuf
    {
      this.fnMap := map[0 := Shutdown];
      this.state := state;
      this.done := false;
      this.av := multiset{};
      this.localBuf, this.remoteBuf := localBuf, remoteBuf;
    }

    /** False stands for the failed assertion on a second registration of an id, which
        does not replace the first. */
    method RegisterRPC(fnID: U64, fn: (S, Bytes) -> (S, Bytes)) returns (ok: bool)
      requires Valid()
      modifies this`fnMap
      ensures Valid() && ok == (fnID !in old(fnMap))
      ensures fnMap == if ok then old(fnMap)[fnID := User(fn)] else old(fnMap)
    {
      ok := fnID !in fnMap;
      if ok {
        fnMap := fnMap[fnID := User(fn)];
      }
    }

    /** Frames a result in the local buffer and returns what is sent of it. */
    method FrameReply(res: Bytes) returns (frame: Bytes)
      requires Valid() && 8 + |res| <= MAX_MSG_SIZE
      modifies localBuf
      ensures frame == Counted(res)
    {
      CopyCounted(localBuf, 0, res);
      frame := localBuf[..8 + |res|];
    }

    /** One iteration of the server loop, on the buffer that was received. */
    method Handle() returns (reply: Option<Reply>, stop: Stop)
      requires Valid()
      modifies this`state, this`done, this`av, localBuf
      ensures (state, reply, stop) == Answer(fnMap, old(state), remoteBuf[..])
      ensures done == (old(done) || stop.Done?)
      ensures reply.Some? ==> av == old(av)
    {
      var request := ParseRequest(remoteBuf[..]);
      if request.None? {
        return None, Undefined;
      }
      var Request(addr, fnID, data) := request.value;
      av := av + multiset{addr};
      if fnID !in fnMap {
        return None, Aborted;
      }
      var (s, res) := Call(fnMap[fnID], state, data);
      state := s;
      if 8 + |res| > MAX_MSG_SIZE {
        return None, Undefined;
      }
      stop := Waiting;
      if fnMap[fnID].Shutdown? {
        done := true;
        stop := Done;
      }
      var frame := FrameReply(res);
      reply := Some(Reply(addr, frame));
      av := av - multiset{addr};
    }

    /** The server loop, on the requests that arrive in order; `replies` lists what it
        sends.  At the top of every iteration the address vector is as at the start. */
    method Start(incoming: seq<Bytes>) returns (replies: seq<Reply>, stop: Stop)
      requires Valid() && !done
      modifies this`state, this`done, this`av, localBuf, remoteBuf
      ensures Served(replies, state, stop) == Serve(fnMap, old(state), old(remoteBuf[..]), incoming)
      ensures done <==> stop.Done?
      ensures stop.Waiting? || stop.Done? ==> av == old(av)
    {
      replies := [];
      var next := 0;
      ghost var whole := Serve(fnMap, state, remoteBuf[..], incoming);
      assert incoming[0..] == incoming;
      while !done
        invariant next <= |incoming| && av == old(av)
        invariant !done ==> whole == After(replies, Serve(fnMap, state, remoteBuf[..], incoming[next..]))
        invariant done ==> whole == Served(replies, state, Done)
        decreases |incoming| - next, !done
      {
        if next == |incoming| {
          return replies, Waiting;
        }
        var msg := incoming[next];
        if |msg| > MAX_MSG_SIZE {
          return replies, Aborted;
        }
        assert incoming[next..][0] == msg && incoming[next..][1..] == incoming[next + 1..];
        ServeOne(fnMap, state, remoteBuf[..], incoming[next..]);
        ReceiveInto(remoteBuf, msg);
        var reply, s := Handle();
        if reply.None? {
          return replies, s;
        }
        AfterPrepend(replies, reply.value, Serve(fnMap, state, remoteBuf[..], incoming[next + 1..]));
        replies := replies + [reply.value];
        next := next + 1;
      }
      stop := Done;
    }
  }

  /** The outcome of a loop that has already sent `replies`. */
  function After<S>(replies: seq<Reply>, rest: Served<S>): Served<S> {
    rest.(replies := replies + rest.replies)
  }

  lemma {:induction false} AfterPrepend<S>(replies: seq<Reply>, reply: Reply, rest: Served<S>)
    ensures After(replies, Prepend(reply, rest)) == After(replies + [reply], rest)
  {
    assert replies + ([reply] + rest.replies) == (replies + [reply]) + rest.replies;
  }

  /** What the first half of callRemote comes to: the message handed to fi_send, exit(1),
      or a copy or a send that runs past the buffer. */
  datatype Posted = Sent(msg: Bytes) | Exited | Overrun

  class FabricRPClient {
    const localBuf: array<Byte>
    const remoteBuf: array<Byte>

    ghost predicate Valid() {
      localBuf != remoteBuf && localBuf.Length == remoteBuf.Length == MAX_MSG_SIZE
    }

    constructor (localBuf: array<Byte>, remoteBuf: array<Byte>)
      requires localBuf != remoteBuf && localBuf.Length == remoteBuf.Length == MAX_MSG_SIZE
      ensures Valid() && this.localBuf == localBuf && this.remoteBuf == remoteBuf
    {
      this.localBuf, this.remoteBuf := localBuf, remoteBuf;
    }

    /** The first half of callRemote.  The address and the header are copied before the
        size check. */
    method SendRequest(r: Request) returns (posted: Posted)
      requires Valid() && |r.addr| < UINT64 && |r.data| < UINT64
      modifies localBuf
      ensures posted.Exited? <==> 24 + |r.addr| <= MAX_MSG_SIZE && !PassesSizeCheck(r)
      ensures posted.Sent? <==> SendLength(r) <= MAX_MSG_SIZE
      ensures posted.Sent? ==> posted.msg == Transmission(r, old(localBuf[..]))
    {
      var n := |r.addr|;
      ghost var stale := localBuf[..];
      if 24 + n > MAX_MSG_SIZE {
        return Overrun;
      }
      WriteHead(r);
      if 8 + n + |r.data| + 16 > MAX_MSG_SIZE {
        return Exited;
      }
      SpliceAfter(Head(r), stale[24 + n..], r.data);
      Memcpy(localBuf, 24 + n, r.data);
      assert localBuf[..] == Received(stale, RequestFrame(r)) by {
        assert Head(r) + r.data == RequestFrame(r);
        assert stale[24 + n..][|r.data|..] == stale[24 + n + |r.data|..];
      }
      var length := |r.data| + 8 + n + |r.data| + 16;
      if length > MAX_MSG_SIZE {
        return Overrun;
      }
      posted := Sent(localBuf[..length]);
    }

    /** The part of a request that does not depend on the size check. */
    static function Head(r: Request): (h: Bytes)
      requires |r.addr| < UINT64 && |r.data| < UINT64
      ensures |h| == 24 + |r.addr|
    {
      Counted(r.addr) + (Word(r.fnID) + Word(|r.data|))
    }

    method WriteHead(r: Request)
      requires Valid() && 8 + |r.addr| + 16 <= MAX_MSG_SIZE && |r.data| < UINT64
      modifies localBuf
      ensures localBuf[..] == Head(r) + old(localBuf[24 + |r.addr|..])
    {
      CopyCounted(localBuf, 0, r.addr);
      Memcpy(localBuf, 8 + |r.addr|, Word(r.fnID) + Word(|r.data|));
      SpliceTwice(old(localBuf[..]), 0, Counted(r.addr), Word(r.fnID) + Word(|r.data|));
    }

    /** The second half of callRemote: receive a reply and copy the result out of it. */
    method ReceiveReply(msg: Bytes) returns (res: Option<Bytes>)
      requires Valid() && |msg| <= MAX_MSG_SIZE
      modifies remoteBuf
      ensures res == ParseCounted(Received(old(remoteBuf[..]), msg))
    {
      ReceiveInto(remoteBuf, msg);
      res := ParseCounted(remoteBuf[..]);
    }
  }

  /** One remote call through both programs.  The client gets what the registered function
      returns for its argument, and the server has the state that the function leaves; function
      0 returns the argument itself and ends the server. */
  method CallRemote<S>(client: FabricRPClient, server: FabricRPC<S>, addr: Bytes, fnID: U64, data: Bytes)
    returns (res: Option<Bytes>)
    requires client.Valid() && server.Valid() && !server.done
    requires {client.localBuf, client.remoteBuf} !! {server.localBuf, server.remoteBuf}
    requires fnID in server.fnMap && SendLength(Request(addr, fnID, data)) <= MAX_MSG_SIZE
    requires match server.fnMap[fnID]
             case Shutdown => true
             case User(fn) => 8 + |fn(server.state, data).1| <= MAX_MSG_SIZE
    modifies client.localBuf, client.remoteBuf, server, server.localBuf, server.remoteBuf
    ensures match old(server.fnMap)[fnID]
            case Shutdown => res == Some(data) && server.state == old(server.state)
            case User(fn) =>
              res == Some(fn(old(server.state), data).1) && server.state == fn(old(server.state), data).0
    ensures server.done <==> fnID == 0
    ensures server.Valid() && server.fnMap == old(server.fnMap) && server.av == old(server.av)
  {
    var r := Request(addr, fnID, data);
    ghost var clientStale, serverStale := client.localBuf[..], server.remoteBuf[..];
    ghost var before := server.state;
    var posted := client.SendRequest(r);
    AnswerToRequest(server.fnMap, before, r, clientStale, serverStale);
    assert [posted.msg][1..] == [];
    var replies, _ := server.Start([posted.msg]);
    ghost var result := match server.fnMap[fnID] case Shutdown => data case User(fn) => fn(before, data).1;
    assert replies == [Reply(addr, Counted(result))];
    ClientSeesLocalResult(result, client.remoteBuf[..]);
    res := client.ReceiveReply(replies[0].frame);
  }
}
