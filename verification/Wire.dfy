/** The byte formats of the RPC requests and replies and of the address handshake. */
module Wire {
  import opened Common

  type Byte = x: int | 0 <= x < 256
  type Bytes = seq<Byte>

  /** A 64-bit unsigned number. */
  type U64 = x: int | 0 <= x < UINT64

  // --------------------------------------------------------------------------- numbers

  /** n in k bytes, least significant byte first, as the hosts store a uint64_t. */
  function Encode(n: nat, k: nat): (r: Bytes)
    ensures |r| == k
  {
    if k == 0 then [] else [n % 256] + Encode(n / 256, k - 1)
  }

  function Decode(bytes: Bytes): nat {
    if bytes == [] then 0 else bytes[0] + 256 * Decode(bytes[1..])
  }

  function Limit(k: nat): nat {
    if k == 0 then 1 else 256 * Limit(k - 1)
  }

  lemma {:induction false} DecodeEncode(n: nat, k: nat)
    requires n < Limit(k)
    ensures Decode(Encode(n, k)) == n
  {
    if k > 0 {
      assert n / 256 < Limit(k - 1);
      DecodeEncode(n / 256, k - 1);
      assert Encode(n, k)[1..] == Encode(n / 256, k - 1);
    }
  }

  function Word(n: U64): Bytes {
    Encode(n, 8)
  }

  lemma {:induction false} WordRoundTrip(n: U64)
    ensures Decode(Word(n)) == n
  {
    assert Limit(4) == 0x1_0000_0000;
    assert Limit(8) == UINT64;
    DecodeEncode(n, 8);
  }

  /** The least significant byte comes first: 258 is sent as 2, 1, 0, 0, 0, 0, 0, 0. */
  lemma {:induction false} LeastSignificantFirst(low: Byte, high: nat)
    requires low + 256 * high < UINT64
    ensures Word(low + 256 * high)[0] == low && Decode(Word(low + 256 * high)[1..]) == high
  {
    WordRoundTrip(low + 256 * high);
  }

  // --------------------------------------------------------------------------- buffers

  /** A buffer after a message was received into it: the old bytes stay beyond its end. */
  function Received(buffer: Bytes, msg: Bytes): (r: Bytes)
    requires |msg| <= |buffer|
    ensures |r| == |buffer|
  {
    msg + buffer[|msg|..]
  }

  // ------------------------------------------------------------------ replies, handshake

  /** A length and that many bytes: the reply of the server, and the address that connect
      sends to accept. */
  function Counted(bytes: Bytes): Bytes
    requires |bytes| < UINT64
  {
    Word(|bytes|) + bytes
  }

  function ParseCounted(buffer: Bytes): Option<Bytes> {
    if |buffer| < 8 then None
    else
      var n := Decode(buffer[..8]);
      if 8 + n > |buffer| then None else Some(buffer[8..8 + n])
  }

  /** Whatever follows the frame in the receiving buffer, exactly its bytes come out. */
  lemma {:induction false} CountedRoundTrip(bytes: Bytes, rest: Bytes)
    requires |bytes| < UINT64
    ensures ParseCounted(Counted(bytes) + rest) == Some(bytes)
  {
    WordRoundTrip(|bytes|);
    var b := Counted(bytes) + rest;
    assert b[..8] == Word(|bytes|);
    assert b[8..8 + |bytes|] == bytes;
  }

  // --------------------------------------------------------------------------- requests

  datatype Request = Request(addr: Bytes, fnID: U64, data: Bytes)

  /** addrlen, address, Header { fnID, sizeOfArg }, payload. */
  function RequestFrame(r: Request): Bytes
    requires |r.addr| < UINT64 && |r.data| < UINT64
  {
    Counted(r.addr) + (Word(r.fnID) + Counted(r.data))
  }

  /** What FabricRPC::start reads from its buffer; None if it would read past the end. */
  function ParseRequest(buffer: Bytes): Option<Request> {
    if |buffer| < 8 then None
    else
      var n := Decode(buffer[..8]);
      if 8 + n + 16 > |buffer| then None
      else
        var fnID := Decode(buffer[8 + n..16 + n]);
        var size := Decode(buffer[16 + n..24 + n]);
        if fnID >= UINT64 || 24 + n + size > |buffer| then None
        else Some(Request(buffer[8..8 + n], fnID, buffer[24 + n..24 + n + size]))
  }

  /** Where the parts of a request are in a buffer that starts with its frame. */
  lemma {:induction false} RequestLayout(r: Request, rest: Bytes)
    requires |r.addr| < UINT64 && |r.data| < UINT64
    ensures var b, n, d := RequestFrame(r) + rest, |r.addr|, |r.data|;
            && |RequestFrame(r)| == 24 + n + d
            && b[..8] == Word(n) && b[8..8 + n] == r.addr
            && b[8 + n..16 + n] == Word(r.fnID) && b[16 + n..24 + n] == Word(d)
            && b[24 + n..24 + n + d] == r.data
  {
    var b := RequestFrame(r) + rest;
    assert b == Word(|r.addr|) + r.addr + Word(r.fnID) + Word(|r.data|) + r.data + rest;
  }

  /** Whatever follows the frame in the receiving buffer, exactly the address, function id
      and payload come out. */
  lemma {:induction false} RequestRoundTrip(r: Request, rest: Bytes)
    requires |r.addr| < UINT64 && |r.data| < UINT64
    ensures ParseRequest(RequestFrame(r) + rest) == Some(r)
  {
    WordRoundTrip(|r.addr|);
    WordRoundTrip(r.fnID);
    WordRoundTrip(|r.data|);
    RequestLayout(r, rest);
  }

  /** The number of bytes that callRemote hands to fi_send; it counts the payload twice. */
  function SendLength(r: Request): nat {
    |r.data| + 8 + |r.addr| + |r.data| + 16
  }

  /** The test in callRemote, before it sends. */
  predicate PassesSizeCheck(r: Request) {
    8 + |r.addr| + |r.data| + 16 <= MAX_MSG_SIZE
  }

  /** The transmitted message: the frame, and as many stale bytes as the payload has. */
  function Transmission(r: Request, stale: Bytes): (msg: Bytes)
    requires SendLength(r) <= |stale| == MAX_MSG_SIZE
    ensures |msg| == SendLength(r)
  {
    Received(stale, RequestFrame(r))[..SendLength(r)]
  }

  /** Among the requests with an address of n bytes, the size check lets through only ones
      that are sent from within the buffer if and only if it lets through no payload at
      all: for every shorter address some payload passes the check and does not fit. */
  lemma {:induction false} SizeCheckSufficesIff(n: nat)
    ensures (forall r: Request :: |r.addr| == n && PassesSizeCheck(r) ==> SendLength(r) <= MAX_MSG_SIZE)
            <==> n >= MAX_MSG_SIZE - 24
  {
    if n < MAX_MSG_SIZE - 24 {
      var largest := Request(seq(n, _ => 0), 1, seq(MAX_MSG_SIZE - 24 - n, _ => 0));
      assert PassesSizeCheck(largest) && SendLength(largest) > MAX_MSG_SIZE;
    }
  }

  /** The RPC framing round trip: whatever stale bytes the client's and the server's
      buffers held, the server parses exactly what the client framed. */
  lemma {:induction false} FramingRoundTrip(r: Request, clientStale: Bytes, serverStale: Bytes)
    requires SendLength(r) <= |clientStale| == |serverStale| == MAX_MSG_SIZE
    ensures ParseRequest(Received(serverStale, Transmission(r, clientStale))) == Some(r)
  {
    var msg := Transmission(r, clientStale);
    var rest := clientStale[|RequestFrame(r)|..SendLength(r)] + serverStale[|msg|..];
    assert Received(serverStale, msg) == RequestFrame(r) + rest;
    RequestRoundTrip(r, rest);
  }

  /** The reply round trip, and that of the address in connect and accept. */
  lemma {:induction false} ReplyRoundTrip(bytes: Bytes, stale: Bytes)
    requires 8 + |bytes| <= |stale| == MAX_MSG_SIZE
    ensures ParseCounted(Received(stale, Counted(bytes))) == Some(bytes)
  {
    CountedRoundTrip(bytes, stale[8 + |bytes|..]);
  }
}
