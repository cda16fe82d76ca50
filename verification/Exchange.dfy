/** The end of the handshake as the sequential code it is: `accept` registers its buffers, lays their
    table over the CPU buffer and sends it; `connect` reads it back into a map. */
module Exchange {
  import opened Bytes
  import opened Wrappers
  import opened Codec
  import opened ImmWord
  import opened MemBuffers
  import opened Registration
  import opened Endpoints

  datatype AcceptError = TableTooLong

  datatype ConnectError = ReceiveFailed | NotImmediate | BadRange | BadTable(cause: DecodeError)

  /** What a poll function has answered so far, one number a call: zero for nothing yet, the number of
      completions, or a negative code. `ibv_poll_cq` calls it until the answer is not zero. */
  method PollQueue(answers: seq<int>) returns (r: Result<int, int>, calls: nat)
    requires exists i :: 0 <= i < |answers| && answers[i] != 0
    ensures 1 <= calls <= |answers| && answers[calls - 1] != 0
    ensures forall i :: 0 <= i < calls - 1 ==> answers[i] == 0
    ensures r == if answers[calls - 1] > 0 then Success(answers[calls - 1]) else Failure(answers[calls - 1])
  {
    calls := 0;
    var ret := 0;
    while ret == 0
      invariant 0 <= calls <= |answers|
      invariant ret == 0 ==> forall i :: 0 <= i < calls ==> answers[i] == 0
      invariant ret != 0 ==>
                  calls > 0 && ret == answers[calls - 1] && forall i :: 0 <= i < calls - 1 ==> answers[i] == 0
      decreases |answers| - calls + if ret == 0 then 1 else 0
    {
      ret := answers[calls];
      calls := calls + 1;
    }
    r := if ret > 0 then Success(ret) else Failure(ret);
  }

  /** The arrival brings this table, whole, with its size in the word. */
  predicate Brings(a: Arrival, cs: seq<Connection>) {
    a.ok && a.immediate && |a.payload| == CPU_BUFFER_BASE_SIZE
    && 8 + 12 * |cs| <= CPU_BUFFER_BASE_SIZE && a.word == 8 + 12 * |cs|
    && a.payload[..a.word] == EncodeConnections(cs)
  }

  /** What `connect` makes of the arrival it waited for. */
  function RemoteFrom(a: Arrival): Result<map<u64, Connection>, ConnectError> {
    if !a.ok then Failure(ReceiveFailed)
    else if !a.immediate then Failure(NotImmediate)
    else if a.word > CPU_BUFFER_BASE_SIZE || |a.payload| != CPU_BUFFER_BASE_SIZE then Failure(BadRange)
    else match DecodeConnections(a.payload[..a.word])
         case Success(cs) => Success(RemoteMap(cs))
         case Failure(e) => Failure(BadTable(e))
  }

  /** What an arrival brings, in terms of its own fields: it completed with success, carried an immediate, the
      word is at most 4096, and so many bytes of the payload start with the table of `cs`. */
  predicate TableIn(a: Arrival, cs: seq<Connection>) {
    a.ok && a.immediate && a.word <= 4096 && a.word <= |a.payload| && EncodeConnections(cs) <= a.payload[..a.word]
  }

  /** `connect` has a map exactly when a table was brought, and then it is that table's. */
  lemma RemoteFromIff(a: Arrival)
    requires |a.payload| == CPU_BUFFER_BASE_SIZE
    ensures RemoteFrom(a).Success? <==> exists cs :: TableIn(a, cs)
    ensures forall cs :: TableIn(a, cs) ==> RemoteFrom(a) == Success(RemoteMap(cs))
  {
    forall cs | TableIn(a, cs)
      ensures RemoteFrom(a) == Success(RemoteMap(cs))
    {
      DecodeConnectionsExact(a.payload[..a.word], cs);
    }
    if RemoteFrom(a).Success? {
      var cs := DecodeConnections(a.payload[..a.word]).value;
      DecodedIsShort(a.payload[..a.word]);
      DecodeConnectionsExact(a.payload[..a.word], cs);
      assert TableIn(a, cs);
    }
  }

  /** A whole table is read back as the map of that table. */
  lemma BroughtIsRead(a: Arrival, cs: seq<Connection>)
    requires Brings(a, cs)
    ensures RemoteFrom(a) == Success(RemoteMap(cs))
  {
    DecodeConnectionsExact(a.payload[..a.word], cs);
  }

  /** `accept` from registration to the table's post: on success the message that goes out. */
  method SendTable(buffer: MemBuffer, bufs: seq<GpuBuffer>, server: ByteOrder, client: ByteOrder)
    returns (r: Result<Arrival, AcceptError>, local: map<u64, GpuBuffer>)
    requires buffer.Valid()
    modifies buffer.buffer
    ensures local == LocalMap(bufs)
    ensures r.Success? <==> |bufs| <= 340
    ensures r.Success? ==> Brings(r.value, TableOf(bufs)) && buffer.buffer[..] == r.value.payload
    ensures buffer.buffer[..] == Overlay(old(buffer.buffer[..]), EncodeConnections(TableOf(bufs)))
  {
    var conns;
    conns, local := RegisterBuffers(bufs);
    r := Stage(buffer, conns, server, client);
  }

  /** Serialising the table and posting the whole buffer with the table's size in the word. */
  method Stage(buffer: MemBuffer, conns: seq<Connection>, server: ByteOrder, client: ByteOrder)
    returns (r: Result<Arrival, AcceptError>)
    requires buffer.Valid()
    modifies buffer.buffer
    ensures r.Success? <==> |conns| <= 340
    ensures r.Success? ==> Brings(r.value, conns) && buffer.buffer[..] == r.value.payload
    ensures buffer.buffer[..] == Overlay(old(buffer.buffer[..]), EncodeConnections(conns))
  {
    ghost var base := buffer.buffer[..];
    var fits := buffer.SerializeConnections(conns);
    if !fits {
      return Failure(TableTooLong);
    }
    var message := Arrival(true, true, Received(server, client, TableWord(|conns|)), buffer.buffer[..]);
    StagedBrings(message, base, conns, server, client);
    r := Success(message);
  }

  /** `size as u32` for a table of `n` entries. */
  function TableWord(n: nat): u32 {
    (8 + 12 * n) % 0x1_0000_0000
  }

  /** The buffer with a table in it, sent with the table's size, brings the table. */
  lemma StagedBrings(a: Arrival, buf: seq<u8>, cs: seq<Connection>, server: ByteOrder, client: ByteOrder)
    requires a.ok && a.immediate && |cs| <= 340 && |buf| == CPU_BUFFER_BASE_SIZE
    requires a.payload == Overlay(buf, EncodeConnections(cs)) && a.word == Received(server, client, TableWord(|cs|))
    ensures Brings(a, cs)
  {
    TableWordIsSize(|cs|);
    ImmediateSurvives(server, client, TableWord(|cs|));
    assert |EncodeConnections(cs)| == a.word;
  }

  lemma TableWordIsSize(n: nat)
    requires n <= 340
    ensures TableWord(n) == 8 + 12 * n
  {
  }

  /** `connect` from the table's arrival on: the payload lands in the buffer and its first `word` bytes
      are decoded into the map. */
  method TakeTable(buffer: MemBuffer, a: Arrival) returns (r: Result<map<u64, Connection>, ConnectError>)
    requires buffer.Valid() && |a.payload| == CPU_BUFFER_BASE_SIZE
    modifies buffer.buffer
    ensures r == RemoteFrom(a)
    ensures r.Success? <==> exists cs :: TableIn(a, cs)
    ensures forall cs :: TableIn(a, cs) ==> r == Success(RemoteMap(cs))
    ensures (r == Failure(ReceiveFailed) <==> !a.ok) && (r == Failure(NotImmediate) <==> a.ok && !a.immediate)
    ensures r == Failure(BadRange) <==> a.ok && a.immediate && a.word > 4096
  {
    RemoteFromIff(a);
    if !a.ok { return Failure(ReceiveFailed); }
    if !a.immediate { return Failure(NotImmediate); }
    buffer.Place(a.payload);
    var decoded := buffer.DeserializeConnections(a.word);
    match decoded
    case Failure(SliceOutOfRange) => r := Failure(BadRange);
    case Failure(Undecodable(e)) => r := Failure(BadTable(e));
    case Success(cs) =>
      var remote := CollectRemote(cs);
      r := Success(remote);
  }

  /** Both halves: whatever the two CPU buffers held and whatever the two byte orders, the client ends
      with the server's own table, base address by base address, or the server has given up because the
      table does not fit. */
  method ExchangeTable(serverBuffer: MemBuffer, clientBuffer: MemBuffer, bufs: seq<GpuBuffer>, server: ByteOrder, client: ByteOrder)
    returns (remote: Option<map<u64, Connection>>, local: map<u64, GpuBuffer>)
    requires serverBuffer.Valid() && clientBuffer.Valid() && serverBuffer.buffer != clientBuffer.buffer
    modifies serverBuffer.buffer, clientBuffer.buffer
    ensures local == LocalMap(bufs)
    ensures remote.Some? <==> |bufs| <= 340
    ensures remote.Some? ==>
              remote.value.Keys == local.Keys
              && forall k :: k in local ==> remote.value[k] == Connection(k, local[k].rkey)
  {
    var sent;
    sent, local := SendTable(serverBuffer, bufs, server, client);
    if sent.Failure? {
      return None, local;
    }
    var taken := TakeTable(clientBuffer, sent.value);
    BroughtIsRead(sent.value, TableOf(bufs));
    RemoteAgreesWithLocal(bufs);
    remote := Some(taken.value);
  }
}
