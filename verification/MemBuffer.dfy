/** The 4096-byte host buffer that both ends serialise into and read messages out of. */
module MemBuffers {
  import opened Bytes
  import opened Wrappers
  import opened Codec

  const CPU_BUFFER_BASE_SIZE: nat := 4096

  /** Taking a slice past the end panics; decoding the slice can fail. */
  datatype ReadError = SliceOutOfRange | Undecodable(cause: DecodeError)

  /** Laying `p` and then `chunk` behind it is laying `p + chunk`. */
  lemma OverlayAppend(buf: seq<u8>, p: seq<u8>, chunk: seq<u8>)
    requires |p| <= |buf|
    ensures Overlay(buf, p)[..|p|] + Overlay(Overlay(buf, p)[|p|..], chunk) == Overlay(buf, p + chunk)
  {
  }

  /** Once a prefix overflows the buffer, the rest of the message no longer matters. */
  lemma OverlayOverflow(buf: seq<u8>, p: seq<u8>, e: seq<u8>)
    requires p <= e && |buf| < |p|
    ensures Overlay(buf, p) == Overlay(buf, e)
  {
    assert p[..|buf|] == e[..|buf|];
  }

  /** The pieces in which a notification is written. */
  lemma NotificationPieces(n: Notification)
    ensures n.reqId.None? ==> EncodeNotification(n) == LE(n.done, 4) + [0]
    ensures n.reqId.Some? ==>
              EncodeNotification(n) == ((LE(n.done, 4) + [1]) + LE(|n.reqId.value|, 8)) + n.reqId.value
  {
  }

  class MemBuffer {
    const buffer: array<u8>

    constructor ()
      ensures fresh(buffer) && Valid()
      ensures buffer[..] == seq(CPU_BUFFER_BASE_SIZE, _ => 0)
    {
      buffer := new u8[CPU_BUFFER_BASE_SIZE](_ => 0);
    }

    ghost predicate Valid() {
      buffer.Length == CPU_BUFFER_BASE_SIZE
    }

    /** One `write_all` on the rest of the slice: copies what fits and fails if that is not all. */
    method WriteAll(at: nat, chunk: seq<u8>) returns (ok: bool)
      requires at <= buffer.Length
      modifies buffer
      ensures ok <==> at + |chunk| <= buffer.Length
      ensures buffer[..] == old(buffer[..at]) + Overlay(old(buffer[at..]), chunk)
    {
      var n := if |chunk| <= buffer.Length - at then |chunk| else buffer.Length - at;
      for i := 0 to n
        invariant buffer[..] == old(buffer[..at]) + chunk[..i] + old(buffer[at + i..])
      {
        buffer[at + i] := chunk[i];
      }
      ok := n == |chunk|;
    }

    /** An arriving payload replaces the whole contents. */
    method Place(payload: seq<u8>)
      requires |payload| == buffer.Length
      modifies buffer
      ensures buffer[..] == payload
    {
      forall i | 0 <= i < buffer.Length {
        buffer[i] := payload[i];
      }
    }

    /** One step of a serialiser that has written `done` so far and writes `chunk` next. */
    method Append(ghost base: seq<u8>, ghost done: seq<u8>, at: nat, chunk: seq<u8>) returns (ok: bool)
      requires |base| == buffer.Length && |done| == at <= buffer.Length
      requires buffer[..] == Overlay(base, done)
      modifies buffer
      ensures ok <==> at + |chunk| <= buffer.Length
      ensures buffer[..] == Overlay(base, done + chunk)
    {
      OverlayAppend(base, done, chunk);
      assert buffer[..at] == buffer[..][..at] && buffer[at..] == buffer[..][at..];
      ok := WriteAll(at, chunk);
    }

    /** The bytes of a request id, one element at a time, behind the `head` already written. */
    method AppendBytes(ghost base: seq<u8>, ghost head: seq<u8>, at: nat, id: seq<u8>) returns (ok: bool)
      requires |base| == buffer.Length && |head| == at <= buffer.Length
      requires buffer[..] == Overlay(base, head)
      modifies buffer
      ensures ok <==> at + |id| <= buffer.Length
      ensures buffer[..] == Overlay(base, head + id)
    {
      ok := true;
      var i := 0;
      assert head + id[..0] == head;
      while i < |id|
        invariant 0 <= i <= |id| && ok && at + i <= buffer.Length
        invariant buffer[..] == Overlay(base, head + id[..i])
      {
        assert head + id[..i] + [id[i]] == head + id[..i + 1];
        ok := Append(base, head + id[..i], at + i, [id[i]]);
        if !ok {
          OverlayOverflow(base, head + id[..i + 1], head + id);
          return;
        }
        i := i + 1;
      }
      assert id[..i] == id;
    }

    /** `bincode::serialize_into`. A message that does not fit leaves its first 4096 bytes behind. */
    method SerializeNotification(n: Notification) returns (ok: bool)
      requires Valid()
      modifies buffer
      ensures ok <==> NotificationSize(n) <= CPU_BUFFER_BASE_SIZE
      ensures buffer[..] == Overlay(old(buffer[..]), EncodeNotification(n))
    {
      ghost var base := buffer[..];
      NotificationPieces(n);
      ghost var head := LE(n.done, 4);
      assert [] + head == head;
      ok := Append(base, [], 0, LE(n.done, 4));
      if n.reqId.None? {
        ok := Append(base, head, 4, [0]);
      } else {
        ok := Append(base, head, 4, [1]);
        ok := SerializeId(base, head + [1], n.reqId.value);
      }
    }

    /** The length and the bytes of a request id, behind the five bytes already written. */
    method SerializeId(ghost base: seq<u8>, ghost head: seq<u8>, id: seq<u8>) returns (ok: bool)
      requires Valid() && |base| == buffer.Length && |head| == 5 && buffer[..] == Overlay(base, head)
      modifies buffer
      ensures ok <==> 13 + |id| <= CPU_BUFFER_BASE_SIZE
      ensures buffer[..] == Overlay(base, head + LE(|id|, 8) + id)
    {
      ok := Append(base, head, 5, LE(|id|, 8));
      ok := AppendBytes(base, head + LE(|id|, 8), 13, id);
    }

    method SerializeConnections(cs: seq<Connection>) returns (ok: bool)
      requires Valid()
      modifies buffer
      ensures ok <==> 8 + 12 * |cs| <= CPU_BUFFER_BASE_SIZE
      ensures buffer[..] == Overlay(old(buffer[..]), EncodeConnections(cs))
    {
      ghost var base, e := buffer[..], EncodeConnections(cs);
      ok := Append(base, [], 0, LE(|cs|, 8));
      ghost var done := LE(|cs|, 8);
      var i := 0;
      while i < |cs|
        invariant 0 <= i <= |cs| && |done| == 8 + 12 * i <= buffer.Length && ok
        invariant done + EncodeEntries(cs[i..]) == e
        invariant buffer[..] == Overlay(base, done)
      {
        ghost var rest := EncodeEntries(cs[i + 1..]);
        assert cs[i..][0] == cs[i] && cs[i..][1..] == cs[i + 1..];
        ghost var p, q := LE(cs[i].basePtr, 8), LE(cs[i].rkey, 4);
        assert done + p + q + rest == e;
        ok := Append(base, done, 8 + 12 * i, LE(cs[i].basePtr, 8));
        if !ok {
          OverlayOverflow(base, done + p, e);
          return;
        }
        ok := Append(base, done + p, 16 + 12 * i, LE(cs[i].rkey, 4));
        if !ok {
          OverlayOverflow(base, done + p + q, e);
          return;
        }
        done := done + p + q;
        i := i + 1;
      }
      assert done + [] == done;
    }

    /** Reads a `w`-byte integer. */
    method GetLE(at: nat, w: nat) returns (n: nat)
      requires at + w <= buffer.Length
      ensures n == FromLE(buffer[at..at + w])
    {
      n := 0;
      var i := w;
      while i > 0
        invariant 0 <= i <= w
        invariant n == FromLE(buffer[at + i..at + w])
      {
        i := i - 1;
        assert buffer[at + i..at + w][1..] == buffer[at + i + 1..at + w];
        n := buffer[at + i] + 0x100 * n;
      }
    }

    /** `bincode::deserialize::<Notification>(&cpu_buffer[0..size])`. */
    method DeserializeNotification(size: nat) returns (r: Result<Notification, ReadError>)
      requires Valid()
      ensures size > CPU_BUFFER_BASE_SIZE ==> r == Failure(SliceOutOfRange)
      ensures size <= CPU_BUFFER_BASE_SIZE ==>
                match DecodeNotification(buffer[..size])
                case Success(n) => r == Success(n)
                case Failure(e) => r == Failure(Undecodable(e))
    {
      if size > buffer.Length { return Failure(SliceOutOfRange); }
      if size < 5 { return Failure(Undecodable(UnexpectedEnd)); }
      var done := GetLE(0, 4);
      Ranges();
      assert buffer[..size][..4] == buffer[0..0 + 4];
      if buffer[4] == 0 { return Success(Notification(done, None)); }
      if buffer[4] != 1 { return Failure(Undecodable(BadOptionTag)); }
      if size < 13 { return Failure(Undecodable(UnexpectedEnd)); }
      var len := GetLE(5, 8);
      assert buffer[..size][5..13] == buffer[5..5 + 8];
      var id: seq<u8> := [];
      while |id| < len
        invariant |id| <= len && 13 + |id| <= size
        invariant id == buffer[13..13 + |id|]
        decreases size - |id|
      {
        if 13 + |id| == size { return Failure(Undecodable(UnexpectedEnd)); }
        id := id + [buffer[13 + |id|]];
      }
      assert buffer[..size][13..13 + len] == buffer[13..13 + |id|];
      r := Success(Notification(done, Some(id)));
    }

    /** `bincode::deserialize::<Connections>(&cpu_buffer[0..size])`. */
    method DeserializeConnections(size: nat) returns (r: Result<seq<Connection>, ReadError>)
      requires Valid()
      ensures size > CPU_BUFFER_BASE_SIZE ==> r == Failure(SliceOutOfRange)
      ensures size <= CPU_BUFFER_BASE_SIZE ==>
                match DecodeConnections(buffer[..size])
                case Success(cs) => r == Success(cs)
                case Failure(e) => r == Failure(Undecodable(e))
    {
      if size > buffer.Length { return Failure(SliceOutOfRange); }
      if size < 8 { return Failure(Undecodable(UnexpectedEnd)); }
      ghost var s := buffer[..size];
      var count := GetLE(0, 8);
      assert s[..8] == buffer[0..0 + 8];
      ghost var whole := DecodeEntries(s[8..], count);
      var cs: seq<Connection> := [];
      var at := 8;
      if whole.Success? { assert cs + whole.value == whole.value; }
      while |cs| < count
        invariant |cs| <= count && at <= size
        invariant whole == After(cs, DecodeEntries(s[at..], count - |cs|))
        decreases size - at
      {
        if size - at < 12 { return Failure(Undecodable(UnexpectedEnd)); }
        var c := GetConnection(at);
        assert s[at..at + 12] == buffer[at..at + 12];
        EntriesUnfold(s, at, count - |cs|, cs);
        cs := cs + [c];
        at := at + 12;
      }
      assert cs + [] == cs;
      r := Success(cs);
    }

    method GetConnection(at: nat) returns (c: Connection)
      requires at + 12 <= buffer.Length
      ensures c == DecodeConnection(buffer[at..at + 12])
    {
      ghost var entry := buffer[at..at + 12];
      assert entry[..8] == buffer[at..at + 8] && entry[8..] == buffer[at + 8..at + 8 + 4];
      var base := GetLE(at, 8);
      var key := GetLE(at + 8, 4);
      Ranges();
      c := Connection(base, key);
    }
  }
}
