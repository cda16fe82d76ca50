/** The messages of the protocol and their encoding.

    The source serialises with bincode's default configuration: integers are fixed width and
    little endian, an option is a one-byte tag, a vector is a u64 length followed by its elements,
    and a decoder ignores whatever follows the value it read. */
module Codec {
  import opened Bytes
  import opened Wrappers

  /** The address and remote key of a registered buffer. */
  datatype Connection = Connection(basePtr: u64, rkey: u32)

  const NoConnection := Connection(0, 0)

  /** `done` is 1 on the message that ends a connection and 0 on one that completes a request. */
  datatype Notification = Notification(done: u32, reqId: Option<seq<u8>>)

  const DefaultNotification := Notification(0, None)

  /** `Notification::complete()`: the shutdown message. */
  const ShutdownNotification := Notification(1, None)

  datatype DecodeError = UnexpectedEnd | BadOptionTag

  // ----- Notification

  function EncodeNotification(n: Notification): seq<u8> {
    LE(n.done, 4) + match n.reqId
                    case None => [0]
                    case Some(id) => [1] + LE(|id|, 8) + id
  }

  function DecodeNotification(s: seq<u8>): Result<Notification, DecodeError> {
    if |s| < 5 then Failure(UnexpectedEnd)
    else
      var done: u32 := ToU32(s[..4]);
      if s[4] == 0 then Success(Notification(done, None))
      else if s[4] != 1 then Failure(BadOptionTag)
      else if |s| < 13 then Failure(UnexpectedEnd)
      else
        var len := FromLE(s[5..13]);
        if |s| - 13 < len then Failure(UnexpectedEnd)
        else Success(Notification(done, Some(s[13..13 + len])))
  }

  function ToU32(s: seq<u8>): u32
    requires |s| == 4
  {
    Ranges();
    FromLE(s)
  }

  function ToU64(s: seq<u8>): u64
    requires |s| == 8
  {
    Ranges();
    FromLE(s)
  }

  /** A request id is a Rust vector, so its length is a 64-bit number. */
  predicate Encodable(n: Notification) {
    n.reqId.Some? ==> |n.reqId.value| < 0x1_0000_0000_0000_0000
  }

  /** `bincode::serialized_size` of a notification. */
  function NotificationSize(n: Notification): nat {
    match n.reqId
    case None => 5
    case Some(id) => 13 + |id|
  }

  /** The fields of an encoding sit at fixed places. */
  lemma NotificationLayout(n: Notification)
    ensures var e := EncodeNotification(n);
            && |e| == NotificationSize(n)
            && e[..4] == LE(n.done, 4)
            && e[4] == (if n.reqId.None? then 0 else 1)
            && (n.reqId.Some? ==> e[5..13] == LE(|n.reqId.value|, 8) && e[13..] == n.reqId.value)
  {
  }

  /** The same, byte by byte: the first byte of each integer is the least significant. */
  lemma NotificationWords(n: Notification)
    requires Encodable(n)
    ensures var e := EncodeNotification(n);
            n.done == Word(e[..4]) && (n.reqId.Some? ==> |n.reqId.value| == Word(e[5..9]) + 0x1_0000_0000 * Word(e[9..13]))
  {
    Ranges();
    NotificationLayout(n);
    var e := EncodeNotification(n);
    FromLEInverse(n.done, 4);
    FourBytes(e[..4]);
    if n.reqId.Some? {
      FromLEInverse(|n.reqId.value|, 8);
      EightBytes(e[5..13]);
      FourBytes(e[5..9]);
      FourBytes(e[9..13]);
      assert e[5..13][..4] == e[5..9] && e[5..13][4..] == e[9..13];
    }
  }

  lemma DecodeNotificationOfPrefix(s: seq<u8>, n: Notification)
    requires Encodable(n) && EncodeNotification(n) <= s
    ensures DecodeNotification(s) == Success(n)
  {
    Ranges();
    NotificationLayout(n);
    FromLEInverse(n.done, 4);
    var e := EncodeNotification(n);
    assert s[..4] == e[..4] && s[4] == e[4];
    if n.reqId.Some? {
      var id := n.reqId.value;
      FromLEInverse(|id|, 8);
      assert s[5..13] == e[5..13];
      assert s[13..13 + |id|] == e[13..];
    }
  }

  lemma EncodingOfDecoded(s: seq<u8>)
    requires DecodeNotification(s).Success?
    ensures EncodeNotification(DecodeNotification(s).value) <= s
  {
    Ranges();
    var n := DecodeNotification(s).value;
    LEInverse(s[..4]);
    if n.reqId.None? {
      assert s[..5] == s[..4] + [s[4]];
    } else {
      LEInverse(s[5..13]);
      assert s[..13 + |n.reqId.value|] == s[..4] + ([s[4]] + s[5..13] + n.reqId.value);
    }
  }

  /** Decoding succeeds with `n` exactly when the input starts with the encoding of `n`: a value
      comes back whatever follows it, and nothing that is not an encoding is accepted. */
  lemma DecodeNotificationExact(s: seq<u8>, n: Notification)
    requires Encodable(n)
    ensures DecodeNotification(s) == Success(n) <==> EncodeNotification(n) <= s
  {
    if EncodeNotification(n) <= s {
      DecodeNotificationOfPrefix(s, n);
    }
    if DecodeNotification(s) == Success(n) {
      EncodingOfDecoded(s);
    }
  }

  /** Different notifications never share an encoding, and none is the start of another. */
  lemma NotificationsPrefixFree(m: Notification, n: Notification, s: seq<u8>)
    requires Encodable(m) && Encodable(n)
    requires EncodeNotification(m) <= s && EncodeNotification(n) <= s
    ensures m == n
  {
    DecodeNotificationExact(s, m);
    DecodeNotificationExact(s, n);
  }

  // ----- Connections

  function EncodeConnection(c: Connection): (e: seq<u8>)
    ensures |e| == 12
  {
    LE(c.basePtr, 8) + LE(c.rkey, 4)
  }

  function EncodeEntries(cs: seq<Connection>): (e: seq<u8>)
    ensures |e| == 12 * |cs|
  {
    if cs == [] then [] else EncodeConnection(cs[0]) + EncodeEntries(cs[1..])
  }

  function EncodeConnections(cs: seq<Connection>): (e: seq<u8>)
    ensures |e| == 8 + 12 * |cs|
  {
    LE(|cs|, 8) + EncodeEntries(cs)
  }

  /** Entry `k` of a table starts at byte `8 + 12 * k`. */
  lemma ConnectionsLayout(cs: seq<Connection>, k: nat)
    requires k < |cs|
    ensures EncodeConnections(cs)[..8] == LE(|cs|, 8)
    ensures EncodeConnections(cs)[8 + 12 * k..16 + 12 * k] == LE(cs[k].basePtr, 8)
    ensures EncodeConnections(cs)[16 + 12 * k..20 + 12 * k] == LE(cs[k].rkey, 4)
  {
    EntryAt(cs, k);
    TablePieces(LE(|cs|, 8), EncodeEntries(cs), cs[k], 12 * k);
  }

  /** Where an entry is in a table, given where it is among the entries. */
  lemma TablePieces(head: seq<u8>, entries: seq<u8>, c: Connection, at: nat)
    requires |head| == 8 && at + 12 <= |entries| && entries[at..at + 12] == EncodeConnection(c)
    ensures var e := head + entries;
            e[..8] == head && e[8 + at..16 + at] == LE(c.basePtr, 8) && e[16 + at..20 + at] == LE(c.rkey, 4)
  {
    var e, entry := head + entries, EncodeConnection(c);
    assert e[8 + at..20 + at] == entry;
    assert e[8 + at..16 + at] == e[8 + at..20 + at][..8] == entry[..8];
    assert e[16 + at..20 + at] == e[8 + at..20 + at][8..] == entry[8..];
  }

  lemma {:induction false} EntryAt(cs: seq<Connection>, k: nat)
    requires k < |cs|
    ensures EncodeEntries(cs)[12 * k..12 * k + 12] == EncodeConnection(cs[k])
  {
    var e := EncodeEntries(cs);
    assert e[12..] == EncodeEntries(cs[1..]);
    if k > 0 {
      EntryAt(cs[1..], k - 1);
      assert e[12..][12 * (k - 1)..12 * (k - 1) + 12] == e[12 * k..12 * k + 12];
    }
  }

  function DecodeConnection(s: seq<u8>): Connection
    requires |s| == 12
  {
    Connection(ToU64(s[..8]), ToU32(s[8..]))
  }

  function DecodeEntries(s: seq<u8>, n: nat): Result<seq<Connection>, DecodeError> {
    if n == 0 then Success([])
    else if |s| < 12 then Failure(UnexpectedEnd)
    else match DecodeEntries(s[12..], n - 1)
      case Success(rest) => Success([DecodeConnection(s[..12])] + rest)
      case Failure(e) => Failure(e)
  }

  function DecodeConnections(s: seq<u8>): Result<seq<Connection>, DecodeError> {
    if |s| < 8 then Failure(UnexpectedEnd) else DecodeEntries(s[8..], FromLE(s[..8]))
  }

  lemma ConnectionRoundTrip(c: Connection, s: seq<u8>)
    requires |s| == 12
    ensures DecodeConnection(s) == c <==> EncodeConnection(c) == s
  {
    Ranges();
    FromLEInverse(c.basePtr, 8);
    FromLEInverse(c.rkey, 4);
    LEInverse(s[..8]);
    LEInverse(s[8..]);
    assert s == s[..8] + s[8..];
    assert EncodeConnection(c)[..8] == LE(c.basePtr, 8) && EncodeConnection(c)[8..] == LE(c.rkey, 4);
  }

  lemma {:induction false} DecodeEntriesExact(s: seq<u8>, cs: seq<Connection>)
    ensures DecodeEntries(s, |cs|) == Success(cs) <==> EncodeEntries(cs) <= s
  {
    if cs == [] {
    } else if |s| >= 12 {
      DecodeEntriesExact(s[12..], cs[1..]);
      ConnectionRoundTrip(cs[0], s[..12]);
      var e := EncodeEntries(cs);
      assert e[..12] == EncodeConnection(cs[0]) && e[12..] == EncodeEntries(cs[1..]);
      assert cs == [cs[0]] + cs[1..];
      if e <= s {
        assert s[..12] == e[..12];
        assert s[12..][..12 * |cs[1..]|] == e[12..];
      }
      if DecodeEntries(s, |cs|) == Success(cs) {
        assert s[..|e|] == s[..12] + s[12..][..|e| - 12];
      }
    }
  }

  lemma {:induction false} DecodeEntriesLength(s: seq<u8>, n: nat)
    ensures DecodeEntries(s, n).Success? ==> |DecodeEntries(s, n).value| == n
  {
    if n > 0 && |s| >= 12 {
      DecodeEntriesLength(s[12..], n - 1);
    }
  }

  lemma DecodedIsShort(s: seq<u8>)
    requires DecodeConnections(s).Success?
    ensures |DecodeConnections(s).value| < 0x1_0000_0000_0000_0000
  {
    DecodeEntriesLength(s[8..], FromLE(s[..8]));
    Ranges();
  }

  /** A decoder that has already read `cs` and now gets `r` from the rest. */
  function After(cs: seq<Connection>, r: Result<seq<Connection>, DecodeError>): Result<seq<Connection>, DecodeError> {
    match r
    case Success(rest) => Success(cs + rest)
    case Failure(e) => Failure(e)
  }

  /** Reading one more entry. */
  lemma EntriesUnfold(s: seq<u8>, at: nat, n: nat, cs: seq<Connection>)
    requires n > 0 && at + 12 <= |s|
    ensures After(cs, DecodeEntries(s[at..], n))
         == After(cs + [DecodeConnection(s[at..at + 12])], DecodeEntries(s[at + 12..], n - 1))
  {
    assert s[at..][..12] == s[at..at + 12] && s[at..][12..] == s[at + 12..];
    var rest := DecodeEntries(s[at + 12..], n - 1);
    if rest.Success? {
      assert cs + ([DecodeConnection(s[at..at + 12])] + rest.value) == cs + [DecodeConnection(s[at..at + 12])] + rest.value;
    }
  }

  /** The table decodes to `cs` exactly when the input starts with the encoding of `cs`. */
  lemma DecodeConnectionsExact(s: seq<u8>, cs: seq<Connection>)
    requires |cs| < 0x1_0000_0000_0000_0000
    ensures DecodeConnections(s) == Success(cs) <==> EncodeConnections(cs) <= s
  {
    Ranges();
    FromLEInverse(|cs|, 8);
    var e := EncodeConnections(cs);
    assert e[..8] == LE(|cs|, 8) && e[8..] == EncodeEntries(cs);
    if |s| >= 8 {
      DecodeEntriesExact(s[8..], cs);
      DecodeEntriesLength(s[8..], FromLE(s[..8]));
      LEInverse(s[..8]);
      if e <= s {
        assert s[..8] == e[..8];
        assert s[8..][..12 * |cs|] == e[8..];
      }
      if DecodeConnections(s) == Success(cs) {
        assert s[..|e|] == s[..8] + s[8..][..|e| - 8];
      }
    }
  }

  // ----- The reused buffer

  /** A message laid over any earlier contents is read back exactly from its own length on, however
      long the leftovers behind it are. */
  lemma NotificationOverStale(buf: seq<u8>, n: Notification)
    requires Encodable(n) && NotificationSize(n) <= |buf|
    ensures DecodeNotification(Overlay(buf, EncodeNotification(n))[..NotificationSize(n)]) == Success(n)
  {
    var e := EncodeNotification(n);
    assert Overlay(buf, e)[..|e|] == e;
    NotificationLayout(n);
    DecodeNotificationExact(e, n);
  }

  lemma ConnectionsOverStale(buf: seq<u8>, cs: seq<Connection>)
    requires 8 + 12 * |cs| <= |buf| < 0x1_0000_0000_0000_0000
    ensures DecodeConnections(Overlay(buf, EncodeConnections(cs))[..8 + 12 * |cs|]) == Success(cs)
  {
    var e := EncodeConnections(cs);
    assert Overlay(buf, e)[..|e|] == e;
    DecodeConnectionsExact(e, cs);
  }
}
