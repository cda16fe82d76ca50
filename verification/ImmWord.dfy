/** The 32-bit immediate that travels with a message: offset and size packed by the sender,
    swapped to network order on its way into the work request, and swapped back by the receiver. */
module ImmWord {
  import opened Bytes

  datatype ByteOrder = LittleEndian | BigEndian

  /** A Rust `as u16` cast. */
  function TruncateToU16(n: nat): u16 {
    n % 0x1_0000
  }

  /** `((offset as u32) << 16) + size as u32`, which cannot overflow. */
  function Pack(offset: u16, size: u16): u32 {
    offset * 0x1_0000 + size
  }

  function Reversed(s: seq<u8>): (r: seq<u8>)
    requires |s| == 4
    ensures |r| == 4
  {
    [s[3], s[2], s[1], s[0]]
  }

  /** The four bytes a host stores for the word `x`. */
  function Stored(host: ByteOrder, x: u32): (s: seq<u8>)
    ensures |s| == 4
  {
    if host.LittleEndian? then LE(x, 4) else Reversed(LE(x, 4))
  }

  function Loaded(host: ByteOrder, s: seq<u8>): u32
    requires |s| == 4
  {
    Ranges();
    if host.LittleEndian? then FromLE(s) else FromLE(Reversed(s))
  }

  /** `htonl`, and `ntohl`, which is the same swap: the identity on a big-endian host. */
  function Htonl(host: ByteOrder, x: u32): u32 {
    Loaded(host, Reversed(LE(x, 4)))
  }

  /** The word the receiving program computes from the bytes of the sender's work request. */
  function Received(sender: ByteOrder, receiver: ByteOrder, x: u32): u32 {
    Htonl(receiver, Loaded(receiver, Stored(sender, Htonl(sender, x))))
  }

  lemma ReversedTwice(s: seq<u8>)
    requires |s| == 4
    ensures Reversed(Reversed(s)) == s
  {
  }

  lemma LoadedStored(host: ByteOrder, s: seq<u8>)
    requires |s| == 4
    ensures Stored(host, Loaded(host, s)) == s
  {
    LEInverse(s);
    LEInverse(Reversed(s));
    ReversedTwice(s);
  }

  lemma SwappedBack(host: ByteOrder, x: u32)
    ensures Htonl(host, Loaded(host, Reversed(LE(x, 4)))) == x
  {
    var wire := Reversed(LE(x, 4));
    ReversedTwice(LE(x, 4));
    Ranges();
    FromLEInverse(x, 4);
    if host.LittleEndian? {
      LEInverse(wire);
    }
  }

  /** The immediate arrives unchanged whatever the byte orders of the two hosts. */
  lemma ImmediateSurvives(sender: ByteOrder, receiver: ByteOrder, x: u32)
    ensures Received(sender, receiver, x) == x
  {
    LoadedStored(sender, Reversed(LE(x, 4)));
    SwappedBack(receiver, x);
  }

  /** What the sender stores in the work request is the word with its most significant byte first. */
  lemma NetworkOrder(host: ByteOrder, x: u32)
    ensures Stored(host, Htonl(host, x)) == [x / 0x100_0000 % 0x100, x / 0x1_0000 % 0x100, x / 0x100 % 0x100, x % 0x100]
  {
    LoadedStored(host, Reversed(LE(x, 4)));
    Bytewise(x);
  }

  lemma Bytewise(x: u32)
    ensures LE(x, 4) == [x % 0x100, x / 0x100 % 0x100, x / 0x1_0000 % 0x100, x / 0x100_0000 % 0x100]
  {
    assert LE(x, 4) == [x % 0x100] + LE(x / 0x100, 3);
    assert LE(x / 0x100, 3) == [x / 0x100 % 0x100] + LE(x / 0x1_0000, 2);
    assert LE(x / 0x1_0000, 2) == [x / 0x1_0000 % 0x100] + LE(x / 0x100_0000, 1);
  }

  /** The two halves of the word: the offset above, the size below, truncated to 16 bits. */
  lemma PackedHalves(offset: u16, size: nat)
    ensures Pack(offset, TruncateToU16(size)) / 0x1_0000 == offset
    ensures Pack(offset, TruncateToU16(size)) % 0x1_0000 == size % 0x1_0000
  {
  }

  lemma PackedIsSize(offset: u16, size: nat)
    requires size <= 4096
    ensures Pack(offset, TruncateToU16(size)) == size <==> offset == 0
  {
  }

  /** A receiver that takes the whole word for the size is right exactly when the offset is zero,
      for every message that fits the 4096-byte buffer. */
  lemma SizeWordExact(sender: ByteOrder, receiver: ByteOrder, offset: u16, size: nat)
    requires size <= 4096
    ensures Received(sender, receiver, Pack(offset, TruncateToU16(size))) == size <==> offset == 0
  {
    PackedIsSize(offset, size);
    ImmediateSurvives(sender, receiver, Pack(offset, TruncateToU16(size)));
  }
}
