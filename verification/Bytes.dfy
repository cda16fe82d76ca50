/** Bytes, fixed-width little-endian integers and the two ways bytes are laid over a longer
    buffer: at its start (a serialiser) and at an address (an RDMA transfer). */
module Bytes {

  type u8 = x: int | 0 <= x < 0x100
  type u16 = x: int | 0 <= x < 0x1_0000
  type u32 = x: int | 0 <= x < 0x1_0000_0000
  type u64 = x: int | 0 <= x < 0x1_0000_0000_0000_0000

  /** The number of values of a `w`-byte integer. */
  function Range(w: nat): (r: nat)
    ensures r > 0
  {
    if w == 0 then 1 else 0x100 * Range(w - 1)
  }

  /** `n` as `w` little-endian bytes, truncated to that width. */
  function LE(n: nat, w: nat): (s: seq<u8>)
    ensures |s| == w
  {
    if w == 0 then [] else [n % 0x100] + LE(n / 0x100, w - 1)
  }

  function FromLE(s: seq<u8>): (n: nat)
    ensures n < Range(|s|)
  {
    if s == [] then 0 else
      var rest := FromLE(s[1..]);
      s[0] + 0x100 * rest
  }

  lemma {:induction false} FromLEInverse(n: nat, w: nat)
    requires n < Range(w)
    ensures FromLE(LE(n, w)) == n
  {
    if w == 0 {
    } else {
      FromLEInverse(n / 0x100, w - 1);
      assert LE(n, w)[1..] == LE(n / 0x100, w - 1);
    }
  }

  lemma {:induction false} LEInverse(s: seq<u8>)
    ensures LE(FromLE(s), |s|) == s
  {
    if s == [] {
    } else {
      var rest := FromLE(s[1..]);
      LEInverse(s[1..]);
      assert FromLE(s) % 0x100 == s[0] && FromLE(s) / 0x100 == rest;
    }
  }

  /** Four bytes as a number, the first the least significant. */
  function Word(s: seq<u8>): int
    requires |s| == 4
  {
    (s[0] as int) + 0x100 * (s[1] as int) + 0x1_0000 * (s[2] as int) + 0x100_0000 * (s[3] as int)
  }

  lemma FourBytes(s: seq<u8>)
    requires |s| == 4
    ensures FromLE(s) == Word(s)
  {
    assert s[1..][1..] == s[2..] && s[2..][1..] == s[3..] && s[3..][1..] == [];
    assert FromLE(s[3..]) == s[3];
    assert FromLE(s[2..]) == s[2] + 0x100 * (s[3] as int);
  }

  lemma EightBytes(s: seq<u8>)
    requires |s| == 8
    ensures FromLE(s) == FromLE(s[..4]) + 0x1_0000_0000 * FromLE(s[4..])
  {
    FourBytes(s[..4]);
    assert s[1..][1..] == s[2..] && s[2..][1..] == s[3..] && s[3..][1..] == s[4..];
    assert FromLE(s[3..]) == s[3] + 0x100 * FromLE(s[4..]);
    assert FromLE(s[2..]) == s[2] + 0x100 * (s[3] as int) + 0x1_0000 * FromLE(s[4..]);
  }

  lemma Ranges()
    ensures Range(4) == 0x1_0000_0000 && Range(8) == 0x1_0000_0000_0000_0000
  {
    assert Range(2) == 0x1_0000;
    assert Range(4) == 0x1_0000_0000;
    assert Range(6) == 0x1_0000_0000_0000;
  }

  /** What a serialiser leaves in a buffer: `e` from the start, or as much of it as fits. */
  function Overlay(buf: seq<u8>, e: seq<u8>): (r: seq<u8>)
    ensures |r| == |buf|
    ensures |e| <= |buf| ==> r[..|e|] == e
  {
    if |e| <= |buf| then e + buf[|e|..] else e[..|buf|]
  }

  /** `n` bytes of memory `m` from address `a`. */
  function Slice(m: seq<u8>, a: nat, n: nat): seq<u8> {
    if a + n <= |m| then m[a..a + n] else []
  }

  /** Memory `m` with `data` placed at address `a`. */
  function Splice(m: seq<u8>, a: nat, data: seq<u8>): (r: seq<u8>)
    ensures |r| == |m|
  {
    if a + |data| <= |m| then m[..a] + data + m[a + |data|..] else m
  }

  /** A placement is visible in its own range and nowhere else. */
  lemma SpliceAt(m: seq<u8>, a: nat, data: seq<u8>)
    requires a + |data| <= |m|
    ensures Slice(Splice(m, a, data), a, |data|) == data
    ensures forall i :: 0 <= i < |m| && !(a <= i < a + |data|) ==> Splice(m, a, data)[i] == m[i]
  {
  }

  lemma SpliceByte(m: seq<u8>, a: nat, data: seq<u8>, b: nat)
    requires a + |data| <= |m| && b < |m|
    ensures Splice(m, a, data)[b] == if a <= b < a + |data| then data[b - a] else m[b]
  {
  }

  /** Placing back what is already there changes nothing. */
  lemma SpliceSame(m: seq<u8>, a: nat, n: nat)
    ensures Splice(m, a, Slice(m, a, n)) == m
  {
  }
}
