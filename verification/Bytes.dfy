/** Octets, the big-endian integer layouts of the wire formats, and the doubling
    growth rule shared by every reallocated buffer of the data plane. */
module Bytes {

  type byte = x: int | 0 <= x < 256

  datatype Option<T> = None | Some(value: T)

  const HIGH_WATER: nat := 262144
  const LOW_WATER: nat := 131072
  const READ_MAX: nat := 65536

  function Min(a: int, b: int): (m: int)
    ensures m <= a && m <= b && (m == a || m == b)
  {
    if a < b then a else b
  }

  /** `wr_u16` and `wr_u32`: the most significant octet first. */
  function U16(v: nat): (s: seq<byte>)
    ensures |s| == 2
  {
    [v / 0x100 % 0x100, v % 0x100]
  }

  function U32(v: nat): (s: seq<byte>)
    ensures |s| == 4
  {
    [v / 0x1000000 % 0x100, v / 0x10000 % 0x100, v / 0x100 % 0x100, v % 0x100]
  }

  function U64(v: nat): (s: seq<byte>)
    ensures |s| == 8
  {
    U32(v / 0x1_0000_0000) + U32(v % 0x1_0000_0000)
  }

  /** `rd_u16`, `rd_u32` and `rd_u64` read at the start of the buffer. */
  function ReadU16(s: seq<byte>): (v: nat)
    requires |s| >= 2
    ensures v < 0x1_0000
  {
    (s[0] as int) * 0x100 + s[1] as int
  }

  function ReadU32(s: seq<byte>): (v: nat)
    requires |s| >= 4
    ensures v < 0x1_0000_0000
  {
    (s[0] as int) * 0x1000000 + (s[1] as int) * 0x10000 + (s[2] as int) * 0x100 + s[3] as int
  }

  function ReadU64(s: seq<byte>): (v: nat)
    requires |s| >= 8
    ensures v < 0x1_0000_0000_0000_0000
  {
    ReadU32(s) * 0x1_0000_0000 + ReadU32(s[4..])
  }

  lemma U16RoundTrip(v: nat, rest: seq<byte>)
    requires v < 0x1_0000
    ensures ReadU16(U16(v) + rest) == v
  {
  }

  lemma U32RoundTrip(v: nat, rest: seq<byte>)
    requires v < 0x1_0000_0000
    ensures ReadU32(U32(v) + rest) == v
  {
    assert v == v / 0x1000000 * 0x1000000 + v / 0x10000 % 0x100 * 0x10000 + v / 0x100 % 0x100 * 0x100 + v % 0x100;
  }

  lemma U64RoundTrip(v: nat, rest: seq<byte>)
    requires v < 0x1_0000_0000_0000_0000
    ensures ReadU64(U64(v) + rest) == v
  {
    var hi, lo := v / 0x1_0000_0000, v % 0x1_0000_0000;
    U32RoundTrip(hi, U32(lo) + rest);
    U32RoundTrip(lo, rest);
    assert U64(v) + rest == U32(hi) + (U32(lo) + rest);
    assert (U64(v) + rest)[4..] == U32(lo) + rest;
  }

  /** `while (ncap < need) ncap *= 2` */
  function Grow(ncap: nat, need: nat): (cap: nat)
    requires ncap > 0
    ensures cap >= need && cap >= ncap
    ensures cap == ncap || cap < 2 * need
    decreases need - ncap
  {
    if ncap < need then Grow(2 * ncap, need) else ncap
  }

  /** The capacity after a growth step: double the old one (or start at `first`)
      until `need` fits. */
  function NextCap(cap: nat, first: nat, need: nat): (ncap: nat)
    requires first > 0
    ensures ncap >= need && ncap >= cap
  {
    Grow(if cap != 0 then 2 * cap else first, need)
  }

  /** The growth loop of `tcp_write`, `pq_append` and the other queues. */
  method Double(cap: nat, first: nat, need: nat) returns (ncap: nat)
    requires first > 0
    ensures ncap == NextCap(cap, first, need)
  {
    ncap := if cap != 0 then 2 * cap else first;
    while ncap < need
      invariant ncap > 0 && Grow(ncap, need) == NextCap(cap, first, need)
      decreases need - ncap
    {
      ncap := 2 * ncap;
    }
  }

  /** The capacities a buffer that starts at 16 KiB can ever have while it holds
      at most the high-water mark. */
  predicate InChain(cap: nat) {
    cap == 0 || cap == 16384 || cap == 32768 || cap == 65536 || cap == 131072 || cap == 262144
  }

  lemma GrowStaysInChain(n: nat, need: nat)
    requires n != 0 && InChain(n) && need <= HIGH_WATER
    ensures InChain(Grow(n, need))
    decreases need - n
  {
  }

  lemma NextCapStaysInChain(cap: nat, first: nat, need: nat)
    requires InChain(cap) && cap < need <= HIGH_WATER
    requires first != 0 && InChain(first)
    ensures InChain(NextCap(cap, first, need))
  {
    GrowStaysInChain(if cap != 0 then 2 * cap else first, need);
  }

  /** `memmove` of the queued octets to the front. */
  method MoveDown(a: array<byte>, off: nat, len: nat)
    requires off <= len <= a.Length
    modifies a
    ensures a[..len - off] == old(a[off..len])
  {
    forall i | 0 <= i < len - off {
      a[i] := a[i + off];
    }
  }

  /** `realloc` to a larger block. */
  method Realloc(a: array<byte>, ncap: nat) returns (b: array<byte>)
    requires a.Length <= ncap
    ensures fresh(b) && b.Length == ncap && b[..a.Length] == a[..]
  {
    b := new byte[ncap];
    forall i | 0 <= i < a.Length {
      b[i] := a[i];
    }
  }

  /** Compaction, then growth. */
  method MoveAndGrow(a: array<byte>, off: nat, len: nat, ncap: nat) returns (b: array<byte>)
    requires off <= len <= a.Length <= ncap
    modifies a
    ensures fresh(b) && b.Length == ncap && b[..len - off] == old(a[off..len])
  {
    MoveDown(a, off, len);
    b := Realloc(a, ncap);
    assert b[..len - off] == b[..a.Length][..len - off] == a[..][..len - off] == a[..len - off];
  }

  /** `memcpy` of `data` to `a + at`; the octets in front of it stay. */
  method CopyIn(a: array<byte>, at: nat, data: seq<byte>)
    requires at + |data| <= a.Length
    modifies a
    ensures a[..at] == old(a[..at]) && a[at..at + |data|] == data
  {
    forall i | 0 <= i < |data| {
      a[at + i] := data[i];
    }
  }
}
