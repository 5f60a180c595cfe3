/** Control frames and UDP envelopes: the wire layout and the incremental reader. */
module Frames {
  import opened Bytes

  const VERSION: byte := 1
  const HDR_LEN: nat := 10
  const MAX_PAYLOAD: nat := 262144
  const LIMIT: nat := MAX_PAYLOAD + HDR_LEN

  datatype Frame = Frame(kind: byte, streamId: nat, payload: seq<byte>)

  /** The values a frame's fields can have. */
  predicate Wellformed(f: Frame) {
    f.streamId < 0x1_0000_0000 && |f.payload| <= MAX_PAYLOAD
  }

  /** `tm_frame_encode` */
  function Encode(f: Frame): (r: Option<seq<byte>>)
    ensures r.Some? <==> |f.payload| <= MAX_PAYLOAD
  {
    if |f.payload| > MAX_PAYLOAD then None else Some(Bits(f))
  }

  function Bits(f: Frame): (s: seq<byte>)
    ensures |s| == HDR_LEN + |f.payload|
  {
    [VERSION, f.kind] + U32(|f.payload|) + U32(f.streamId) + f.payload
  }

  /** What the reader finds at the head of its buffer. */
  datatype Found = Incomplete | Malformed | Got(frame: Frame, rest: seq<byte>)

  function Parse(s: seq<byte>): (r: Found)
    ensures r.Got? ==> |r.rest| < |s|
  {
    if |s| < HDR_LEN then Incomplete
    else if s[0] != VERSION then Malformed
    else
      var n := ReadU32(s[2..]);
      if n > MAX_PAYLOAD then Malformed
      else if |s| < HDR_LEN + n then Incomplete
      else Got(Frame(s[1], ReadU32(s[6..]), s[HDR_LEN..HDR_LEN + n]), s[HDR_LEN + n..])
  }

  lemma ReadAt2(s: seq<byte>, x: seq<byte>)
    requires |s| >= HDR_LEN
    ensures ReadU32((s + x)[2..]) == ReadU32(s[2..]) && ReadU32((s + x)[6..]) == ReadU32(s[6..])
  {
  }

  /** More octets never change what was found; they only complete it. */
  lemma ParseMore(s: seq<byte>, x: seq<byte>)
    ensures Parse(s).Malformed? ==> Parse(s + x).Malformed?
    ensures Parse(s).Got? ==> Parse(s + x) == Got(Parse(s).frame, Parse(s).rest + x)
  {
    if |s| >= HDR_LEN {
      ReadAt2(s, x);
      var n := ReadU32(s[2..]);
      if |s| >= HDR_LEN + n {
        assert (s + x)[HDR_LEN..HDR_LEN + n] == s[HDR_LEN..HDR_LEN + n];
        assert (s + x)[HDR_LEN + n..] == s[HDR_LEN + n..] + x;
      }
    }
  }

  lemma HeaderOf(f: Frame, x: seq<byte>)
    requires Wellformed(f)
    ensures var s := Bits(f) + x;
      && s[0] == VERSION && s[1] == f.kind
      && ReadU32(s[2..]) == |f.payload| && ReadU32(s[6..]) == f.streamId
  {
    var s := Bits(f) + x;
    assert s[2..] == U32(|f.payload|) + (U32(f.streamId) + f.payload + x);
    assert s[6..] == U32(f.streamId) + (f.payload + x);
    U32RoundTrip(|f.payload|, U32(f.streamId) + f.payload + x);
    U32RoundTrip(f.streamId, f.payload + x);
  }

  /** Round trip: what is encoded parses back, and leaves what follows it; a frame is not
      encoded exactly when its payload is too long. */
  lemma RoundTrip(f: Frame, x: seq<byte>)
    requires f.streamId < 0x1_0000_0000
    ensures if Wellformed(f) then Encode(f) == Some(Bits(f)) && Parse(Bits(f) + x) == Got(f, x) else Encode(f) == None
  {
    if Wellformed(f) {
      hide ReadU32;
      HeaderOf(f, x);
      var s, n := Bits(f) + x, |f.payload|;
      assert s[HDR_LEN..HDR_LEN + n] == f.payload;
      assert s[HDR_LEN + n..] == x;
    }
  }

  /** A frame cut short is incomplete, wherever it is cut. */
  lemma CutShort(f: Frame, k: nat)
    requires Wellformed(f) && k < |Bits(f)|
    ensures Parse(Bits(f)[..k]).Incomplete?
  {
    var s := Bits(f)[..k];
    if k >= HDR_LEN {
      HeaderOf(f, []);
      assert Bits(f) + [] == Bits(f) == s + Bits(f)[k..];
      ReadAt2(s, Bits(f)[k..]);
    }
  }

  /** And the other way around: whatever parses is the encoding of what was found. */
  lemma ParseIsEncoding(s: seq<byte>)
    requires Parse(s).Got?
    ensures Wellformed(Parse(s).frame) && s == Bits(Parse(s).frame) + Parse(s).rest
    ensures Encode(Parse(s).frame) == Some(Bits(Parse(s).frame))
  {
    var f := Parse(s).frame;
    U32OfRead(s[2..]);
    U32OfRead(s[6..]);
    assert s[2..6] == s[2..][..4] && s[6..10] == s[6..][..4];
    assert s == s[..2] + s[2..6] + s[6..10] + s[10..10 + |f.payload|] + s[10 + |f.payload|..];
  }

  lemma U32OfRead(s: seq<byte>)
    requires |s| >= 4
    ensures U32(ReadU32(s)) == s[..4]
  {
    var v, h2, h1 := ReadU32(s), ReadU16(s) * 0x100 + s[2] as int, ReadU16(s);
    assert v == h2 * 0x100 + s[3] as int;
    assert v / 0x100 == h2 && v % 0x100 == s[3] as int;
    assert h2 / 0x100 == h1 && h2 % 0x100 == s[2] as int;
    assert v / 0x10000 == h1 && h1 / 0x100 == s[0] as int && h1 % 0x100 == s[1] as int;
    assert v / 0x1000000 == s[0] as int;
  }

  // --------------------------------------------------------------- envelopes

  const ENV_HDR: nat := 11
  const FLAGS_ALL: nat := 0x0F

  datatype Env = Env(flow: nat, flags: byte, payload: seq<byte>)

  /** `tm_env_encode` */
  function EncodeEnv(e: Env): (s: seq<byte>)
    ensures |s| == ENV_HDR + |e.payload|
  {
    U16(ENV_HDR) + U64(e.flow) + [e.flags] + e.payload
  }

  /** `tm_env_decode`: an unknown flag bit is an error. */
  function DecodeEnv(s: seq<byte>): (r: Option<Env>) {
    if |s| < ENV_HDR || ReadU16(s) != ENV_HDR || s[10] as int > FLAGS_ALL then None
    else Some(Env(ReadU64(s[2..10]), s[10], s[ENV_HDR..]))
  }

  /** Envelopes round-trip exactly when they use only the defined flags. */
  lemma EnvRoundTrip(e: Env)
    requires e.flow < 0x1_0000_0000_0000_0000
    ensures DecodeEnv(EncodeEnv(e)) == if e.flags as int <= FLAGS_ALL then Some(e) else None
  {
    var s := EncodeEnv(e);
    assert s == U16(ENV_HDR) + (U64(e.flow) + [e.flags] + e.payload);
    U16RoundTrip(ENV_HDR, U64(e.flow) + [e.flags] + e.payload);
    U64RoundTrip(e.flow, []);
    assert s[2..10] == U64(e.flow) == U64(e.flow) + [];
    assert s[ENV_HDR..] == e.payload;
  }

  // ------------------------------------------------------------------ reader

  class FrameReader {
    var buf: array<byte>
    var len: nat

    ghost predicate Valid()
      reads this
    {
      len <= buf.Length && len <= LIMIT && (buf.Length <= 1024 || buf.Length < 2 * LIMIT)
    }

    ghost function Buffered(): seq<byte>
      requires Valid()
      reads this, buf
    {
      buf[..len]
    }

    constructor ()
      ensures Valid() && fresh(buf) && Buffered() == []
    {
      buf := new byte[0];
      len := 0;
    }

    /** `tm_frame_reader_drain` */
    method Drain() returns (s: seq<byte>)
      requires Valid()
      modifies this
      ensures Valid() && buf == old(buf) && s == old(Buffered()) && Buffered() == []
    {
      s := buf[..len];
      len := 0;
    }

    /** Appends, growing by doubling. */
    method Append(data: seq<byte>)
      requires Valid() && len + |data| <= LIMIT
      modifies this, buf
      ensures Valid() && (buf == old(buf) || fresh(buf)) && Buffered() == old(Buffered()) + data
    {
      if len + |data| > buf.Length {
        var ncap := if buf.Length != 0 then buf.Length else 1024;
        while ncap < len + |data|
          invariant ncap >= buf.Length && ncap > 0
          invariant ncap <= 1024 || ncap < 2 * LIMIT
          decreases len + |data| - ncap
        {
          ncap := 2 * ncap;
        }
        buf := MoveAndGrow(buf, 0, len, ncap);
      }
      CopyIn(buf, len, data);
      len := len + |data|;
    }

    /** `tm_frame_reader_feed`: an oversized chunk is refused as a whole. */
    method Feed(data: seq<byte>) returns (f: Option<Frame>, errored: bool)
      requires Valid()
      modifies this, buf
      ensures Valid() && (buf == old(buf) || fresh(buf))
      ensures
        var s := old(Buffered()) + data;
        if data != [] && |s| > LIMIT then errored && f.None? && Buffered() == old(Buffered())
        else match Parse(s)
          case Incomplete => !errored && f.None? && Buffered() == s
          case Malformed => errored && f.None? && Buffered() == s
          case Got(frame, rest) => !errored && f == Some(frame) && Buffered() == rest
    {
      if data != [] {
        if len + |data| > LIMIT { return None, true; }
        Append(data);
      } else {
        assert Buffered() + data == Buffered();
      }
      ghost var s := Buffered();
      if len < HDR_LEN { return None, false; }
      if buf[0] != VERSION { return None, true; }
      assert buf[2..len] == s[2..] && buf[6..len] == s[6..];
      var n := ReadU32(buf[2..len]);
      if n > MAX_PAYLOAD { return None, true; }
      if len < HDR_LEN + n { return None, false; }
      var frame := Frame(buf[1], ReadU32(buf[6..len]), buf[HDR_LEN..HDR_LEN + n]);
      assert frame.payload == s[HDR_LEN..HDR_LEN + n];
      Shift(HDR_LEN + n);
      return Some(frame), false;
    }

    /** The `memmove` of what follows a frame. */
    method Shift(k: nat)
      requires Valid() && k <= len
      modifies this, buf
      ensures Valid() && buf == old(buf) && Buffered() == old(Buffered())[k..]
    {
      forall i | 0 <= i < len - k {
        buf[i] := buf[i + k];
      }
      len := len - k;
    }
  }
}
