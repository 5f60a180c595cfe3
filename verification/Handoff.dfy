/** A connection before it has a role: its chunks go through the frame reader until
    one frame turns it into a relay leg; from the next octet on, everything is the
    relay's. The broker does this for DATA_BIND (`conn_read`), the agent for
    DATA_BIND_OK (`data_conn_pre_read`). */
module Handoff {
  import opened Bytes
  import opened Frames

  /** The octets of one TLS record, the most that one `SSL_read` returns. */
  const RECORD_MAX: nat := 16384

  /** What a frame does to the connection: nothing, the switch to a relay leg, or an
      end of this phase (it is closed, or becomes an agent's control session). */
  datatype Verdict = Keep | Switch | Leave

  /** The decision may depend on the frames seen before. */
  type Decider = (seq<Frame>, Frame) -> Verdict

  datatype Mode = Framing | Relaying | Closed

  datatype Conn = Conn(mode: Mode, seen: seq<Frame>, rest: seq<byte>, raw: seq<byte>)

  const START := Conn(Framing, [], [], [])

  /** The loop of `conn_read` over what is buffered. */
  function Turn(c: Conn, d: Decider): (c': Conn)
    requires c.mode.Framing?
    ensures c'.mode.Framing? ==> Parse(c'.rest).Incomplete? && c'.raw == c.raw
    decreases |c.rest|
  {
    match Parse(c.rest)
    case Incomplete => c
    case Malformed => c.(mode := Closed, rest := [])
    case Got(f, rest) =>
      match d(c.seen, f)
      case Keep => Turn(c.(seen := c.seen + [f], rest := rest), d)
      case Switch => Conn(Relaying, c.seen + [f], [], c.raw + rest)
      case Leave => c.(mode := Closed, seen := c.seen + [f], rest := [])
  }

  /** The loop from the point where a frame was taken off the buffer. */
  ghost function Handled(c: Conn, d: Decider, f: Frame): Conn
    requires c.mode.Framing?
  {
    match d(c.seen, f)
    case Keep => Turn(c.(seen := c.seen + [f]), d)
    case Switch => Conn(Relaying, c.seen + [f], [], c.raw + c.rest)
    case Leave => c.(mode := Closed, seen := c.seen + [f], rest := [])
  }

  /** `conn_read`; after the switch the relay's own read callback. */
  function OnRead(c: Conn, d: Decider, data: seq<byte>): (c': Conn)
    requires c.mode.Framing? ==> Parse(c.rest).Incomplete?
    ensures c'.mode.Framing? ==> Parse(c'.rest).Incomplete?
  {
    match c.mode
    case Closed => c
    case Relaying => c.(raw := c.raw + data)
    case Framing =>
      if |c.rest| + |data| > LIMIT then c.(mode := Closed, rest := [])
      else Turn(c.(rest := c.rest + data), d)
  }

  function OnReads(c: Conn, d: Decider, chunks: seq<seq<byte>>): (c': Conn)
    requires c.mode.Framing? ==> Parse(c.rest).Incomplete?
    decreases |chunks|
  {
    if chunks == [] then c else OnReads(OnRead(c, d, chunks[0]), d, chunks[1..])
  }

  function Flat(chunks: seq<seq<byte>>): seq<byte> {
    if chunks == [] then [] else chunks[0] + Flat(chunks[1..])
  }

  /** What one more read adds to the outcome of a turn. */
  function Extend(c: Conn, d: Decider, x: seq<byte>): Conn
    requires c.mode.Framing? ==> Parse(c.rest).Incomplete?
  {
    match c.mode
    case Closed => c
    case Relaying => c.(raw := c.raw + x)
    case Framing => Turn(c.(rest := c.rest + x), d)
  }

  /** Splitting a chunk does not matter, whatever the octets are: parsing what came
      first and then the rest is parsing it all. */
  lemma {:induction false} TurnSplits(c: Conn, d: Decider, x: seq<byte>)
    requires c.mode.Framing?
    ensures Extend(Turn(c, d), d, x) == Turn(c.(rest := c.rest + x), d)
    decreases |c.rest|
  {
    ParseMore(c.rest, x);
    match Parse(c.rest)
    case Incomplete =>
    case Malformed =>
    case Got(f, rest) =>
      if d(c.seen, f).Keep? {
        TurnSplits(c.(seen := c.seen + [f], rest := rest), d, x);
      }
      assert c.raw + rest + x == c.raw + (rest + x);
  }

  // -------------------------------------------------------------- chunking

  function At(d: Decider, s: seq<byte>): Conn {
    Turn(START.(rest := s), d)
  }

  /** Reads of at most `m` octets. */
  predicate Chunks(chunks: seq<seq<byte>>, m: nat) {
    forall i :: 0 <= i < |chunks| ==> |chunks[i]| <= m
  }

  /** At no point of the stream can the next chunk overflow the reader. */
  ghost predicate Roomy(d: Decider, s: seq<byte>, m: nat) {
    forall k :: 0 <= k <= |s| && At(d, s[..k]).mode.Framing?
      ==> |At(d, s[..k]).rest| + Min(m, |s| - k) <= LIMIT
  }

  lemma NextChunk(d: Decider, s: seq<byte>, k: nat, x: seq<byte>, m: nat)
    requires k + |x| <= |s| && x == s[k..k + |x|] && |x| <= m && Roomy(d, s, m)
    ensures OnRead(At(d, s[..k]), d, x) == At(d, s[..k + |x|])
  {
    hide Turn;
    assert s[..k] + x == s[..k + |x|];
    TurnSplits(START.(rest := s[..k]), d, x);
  }

  /** Any chunking of a roomy stream does what the stream does as a whole. */
  lemma {:induction false} Unsplit(d: Decider, s: seq<byte>, k: nat, chunks: seq<seq<byte>>, m: nat)
    requires k <= |s| && Roomy(d, s, m) && Chunks(chunks, m) && Flat(chunks) == s[k..]
    ensures OnReads(At(d, s[..k]), d, chunks) == At(d, s)
    decreases |chunks|
  {
    hide Roomy, At, OnRead;
    if chunks == [] {
      assert s[..k] == s;
    } else {
      var n := |chunks[0]|;
      assert |s[k..]| == n + |Flat(chunks[1..])|;
      assert s[k..k + n] == s[k..][..n] == chunks[0];
      NextChunk(d, s, k, chunks[0], m);
      assert Flat(chunks[1..]) == s[k..][n..] == s[k + n..];
      Unsplit(d, s, k + n, chunks[1..], m);
    }
  }

  lemma Unchunked(d: Decider, s: seq<byte>, chunks: seq<seq<byte>>, m: nat)
    requires Roomy(d, s, m) && Chunks(chunks, m) && Flat(chunks) == s
    ensures OnReads(START, d, chunks) == At(d, s)
  {
    assert s[..0] == [] && s[0..] == s;
    assert At(d, []) == START;
    Unsplit(d, s, 0, chunks, m);
  }

  // ------------------------------------------------------- streams of frames

  function EncodeAll(fs: seq<Frame>): seq<byte> {
    if fs == [] then [] else Bits(fs[0]) + EncodeAll(fs[1..])
  }

  /** Frames that leave room for a read of `m` octets. */
  predicate Small(fs: seq<Frame>, m: nat) {
    forall i :: 0 <= i < |fs| ==> Wellformed(fs[i]) && |fs[i].payload| + m <= MAX_PAYLOAD + 1
  }

  ghost predicate Kept(d: Decider, seen: seq<Frame>, fs: seq<Frame>) {
    forall i :: 0 <= i < |fs| ==> d(seen + fs[..i], fs[i]).Keep?
  }

  lemma KeptTail(d: Decider, seen: seq<Frame>, fs: seq<Frame>)
    requires Kept(d, seen, fs) && fs != []
    ensures d(seen, fs[0]).Keep? && Kept(d, seen + [fs[0]], fs[1..])
  {
    assert seen + fs[..0] == seen;
    forall i | 0 <= i < |fs[1..]| ensures d(seen + [fs[0]] + fs[1..][..i], fs[1..][i]).Keep? {
      assert seen + [fs[0]] + fs[1..][..i] == seen + fs[..i + 1];
    }
  }

  lemma TakesFrame(c: Conn, d: Decider, f: Frame, x: seq<byte>)
    requires c.mode.Framing? && Wellformed(f) && d(c.seen, f).Keep?
    ensures Turn(c.(rest := Bits(f) + x), d) == Turn(c.(seen := c.seen + [f], rest := x), d)
  {
    RoundTrip(f, x);
  }

  /** Frames that are kept are taken one by one. */
  lemma {:induction false} TakesFrames(c: Conn, d: Decider, fs: seq<Frame>, x: seq<byte>, m: nat)
    requires c.mode.Framing? && Small(fs, m) && Kept(d, c.seen, fs)
    ensures Turn(c.(rest := EncodeAll(fs) + x), d) == Turn(c.(seen := c.seen + fs, rest := x), d)
    decreases |fs|
  {
    hide Turn, Bits;
    if fs == [] {
      assert EncodeAll(fs) + x == x && c.seen + fs == c.seen;
    } else {
      KeptTail(d, c.seen, fs);
      assert EncodeAll(fs) + x == Bits(fs[0]) + (EncodeAll(fs[1..]) + x);
      TakesFrame(c, d, fs[0], EncodeAll(fs[1..]) + x);
      TakesFrames(c.(seen := c.seen + [fs[0]]), d, fs[1..], x, m);
      assert c.seen + [fs[0]] + fs[1..] == c.seen + fs;
    }
  }

  /** In the middle of such frames less than one frame is buffered. */
  lemma {:induction false} SmallResidue(c: Conn, d: Decider, fs: seq<Frame>, k: nat, m: nat)
    requires c.mode.Framing? && Small(fs, m) && fs != [] && Kept(d, c.seen, fs[..|fs| - 1])
    requires k < |EncodeAll(fs)|
    ensures var c' := Turn(c.(rest := EncodeAll(fs)[..k]), d); c'.mode.Framing? && |c'.rest| + m <= LIMIT
    decreases |fs|
  {
    hide Turn, Bits;
    var s, n := EncodeAll(fs), |Bits(fs[0])|;
    if k < n {
      assert s[..k] == Bits(fs[0])[..k];
      CutFrame(c, d, fs[0], k, m);
    } else {
      KeptTail(d, c.seen, fs[..|fs| - 1]);
      assert fs[..|fs| - 1][1..] == fs[1..][..|fs[1..]| - 1];
      assert s[..k] == Bits(fs[0]) + EncodeAll(fs[1..])[..k - n];
      TakesFrame(c, d, fs[0], EncodeAll(fs[1..])[..k - n]);
      SmallResidue(c.(seen := c.seen + [fs[0]]), d, fs[1..], k - n, m);
    }
  }

  /** The start of a small frame waits for the rest. */
  lemma CutFrame(c: Conn, d: Decider, f: Frame, k: nat, m: nat)
    requires c.mode.Framing? && Small([f], m) && k < |Bits(f)|
    ensures var c' := Turn(c.(rest := Bits(f)[..k]), d); c'.mode.Framing? && |c'.rest| + m <= LIMIT
  {
    assert [f][0] == f;
    CutShort(f, k);
    hide Bits;
  }

  lemma {:induction false} EncodeAllSnoc(fs: seq<Frame>, f: Frame)
    ensures EncodeAll(fs + [f]) == EncodeAll(fs) + Bits(f)
    decreases |fs|
  {
    hide Bits;
    if fs == [] {
      assert EncodeAll([f]) == Bits(f) + EncodeAll([f][1..]);
    } else {
      assert (fs + [f])[1..] == fs[1..] + [f];
      EncodeAllSnoc(fs[1..], f);
    }
  }

  lemma SmallSplit(fs: seq<Frame>, f: Frame, m: nat)
    requires Small(fs + [f], m)
    ensures Small(fs, m) && Small([f], m) && Wellformed(f)
  {
    assert (fs + [f])[|fs|] == f;
    forall i | 0 <= i < |fs| ensures Wellformed(fs[i]) && |fs[i].payload| + m <= MAX_PAYLOAD + 1 {
      assert fs[i] == (fs + [f])[i];
    }
  }

  lemma FramesRoomy(d: Decider, fs: seq<Frame>, f: Frame, x: seq<byte>, k: nat, m: nat)
    requires Small(fs + [f], m) && Kept(d, [], fs) && k < |EncodeAll(fs) + Bits(f)|
    ensures var c := At(d, (EncodeAll(fs) + Bits(f) + x)[..k]); c.mode.Framing? && |c.rest| + m <= LIMIT
  {
    hide Turn, Bits;
    var s := EncodeAll(fs) + Bits(f);
    EncodeAllSnoc(fs, f);
    assert (fs + [f])[..|fs|] == fs;
    SmallResidue(START, d, fs + [f], k, m);
    assert (s + x)[..k] == s[..k];
  }

  /** Chunking invariance: frames of safe size come out of any chunking, in order,
      and the start of the next frame stays buffered. */
  lemma ChunkingInvariance(d: Decider, fs: seq<Frame>, next: Frame, k: nat, chunks: seq<seq<byte>>, m: nat)
    requires Small(fs + [next], m) && Kept(d, [], fs) && k < |Bits(next)|
    requires Chunks(chunks, m) && Flat(chunks) == EncodeAll(fs) + Bits(next)[..k]
    ensures OnReads(START, d, chunks) == Conn(Framing, fs, Bits(next)[..k], [])
  {
    hide Turn, Bits;
    var s, t := EncodeAll(fs) + Bits(next)[..k], EncodeAll(fs) + Bits(next);
    assert s == t[..|s|];
    SmallSplit(fs, next, m);
    forall j | 0 <= j <= |s| && At(d, s[..j]).mode.Framing?
      ensures |At(d, s[..j]).rest| + Min(m, |s| - j) <= LIMIT
    {
      FramesRoomy(d, fs, next, [], j, m);
      assert (t + [])[..j] == s[..j];
    }
    Unchunked(d, s, chunks, m);
    TakesFrames(START, d, fs, Bits(next)[..k], m);
    assert [] + fs == fs;
    Stays(START.(seen := fs), d, next, k);
  }

  lemma Stays(c: Conn, d: Decider, f: Frame, k: nat)
    requires c.mode.Framing? && Wellformed(f) && k < |Bits(f)|
    ensures Turn(c.(rest := Bits(f)[..k]), d) == c.(rest := Bits(f)[..k])
  {
    CutShort(f, k);
  }

  lemma Switches(c: Conn, d: Decider, f: Frame, x: seq<byte>)
    requires c.mode.Framing? && Wellformed(f) && d(c.seen, f).Switch?
    ensures Turn(c.(rest := Bits(f) + x), d) == Conn(Relaying, c.seen + [f], [], c.raw + x)
  {
    RoundTrip(f, x);
  }

  /** Role handoff: for every chunking of some frames, the frame that binds the
      connection, and raw octets, the relay gets exactly the raw octets: none was
      parsed as a frame, none stays in the reader. */
  lemma HandsOver(d: Decider, pre: seq<Frame>, bind: Frame, raw: seq<byte>, chunks: seq<seq<byte>>, m: nat)
    requires Small(pre + [bind], m) && Kept(d, [], pre) && d(pre, bind).Switch?
    requires Chunks(chunks, m) && Flat(chunks) == EncodeAll(pre) + Bits(bind) + raw
    ensures OnReads(START, d, chunks) == Conn(Relaying, pre + [bind], [], raw)
  {
    hide Turn, Bits;
    var s := EncodeAll(pre) + Bits(bind) + raw;
    forall j | 0 <= j <= |s|
      ensures At(d, s[..j]).mode.Framing? ==> |At(d, s[..j]).rest| + Min(m, |s| - j) <= LIMIT
    {
      if j < |EncodeAll(pre) + Bits(bind)| {
        FramesRoomy(d, pre, bind, raw, j, m);
      } else {
        var x := s[|EncodeAll(pre) + Bits(bind)|..j];
        assert s[..j] == EncodeAll(pre) + (Bits(bind) + x);
        Bound(d, pre, bind, x, m);
      }
    }
    Unchunked(d, s, chunks, m);
    Bound(d, pre, bind, raw, m);
    assert s == EncodeAll(pre) + (Bits(bind) + raw);
  }

  lemma Bound(d: Decider, pre: seq<Frame>, bind: Frame, x: seq<byte>, m: nat)
    requires Small(pre + [bind], m) && Kept(d, [], pre) && d(pre, bind).Switch?
    ensures At(d, EncodeAll(pre) + (Bits(bind) + x)) == Conn(Relaying, pre + [bind], [], x)
  {
    hide Turn, Bits;
    SmallSplit(pre, bind, m);
    TakesFrames(START, d, pre, Bits(bind) + x, m);
    assert [] + pre == pre && [] + x == x;
    Switches(START.(seen := pre), d, bind, x);
  }

  // ---------------------------------------------------------- the exact limit

  /** The longest chunks there are. */
  function Pieces(s: seq<byte>, m: nat): (c: seq<seq<byte>>)
    requires m > 0
    ensures Chunks(c, m) && Flat(c) == s
    decreases |s|
  {
    if |s| <= m then [s]
    else
      assert s == s[..m] + s[m..];
      [s[..m]] + Pieces(s[m..], m)
  }

  lemma {:induction false} FlatSnoc(chunks: seq<seq<byte>>, x: seq<byte>)
    ensures Flat(chunks + [x]) == Flat(chunks) + x
    decreases |chunks|
  {
    if chunks == [] {
      assert Flat([x]) == x + Flat([x][1..]);
    } else {
      assert (chunks + [x])[1..] == chunks[1..] + [x];
      FlatSnoc(chunks[1..], x);
    }
  }

  lemma {:induction false} ReadsSnoc(c: Conn, d: Decider, chunks: seq<seq<byte>>, x: seq<byte>)
    requires c.mode.Framing? ==> Parse(c.rest).Incomplete?
    ensures var c' := OnReads(c, d, chunks); c'.mode.Framing? ==> Parse(c'.rest).Incomplete?
    ensures OnReads(c, d, chunks + [x]) == OnRead(OnReads(c, d, chunks), d, x)
    decreases |chunks|
  {
    hide Parse, OnRead;
    if chunks == [] {
      assert OnReads(c, d, [x]) == OnReads(OnRead(c, d, x), d, [x][1..]);
    } else {
      assert (chunks + [x])[1..] == chunks[1..] + [x];
      ReadsSnoc(OnRead(c, d, chunks[0]), d, chunks[1..], x);
    }
  }

  /** A frame that is one octet short fits the reader by itself in any chunks. */
  lemma AlmostAll(d: Decider, f: Frame, k: nat, chunks: seq<seq<byte>>, m: nat)
    requires Wellformed(f) && k < |Bits(f)| && Chunks(chunks, m) && Flat(chunks) == Bits(f)[..k]
    ensures OnReads(START, d, chunks) == START.(rest := Bits(f)[..k])
  {
    hide Turn, Bits;
    var s := Bits(f)[..k];
    forall j | 0 <= j <= |s|
      ensures At(d, s[..j]) == START.(rest := s[..j])
    {
      assert s[..j] == Bits(f)[..j];
      Stays(START, d, f, j);
    }
    Unchunked(d, s, chunks, m);
    assert s[..|s|] == s;
  }

  /** The limit is exact: any larger frame has a chunking, with more octets right behind
      it, that makes the reader give up. */
  lemma LargerFrameCanFail(d: Decider, f: Frame, more: seq<byte>, m: nat) returns (chunks: seq<seq<byte>>)
    requires Wellformed(f) && |f.payload| + m > MAX_PAYLOAD + 1 && |more| + 1 == m
    ensures Chunks(chunks, m) && Flat(chunks) == Bits(f) + more
    ensures OnReads(START, d, chunks).mode.Closed?
  {
    var s, k := Bits(f), |Bits(f)| - 1;
    var most := Pieces(s[..k], m);
    var last := s[k..] + more;
    chunks := most + [last];
    FlatSnoc(most, last);
    assert s[..k] + last == s + more;
    AlmostAll(d, f, k, most, m);
    ReadsSnoc(START, d, most, last);
  }

  /** The relay gets exactly what follows the frame, however it is cut into reads. */
  ghost predicate Survives(d: Decider, bind: Frame, m: nat) {
    forall raw, chunks :: Chunks(chunks, m) && Flat(chunks) == Bits(bind) + raw
      ==> OnReads(START, d, chunks) == Conn(Relaying, [bind], [], raw)
  }

  /** A binding frame is handed over from reads of at most `m` octets if and only if its
      payload leaves room for all but one of them. */
  lemma ExactLimit(d: Decider, bind: Frame, m: nat)
    requires Wellformed(bind) && d([], bind).Switch? && m > 0
    ensures Survives(d, bind, m) <==> |bind.payload| + m <= MAX_PAYLOAD + 1
  {
    hide Bits, OnReads;
    if |bind.payload| + m <= MAX_PAYLOAD + 1 {
      forall raw, chunks | Chunks(chunks, m) && Flat(chunks) == Bits(bind) + raw
        ensures OnReads(START, d, chunks) == Conn(Relaying, [bind], [], raw)
      {
        assert [] + [bind] == [bind] && EncodeAll([]) + Bits(bind) == Bits(bind);
        HandsOver(d, [], bind, raw, chunks, m);
      }
    } else {
      var more := seq(m - 1, _ => 0 as byte);
      var chunks := LargerFrameCanFail(d, bind, more, m);
      assert OnReads(START, d, chunks) != Conn(Relaying, [bind], [], more);
    }
  }

  /** With reads of one TLS record each: up to 245761 octets. */
  lemma RecordLimit(d: Decider, bind: Frame)
    requires Wellformed(bind) && d([], bind).Switch?
    ensures Survives(d, bind, RECORD_MAX) <==> |bind.payload| <= 245761
  {
    hide Survives;
    ExactLimit(d, bind, RECORD_MAX);
  }

  // ------------------------------------------------------------ the deciders

  const HELLO: byte := 1
  const PING: byte := 6
  const DATA_BIND: byte := 11
  const DATA_BIND_OK: byte := 12
  const DATA_BIND_ERROR: byte := 13
  const CLOSE_STREAM: byte := 14
  const AUTH: byte := 19
  const MAX_SECRET: nat := 256

  /** What the broker looks up: streams waiting for this secret, valid tokens, and
      room for another stream of the peer's tunnel. */
  datatype Lookup = Lookup(bindable: Frame -> bool, authentic: Frame -> bool, openable: bool)

  predicate Authed(seen: seq<Frame>) {
    exists i :: 0 <= i < |seen| && seen[i].kind == AUTH
  }

  /** `conn_frame`, `data_conn_first_frame`, `peer_frame` */
  function BrokerVerdict(l: Lookup, seen: seq<Frame>, f: Frame): Verdict {
    if seen == [] then
      if f.kind == HELLO then Keep
      else if f.kind == DATA_BIND && f.streamId != 0 && 0 < |f.payload| <= MAX_SECRET && l.bindable(f) then Switch
      else Leave
    else if Authed(seen) then
      if f.kind == DATA_BIND then if f.streamId == 0 && l.openable then Switch else Leave
      else if f.kind == CLOSE_STREAM || f.kind == PING then Keep
      else Leave
    else if f.kind == AUTH then if l.authentic(f) then Keep else Leave
    else if f.kind == PING then Keep
    else Leave
  }

  /** `data_conn_pre_read` for the stream `id` */
  function AgentVerdict(id: nat, seen: seq<Frame>, f: Frame): Verdict {
    if f.kind == DATA_BIND_OK && f.streamId == id then Switch
    else if f.kind == DATA_BIND_ERROR || f.kind == DATA_BIND then Leave
    else Keep
  }

  /** An agent's data connection at the broker: its first frame binds it. */
  lemma BindHandsOver(l: Lookup, bind: Frame, raw: seq<byte>, chunks: seq<seq<byte>>, m: nat)
    requires MAX_SECRET + m <= MAX_PAYLOAD + 1
    requires bind.kind == DATA_BIND && 0 < bind.streamId < 0x1_0000_0000 && 0 < |bind.payload| <= MAX_SECRET
    requires l.bindable(bind) && Chunks(chunks, m) && Flat(chunks) == Bits(bind) + raw
    ensures OnReads(START, (seen, f) => BrokerVerdict(l, seen, f), chunks) == Conn(Relaying, [bind], [], raw)
  {
    hide Bits;
    assert [] + [bind] == [bind] && EncodeAll([]) + Bits(bind) == Bits(bind);
    HandsOver((seen, f) => BrokerVerdict(l, seen, f), [], bind, raw, chunks, m);
  }

  /** A peer's connection: HELLO, AUTH, then DATA_BIND of stream 0. */
  lemma PeerHandsOver(l: Lookup, hello: Frame, auth: Frame, bind: Frame, raw: seq<byte>, chunks: seq<seq<byte>>, m: nat)
    requires Small([hello, auth] + [bind], m) && hello.kind == HELLO && auth.kind == AUTH && l.authentic(auth)
    requires bind.kind == DATA_BIND && bind.streamId == 0 && l.openable
    requires Chunks(chunks, m) && Flat(chunks) == EncodeAll([hello, auth]) + Bits(bind) + raw
    ensures OnReads(START, (seen, f) => BrokerVerdict(l, seen, f), chunks) ==
            Conn(Relaying, [hello, auth, bind], [], raw)
  {
    hide Bits, EncodeAll;
    assert [] + [hello, auth][..0] == [] && [] + [hello, auth][..1] == [hello];
    assert [hello, auth][1].kind == AUTH;
    assert [hello, auth] + [bind] == [hello, auth, bind];
    HandsOver((seen, f) => BrokerVerdict(l, seen, f), [hello, auth], bind, raw, chunks, m);
  }

  /** The agent's data connection: whatever harmless frames come before its
      DATA_BIND_OK, the relay starts right behind it. */
  lemma BindOkHandsOver(id: nat, pre: seq<Frame>, ok: Frame, raw: seq<byte>, chunks: seq<seq<byte>>, m: nat)
    requires Small(pre + [ok], m) && ok.kind == DATA_BIND_OK && ok.streamId == id
    requires forall i :: 0 <= i < |pre| ==> AgentVerdict(id, [], pre[i]).Keep?
    requires Chunks(chunks, m) && Flat(chunks) == EncodeAll(pre) + Bits(ok) + raw
    ensures OnReads(START, (seen, f) => AgentVerdict(id, seen, f), chunks) == Conn(Relaying, pre + [ok], [], raw)
  {
    hide Bits, EncodeAll;
    HandsOver((seen, f) => AgentVerdict(id, seen, f), pre, ok, raw, chunks, m);
  }

  // ------------------------------------------------------------ the real loop

  /** The connection over its real reader. */
  class Inlet {
    const decide: Decider
    var fr: FrameReader
    var mode: Mode
    var seen: seq<Frame>
    var raw: seq<byte>       // what the relay was given

    ghost predicate Valid()
      reads this, fr
    {
      fr.Valid()
    }

    ghost function View(): Conn
      requires Valid()
      reads this, fr, fr.buf
    {
      Conn(mode, seen, if mode.Framing? then fr.Buffered() else [], raw)
    }

    constructor (decide: Decider)
      ensures Valid() && fresh(fr) && fresh(fr.buf) && View() == START && this.decide == decide
    {
      this.decide := decide;
      fr := new FrameReader();
      mode, seen, raw := Framing, [], [];
    }

    /** Handles one frame and looks for the next. */
    method Handle(f: Frame) returns (next: Option<Frame>)
      requires Valid() && mode.Framing?
      modifies this, fr, fr.buf
      ensures Valid() && fr == old(fr) && (fr.buf == old(fr.buf) || fresh(fr.buf))
      ensures next.Some? ==> mode.Framing? && fr.len < old(fr.len)
      ensures Handled(old(View()), decide, f) == if next.Some? then Handled(View(), decide, next.value) else View()
    {
      var verdict := decide(seen, f);
      seen := seen + [f];
      match verdict {
        case Keep =>
          assert fr.Buffered() + [] == fr.Buffered();
          var err;
          next, err := fr.Feed([]);
          if err { mode := Closed; }
        case Switch =>
          var lo := fr.Drain();
          mode, raw, next := Relaying, raw + lo, None;
        case Leave =>
          mode, next := Closed, None;
      }
    }

    /** `conn_read`, and the relay's read callback after the switch. */
    method Read(data: seq<byte>)
      requires Valid() && (mode.Framing? ==> Parse(fr.Buffered()).Incomplete?)
      modifies this, fr, fr.buf
      ensures Valid() && fr == old(fr) && (fr.buf == old(fr.buf) || fresh(fr.buf))
      ensures View() == OnRead(old(View()), decide, data)
    {
      hide Parse;
      if mode.Closed? { return; }
      if mode.Relaying? {
        raw := raw + data;
        return;
      }
      ghost var c := View().(rest := fr.Buffered() + data);
      assert data == [] ==> c.rest == fr.Buffered();
      var f, err := fr.Feed(data);
      if err {
        mode := Closed;
        return;
      }
      assert Turn(c, decide) == if f.Some? then Handled(View(), decide, f.value) else View();
      hide Turn, Handled;
      while f.Some?
        invariant Valid() && fr == old(fr) && (fr.buf == old(fr.buf) || fresh(fr.buf))
        invariant f.Some? ==> mode.Framing?
        invariant Turn(c, decide) == if f.Some? then Handled(View(), decide, f.value) else View()
        decreases f.Some?, fr.len
      {
        f := Handle(f.value);
      }
    }
  }
}
