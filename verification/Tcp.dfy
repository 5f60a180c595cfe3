/** The write side of a raw TCP leg: one buffer that the outstanding `uv_write`
    reads in place, appends behind it, and the FIN after the last octet. States
    are values; `TcpIo` refines them to a real buffer.

    A write error closes the leg here: every owner's error callback closes it. */
module Tcp {
  import opened Bytes
  import opened Wire

  const FIRST_CAP: nat := 65536

  datatype Tcp = Tcp(
    closed: bool,
    writeClosed: bool,
    finSent: bool,
    pending: bool,           // wreq_pending
    aboveLow: bool,
    readPaused: bool,
    q: seq<byte>,            // wb[wb_off..wb_len]
    off: nat,                // wb_off
    cap: nat,                // wb_cap
    inFlight: nat,           // octets of q the outstanding uv_write reads
    accepted: seq<byte>,     // history: every octet tcp_write accepted
    retired: seq<byte>,      // history: every octet that left the buffer
    handed: seq<Token>,      // history: everything handed to uv_write and uv_shutdown
    done: nat,               // how much of `handed` belongs to completed writes
    net: seq<bool>)          // whether the next uv_write calls succeed

  function Fresh(net: seq<bool>): Tcp {
    Tcp(false, false, false, false, false, false, [], 0, 0, 0, [], [], [], 0, net)
  }

  function FinTokens(finSent: bool): seq<Token> {
    if finSent then [Close] else []
  }

  /** What was handed over is what left the buffer and what a write is reading. */
  ghost predicate InOrder(t: Tcp) {
    && t.inFlight <= |t.q|
    && t.handed == Tokens(t.retired + t.q[..t.inFlight]) + FinTokens(t.finSent)
    && t.done == |t.handed| - t.inFlight
  }

  /** What holds between any two statements of the write path. */
  ghost predicate Core(t: Tcp) {
    && t.accepted == t.retired + t.q
    && Disciplined(t.handed, t.accepted)
    && t.done <= |t.handed|
    && (!t.closed ==> InOrder(t))
    && (t.pending ==> 0 < t.inFlight <= |t.q|)
    && (!t.pending ==> t.inFlight == 0)
    && (t.finSent ==> t.writeClosed && t.q == [])
    && (Close in t.handed ==> t.writeClosed)
    && (t.q == [] ==> t.off == 0)
    && t.off + |t.q| <= t.cap
    && InChain(t.cap)
  }

  /** What holds when control is back in the event loop or in a callback. */
  ghost predicate Inv(t: Tcp) {
    && Core(t)
    && (!t.closed && t.q != [] ==> t.pending)
  }

  predicate Refuses(t: Tcp) {
    t.closed || t.writeClosed
  }

  /** `tcp_drained` */
  predicate Drained(t: Tcp) {
    !t.pending && t.q == []
  }

  ghost predicate Kept(t: Tcp, t': Tcp) {
    && t'.readPaused == t.readPaused
    && t.handed <= t'.handed
    && t.done <= t'.done
    && (!t'.closed ==> !t.closed)
  }

  /** The effect of a step that accepts nothing. */
  ghost predicate StepEffect(t: Tcp, t': Tcp, f: Fired) {
    && Inv(t') && Kept(t, t')
    && t'.accepted == t.accepted && t'.writeClosed == t.writeClosed && t'.cap == t.cap
    && (f.Error? <==> !t.closed && t'.closed)
    && (f.Quiet? && !t'.closed && t.q != [] ==> t'.pending)
  }

  lemma DisciplinedLeg(t: Tcp)
    requires Core(t)
    ensures !t.closed && Drained(t) ==> Tokens(t.accepted) <= t.handed[..t.done]
  {
    if !t.closed && Drained(t) {
      assert t.retired + t.q[..t.inFlight] == t.accepted;
    }
  }

  function NextNet(t: Tcp): bool {
    if t.net == [] then true else t.net[0]
  }

  /** `tcp_pump` starts a write of the whole queue. */
  function StartWrite(t: Tcp): Tcp {
    if NextNet(t) then t.(net := Tail(t.net), pending := true, inFlight := |t.q|, handed := t.handed + Tokens(t.q))
    else t.(net := Tail(t.net), closed := true, retired := t.retired + t.q, q := [], off := 0)
  }

  lemma StartWriteEffect(t: Tcp)
    requires Core(t) && !t.closed && !t.pending && t.q != []
    ensures var t' := StartWrite(t); StepEffect(t, t', if t'.closed then Error else Quiet)
  {
    if NextNet(t) { WriteStarted(t); } else { WriteFailed(t); }
  }

  lemma WriteStarted(t: Tcp)
    requires Core(t) && !t.closed && !t.pending && t.q != [] && NextNet(t)
    ensures StepEffect(t, StartWrite(t), Quiet)
  {
    hide Tokens, InChain, Tail;
    TokensConcat(t.retired, t.q);
    assert t.retired + t.q[..0] == t.retired;
    assert t.q[..|t.q|] == t.q;
    assert !t.finSent;
  }

  lemma WriteFailed(t: Tcp)
    requires Core(t) && !t.closed && !t.pending && t.q != [] && !NextNet(t)
    ensures StepEffect(t, StartWrite(t), Error)
  {
    hide Tokens, InChain, Tail, InOrder, Disciplined;
    assert t.accepted + [] == t.accepted;
  }

  /** `tcp_pump` up to its low-water callback; the flag asks for `Fin` after it. */
  function Pump(t: Tcp): (r: (Tcp, Fired, bool))
    requires Core(t)
    ensures StepEffect(t, r.0, r.1)
    ensures r.2 <==> !t.closed && Drained(t)
    ensures r.1.Low? <==> r.2
  {
    if t.pending || t.closed then (t, Quiet, false)
    else if t.q == [] then (t, Low, true)
    else
      StartWriteEffect(t);
      var t' := StartWrite(t);
      (t', if t'.closed then Error else Quiet, false)
  }

  /** `tcp_fin`, as reached from `tcp_pump` and `tcp_shutdown_send`. */
  function Fin(t: Tcp): (t': Tcp)
    requires Inv(t)
    ensures StepEffect(t, t', Quiet)
    ensures t'.finSent <==> t.finSent || (!t.closed && t.writeClosed && t.q == [])
  {
    if t.closed || !t.writeClosed || t.finSent || t.q != [] then t
    else
      assert t.retired + t.q[..0] == t.accepted;
      t.(finSent := true, handed := t.handed + [Close], done := t.done + 1)
  }

  /** The buffer after `data` was appended, compacted and grown if it had to be. */
  function Enqueue(t: Tcp, data: seq<byte>): Tcp {
    var t1 := if t.off + |t.q| + |data| > t.cap
              then t.(off := 0, cap := NextCap(t.cap, FIRST_CAP, |t.q| + |data|)) else t;
    t1.(q := t.q + data, accepted := t.accepted + data,
        aboveLow := t.aboveLow || t1.off + |t.q| + |data| > LOW_WATER)
  }

  lemma DisciplinedGrows(handed: seq<Token>, accepted: seq<byte>, data: seq<byte>)
    requires Disciplined(handed, accepted) && Close !in handed
    ensures Disciplined(handed, accepted + data)
  {
    TokensConcat(accepted, data);
    DisciplinedClose(handed, accepted);
  }

  lemma EnqueueKeepsCore(t: Tcp, data: seq<byte>)
    requires Inv(t) && !Refuses(t) && t.off + |t.q| + |data| <= HIGH_WATER
    requires t.off + |t.q| + |data| > t.cap ==> !t.pending
    requires data != [] || t.off + |t.q| + |data| <= t.cap
    ensures Core(Enqueue(t, data))
  {
    if t.off + |t.q| + |data| > t.cap { GrowFits(t, data); }
    DisciplinedGrows(t.handed, t.accepted, data);
    assert t.accepted + data == t.retired + (t.q + data);
    assert (t.q + data)[..t.inFlight] == t.q[..t.inFlight];
  }

  /** Without an outstanding write the buffer is empty, so growth starts over. */
  lemma GrowFits(t: Tcp, data: seq<byte>)
    requires Inv(t) && !t.closed && !t.pending
    requires t.cap < |t.q| + t.off + |data| <= HIGH_WATER
    ensures t.off == 0 && t.q == [] && InChain(NextCap(t.cap, FIRST_CAP, |t.q| + |data|))
  {
    NextCapStaysInChain(t.cap, FIRST_CAP, |data|);
  }

  /** `tcp_write`, up to the low-water callback of an empty write. */
  function Write(t: Tcp, data: seq<byte>): (r: (Tcp, Status, Fired, bool))
    requires Inv(t)
    ensures r.1.Refused? <==> Refuses(t)
    ensures r.1.Refused? ==> r.0 == t && r.2.Quiet? && !r.3
    ensures r.1.Busy? ==> r.0 == t.(aboveLow := true) && Inv(r.0) && r.2.Quiet? && !r.3
                          && (t.off + |t.q| + |data| > HIGH_WATER || (t.pending && t.off + |t.q| + |data| > t.cap))
    ensures r.1.Ok? ==> StepEffect(Enqueue(t, data), r.0, r.2) && (r.3 ==> r.2.Low?)
    ensures r.1.Ok? && t.pending ==> r.0 == Enqueue(t, data) && r.2.Quiet?
  {
    if Refuses(t) then (t, Refused, Quiet, false)
    else if t.off + |t.q| + |data| > HIGH_WATER then (t.(aboveLow := true), Busy, Quiet, false)
    else if t.off + |t.q| + |data| > t.cap && t.pending then (t.(aboveLow := true), Busy, Quiet, false)
    else
      EnqueueKeepsCore(t, data);
      var r := Pump(Enqueue(t, data));
      (r.0, Ok, r.1, r.2)
  }

  /** `tcp_shutdown_send` */
  function ShutdownSend(t: Tcp): (t': Tcp)
    requires Inv(t)
    ensures Refuses(t) ==> t' == t
    ensures !Refuses(t) ==> StepEffect(t.(writeClosed := true), t', Quiet)
    ensures !Refuses(t) && t.q == [] ==> t'.finSent
  {
    if Refuses(t) then t else Fin(t.(writeClosed := true))
  }

  /** `tcp_write_done` takes the completed slice off the buffer. */
  function Retire(t: Tcp, ok: bool): Tcp
    requires t.inFlight <= |t.q|
  {
    var rest := t.q[t.inFlight..];
    t.(pending := false, inFlight := 0, retired := t.retired + t.q[..t.inFlight], q := rest,
       off := if rest == [] then 0 else t.off + t.inFlight,
       done := if ok then |t.handed| else t.done)
  }

  lemma RetireKeepsCore(t: Tcp, ok: bool)
    requires Inv(t) && t.pending
    ensures Core(Retire(t, ok).(closed := true))
    ensures ok && !t.closed ==> Core(Retire(t, ok))
  {
    var sent, rest := t.q[..t.inFlight], t.q[t.inFlight..];
    assert (t.retired + sent) + rest == t.retired + t.q;
    assert (t.retired + sent) + rest[..0] == t.retired + sent;
  }

  /** `tcp_write_done` up to its first callback; the flag asks for `Pump` after it. */
  function WriteDone(t: Tcp, ok: bool): (r: (Tcp, Fired, bool))
    requires Inv(t)
    ensures StepEffect(t, r.0, r.1)
    ensures t.pending && !t.closed && ok ==> r.0.done >= |t.handed| && (r.0.pending ==> |r.0.handed| > |t.handed|)
    ensures t.pending && !t.closed ==> (r.1.Low? <==> ok && t.inFlight == |t.q|) && (r.2 <==> r.1.Low?)
  {
    if !t.pending then (t, Quiet, false)
    else
      RetireKeepsCore(t, ok);
      var t1 := Retire(t, ok);
      if t.closed then (t1, Quiet, false)
      else if !ok then (t1.(closed := true), Error, false)
      else if t1.q == [] then (t1, Low, true)
      else
        var r := Pump(t1);
        (r.0, r.1, false)
  }

  function Reading(t: Tcp, paused: bool): (t': Tcp)
    requires Inv(t)
    ensures Inv(t')
  {
    t.(readPaused := paused)
  }

  function Shut(t: Tcp): (t': Tcp)
    requires Inv(t)
    ensures Inv(t')
  {
    t.(closed := true)
  }

  /** The first write to a new leg takes one read's worth, and all of it is in
      flight at once, unless the socket is dead. */
  lemma FirstWrite(net: seq<bool>, data: seq<byte>)
    requires 0 < |data| <= FIRST_CAP
    ensures Write(Fresh(net), data) ==
      (StartWrite(Enqueue(Fresh(net), data)), Ok, if NextNet(Fresh(net)) then Quiet else Error, false)
  {
    assert Enqueue(Fresh(net), data).cap == FIRST_CAP;
  }

  /** While that write is in flight the full buffer cannot move: the next is busy. */
  lemma SecondWrite(net: seq<bool>, first: seq<byte>, data: seq<byte>)
    requires |first| == FIRST_CAP && data != [] && NextNet(Fresh(net))
    ensures var t := Write(Fresh(net), first).0; Inv(t) && Write(t, data) == (t.(aboveLow := true), Busy, Quiet, false)
  {
    FirstWrite(net, first);
  }
}
