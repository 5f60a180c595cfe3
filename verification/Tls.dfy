/** The write side of a TLS leg: a plaintext queue in front of `SSL_write`, the
    memory BIO behind it, one socket write in flight at a time, and the deferred
    close_notify. States are values; `TlsStream` refines them to a real buffer.

    The environment is a script. Each `SSL_write` takes its result from `ssl`, and
    each socket write takes how much of the BIO it carries from `net`; an exhausted
    script answers WANT and "all of it". A property proved for every script is a
    property of every behaviour of OpenSSL and libuv over a finite run. */
module Tls {
  import opened Bytes
  import opened Wire

  const RECORD_MAX: nat := 16384
  const FIRST_CAP: nat := 16384

  /** `SSL_write`: it took `n` octets (clamped to what was offered) and the record
      either waits in the write BIO or left synchronously; or it has to be retried;
      or it failed. The memory BIO of the code never lets a record leave synchronously;
      the guard of `flush_pend` is written for one that does, and is proved for it. */
  datatype SslAnswer = Wrote(n: nat, flushed: bool) | Want | Fail
  /** A socket write: it carries `n` tokens of the BIO, or the socket is dead. */
  datatype NetAnswer = Sent(n: nat) | Dead

  /** One `SSL_write`: the octets offered, and whether it has to be retried. */
  datatype Call = Call(offered: seq<byte>, want: bool)

  datatype Tls = Tls(
    open: bool,
    closeSent: bool,
    shutdownPending: bool,
    inflight: bool,
    aboveLow: bool,
    readPaused: bool,
    q: seq<byte>,            // pq[pq_off..pq_len]
    off: nat,                // pq_off
    cap: nat,                // pq_cap
    retry: nat,              // ssl_retry_len
    accepted: seq<byte>,     // history: every octet tm_ssl_stream_write accepted
    taken: seq<byte>,        // history: every octet SSL_write took
    calls: seq<Call>,        // history: every SSL_write
    wbio: seq<Token>,        // records SSL produced and no socket write took yet
    handed: seq<Token>,      // history: everything handed to a socket write
    done: nat,               // how much of `handed` belongs to completed writes
    ssl: seq<SslAnswer>,
    net: seq<NetAnswer>)

  function Fresh(ssl: seq<SslAnswer>, net: seq<NetAnswer>): Tls {
    Tls(true, false, false, false, false, false, [], 0, 0, 0, [], [], [], [], [], 0, ssl, net)
  }

  /** OpenSSL's retry rule: the call after a WANT offers the same octets again. */
  ghost predicate Pinned(calls: seq<Call>) {
    forall i :: 0 < i < |calls| && calls[i - 1].want ==> calls[i].offered == calls[i - 1].offered
  }

  predicate Waiting(calls: seq<Call>) {
    calls != [] && calls[|calls| - 1].want
  }

  /** A retry will offer the octets at the head of the queue again. */
  ghost predicate RetryPinned(calls: seq<Call>, retry: nat, q: seq<byte>) {
    if Waiting(calls)
    then 0 < retry <= |q| && q[..retry] == calls[|calls| - 1].offered
    else retry == 0
  }

  predicate Notified(s: Tls) {
    s.closeSent && !s.shutdownPending
  }

  /** Records leave in the order SSL_write took their octets, the alert last. */
  ghost predicate InOrder(taken: seq<byte>, handed: seq<Token>, wbio: seq<Token>, notified: bool) {
    handed + wbio == Tokens(taken) + (if notified then [Close] else [])
  }

  /** What holds between any two statements of the write path. */
  ghost predicate Core(s: Tls) {
    // the queue is a FIFO between the callers and SSL_write
    && s.accepted == s.taken + s.q
    && Pinned(s.calls)
    && (s.open ==> RetryPinned(s.calls, s.retry, s.q))
    && InOrder(s.taken, s.handed, s.wbio, Notified(s))
    && (s.shutdownPending ==> s.closeSent)
    && (Notified(s) ==> s.q == [])
    && s.done <= |s.handed|
    && (s.open ==> (s.done == |s.handed| <==> !s.inflight))
    // bounded memory
    && s.off + |s.q| <= s.cap
    && InChain(s.cap)
  }

  /** What holds when control is back in the event loop or in a callback. */
  ghost predicate Inv(s: Tls) {
    && Core(s)
    && (s.open && !s.inflight ==> s.wbio == [])
    && (s.open && s.q == [] ==> s.off == 0)
    && (s.open && !s.inflight && s.q != [] ==> s.retry != 0)
  }

  /** The low-water callback is still to come. */
  predicate Armed(s: Tls) {
    s.aboveLow && (s.q != [] || s.inflight)
  }

  /** `pq_len`, which grows until the whole queue was taken. */
  function Backlog(s: Tls): nat {
    if s.q == [] then 0 else s.off + |s.q|
  }

  /** `tm_ssl_stream_drained` */
  predicate Drained(s: Tls) {
    s.q == [] && !s.inflight
  }

  /** What no write-path step changes or takes back. */
  ghost predicate Kept(s: Tls, s': Tls) {
    && s'.readPaused == s.readPaused
    && s.handed <= s'.handed
    && s.done <= s'.done
    && (s'.open ==> s.open)
  }

  lemma DisciplinedLeg(s: Tls)
    requires Core(s)
    ensures Disciplined(s.handed, s.accepted)
    ensures Close in s.handed ==> s.closeSent
    ensures s.open && Drained(s) && s.wbio == [] ==> Tokens(s.accepted) <= s.handed[..s.done]
  {
    TokensConcat(s.taken, s.q);
    var all := s.handed + s.wbio;
    assert s.handed == all[..|s.handed|];
    assert Tokens(s.accepted) == Tokens(s.taken) + Tokens(s.q);
  }

  function NextSsl(s: Tls): SslAnswer {
    if s.ssl == [] then Want else s.ssl[0]
  }

  function NextNet(s: Tls): NetAnswer {
    if s.net == [] then Sent(|s.wbio|) else s.net[0]
  }

  function Clamp(n: nat, max: nat): (m: nat)
    requires max > 0
    ensures 0 < m <= max
  {
    if n < 1 then 1 else Min(n, max)
  }

  function WriteLen(s: Tls): (n: nat)
    requires s.q != [] && s.retry <= |s.q|
    ensures 0 < n <= |s.q|
  {
    if s.retry != 0 then s.retry else Min(|s.q|, RECORD_MAX)
  }

  /** Records produced by SSL go to the write BIO, unless they left at once; after the
      half-close was asked for none does. */
  function Emit(s: Tls, t: seq<Token>, flushed: bool): Tls {
    if flushed && !s.closeSent && !s.inflight && s.wbio == []
    then s.(handed := s.handed + t, done := |s.handed| + |t|)
    else s.(wbio := s.wbio + t)
  }

  /** `SSL_write` took the first `w` octets of the queue. */
  function Took(s: Tls, w: nat, flushed: bool): Tls
    requires w <= |s.q|
  {
    Emit(s, Tokens(s.q[..w]), flushed).(q := s.q[w..], off := s.off + w, retry := 0, taken := s.taken + s.q[..w])
  }

  /** One `SSL_write` of the head of the queue. */
  function SslWrite(s: Tls): (s': Tls)
    requires s.q != [] && s.retry <= |s.q|
  {
    var n := WriteLen(s);
    var s1 := s.(ssl := Tail(s.ssl), calls := s.calls + [Call(s.q[..n], NextSsl(s).Want?)]);
    match NextSsl(s)
    case Wrote(k, flushed) => Took(s1, Clamp(k, n), flushed)
    case Want => s1.(retry := n)
    case Fail => s1.(open := false)
  }

  lemma PinnedSnoc(s: Tls, c: Call)
    requires s.open && Core(s) && s.q != [] && c.offered == s.q[..WriteLen(s)]
    ensures Pinned(s.calls + [c])
  {
  }

  lemma Shift(taken: seq<byte>, q: seq<byte>, w: nat)
    requires w <= |q|
    ensures (taken + q[..w]) + q[w..] == taken + q
  {
  }

  /** The octets SSL_write takes become the next records. */
  lemma InOrderTakes(taken: seq<byte>, handed: seq<Token>, wbio: seq<Token>, x: seq<byte>)
    requires InOrder(taken, handed, wbio, false)
    ensures InOrder(taken + x, handed, wbio + Tokens(x), false)
    ensures wbio == [] ==> InOrder(taken + x, handed + Tokens(x), [], false)
  {
    TokensConcat(taken, x);
    assert handed + (wbio + Tokens(x)) == (handed + wbio) + Tokens(x);
  }

  /** The effect of one SSL_write, by result. */
  ghost predicate SslEffect(s: Tls, s': Tls) {
    && Core(s') && Kept(s, s')
    && s'.aboveLow == s.aboveLow && s'.inflight == s.inflight
    && s'.closeSent == s.closeSent && s'.shutdownPending == s.shutdownPending
    && s'.accepted == s.accepted && s'.cap == s.cap
    && match NextSsl(s)
       case Wrote(_, _) => s'.open && |s'.q| < |s.q| && s'.off + |s'.q| == s.off + |s.q|
       case Want => s'.open && s'.retry != 0 && s'.q == s.q && s'.off == s.off && s'.wbio == s.wbio
       case Fail => !s'.open && s'.q == s.q && s'.off == s.off
  }

  lemma SslWriteTook(s: Tls)
    requires s.open && Core(s) && s.q != [] && NextSsl(s).Wrote?
    ensures SslEffect(s, SslWrite(s))
  {
    hide Pinned, InOrder, InChain, Tokens;
    var n := WriteLen(s);
    PinnedSnoc(s, Call(s.q[..n], false));
    var w := Clamp(NextSsl(s).n, n);
    Shift(s.taken, s.q, w);
    InOrderTakes(s.taken, s.handed, s.wbio, s.q[..w]);
  }

  lemma SslWriteStopped(s: Tls)
    requires s.open && Core(s) && s.q != [] && !NextSsl(s).Wrote?
    ensures SslEffect(s, SslWrite(s))
  {
    PinnedSnoc(s, Call(s.q[..WriteLen(s)], NextSsl(s).Want?));
  }

  lemma SslWriteKeepsCore(s: Tls)
    requires s.open && Core(s) && s.q != []
    ensures SslEffect(s, SslWrite(s))
  {
    if NextSsl(s).Wrote? { SslWriteTook(s); } else { SslWriteStopped(s); }
  }

  function Reset(s: Tls): Tls {
    if s.q == [] then s.(off := 0) else s
  }

  /** `pump_write` takes up to `n` tokens off the BIO and starts a socket write. */
  function StartWrite(s: Tls): Tls
    requires s.wbio != []
  {
    match NextNet(s)
    case Dead => s.(net := Tail(s.net), open := false)
    case Sent(k) =>
      var n := Clamp(k, |s.wbio|);
      s.(net := Tail(s.net), wbio := s.wbio[n..], handed := s.handed + s.wbio[..n], inflight := true)
  }

  ghost predicate Pumpable(s: Tls) {
    Core(s) && (s.open && s.q == [] ==> s.off == 0)
  }

  /** What a run of `pump_write` may change, and how it ends: with the low-water
      callback exactly when it drained an armed queue. */
  ghost predicate PumpEffect(s: Tls, s': Tls, f: Fired) {
    && Inv(s') && Kept(s, s')
    && s'.accepted == s.accepted && s'.cap == s.cap
    && s'.closeSent == s.closeSent && s'.shutdownPending == s.shutdownPending
    && (f.Error? <==> s.open && !s'.open)
    && (f.Low? ==> s'.q == [] && !s'.inflight)
    && (s'.inflight && !s.inflight ==> |s'.handed| > |s.handed|)
    && (f.Quiet? && s'.open && s.aboveLow ==> Armed(s'))
    && (Backlog(s') == 0 || Backlog(s') == Backlog(s))
  }

  lemma StartWriteEffect(s: Tls)
    requires Pumpable(s) && s.open && !s.inflight && s.wbio != []
    ensures var s' := StartWrite(s); PumpEffect(s, s', if s'.open then Quiet else Error)
  {
    if NextNet(s).Sent? {
      var n := Clamp(NextNet(s).n, |s.wbio|);
      assert (s.handed + s.wbio[..n]) + s.wbio[n..] == s.handed + s.wbio;
    }
  }

  lemma PumpEffectTrans(s: Tls, s1: Tls, s': Tls, f: Fired)
    requires SslEffect(s, s1) && s1.open && PumpEffect(Reset(s1), s', f)
    ensures PumpEffect(s, s', f)
  {
    hide Core, Inv;
  }

  lemma PumpBlocked(s: Tls)
    requires Pumpable(s) && (!s.open || s.inflight)
    ensures PumpEffect(s, s, Quiet)
  {
    hide Core;
  }

  lemma PumpIdle(s: Tls)
    requires Pumpable(s) && s.open && !s.inflight && s.wbio == [] && s.q == []
    ensures if s.aboveLow then PumpEffect(s, s.(aboveLow := false), Low) else PumpEffect(s, s, Quiet)
  {
    hide InOrder, Pinned, InChain, RetryPinned;
  }

  lemma PumpStopped(s: Tls, s1: Tls)
    requires SslEffect(s, s1) && s.open && !s.inflight && s.wbio == [] && s.q != [] && !NextSsl(s).Wrote?
    requires Pumpable(s)
    ensures PumpEffect(s, s1, if s1.open then Quiet else Error)
  {
    hide Core;
  }

  /** A pump that calls nobody back drains nothing after the half-close was asked for. */
  ghost predicate Silent(s: Tls, s': Tls, f: Fired) {
    && (f.Quiet? && s'.open && Drained(s') ==> s.wbio == [] && !s.inflight && (s.closeSent ==> s.q == []))
  }

  lemma SilentTook(s: Tls, s': Tls, f: Fired)
    requires s.open && Core(s) && s.q != [] && NextSsl(s).Wrote? && !s.inflight && s.wbio == []
    requires Silent(Reset(SslWrite(s)), s', f)
    ensures Silent(s, s', f)
  {
    hide Core, Tokens;
    var n := WriteLen(s);
    assert |Tokens(s.q[..Clamp(NextSsl(s).n, n)])| > 0;
  }

  /** `pump_write`: hand the BIO to the socket; when it is empty, encrypt more of
      the queue; when that is empty too, report the drain once. */
  function Pump(s: Tls): (r: (Tls, Fired))
    requires Pumpable(s)
    ensures PumpEffect(s, r.0, r.1)
    ensures s.inflight ==> r == (s, Quiet)
    decreases |s.q|
  {
    if !s.open || s.inflight then
      PumpBlocked(s);
      (s, Quiet)
    else if s.wbio != [] then
      StartWriteEffect(s);
      var s' := StartWrite(s);
      (s', if s'.open then Quiet else Error)
    else if s.q == [] then
      PumpIdle(s);
      if s.aboveLow then (s.(aboveLow := false), Low) else (s, Quiet)
    else
      SslWriteKeepsCore(s);
      var s1 := SslWrite(s);
      match NextSsl(s)
      case Wrote(_, _) =>
        var r := Pump(Reset(s1));
        PumpEffectTrans(s, s1, r.0, r.1);
        r
      case Want => PumpStopped(s, s1); (s1, Quiet)
      case Fail => PumpStopped(s, s1); (s1, Error)
  }

  lemma {:induction false} PumpSilent(s: Tls)
    requires Pumpable(s)
    ensures Silent(s, Pump(s).0, Pump(s).1)
    decreases |s.q|
  {
    if s.open && !s.inflight && s.wbio == [] && s.q != [] {
      PumpTurns(s);
      if NextSsl(s).Wrote? {
        var s1 := Reset(SslWrite(s));
        hide PumpEffect, Pumpable, SslWrite, Pump, Silent;
        PumpSilent(s1);
        SilentTook(s, Pump(s1).0, Pump(s1).1);
      }
    }
  }

  /** One turn of the `pump_write` loop that encrypts. */
  lemma PumpTurns(s: Tls)
    requires Pumpable(s) && s.open && !s.inflight && s.wbio == [] && s.q != []
    ensures s.retry <= |s.q|
    ensures NextSsl(s).Want? ==> Pump(s) == (SslWrite(s), Quiet)
    ensures NextSsl(s).Fail? ==> Pump(s) == (SslWrite(s), Error)
    ensures NextSsl(s).Wrote? ==>
      var s1 := Reset(SslWrite(s));
      Pumpable(s1) && s1.open && !s1.inflight && |s1.q| < |s.q| && Pump(s) == Pump(s1)
  {
    hide PumpEffect, SslWrite;
    SslWriteKeepsCore(s);
  }

  predicate Refuses(s: Tls) {
    !s.open || s.closeSent
  }

  /** The queue after `data` was appended, compacted and grown if it had to be. */
  function Enqueue(s: Tls, data: seq<byte>): Tls {
    var need := s.off + |s.q| + |data|;
    var s1 := if need > s.cap then s.(off := 0, cap := NextCap(s.cap, FIRST_CAP, need)) else s;
    s1.(q := s.q + data, accepted := s.accepted + data, aboveLow := s.aboveLow || need > LOW_WATER)
  }

  lemma EnqueueKeepsCore(s: Tls, data: seq<byte>)
    requires Inv(s) && !Refuses(s) && s.off + |s.q| + |data| <= HIGH_WATER
    ensures Pumpable(Enqueue(s, data))
  {
    var need := s.off + |s.q| + |data|;
    if need > s.cap { NextCapStaysInChain(s.cap, FIRST_CAP, need); }
    assert s.accepted + data == s.taken + (s.q + data);
    assert Waiting(s.calls) ==> (s.q + data)[..s.retry] == s.q[..s.retry];
  }

  /** `tm_ssl_stream_write` */
  function Write(s: Tls, data: seq<byte>): (r: (Tls, Status, Fired))
    requires Inv(s)
    ensures r.1.Refused? <==> Refuses(s)
    ensures r.1.Refused? ==> r.0 == s && r.2.Quiet?
    ensures r.1.Busy? ==> r.0 == s.(aboveLow := true) && Inv(r.0) && r.2.Quiet?
                          && s.off + |s.q| + |data| > HIGH_WATER
    ensures r.1.Ok? ==> PumpEffect(Enqueue(s, data), r.0, r.2) && s.off + |s.q| + |data| <= HIGH_WATER
    ensures r.1.Ok? && s.inflight ==> r.0 == Enqueue(s, data) && r.2.Quiet?
  {
    if Refuses(s) then (s, Refused, Quiet)
    else if s.off + |s.q| + |data| > HIGH_WATER then (s.(aboveLow := true), Busy, Quiet)
    else
      EnqueueKeepsCore(s, data);
      var r := Pump(Enqueue(s, data));
      (r.0, Ok, r.1)
  }

  /** A leg whose frames `sent` are out, in completed writes. */
  function Idle(sent: seq<byte>, ssl: seq<SslAnswer>): Tls {
    Tls(true, false, false, false, false, false, [], 0, 0, 0, sent, sent, [], [], Tokens(sent), |sent|, ssl, [])
  }

  lemma IdleInv(sent: seq<byte>, ssl: seq<SslAnswer>)
    ensures Inv(Idle(sent, ssl))
  {
    assert sent + [] == sent;
  }

  /** The next write to such a leg, of at most one record that OpenSSL takes at once, is
      in flight as a whole. */
  lemma FirstWrite(sent: seq<byte>, data: seq<byte>)
    requires 0 < |data| <= RECORD_MAX
    ensures Inv(Idle(sent, [Wrote(|data|, false)]))
    ensures var r := Write(Idle(sent, [Wrote(|data|, false)]), data);
      r.1.Ok? && r.2.Quiet? && r.0.open && r.0.accepted == sent + data && r.0.handed == Tokens(sent + data)
  {
    var s := Idle(sent, [Wrote(|data|, false)]);
    IdleInv(sent, [Wrote(|data|, false)]);
    EnqueueKeepsCore(s, data);
    PumpTurns(Enqueue(s, data));
    hide Core, Inv, PumpEffect, Pumpable, Tokens, NextCap;
    FirstRecord(sent, data);
  }

  lemma FirstRecord(sent: seq<byte>, data: seq<byte>)
    requires 0 < |data| <= RECORD_MAX
    ensures var t := Reset(SslWrite(Enqueue(Idle(sent, [Wrote(|data|, false)]), data)));
      && t.open && !t.inflight && t.q == [] && t.accepted == sent + data && t.wbio == Tokens(data) && t.wbio != []
      && StartWrite(t).open && StartWrite(t).handed == Tokens(sent + data) && StartWrite(t).accepted == sent + data
  {
    hide NextCap;
    assert data[..|data|] == data && data[|data|..] == [];
    TokensConcat(sent, data);
    assert Tokens(data)[..|Tokens(data)|] == Tokens(data);
  }

  /** The alert is on its way, and nothing else. */
  predicate Closing(s: Tls) {
    s.open && s.closeSent && !s.shutdownPending && s.inflight && !s.aboveLow && s.q == [] && s.wbio == []
  }

  /** The half-close of a leg with nothing to send is the alert alone. */
  lemma IdleShuts(sent: seq<byte>, ssl: seq<SslAnswer>)
    ensures Inv(Idle(sent, ssl))
    ensures var r := ShutdownSend(Idle(sent, ssl));
      r.1.Quiet? && Closing(r.0) && r.0.handed == Tokens(sent) + [Close] && r.0.accepted == sent
  {
    IdleInv(sent, ssl);
    var s := Idle(sent, ssl).(closeSent := true, shutdownPending := true);
    NotifyKeepsCore(s);
    assert ShutdownSend(Idle(sent, ssl)) == Pump(Notify(s));
    assert Pump(Notify(s)).0 == StartWrite(Notify(s));
  }

  /** Its completion calls nobody back. */
  lemma ClosingEnds(s: Tls)
    requires Inv(s) && Closing(s)
    ensures var r := WriteDone(s, true); r.1.Quiet? && r.0.open && Drained(r.0) && !r.0.shutdownPending
  {
  }

  /** The effect of trying to send the closure alert. */
  ghost predicate ShutEffect(s: Tls, s': Tls, f: Fired) {
    && Inv(s') && Kept(s, s')
    && s'.accepted == s.accepted && s'.closeSent == s.closeSent
    && (f.Error? <==> s.open && !s'.open)
    && (f.Quiet? && s'.open && Armed(s) ==> Armed(s'))
    && (Backlog(s') == 0 || Backlog(s') == Backlog(s))
  }

  /** The queue is empty: the alert goes behind the last record. */
  function Notify(s: Tls): Tls {
    s.(off := 0, retry := 0, shutdownPending := false, wbio := s.wbio + [Close])
  }

  lemma NotifyKeepsCore(s: Tls)
    requires Core(s) && s.open && s.shutdownPending && s.q == []
    ensures Pumpable(Notify(s))
  {
    assert s.handed + (s.wbio + [Close]) == (s.handed + s.wbio) + [Close];
  }

  /** `tls_try_shutdown`: move the whole queue into records, then the alert. */
  function TryShutdown(s: Tls): (r: (Tls, Fired))
    requires Core(s) && s.open && s.shutdownPending
    ensures ShutEffect(s, r.0, r.1)
    ensures r.1.Quiet? && r.0.open && s.aboveLow ==> Armed(r.0)
    ensures s.q == [] ==> !r.0.shutdownPending
    ensures r.1.Quiet? && r.0.open ==> !Drained(r.0)
    decreases |s.q|
  {
    if s.q == [] then
      NotifyKeepsCore(s);
      PumpSilent(Notify(s));
      Pump(Notify(s))
    else
      SslWriteKeepsCore(s);
      var s1 := SslWrite(s);
      match NextSsl(s)
      case Wrote(_, _) =>
        var r := TryShutdown(s1);
        ShutTook(s, s1, r.0, r.1);
        r
      case Want =>
        var r := Pump(s1);
        ShutPumped(s, s1, r.0, r.1);
        PumpSilent(s1);
        r
      case Fail => FailedKeepsInv(s1); (s1, Error)
  }

  lemma ShutTook(s: Tls, s1: Tls, s': Tls, f: Fired)
    requires SslEffect(s, s1) && s1.open && NextSsl(s).Wrote? && ShutEffect(s1, s', f)
    requires f.Quiet? && s'.open && s1.aboveLow ==> Armed(s')
    ensures ShutEffect(s, s', f) && (f.Quiet? && s'.open && s.aboveLow ==> Armed(s'))
  {
    hide Core, Inv;
  }

  lemma ShutPumped(s: Tls, s1: Tls, s': Tls, f: Fired)
    requires SslEffect(s, s1) && s1.open && NextSsl(s).Want? && PumpEffect(s1, s', f)
    ensures ShutEffect(s, s', f) && (f.Quiet? && s'.open && s.aboveLow ==> Armed(s'))
  {
    hide Core, Inv;
  }

  lemma FailedKeepsInv(s: Tls)
    requires Core(s) && !s.open
    ensures Inv(s)
  {
  }

  /** One turn of the `tls_try_shutdown` loop. */
  lemma ShutdownTurns(s: Tls)
    requires Core(s) && s.open && s.shutdownPending && s.q != []
    ensures s.retry <= |s.q|
    ensures NextSsl(s).Want? ==> Pumpable(SslWrite(s)) && TryShutdown(s) == Pump(SslWrite(s))
    ensures NextSsl(s).Fail? ==> TryShutdown(s) == (SslWrite(s), Error)
    ensures NextSsl(s).Wrote? ==>
      var s1 := SslWrite(s);
      Core(s1) && s1.open && s1.shutdownPending && |s1.q| < |s.q| && TryShutdown(s) == TryShutdown(s1)
  {
    hide ShutEffect, PumpEffect, SslWrite;
    SslWriteKeepsCore(s);
  }

  /** `tm_ssl_stream_shutdown_send` */
  function ShutdownSend(s: Tls): (r: (Tls, Fired))
    requires Inv(s)
    ensures Refuses(s) ==> r == (s, Quiet)
    ensures !Refuses(s) ==> ShutEffect(s.(closeSent := true), r.0, r.1)
    ensures !Refuses(s) && s.q == [] ==> !r.0.shutdownPending
  {
    if Refuses(s) then (s, Quiet)
    else TryShutdown(s.(closeSent := true, shutdownPending := true))
  }

  /** `on_write_done` up to the point where `pump_write` returns. */
  function WriteDone(s: Tls, ok: bool): (r: (Tls, Fired))
    requires Inv(s)
    ensures ShutEffect(s, r.0, r.1)
    ensures s.inflight && s.open && !ok ==> r.1.Error?
    ensures s.inflight && s.open && ok ==> r.0.shutdownPending == s.shutdownPending
    ensures s.inflight && s.open && ok ==> r.0.done >= |s.handed| && (r.0.inflight ==> |r.0.handed| > |s.handed|)
  {
    if !s.inflight then (s, Quiet)
    else if !s.open then (s.(inflight := false), Quiet)
    else if !ok then (s.(inflight := false, open := false), Error)
    else Pump(s.(inflight := false, done := |s.handed|))
  }

  /** `on_write_done` after that: a deferred shutdown goes on. */
  function AfterDone(s: Tls): (r: (Tls, Fired))
    requires Inv(s)
    ensures ShutEffect(s, r.0, r.1)
    ensures s.open && s.q == [] ==> !r.0.shutdownPending
    ensures s.open && s.shutdownPending && r.1.Quiet? && r.0.open ==> !Drained(r.0)
  {
    if s.shutdownPending && s.open then TryShutdown(s) else (s, Quiet)
  }

  function Reading(s: Tls, paused: bool): (r: Tls)
    requires Inv(s)
    ensures Inv(r)
  {
    s.(readPaused := paused)
  }

  function Shut(s: Tls): (r: Tls)
    requires Inv(s)
    ensures Inv(r)
  {
    s.(open := false)
  }
}
