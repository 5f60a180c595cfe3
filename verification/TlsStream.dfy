/** The TLS leg over its real plaintext queue: a growable array with a read cursor
    in front of `SSL_write`. Every method does to the view of the object what its
    specification in `Tls` says; in particular the octets a retry offers are the
    same although the array grew, was compacted and moved in between. */
module TlsStream {
  import opened Bytes
  import opened Wire
  import Tls

  /** The state `s` over a queue of the given contents and capacity. */
  ghost function Over(s: Tls.Tls, q: seq<byte>, cap: nat): Tls.Tls {
    s.(q := q, cap := cap)
  }

  /** `SSL_write` took the first octets of the queue: the fields beside it. */
  function TookRest(s: Tls.Tls, x: seq<byte>, flushed: bool): Tls.Tls {
    Tls.Emit(s, Tokens(x), flushed).(off := s.off + |x|, retry := 0, taken := s.taken + x)
  }

  lemma TookOver(s: Tls.Tls, q: seq<byte>, cap: nat, w: nat, flushed: bool)
    requires w <= |q|
    ensures Tls.Took(Over(s, q, cap), w, flushed) == Over(TookRest(s, q[..w], flushed), q[w..], cap)
    ensures TookRest(s, q[..w], flushed).off == s.off + w
  {
    hide Tokens;
  }

  /** An `SSL_write` of `offered` happened: the script and the history move on. */
  function Called(s: Tls.Tls, offered: seq<byte>): (s': Tls.Tls)
    ensures s'.off == s.off
  {
    s.(ssl := Tail(s.ssl), calls := s.calls + [Tls.Call(offered, Tls.NextSsl(s).Want?)])
  }

  /** It returned without taking anything: the length is pinned, or the leg dead. */
  function Stopped(s: Tls.Tls, n: nat, want: bool): (s': Tls.Tls)
    ensures s'.off == s.off
  {
    if want then s.(retry := n) else s.(open := false)
  }

  lemma SslWriteOver(s: Tls.Tls, q: seq<byte>, cap: nat, n: nat)
    requires q != [] && s.retry <= |q| && n == Tls.WriteLen(Over(s, q, cap))
    ensures Tls.NextSsl(Over(s, q, cap)) == Tls.NextSsl(s)
    ensures match Tls.NextSsl(s)
      case Wrote(k, flushed) =>
        Tls.SslWrite(Over(s, q, cap)) == Tls.Took(Over(Called(s, q[..n]), q, cap), Tls.Clamp(k, n), flushed)
      case Want => Tls.SslWrite(Over(s, q, cap)) == Over(Stopped(Called(s, q[..n]), n, true), q, cap)
      case Fail => Tls.SslWrite(Over(s, q, cap)) == Over(Stopped(Called(s, q[..n]), n, false), q, cap)
  {
    hide Tls.Took, Tail;
  }

  lemma StartWriteOver(s: Tls.Tls, q: seq<byte>, cap: nat)
    requires s.wbio != []
    ensures Tls.StartWrite(Over(s, q, cap)) == Over(Tls.StartWrite(s), q, cap)
    ensures Tls.StartWrite(s).off == s.off
  {
    hide Tail;
  }

  function NotifyRest(s: Tls.Tls): (s': Tls.Tls)
    ensures s'.off == 0
  {
    s.(off := 0, retry := 0, shutdownPending := false, wbio := s.wbio + [Close])
  }

  lemma NotifyOver(s: Tls.Tls, cap: nat)
    ensures Tls.Notify(Over(s, [], cap)) == Over(NotifyRest(s), [], cap)
  {
  }

  /** `data` was accepted: the fields beside the queue. */
  function AcceptedRest(s: Tls.Tls, data: seq<byte>, need: nat): (s': Tls.Tls)
    ensures s'.off == s.off
  {
    s.(accepted := s.accepted + data, aboveLow := s.aboveLow || need > LOW_WATER)
  }

  lemma EnqueueOver(s: Tls.Tls, q: seq<byte>, cap: nat, data: seq<byte>)
    ensures
      var need := s.off + |q| + |data|;
      var s1 := AcceptedRest(s, data, need);
      Tls.Enqueue(Over(s, q, cap), data) ==
        if need > cap then Over(s1.(off := 0), q + data, NextCap(cap, Tls.FIRST_CAP, need))
        else Over(s1, q + data, cap)
  {
  }

  class TlsStream {
    var pq: array<byte>
    var pqLen: nat
    var ss: Tls.Tls          // every other field; its `q` and `cap` live in pq

    ghost predicate Layout()
      reads this
    {
      ss.off <= pqLen <= pq.Length
    }

    ghost function View(): Tls.Tls
      requires Layout()
      reads this, pq
    {
      Over(ss, pq[ss.off..pqLen], pq.Length)
    }

    ghost predicate Valid()
      reads this, pq
    {
      Layout() && Tls.Inv(View())
    }

    constructor (ssl: seq<Tls.SslAnswer>, net: seq<Tls.NetAnswer>)
      ensures Valid() && fresh(pq) && View() == Tls.Fresh(ssl, net)
    {
      pq := new byte[0];
      pqLen := 0;
      ss := Tls.Fresh(ssl, net);
    }

    /** The length `SSL_write` is called with: the pinned one after a WANT. */
    method WriteLen() returns (n: nat)
      requires Layout() && ss.off < pqLen && ss.retry <= pqLen - ss.off
      ensures n == Tls.WriteLen(View()) && 0 < n <= pqLen - ss.off
    {
      n := if ss.retry != 0 then ss.retry else Min(pqLen - ss.off, Tls.RECORD_MAX);
    }

    /** `SSL_write` took the first `w` octets at the cursor. */
    method Took(w: nat, flushed: bool)
      requires Layout() && ss.off + w <= pqLen
      modifies this
      ensures Layout() && pq == old(pq) && View() == Tls.Took(old(View()), w, flushed)
    {
      hide Over, TookRest, Tls.Took;
      ghost var q := pq[ss.off..pqLen];
      var x := pq[ss.off..ss.off + w];
      assert x == q[..w] && pq[ss.off + w..pqLen] == q[w..];
      TookOver(ss, q, pq.Length, w, flushed);
      ss := TookRest(ss, x, flushed);
    }

    /** One `SSL_write` out of the array. */
    method SslWrite() returns (answer: Tls.SslAnswer)
      requires Layout() && ss.off < pqLen && ss.retry <= pqLen - ss.off
      modifies this
      ensures answer == old(Tls.NextSsl(ss))
      ensures Layout() && pq == old(pq) && View() == Tls.SslWrite(old(View()))
    {
      hide Over, Called, Stopped, Tls.WriteLen, Tls.Took, Tls.SslWrite, Tls.NextSsl;
      ghost var q := pq[ss.off..pqLen];
      var n := WriteLen();
      answer := Tls.NextSsl(ss);
      var offered := pq[ss.off..ss.off + n];
      assert offered == q[..n];
      SslWriteOver(ss, q, pq.Length, n);
      ss := Called(ss, offered);
      match answer {
        case Wrote(k, flushed) => Took(Tls.Clamp(k, n), flushed);
        case Want => ss := Stopped(ss, n, true);
        case Fail => ss := Stopped(ss, n, false);
      }
    }

    /** `pump_write` hands records of the BIO to the socket. */
    method StartWrite() returns (f: Fired)
      requires Layout() && ss.wbio != []
      modifies this
      ensures Layout() && pq == old(pq) && View() == Tls.StartWrite(old(View()))
      ensures f == if View().open then Quiet else Error
    {
      hide Tls.StartWrite;
      StartWriteOver(ss, pq[ss.off..pqLen], pq.Length);
      ss := Tls.StartWrite(ss);
      f := if ss.open then Quiet else Error;
    }

    /** A fully consumed queue starts over. */
    method Reset()
      requires Layout()
      modifies this
      ensures Layout() && pq == old(pq) && View() == Tls.Reset(old(View()))
      ensures ss == old(ss).(off := if old(ss.off) == old(pqLen) then 0 else old(ss.off))
    {
      if ss.off == pqLen { pqLen, ss := 0, ss.(off := 0); }
    }

    /** `pump_write` */
    method Pump() returns (f: Fired)
      requires Layout() && Tls.Pumpable(View())
      modifies this
      ensures Layout() && pq == old(pq) && (View(), f) == Tls.Pump(old(View()))
    {
      hide Tls.Core, Tls.Inv, Tls.PumpEffect, Tls.SslEffect, Tls.SslWrite, Tls.StartWrite, Tls.Reset;
      if !ss.open || ss.inflight { return Quiet; }
      while true
        invariant Layout() && pq == old(pq) && Tls.Pumpable(View()) && ss.open && !ss.inflight
        invariant Tls.Pump(View()) == Tls.Pump(old(View()))
        decreases pqLen - ss.off
      {
        if ss.wbio != [] {
          f := StartWrite();
          return;
        }
        if ss.off == pqLen {
          pqLen, ss := 0, ss.(off := 0);
          if ss.aboveLow {
            ss := ss.(aboveLow := false);
            return Low;
          }
          return Quiet;
        }
        Tls.PumpTurns(View());
        var answer := SslWrite();
        match answer {
          case Wrote(_, _) => Reset();
          case Want => return Quiet;
          case Fail => return Error;
        }
      }
    }

    /** `tls_try_shutdown` */
    method TryShutdown() returns (f: Fired)
      requires Layout() && Tls.Core(View()) && ss.open && ss.shutdownPending
      modifies this
      ensures Layout() && pq == old(pq) && (View(), f) == Tls.TryShutdown(old(View()))
    {
      hide Tls.Core, Tls.Inv, Tls.ShutEffect, Tls.PumpEffect, Tls.SslEffect, Tls.SslWrite, Tls.Pump, Tls.Notify,
        NotifyRest;
      while ss.off < pqLen
        invariant Layout() && pq == old(pq) && Tls.Core(View()) && ss.open && ss.shutdownPending
        invariant Tls.TryShutdown(View()) == Tls.TryShutdown(old(View()))
        decreases pqLen - ss.off
      {
        Tls.ShutdownTurns(View());
        var answer := SslWrite();
        match answer {
          case Wrote(_, _) =>
          case Want =>
            f := Pump();
            return;
          case Fail => return Error;
        }
      }
      Tls.NotifyKeepsCore(View());
      NotifyOver(ss, pq.Length);
      pqLen, ss := 0, NotifyRest(ss);
      f := Pump();
    }

    /** Room for `data`, then `data`. */
    method Enqueue(data: seq<byte>)
      requires Layout()
      modifies this, pq
      ensures Layout() && View() == Tls.Enqueue(old(View()), data)
    {
      hide Over, Tls.Enqueue, NextCap;
      ghost var q := pq[ss.off..pqLen];
      EnqueueOver(ss, q, pq.Length, data);
      var need := pqLen + |data|;
      ss := AcceptedRest(ss, data, need);
      if need > pq.Length { Reserve(need); }
      Append(data);
    }

    /** Compacts the queue and grows the array for `need` octets, counted from its old
        start. */
    method Reserve(need: nat)
      requires Layout() && need >= pqLen
      modifies this`pq, this`pqLen, this`ss, pq
      ensures Layout() && fresh(pq) && ss == old(ss).(off := 0) && pqLen == old(pqLen - ss.off)
      ensures pq.Length == NextCap(old(pq.Length), Tls.FIRST_CAP, need) && pq[0..pqLen] == old(pq[ss.off..pqLen])
    {
      var ncap := Double(pq.Length, Tls.FIRST_CAP, need);
      pq := MoveAndGrow(pq, ss.off, pqLen, ncap);
      pqLen, ss := pqLen - ss.off, ss.(off := 0);
      assert pq[0..pqLen] == pq[..pqLen];
    }

    /** The `memcpy` behind the queued octets. */
    method Append(data: seq<byte>)
      requires Layout() && pqLen + |data| <= pq.Length
      modifies this`pqLen, pq
      ensures Layout() && pqLen == old(pqLen) + |data| && pq[ss.off..pqLen] == old(pq[ss.off..pqLen]) + data
    {
      ghost var off := ss.off;
      ghost var q := pq[..pqLen];
      CopyIn(pq, pqLen, data);
      pqLen := pqLen + |data|;
      assert pq[..pqLen] == q + data;
      assert pq[off..pqLen] == pq[..pqLen][off..] == q[off..] + data;
    }

    /** `tm_ssl_stream_write` */
    method Write(data: seq<byte>) returns (r: Status, f: Fired)
      requires Valid()
      modifies this, pq
      ensures Layout() && (View(), r, f) == Tls.Write(old(View()), data)
    {
      hide Tls.Inv, Tls.PumpEffect, Tls.Pump, Tls.Enqueue;
      if !ss.open || ss.closeSent { return Refused, Quiet; }
      if pqLen + |data| > HIGH_WATER {
        ss := ss.(aboveLow := true);
        return Busy, Quiet;
      }
      Tls.EnqueueKeepsCore(View(), data);
      Enqueue(data);
      f := Pump();
      r := Ok;
    }

    /** `tm_ssl_stream_shutdown_send` */
    method ShutdownSend() returns (f: Fired)
      requires Valid()
      modifies this
      ensures Layout() && pq == old(pq) && (View(), f) == Tls.ShutdownSend(old(View()))
    {
      hide Tls.ShutEffect, Tls.TryShutdown;
      if !ss.open || ss.closeSent { return Quiet; }
      ss := ss.(closeSent := true, shutdownPending := true);
      f := TryShutdown();
    }

    /** `on_write_done` up to the point where `pump_write` returns. */
    method WriteDone(ok: bool) returns (f: Fired)
      requires Valid()
      modifies this
      ensures Layout() && pq == old(pq) && (View(), f) == Tls.WriteDone(old(View()), ok)
    {
      hide Tls.ShutEffect, Tls.Pump;
      if !ss.inflight { return Quiet; }
      ss := ss.(inflight := false);
      if !ss.open { return Quiet; }
      if !ok {
        ss := ss.(open := false);
        return Error;
      }
      ss := ss.(done := |ss.handed|);
      f := Pump();
    }

    /** `on_write_done` after that: a deferred shutdown goes on. */
    method AfterDone() returns (f: Fired)
      requires Valid()
      modifies this
      ensures Layout() && pq == old(pq) && (View(), f) == Tls.AfterDone(old(View()))
    {
      hide Tls.ShutEffect, Tls.TryShutdown;
      if ss.shutdownPending && ss.open {
        f := TryShutdown();
      } else {
        f := Quiet;
      }
    }
  }
}
