/** The raw TCP leg over its real buffer: one growable array with a read cursor,
    which the outstanding `uv_write` reads in place. Every method does to the view
    of the object what its specification in `Tcp` says, and no method disturbs the
    octets under an outstanding write. */
module TcpIo {
  import opened Bytes
  import opened Wire
  import Tcp

  lemma SliceSplits(a: seq<byte>, off: nat, n: nat, len: nat)
    requires off + n <= len <= |a|
    ensures a[off..off + n] == a[off..len][..n] && a[off + n..len] == a[off..len][n..]
  {
  }

  class TcpIo {
    var wb: array<byte>
    var wbLen: nat
    var io: Tcp.Tcp          // every other field; its `q` and `cap` live in wb

    ghost predicate Layout()
      reads this
    {
      io.off <= wbLen <= wb.Length
    }

    ghost function View(): Tcp.Tcp
      requires Layout()
      reads this, wb
    {
      io.(q := wb[io.off..wbLen], cap := wb.Length)
    }

    ghost predicate Valid()
      reads this, wb
    {
      Layout() && Tcp.Inv(View())
    }

    /** `tm_io_tcp_new` */
    constructor (net: seq<bool>)
      ensures Valid() && fresh(wb) && View() == Tcp.Fresh(net)
    {
      wb := new byte[0];
      wbLen := 0;
      io := Tcp.Fresh(net);
    }

    /** `tcp_pump` hands the whole buffer to `uv_write`. */
    method StartWrite()
      requires Layout()
      modifies this
      ensures Layout() && wb == old(wb)
      ensures View() == Tcp.StartWrite(old(View()))
    {
      hide Tokens, Tail;
      var q := wb[io.off..wbLen];
      if Tcp.NextNet(io) {
        io := io.(net := Tail(io.net), pending := true, inFlight := wbLen - io.off, handed := io.handed + Tokens(q));
      } else {
        io := io.(net := Tail(io.net), closed := true, retired := io.retired + q, off := 0);
        wbLen := 0;
      }
    }

    /** `tcp_pump`, up to the low-water callback of an empty buffer. */
    method Pump() returns (f: Fired, fin: bool)
      requires Layout() && Tcp.Core(View())
      modifies this
      ensures Layout() && wb == old(wb)
      ensures (View(), f, fin) == Tcp.Pump(old(View()))
      ensures old(io.pending) ==> io == old(io)
    {
      hide Tcp.StepEffect, Tcp.StartWrite, Disciplined, InChain, Tcp.InOrder;
      if io.pending || io.closed { return Quiet, false; }
      if io.off == wbLen {
        wbLen, io := 0, io.(off := 0);
        return Low, true;
      }
      StartWrite();
      return if io.closed then Error else Quiet, false;
    }

    /** Growth: compact, double, move to a new block. Only without a write. */
    method Reserve(len: nat)
      requires Layout()
      modifies this, wb
      ensures Layout() && fresh(wb) && wbLen + len <= wb.Length
      ensures View() == old(View()).(off := 0, cap := NextCap(old(wb.Length), Tcp.FIRST_CAP, old(wbLen - io.off) + len))
    {
      var ncap := Double(wb.Length, Tcp.FIRST_CAP, wbLen - io.off + len);
      wb := MoveAndGrow(wb, io.off, wbLen, ncap);
      wbLen, io := wbLen - io.off, io.(off := 0);
    }

    /** The `memcpy` behind the queued octets. */
    method Append(data: seq<byte>)
      requires Layout() && wbLen + |data| <= wb.Length
      modifies this, wb
      ensures Layout() && wb == old(wb) && wb[..old(wbLen)] == old(wb[..wbLen])
      ensures View() == old(View()).(q := old(View()).q + data, accepted := old(io.accepted) + data,
                                     aboveLow := old(io.aboveLow) || old(wbLen) + |data| > LOW_WATER)
    {
      ghost var q := wb[io.off..wbLen];
      CopyIn(wb, wbLen, data);
      wbLen := wbLen + |data|;
      io := io.(accepted := io.accepted + data, aboveLow := io.aboveLow || wbLen > LOW_WATER);
      assert wb[..wbLen] == old(wb[..wbLen]) + data;
      assert wb[io.off..wbLen] == q + data;
    }

    /** Room for `data`, then `data`. */
    method Enqueue(data: seq<byte>)
      requires Layout()
      modifies this, wb
      ensures Layout() && View() == Tcp.Enqueue(old(View()), data)
      ensures old(wbLen) + |data| <= old(wb.Length) ==>
        wb == old(wb) && io.off == old(io.off) && io.pending == old(io.pending)
        && wb[..old(wbLen)] == old(wb[..wbLen])
    {
      hide NextCap;
      if wbLen + |data| > wb.Length {
        Reserve(|data|);
      }
      Append(data);
    }

    /** `tcp_write`. While a write is outstanding neither the block nor the octets
        under it change, however much is appended or refused. */
    method Write(data: seq<byte>) returns (s: Status, f: Fired, fin: bool)
      requires Valid()
      modifies this, wb
      ensures Layout() && (View(), s, f, fin) == Tcp.Write(old(View()), data)
      ensures old(io.pending) ==> wb == old(wb) && io.off == old(io.off) && wb[..old(wbLen)] == old(wb[..wbLen])
    {
      hide Tcp.StepEffect, Tcp.Core, Tcp.Pump, Tcp.Enqueue;
      if io.closed || io.writeClosed { return Refused, Quiet, false; }
      if wbLen + |data| > HIGH_WATER {
        io := io.(aboveLow := true);
        return Busy, Quiet, false;
      }
      if wbLen + |data| > wb.Length {
        if io.pending {
          io := io.(aboveLow := true);
          return Busy, Quiet, false;
        }
      }
      Tcp.EnqueueKeepsCore(View(), data);
      Enqueue(data);
      f, fin := Pump();
      s := Ok;
    }

    /** `tcp_fin` as reached from `tcp_pump` and `tcp_shutdown_send`. */
    method Fin()
      requires Valid()
      modifies this
      ensures Layout() && wb == old(wb) && View() == Tcp.Fin(old(View()))
    {
      hide Tcp.StepEffect, Tcp.Inv;
      if io.closed || !io.writeClosed || io.finSent || io.off != wbLen { return; }
      io := io.(finSent := true, handed := io.handed + [Close], done := io.done + 1);
    }

    /** `tcp_shutdown_send` */
    method ShutdownSend()
      requires Valid()
      modifies this
      ensures Layout() && wb == old(wb) && View() == Tcp.ShutdownSend(old(View()))
    {
      hide Tcp.StepEffect, Tcp.Fin;
      if io.closed || io.writeClosed { return; }
      io := io.(writeClosed := true);
      Fin();
    }

    /** Moves the read cursor; an empty buffer starts over. */
    method Drop(n: nat) returns (sent: seq<byte>)
      requires Layout() && io.off + n <= wbLen
      modifies this
      ensures Layout() && wb == old(wb) && sent == old(wb[io.off..wbLen])[..n]
      ensures wb[io.off..wbLen] == old(wb[io.off..wbLen])[n..]
      ensures io == old(io).(off := if old(io.off) + n == old(wbLen) then 0 else old(io.off) + n)
    {
      sent := wb[io.off..io.off + n];
      SliceSplits(wb[..], io.off, n, wbLen);
      if io.off + n == wbLen {
        wbLen, io := 0, io.(off := 0);
      } else {
        io := io.(off := io.off + n);
      }
    }

    /** `tcp_write_done` takes the completed slice off the buffer. */
    method Retire(ok: bool)
      requires Layout() && io.off + io.inFlight <= wbLen
      modifies this
      ensures Layout() && wb == old(wb) && View() == Tcp.Retire(old(View()), ok)
    {
      ghost var t := View();
      ghost var rest := t.q[io.inFlight..];
      assert |rest| == wbLen - (io.off + io.inFlight);
      var sent := Drop(io.inFlight);
      assert io.off == if rest == [] then 0 else t.off + t.inFlight;
      io := io.(pending := false, inFlight := 0, retired := io.retired + sent,
                done := if ok then |io.handed| else io.done);
      assert View().q == rest;
    }

    /** `tcp_write_done`: only the captured slice is complete; what was appended
        meanwhile stays queued and is written next. */
    method WriteDone(ok: bool) returns (f: Fired, pump: bool)
      requires Valid()
      modifies this
      ensures Layout() && wb == old(wb) && (View(), f, pump) == Tcp.WriteDone(old(View()), ok)
    {
      hide Tcp.StepEffect, Tcp.InOrder, Tcp.Pump, Tcp.Retire, Disciplined, InChain;
      if !io.pending { return Quiet, false; }
      Tcp.RetireKeepsCore(View(), ok);
      var closed := io.closed;
      Retire(ok);
      if closed { return Quiet, false; }
      if !ok {
        io := io.(closed := true);
        return Error, false;
      }
      if io.off == wbLen { return Low, true; }
      f, pump := Pump();
      pump := false;
    }
  }
}
