/** `tm_io`: one interface over raw TCP and TLS legs, dispatched on the kind.

    A leg calls its owner back from inside its own functions. Here each such
    function returns at the callback, naming it (`Fired`) and what the leg still
    has to do afterwards (`Cont`), so the owner runs the callback at exactly that
    point and then lets the leg continue. */
module Legs {
  import opened Bytes
  import opened Wire
  import Tcp
  import Tls

  /** `NoLeg` is the NULL io of a leg that is not connected yet. */
  datatype Io = NoLeg | TcpLeg(t: Tcp.Tcp) | TlsLeg(s: Tls.Tls)

  /** Legs as their owners see them: the queue invariants hold. */
  type Leg = l: Io | LegInv(l) witness NoLeg

  /** What a leg does after a callback: `tcp_pump`, the FIN test inside it, or the
      deferred `tls_try_shutdown`. */
  datatype Cont = Done | PumpNext | FinNext | ShutNext

  function Rank(c: Cont): nat {
    match c
    case Done => 0
    case FinNext => 1
    case ShutNext => 1
    case PumpNext => 2
  }

  ghost predicate LegInv(l: Io) {
    match l
    case NoLeg => true
    case TcpLeg(t) => Tcp.Inv(t)
    case TlsLeg(s) => Tls.Inv(s)
  }

  predicate Alive(l: Leg) {
    match l
    case NoLeg => false
    case TcpLeg(t) => !t.closed
    case TlsLeg(s) => s.open
  }

  /** `tm_io_shutdown_send` was called. */
  predicate SendClosed(l: Leg) {
    match l
    case NoLeg => false
    case TcpLeg(t) => t.writeClosed
    case TlsLeg(s) => s.closeSent
  }

  predicate Refuses(l: Leg) {
    !Alive(l) || SendClosed(l)
  }

  function Accepted(l: Leg): seq<byte> {
    match l
    case NoLeg => []
    case TcpLeg(t) => t.accepted
    case TlsLeg(s) => s.accepted
  }

  function Handed(l: Leg): seq<Token> {
    match l
    case NoLeg => []
    case TcpLeg(t) => t.handed
    case TlsLeg(s) => s.handed
  }

  /** How much of `Handed` belongs to completed socket writes. */
  function Completed(l: Leg): nat {
    match l
    case NoLeg => 0
    case TcpLeg(t) => t.done
    case TlsLeg(s) => s.done
  }

  function ReadPaused(l: Leg): bool {
    match l
    case NoLeg => false
    case TcpLeg(t) => t.readPaused
    case TlsLeg(s) => s.readPaused
  }

  /** A low-water callback is certain once the outstanding data drains. */
  predicate Armed(l: Leg) {
    match l
    case NoLeg => false
    case TcpLeg(t) => t.pending
    case TlsLeg(s) => Tls.Armed(s)
  }

  /** How much of a TLS leg's buffer is used up while anything is queued in it. */
  function Backlog(l: Leg): nat {
    match l
    case NoLeg => 0
    case TcpLeg(_) => 0
    case TlsLeg(s) => Tls.Backlog(s)
  }

  /** How many octets the leg would take now. A raw leg's buffer cannot move or grow under
      an outstanding write. */
  function Room(l: Leg): int {
    match l
    case NoLeg => 0
    case TcpLeg(t) => (if t.pending then Min(HIGH_WATER, t.cap) else HIGH_WATER) - t.off - |t.q|
    case TlsLeg(s) => HIGH_WATER - s.off - |s.q|
  }

  /** A leg with anything queued has no room for `n` more octets. */
  predicate Crowded(l: Leg, n: nat) {
    Backlog(l) == 0 || Backlog(l) + n > HIGH_WATER
  }

  /** A socket write is outstanding. */
  predicate InFlight(l: Leg) {
    match l
    case NoLeg => false
    case TcpLeg(t) => t.pending
    case TlsLeg(s) => s.inflight
  }

  /** `tm_io_drained`; a NULL io is drained. */
  predicate Drained(l: Leg) {
    match l
    case NoLeg => true
    case TcpLeg(t) => t.closed || Tcp.Drained(t)
    case TlsLeg(s) => !s.open || Tls.Drained(s)
  }

  /** Every accepted octet belongs to a completed socket write. */
  ghost predicate Delivered(l: Leg) {
    Completed(l) <= |Handed(l)| && Tokens(Accepted(l)) <= Handed(l)[..Completed(l)]
  }

  /** What no step on a leg changes or takes back. A refusal is permanent. */
  ghost predicate Kept(l: Leg, l': Leg) {
    && Handed(l) <= Handed(l')
    && Completed(l) <= Completed(l')
    && ReadPaused(l') == ReadPaused(l)
    && (Alive(l') ==> Alive(l))
    && (SendClosed(l) ==> SendClosed(l'))
    && SameKind(l, l')
  }

  predicate SameKind(l: Leg, l': Leg) {
    l'.NoLeg? == l.NoLeg? && l'.TcpLeg? == l.TcpLeg?
  }

  ghost predicate WriteEffect(l: Leg, data: seq<byte>, l': Leg, r: Status, f: Fired) {
    && Kept(l, l')
    && SendClosed(l') == SendClosed(l)
    && (r.Refused? <==> Refuses(l))
    && (r.Refused? ==> l' == l)
    && (r.Ok? ==> Accepted(l') == Accepted(l) + data)
    && (r.Busy? ==> Accepted(l') == Accepted(l) && Alive(l') && (|data| <= HIGH_WATER ==> Armed(l')))
    && (f.Error? <==> Alive(l) && !Alive(l'))
    && (f.Quiet? || r.Ok?)
    && (f.Quiet? && Alive(l') && Armed(l) ==> Armed(l'))
    && (r.Busy? ==> Room(l') < |data|)
    && (r.Busy? && |data| <= HIGH_WATER ==> Crowded(l', |data|))
  }

  /** A write that a leg with an outstanding callback accepts. If nothing but a write in
      flight was outstanding, that write still is, and nothing was called back. */
  ghost predicate WriteQuiet(l: Leg, data: seq<byte>, l': Leg, r: Status, f: Fired, c: Cont) {
    && (r.Ok? && Armed(l) && Crowded(l, |data|) ==> InFlight(l))
    && (r.Ok? && Armed(l) && InFlight(l) ==> f.Quiet? && c.Done? && Armed(l') && InFlight(l'))
  }

  ghost predicate StepEffect(l: Leg, l': Leg, f: Fired) {
    && Kept(l, l')
    && SendClosed(l') == SendClosed(l)
    && Accepted(l') == Accepted(l)
    && (f.Error? <==> Alive(l) && !Alive(l'))
    && (f.Quiet? && Alive(l') && Armed(l) ==> Armed(l'))
    && (Backlog(l') == 0 || Backlog(l') == Backlog(l))
  }

  ghost predicate ShutEffect(l: Leg, l': Leg, f: Fired) {
    && Kept(l, l')
    && Accepted(l') == Accepted(l)
    && (f.Error? <==> Alive(l) && !Alive(l'))
    && (Alive(l) ==> SendClosed(l'))
    && (Refuses(l) ==> l' == l && f.Quiet?)
    && (f.Quiet? && Alive(l') && Armed(l) ==> Armed(l'))
    && (Backlog(l') == 0 || Backlog(l') == Backlog(l))
  }

  /** The half-close discipline and the meaning of `tm_io_drained`, for both kinds. */
  lemma LegFacts(l: Leg)
    ensures Disciplined(Handed(l), Accepted(l))
    ensures Close in Handed(l) ==> SendClosed(l)
    ensures Alive(l) && Drained(l) ==> Delivered(l)
  {
    match l
    case NoLeg =>
    case TcpLeg(t) => Tcp.DisciplinedLeg(t);
    case TlsLeg(s) => Tls.DisciplinedLeg(s);
  }

  /** A raw leg does exactly what `tcp_write` says. */
  ghost predicate WroteTcp(l: Leg, data: seq<byte>, l': Leg, r: Status, f: Fired, c: Cont) {
    l.TcpLeg? ==> l'.TcpLeg? && Tcp.Write(l.t, data) == (l'.t, r, f, c.FinNext?) && (c.FinNext? || c.Done?)
  }

  /** The leg accepts the octets and calls nobody back. */
  predicate Smooth(l: Leg, data: seq<byte>) {
    match l
    case NoLeg => false
    case TcpLeg(t) => var r := Tcp.Write(t, data); r.1.Ok? && r.2.Quiet? && !r.3
    case TlsLeg(s) => var r := Tls.Write(s, data); r.1.Ok? && r.2.Quiet?
  }

  /** The leg after such a write. */
  function Written(l: Leg, data: seq<byte>): Leg
    requires Smooth(l, data)
  {
    match l
    case TcpLeg(t) => TcpLeg(Tcp.Write(t, data).0)
    case TlsLeg(s) => TlsLeg(Tls.Write(s, data).0)
  }

  /** A TCP leg nothing was written to yet. */
  ghost predicate NewTcp(l: Leg) {
    l.TcpLeg? && l.t == Tcp.Fresh(l.t.net)
  }

  /** `tm_io_tcp_new`, on a socket whose next writes succeed or not. */
  function NewRaw(net: seq<bool>): (l: Leg)
    ensures NewTcp(l) && Alive(l) && !SendClosed(l) && !ReadPaused(l) && Accepted(l) == []
  {
    TcpLeg(Tcp.Fresh(net))
  }

  lemma TcpWriteEffect(t: Tcp.Tcp, data: seq<byte>)
    requires Tcp.Inv(t)
    ensures var r := Tcp.Write(t, data); WriteEffect(TcpLeg(t), data, TcpLeg(r.0), r.1, r.2)
  {
  }

  lemma TcpWriteQuiet(t: Tcp.Tcp, data: seq<byte>)
    requires Tcp.Inv(t)
    ensures var r := Tcp.Write(t, data);
      WriteQuiet(TcpLeg(t), data, TcpLeg(r.0), r.1, r.2, if r.3 then FinNext else Done)
  {
    hide Tcp.Write;
  }

  lemma TlsWriteQuiet(s: Tls.Tls, data: seq<byte>)
    requires Tls.Inv(s)
    ensures var r := Tls.Write(s, data); WriteQuiet(TlsLeg(s), data, TlsLeg(r.0), r.1, r.2, Done)
  {
    hide Tls.Write;
  }

  lemma TlsWriteEffect(s: Tls.Tls, data: seq<byte>)
    requires Tls.Inv(s)
    ensures var r := Tls.Write(s, data); WriteEffect(TlsLeg(s), data, TlsLeg(r.0), r.1, r.2)
  {
  }

  lemma NoLegWrite(data: seq<byte>)
    ensures WriteEffect(NoLeg, data, NoLeg, Refused, Quiet) && WriteQuiet(NoLeg, data, NoLeg, Refused, Quiet, Done)
  {
  }

  /** `tm_io_write` */
  method Write(l: Leg, data: seq<byte>) returns (l': Leg, r: Status, f: Fired, c: Cont)
    ensures WriteEffect(l, data, l', r, f) && WriteQuiet(l, data, l', r, f, c) && WroteTcp(l, data, l', r, f, c)
    ensures Smooth(l, data) ==> l' == Written(l, data) && r.Ok? && f.Quiet? && c.Done?
  {
    NoLegWrite(data);
    hide WriteEffect, WriteQuiet, Tcp.Write, Tls.Write;
    match l
    case NoLeg =>
      return l, Refused, Quiet, Done;
    case TcpLeg(t) =>
      TcpWriteEffect(t, data);
      TcpWriteQuiet(t, data);
      var (t', st, fired, fin) := Tcp.Write(t, data);
      return TcpLeg(t'), st, fired, if fin then FinNext else Done;
    case TlsLeg(s) =>
      TlsWriteEffect(s, data);
      TlsWriteQuiet(s, data);
      var (s', st, fired) := Tls.Write(s, data);
      return TlsLeg(s'), st, fired, Done;
  }

  ghost predicate ShutsAs(l: Leg, l': Leg, f: Fired) {
    match l
    case NoLeg => l' == l
    case TcpLeg(t) => l' == TcpLeg(Tcp.ShutdownSend(t))
    case TlsLeg(s) => l'.TlsLeg? && Tls.ShutdownSend(s) == (l'.s, f)
  }

  /** The half-close calls nobody back. */
  predicate SmoothShut(l: Leg) {
    match l
    case NoLeg => true
    case TcpLeg(t) => true
    case TlsLeg(s) => Tls.ShutdownSend(s).1.Quiet?
  }

  /** The leg after its half-close. */
  function ShutLeg(l: Leg): Leg {
    match l
    case NoLeg => l
    case TcpLeg(t) => TcpLeg(Tcp.ShutdownSend(t))
    case TlsLeg(s) => TlsLeg(Tls.ShutdownSend(s).0)
  }

  lemma TcpShutEffect(t: Tcp.Tcp)
    requires Tcp.Inv(t)
    ensures ShutEffect(TcpLeg(t), TcpLeg(Tcp.ShutdownSend(t)), Quiet)
  {
    hide Tcp.ShutdownSend;
  }

  lemma TlsShutEffect(s: Tls.Tls)
    requires Tls.Inv(s)
    ensures var r := Tls.ShutdownSend(s); ShutEffect(TlsLeg(s), TlsLeg(r.0), r.1)
  {
    hide Tls.ShutdownSend;
  }

  /** `tm_io_shutdown_send` */
  method ShutdownSend(l: Leg) returns (l': Leg, f: Fired)
    ensures ShutEffect(l, l', f) && ShutsAs(l, l', f)
    ensures l' == ShutLeg(l) && (f.Quiet? <==> SmoothShut(l))
  {
    if l.TcpLeg? { TcpShutEffect(l.t); } else if l.TlsLeg? { TlsShutEffect(l.s); } else { assert ShutEffect(l, l, Quiet); }
    hide ShutEffect, Tcp.ShutdownSend, Tls.ShutdownSend;
    match l
    case NoLeg =>
      return l, Quiet;
    case TcpLeg(t) =>
      return TcpLeg(Tcp.ShutdownSend(t)), Quiet;
    case TlsLeg(s) =>
      var (s', fired) := Tls.ShutdownSend(s);
      return TlsLeg(s'), fired;
  }

  lemma NoLegDone(ok: bool)
    ensures StepEffect(NoLeg, NoLeg, Quiet) && Completes(NoLeg, ok, NoLeg) && DoneQuietly(NoLeg, ok, NoLeg, Quiet, Done)
  {
  }

  lemma TcpDoneEffect(t: Tcp.Tcp, ok: bool)
    requires Tcp.Inv(t)
    ensures var r := Tcp.WriteDone(t, ok); var l, l', c := TcpLeg(t), TcpLeg(r.0), if r.2 then PumpNext else Done;
      && StepEffect(l, l', r.1) && Completes(l, ok, l') && DoneQuietly(l, ok, l', r.1, c)
      && (ok || !Alive(l) || !InFlight(l) || r.1.Error?)
  {
  }

  lemma TlsDoneEffect(s: Tls.Tls, ok: bool)
    requires Tls.Inv(s)
    ensures var r := Tls.WriteDone(s, ok); var l, l', c := TlsLeg(s), TlsLeg(r.0), if s.inflight then ShutNext else Done;
      && StepEffect(l, l', r.1) && Completes(l, ok, l') && DoneQuietly(l, ok, l', r.1, c)
      && (ok || !Alive(l) || !InFlight(l) || r.1.Error?)
  {
  }

  /** A socket write of the leg completed. */
  method WriteDone(l: Leg, ok: bool) returns (l': Leg, f: Fired, c: Cont)
    ensures StepEffect(l, l', f) && Completes(l, ok, l') && DoneAs(l, ok, l', f, c)
    ensures DoneQuietly(l, ok, l', f, c) && (ok || !Alive(l) || !InFlight(l) || f.Error?)
  {
    NoLegDone(ok);
    if l.TcpLeg? { TcpDoneEffect(l.t, ok); } else if l.TlsLeg? { TlsDoneEffect(l.s, ok); }
    hide StepEffect, Completes, DoneQuietly, Tcp.WriteDone, Tls.WriteDone;
    match l
    case NoLeg =>
      return l, Quiet, Done;
    case TcpLeg(t) =>
      var (t', fired, pump) := Tcp.WriteDone(t, ok);
      return TcpLeg(t'), fired, if pump then PumpNext else Done;
    case TlsLeg(s) =>
      var (s', fired) := Tls.WriteDone(s, ok);
      return TlsLeg(s'), fired, if s.inflight then ShutNext else Done;
  }

  /** Each kind of leg does exactly what its own completion says, and what is left to
      do is the pump of a drained raw leg or the deferred shutdown of a TLS leg. */
  ghost predicate DoneAs(l: Leg, ok: bool, l': Leg, f: Fired, c: Cont) {
    match l
    case NoLeg => l' == l && c.Done?
    case TcpLeg(t) => l'.TcpLeg? && Tcp.WriteDone(t, ok) == (l'.t, f, c.PumpNext?) && (c.PumpNext? || c.Done?)
    case TlsLeg(s) => l'.TlsLeg? && Tls.WriteDone(s, ok) == (l'.s, f) && c == if s.inflight then ShutNext else Done
  }

  /** What is left to do is done as the leg says. */
  ghost predicate ContinuesAs(l: Leg, c: Cont, l': Leg, f: Fired, c': Cont) {
    && (l.TcpLeg? && c.PumpNext? ==> l'.TcpLeg? && Tcp.Pump(l.t) == (l'.t, f, c'.FinNext?))
    && (l.TcpLeg? && c.FinNext? ==> l' == TcpLeg(Tcp.Fin(l.t)) && f.Quiet? && c'.Done?)
    && (l.TlsLeg? && c.ShutNext? ==> l'.TlsLeg? && Tls.AfterDone(l.s) == (l'.s, f))
  }

  /** A completion that calls nobody back. It drains a leg only if it is that of a TLS
      leg below its low-water mark. */
  ghost predicate DoneQuietly(l: Leg, ok: bool, l': Leg, f: Fired, c: Cont) {
    && (!InFlight(l) ==> l' == l && f.Quiet? && c.Done?)
    && (Drained(l) ==> f.Quiet? && Drained(l') && Settles(l', c))
    && (f.Quiet? && Drained(l') && !Drained(l) ==> Hushed(l, ok))
    && (f.Low? <==> LowDue(l, ok))
    && (Hushed(l, ok) ==> f.Quiet? && c.ShutNext? && l' == Hush(l) && Drained(l') && (Settles(l', c) <==> !l.s.shutdownPending))
  }

  /** The last write of a TLS leg completes, and nobody has asked for the low-water
      callback. */
  predicate Hushed(l: Leg, ok: bool) {
    ok && l.TlsLeg? && l.s.open && l.s.inflight && Tls.Drained(Hush(l).s) && Tls.WriteDone(l.s, true).1.Quiet? && Hush(l).s.open
  }

  /** The completion fires the low-water callback. */
  predicate LowDue(l: Leg, ok: bool) {
    && ok && Alive(l) && InFlight(l)
    && match l
       case NoLeg => false
       case TcpLeg(t) => t.inFlight == |t.q|
       case TlsLeg(s) => Tls.WriteDone(s, true).1.Low?
  }

  function Hush(l: Leg): Leg
    requires l.TlsLeg?
  {
    TlsLeg(Tls.WriteDone(l.s, true).0)
  }

  /** What the leg still has to do is nothing. */
  predicate Settles(l: Leg, c: Cont) {
    c.Done? || (c.ShutNext? && !(l.TlsLeg? && l.s.open && l.s.shutdownPending))
  }

  /** A successful completion completes everything handed over before it. */
  ghost predicate Completes(l: Leg, ok: bool, l': Leg) {
    ok && Alive(l) && InFlight(l) ==> Completed(l') >= |Handed(l)|
  }

  /** What the leg does after a callback returned. */
  method Continue(l: Leg, c: Cont) returns (l': Leg, f: Fired, c': Cont)
    ensures StepEffect(l, l', f) && ContinuesAs(l, c, l', f, c')
    ensures Settles(l, c) ==> l' == l && f.Quiet? && c'.Done?
    ensures f.Quiet? && Drained(l') ==> Drained(l) && (c.ShutNext? ==> Settles(l, c))
    ensures f.Quiet? ==> c'.Done?
    ensures !c.Done? ==> Rank(c') < Rank(c)
  {
    if l.TcpLeg? && c.PumpNext? {
      var (t', fired, fin) := Tcp.Pump(l.t);
      return TcpLeg(t'), fired, if fin then FinNext else Done;
    } else if l.TcpLeg? && c.FinNext? {
      return TcpLeg(Tcp.Fin(l.t)), Quiet, Done;
    } else if l.TlsLeg? && c.ShutNext? {
      var (s', fired) := Tls.AfterDone(l.s);
      return TlsLeg(s'), fired, Done;
    } else {
      return l, Quiet, Done;
    }
  }

  /** `tm_io_close` */
  function CloseLeg(l: Leg): (l': Leg)
    ensures !Alive(l')
    ensures Kept(l, l')
    ensures Accepted(l') == Accepted(l) && SendClosed(l') == SendClosed(l)
    ensures Handed(l') == Handed(l) && Completed(l') == Completed(l) && Backlog(l') == Backlog(l)
  {
    match l
    case NoLeg => l
    case TcpLeg(t) => TcpLeg(Tcp.Shut(t))
    case TlsLeg(s) => TlsLeg(Tls.Shut(s))
  }

  /** `tm_io_pause_read` and `tm_io_resume_read` */
  function SetPaused(l: Leg, paused: bool): (l': Leg)
    ensures Alive(l) ==> ReadPaused(l') == paused
    ensures Alive(l') == Alive(l) && SendClosed(l') == SendClosed(l)
    ensures Accepted(l') == Accepted(l) && Handed(l') == Handed(l) && Completed(l') == Completed(l)
    ensures Armed(l') == Armed(l) && Drained(l') == Drained(l) && Backlog(l') == Backlog(l) && Room(l') == Room(l)
    ensures SameKind(l, l')
  {
    match l
    case NoLeg => l
    case TcpLeg(t) => TcpLeg(Tcp.Reading(t, paused))
    case TlsLeg(s) => TlsLeg(Tls.Reading(s, paused))
  }
}
