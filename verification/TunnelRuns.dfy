/** Runs of a tunnel in which the code does what nobody would expect of it, each for every
    client and service and for all legs that do as they are asked. */
module TunnelRuns {
  import opened Bytes
  import opened Wire
  import opened Legs
  import opened RelayState
  import opened Tunnels
  import Tcp
  import Tls

  lemma TraceSteps(c: Ends, l: Sockets, events: seq<Event>, vs: seq<View>)
    requires Trace(c, l, events, vs)
    ensures |vs| == |events| + 1 && vs[0] == Opening(l, c.early)
    ensures forall i :: 0 <= i < |events| ==> Stepped(c, l, vs[i], events[i], vs[i + 1])
  {
    hide LegInv, Stepped;
  }

  /** What `c` says about the legs of `l`. */
  ghost predicate Fits(c: Ends, l: Sockets) {
    Usable(l) && c.preUp == Accepted(l.agent) && c.preDown == Accepted(l.broker) && c.preClient == Accepted(l.peer)
  }

  /** The leg takes the octets without a callback and hands them over at once, behind
      everything before them. */
  predicate Sends(l: Leg, data: seq<byte>) {
    Smooth(l, data) && Handed(Written(l, data)) == Tokens(Accepted(l) + data)
  }

  /** The frames of the leg are out. */
  predicate Out(l: Leg) {
    Tokens(Accepted(l)) <= Handed(l)
  }

  lemma AllAhead(pre: seq<byte>, data: seq<byte>)
    requires |data| <= READ_MAX
    ensures Ahead(pre, [], Tokens(pre + data), |data|) == data
  {
    TokensConcat(pre, data);
    OctetsBack(data);
    assert Tokens(pre + data)[|pre|..] == Tokens(data) && data[..|data|] == data;
  }

  lemma ReadStraight(x: State, y: State, s: Side, data: seq<byte>)
    requires ReadEffect(x, y, s, data) && !x.closing && At(x, s).live && At(x, s).queue == [] && Smooth(At(x, s).sink, data)
    ensures y == Passed(Noted(x, s, |data|), s, Written(At(x, s).sink, data), data)
  {
    hide LegInv, Took, Joined, Queued, Smooth, Written, Noted, Passed;
  }

  lemma WrittenAccepted(l: Leg, data: seq<byte>)
    requires Smooth(l, data)
    ensures Accepted(Written(l, data)) == Accepted(l) + data
  {
    if l.TcpLeg? { TcpWriteEffect(l.t, data); } else { TlsWriteEffect(l.s, data); }
  }

  // -------------------------------------------- a peer's leg dies before the bind

  /** A closed tunnel's stream before the bind, its peer's leg dead. */
  ghost predicate Orphan(v: View) {
    && v.kc == 0 && v.ks == 0 && v.stray == [] && v.gotB == [] && !v.started && !v.b.closing && !v.b.bound && v.b.role == Broker
    && v.b.up.queue == [] && v.b.up.eof && !v.b.up.paused
    && !v.b.down.live && v.b.down.sink != NoLeg && v.b.down.queue == [] && !v.b.down.eof
  }

  lemma PeerFails(c: Ends, l: Sockets, v: View, v': View)
    requires FreshLeg(l.peer) && v == Opening(l, true) && Stepped(c, l, v, Fail(Broker, Down), v')
    ensures Orphan(v')
  {
    hide LegInv, After, ReadyToClose, Accepted, Handed;
  }

  /** A raw leg took the place of the dead one. */
  ghost predicate Usurped(l: Sockets, v: View) {
    && v.kc == 0 && v.ks == 0 && v.stray == [] && v.gotB == [] && !v.started && v.b.bound && !v.b.closing
    && v.b.up.foreign && v.b.up.live && v.b.up.queue == [] && v.b.up.sink == l.agent
    && v.b.down.sink == NewRaw(l.raw) && v.b.down.live && v.b.down.queue == [] && !v.b.down.eof
  }

  lemma RawAsIs(net: seq<bool>)
    ensures SetPaused(NewRaw(net), false) == NewRaw(net)
  {
  }

  lemma AgentAttaches(c: Ends, l: Sockets, v: View, v': View)
    requires FreshLeg(l.agent) && Orphan(v) && Stepped(c, l, v, Attach, v')
    ensures Usurped(l, v')
  {
    hide LegInv, BindEffect, CutExactly, Accepted, Handed, NewRaw, SetPaused;
    RawAsIs(l.raw);
  }

  /** The agent's relay waits for the local socket. */
  lemma AgentStarts(c: Ends, l: Sockets, v: View, v': View)
    requires !v.started && v.b.bound && Tokens(c.preUp) <= Handed(v.b.up.sink) && Stepped(c, l, v, Start(0), v')
    ensures v' == v.(a := Pending(Agent, l.broker, []), started := true, gotA := [])
  {
    hide LegInv, Handed, Octets, Pending, Tokens;
  }

  ghost predicate Connected(l: Sockets, v: View) {
    && v.started && v.gotA == [] && v.a.bound && !v.a.closing && v.a.role == Agent
    && v.a.up.live && v.a.up.queue == [] && v.a.up.sink == NewRaw(l.service) && !v.a.up.eof
    && v.a.down.live && v.a.down.queue == [] && v.a.down.sink == l.broker && !v.a.down.eof
  }

  lemma AgentConnects(c: Ends, l: Sockets, v: View, v': View)
    requires v.started && v.gotA == [] && v.a == Pending(Agent, l.broker, []) && FreshLeg(l.broker)
    requires Stepped(c, l, v, Connect, v')
    ensures v' == v.(a := v'.a) && Connected(l, v')
  {
    hide LegInv, BindEffect, CutExactly, Accepted, Handed;
  }

  // ------------------------------------------------------------ upstream

  /** Wherever a raw leg took over, everything it reads enters the stream, as long as the
      agent's leg takes octets. */
  lemma StrayEnters(c: Ends, l: Sockets, v: View, data: seq<byte>, v': View)
    requires Stepped(c, l, v, Stray(data), v') && 0 < |data| <= READ_MAX
    requires v.b.up.foreign && !v.b.closing && Alive(v.b.down.sink) && v.b.up.live && !Refuses(v.b.up.sink)
    ensures v'.kc == v.kc && v'.stray == v.stray + data && Joined(v.b, v'.b, Up, data)
  {
    hide LegInv, Handed, Completed, ReadPaused, Queued, Smooth, Written;
    assert data[..Min(|data|, READ_MAX)] == data;
  }

  function StrayEvents(data: seq<byte>): seq<Event> {
    [Fail(Broker, Down), Attach, Stray(data), Start(0), Connect, ReadAtAgent(|data|)]
  }

  lemma StrayLaunched(c: Ends, l: Sockets, v: View, data: seq<byte>, v': View)
    requires Fits(c, l) && 0 < |data| <= READ_MAX && Sends(l.agent, data)
    requires Usurped(l, v) && Stepped(c, l, v, Stray(data), v')
    ensures v' == v.(b := v'.b, stray := data) && v'.b.bound && Handed(v'.b.up.sink) == Tokens(c.preUp + data)
  {
    hide LegInv, Smooth, Written, Handed, ReadEffect, SteppedEnd, SteppedLeg, SteppedBind, Tokens, Joined, NewRaw, Accepted;
    RawFresh(l.raw);
    StrayEnters(c, l, v, data, v');
    assert [] + data == data && data[..Min(|data|, READ_MAX)] == data;
    ReadStraight(v.b, v'.b, Up, data);
  }

  lemma RawFresh(net: seq<bool>)
    ensures FreshLeg(NewRaw(net)) && NewRaw(net).TcpLeg? && Accepted(NewRaw(net)) == []
  {
  }

  lemma StrayDelivered(c: Ends, l: Sockets, v: View, data: seq<byte>, v': View)
    requires 0 < |data| <= READ_MAX && FreshLeg(l.broker) && Connected(l, v) && Smooth(NewRaw(l.service), data)
    requires Handed(v.b.up.sink) == Tokens(c.preUp + data) && Stepped(c, l, v, ReadAtAgent(|data|), v')
    ensures v'.kc == v.kc && AtService(v') == data
  {
    hide LegInv, Smooth, Written, Handed, Ahead, Accepted, ReadEffect, SteppedEnd, SteppedLeg, SteppedBind, NewRaw,
      Tokens, ReadPaused;
    RawFresh(l.service);
    WrittenAccepted(NewRaw(l.service), data);
    AllAhead(c.preUp, data);
    assert [] + data == data;
    assert SteppedRead(c, v, ReadAtAgent(|data|), v');
    ReadStraight(v.a, v'.a, Up, data);
  }

  /** Upstream: whatever the client sends, if the leg of a closed tunnel's peer fails
      before the agent attaches, the next octets on the socket arrive at the service. */
  lemma StrayArrives(c: Ends, l: Sockets, data: seq<byte>, vs: seq<View>)
    requires Fits(c, l) && c.early && Trace(c, l, StrayEvents(data), vs)
    requires 0 < |data| <= READ_MAX && Sends(l.agent, data) && Smooth(NewRaw(l.service), data)
    ensures |vs| == 7 && vs[6].kc == 0 && AtService(vs[6]) == data
  {
    hide LegInv, Trace, Stepped, FreshLeg, Orphan, Usurped, Connected, AtService, Handed, Pending, Sends, Smooth, Accepted,
      NewRaw;
    var events := StrayEvents(data);
    TraceSteps(c, l, events, vs);
    assert Stepped(c, l, vs[0], events[0], vs[1]) && Stepped(c, l, vs[1], events[1], vs[2])
        && Stepped(c, l, vs[2], events[2], vs[3]) && Stepped(c, l, vs[3], events[3], vs[4])
        && Stepped(c, l, vs[4], events[4], vs[5]) && Stepped(c, l, vs[5], events[5], vs[6]);
    PeerFails(c, l, vs[0], vs[1]);
    AgentAttaches(c, l, vs[1], vs[2]);
    UsurpedStart(l, vs[2]);
    StrayLaunched(c, l, vs[2], data, vs[3]);
    TokensConcat(c.preUp, data);
    AgentStarts(c, l, vs[3], vs[4]);
    AgentConnects(c, l, vs[4], vs[5]);
    StrayDelivered(c, l, vs[5], data, vs[6]);
  }

  lemma UsurpedStart(l: Sockets, v: View)
    requires Usurped(l, v)
    ensures v.kc == 0 && v.ks == 0 && v.gotB == [] && !v.started && v.b.bound && v.b.up.sink == l.agent
  {
  }

  // ---------------------------------------------------------- downstream

  function PlainEvents(n: nat): seq<Event> {
    [Fail(Broker, Down), Attach, Start(0), Connect, ReadService(n), ReadAtBroker(n)]
  }

  /** The service's octets are on their way to the broker. */
  lemma ServiceSends(c: Ends, l: Sockets, v: View, data: seq<byte>, v': View)
    requires Fits(c, l) && 0 < |data| <= READ_MAX && Sends(l.broker, data) && data <= c.service
    requires Connected(l, v) && v.ks == 0 && Stepped(c, l, v, ReadService(|data|), v')
    ensures v' == v.(a := v'.a, ks := |data|) && Handed(v'.a.down.sink) == Tokens(c.preDown + data)
  {
    hide LegInv, Smooth, Written, Handed, ReadEffect, SteppedEnd, SteppedLeg, SteppedBind, Tokens, NewRaw, Accepted, Sent;
    RawFresh(l.service);
    SentFirst(c.service, data);
    assert SteppedRead(c, v, ReadService(|data|), v');
    ReadStraight(v.a, v'.a, Down, data);
  }

  lemma SentFirst(all: seq<byte>, data: seq<byte>)
    requires data <= all && |data| <= READ_MAX
    ensures Sent(all, 0, |data|) == data
  {
  }

  lemma PlainDelivered(c: Ends, l: Sockets, v: View, data: seq<byte>, v': View)
    requires FreshLeg(l.agent) && 0 < |data| <= READ_MAX && Smooth(NewRaw(l.raw), data)
    requires Usurped(l, v.(started := false, ks := 0)) && v.started && Handed(v.a.down.sink) == Tokens(c.preDown + data)
    requires Stepped(c, l, v, ReadAtBroker(|data|), v')
    ensures v'.b.up.foreign && v'.b.down.sink.TcpLeg? && AtClient(c, v') == data
  {
    hide LegInv, Smooth, Written, Handed, Ahead, Accepted, ReadEffect, SteppedEnd, SteppedLeg, SteppedBind, NewRaw,
      Tokens, ReadPaused;
    RawFresh(l.raw);
    WrittenAccepted(NewRaw(l.raw), data);
    WrittenKind(NewRaw(l.raw), data);
    AllAhead(c.preDown, data);
    assert [] + data == data && data[0..] == data;
    assert SteppedRead(c, v, ReadAtBroker(|data|), v');
    ReadStraight(v.b, v'.b, Down, data);
  }

  lemma WrittenKind(l: Leg, data: seq<byte>)
    requires Smooth(l, data)
    ensures SameKind(l, Written(l, data))
  {
  }

  /** Downstream: in such a run the service's octets leave on the raw socket, outside the
      TLS connection the peer had. */
  lemma PlainLeaves(c: Ends, l: Sockets, data: seq<byte>, vs: seq<View>)
    requires Fits(c, l) && c.early && Trace(c, l, PlainEvents(|data|), vs) && data <= c.service
    requires 0 < |data| <= READ_MAX && Out(l.agent) && Sends(l.broker, data) && Smooth(NewRaw(l.raw), data)
    ensures |vs| == 7 && vs[6].b.up.foreign && vs[6].b.down.sink.TcpLeg? && AtClient(c, vs[6]) == data
  {
    hide LegInv, Trace, Stepped, FreshLeg, Orphan, Usurped, Connected, AtClient, Handed, Pending, Sends, Smooth, Accepted,
      NewRaw, Tokens;
    var events := PlainEvents(|data|);
    TraceSteps(c, l, events, vs);
    assert Stepped(c, l, vs[0], events[0], vs[1]) && Stepped(c, l, vs[1], events[1], vs[2])
        && Stepped(c, l, vs[2], events[2], vs[3]) && Stepped(c, l, vs[3], events[3], vs[4])
        && Stepped(c, l, vs[4], events[4], vs[5]) && Stepped(c, l, vs[5], events[5], vs[6]);
    PeerFails(c, l, vs[0], vs[1]);
    AgentAttaches(c, l, vs[1], vs[2]);
    UsurpedStart(l, vs[2]);
    AgentStarts(c, l, vs[2], vs[3]);
    AgentConnects(c, l, vs[3], vs[4]);
    ServiceSends(c, l, vs[4], data, vs[5]);
    StillUsurped(l, vs[2], vs[5]);
    PlainDelivered(c, l, vs[5], data, vs[6]);
  }

  lemma StillUsurped(l: Sockets, v: View, v': View)
    requires Usurped(l, v) && v'.b == v.b && v'.kc == v.kc && v'.stray == v.stray && v'.gotB == v.gotB && v'.started
    ensures Usurped(l, v'.(started := false, ks := 0))
  {
  }

  lemma IdleSends(sent: seq<byte>, data: seq<byte>)
    requires 0 < |data| <= Tls.RECORD_MAX
    ensures var s := Tls.Idle(sent, [Tls.Wrote(|data|, false)]);
      Tls.Inv(s) && FreshLeg(TlsLeg(s)) && Out(TlsLeg(s)) && Sends(TlsLeg(s), data)
  {
    Tls.FirstWrite(sent, data);
    hide Tls.Write, Tls.Inv;
  }

  /** Legs that do as they are asked, with whatever frames went before: those to the agent
      and back send their next `n` octets at once. */
  function Willing(toPeer: seq<byte>, toAgent: seq<byte>, toBroker: seq<byte>, n: nat): (l: Sockets)
    ensures l.raw == l.service == []
    ensures Accepted(l.peer) == toPeer && Accepted(l.agent) == toAgent && Accepted(l.broker) == toBroker
  {
    Tls.IdleInv(toPeer, []);
    Tls.IdleInv(toAgent, [Tls.Wrote(n, false)]);
    Tls.IdleInv(toBroker, [Tls.Wrote(n, false)]);
    Sockets(TlsLeg(Tls.Idle(toPeer, [])), [], TlsLeg(Tls.Idle(toAgent, [Tls.Wrote(n, false)])),
            TlsLeg(Tls.Idle(toBroker, [Tls.Wrote(n, false)])), [])
  }

  lemma WillingUsable(toPeer: seq<byte>, toAgent: seq<byte>, toBroker: seq<byte>, data: seq<byte>)
    requires 0 < |data| <= Tls.RECORD_MAX
    ensures var l := Willing(toPeer, toAgent, toBroker, |data|);
      Usable(l) && l.peer.TlsLeg? && Out(l.agent) && Sends(l.agent, data) && Sends(l.broker, data)
  {
    IdleSends(toAgent, data);
    IdleSends(toBroker, data);
    hide LegInv, Sends, Out;
  }

  lemma RawTakes(data: seq<byte>)
    requires 0 < |data| <= Tls.RECORD_MAX
    ensures Smooth(NewRaw([]), data)
  {
    Tcp.FirstWrite([], data);
    hide Tcp.Write, Tcp.Inv;
  }

  /** Both runs exist for every client, every service and all frames before: what the
      service gets need not have anything to do with what the client sent. */
  method StrayRun(client: seq<byte>, service: seq<byte>, toPeer: seq<byte>, toAgent: seq<byte>, toBroker: seq<byte>,
                  data: seq<byte>) returns (c: Ends, v: View)
    requires 0 < |data| <= Tls.RECORD_MAX
    ensures c == Ends(client, service, toAgent, toBroker, toPeer, true) && TunnelOk(c, v)
    ensures v.kc == 0 && AtService(v) == data
  {
    hide LegInv, Usable, Trace, Promised, TunnelOk, AtService, Willing, Smooth, Sends, NewRaw;
    var l := Willing(toPeer, toAgent, toBroker, |data|);
    WillingUsable(toPeer, toAgent, toBroker, data);
    RawTakes(data);
    var vs;
    c, vs := Run(client, service, l, true, StrayEvents(data));
    StrayArrives(c, l, data, vs);
    v := vs[6];
  }

  /** And what the service sends leaves unencrypted. */
  method PlainRun(client: seq<byte>, data: seq<byte>, more: seq<byte>, toPeer: seq<byte>, toAgent: seq<byte>,
                  toBroker: seq<byte>) returns (c: Ends, v: View)
    requires 0 < |data| <= Tls.RECORD_MAX
    ensures c == Ends(client, data + more, toAgent, toBroker, toPeer, true) && TunnelOk(c, v)
    ensures v.b.up.foreign && v.b.down.sink.TcpLeg? && AtClient(c, v) == data
  {
    hide LegInv, Usable, Trace, Promised, TunnelOk, AtClient, Willing, Smooth, Sends, NewRaw;
    var l := Willing(toPeer, toAgent, toBroker, |data|);
    WillingUsable(toPeer, toAgent, toBroker, data);
    RawTakes(data);
    var vs;
    c, vs := Run(client, data + more, l, true, PlainEvents(|data|));
    PlainLeaves(c, l, data, vs);
    v := vs[6];
  }

  // ------------------------------------------------ a finished stream stays open

  function HangEvents(): seq<Event> {
    [Attach, Start(0), Connect, EndService, EndClient, EndAtAgent(false), EndAtBroker(false),
     Wrote(Broker, Up, true), Wrote(Agent, Down, true)]
  }

  /** The leg sent its alert alone and waits for its completion. */
  ghost predicate Parting(l: Leg, pre: seq<byte>) {
    && Alive(l) && Handed(l) == Tokens(pre) + [Close] && !Drained(l)
    && Hushed(l, true) && !l.s.shutdownPending && Drained(Hush(l))
  }

  /** The leg parts when it is half-closed. */
  ghost predicate Parts(l: Leg) {
    FreshLeg(l) && SmoothShut(l) && Parting(ShutLeg(l), Accepted(l))
  }

  lemma IdleParts(sent: seq<byte>, ssl: seq<Tls.SslAnswer>)
    ensures Tls.Inv(Tls.Idle(sent, ssl)) && Parts(TlsLeg(Tls.Idle(sent, ssl)))
  {
    Tls.IdleInv(sent, ssl);
    Tls.IdleShuts(sent, ssl);
    Tls.ClosingEnds(Tls.ShutdownSend(Tls.Idle(sent, ssl)).0);
    hide Tls.ShutdownSend, Tls.WriteDone, Tls.Inv;
  }

  lemma RawShuts(net: seq<bool>)
    ensures var l := ShutLeg(NewRaw(net)); SmoothShut(NewRaw(net)) && Alive(l) && Drained(l)
  {
  }

  /** A bound relay of an open tunnel, with nothing on its way. */
  ghost predicate Bare(x: State, up: Leg, down: Leg) {
    && x.bound && !x.closing && !x.up.foreign
    && x.up.sink == up && x.up.live && x.up.queue == [] && !x.up.eof
    && x.down.sink == down && x.down.live && x.down.queue == [] && !x.down.eof
  }

  lemma Attached(c: Ends, l: Sockets, v: View, v': View)
    requires FreshLeg(l.agent) && v == Opening(l, false) && Stepped(c, l, v, Attach, v')
    ensures v' == v.(b := v'.b) && Bare(v'.b, l.agent, NewRaw(l.raw)) && v'.b.role == Broker
  {
    hide LegInv, BindEffect, CutExactly, Accepted, Handed, NewRaw, SetPaused;
    RawAsIs(l.raw);
  }

  /** The relay after the end of the input of `s` was passed on. */
  ghost predicate Half(x: State, s: Side, far: Leg, near: Leg) {
    && x.bound && !x.closing && !x.up.foreign
    && At(x, s).sink == ShutLeg(far) && At(x, s).live && At(x, s).queue == [] && At(x, s).eof
    && At(x, Other(s)).sink == near && At(x, Other(s)).live && At(x, Other(s)).queue == [] && !At(x, Other(s)).eof
  }

  lemma FirstEnd(x: State, y: State, s: Side, far: Leg, near: Leg)
    requires EofEffect(x, y, s) && SmoothShut(far) && y.role == x.role
    requires if s.Up? then Bare(x, far, near) else Bare(x, near, far)
    ensures Half(y, s, far, near)
  {
    hide LegInv, After, Jammed, SmoothShut, ShutLeg, Drained;
  }

  /** Both ends were passed on; the alert is on its way. */
  ghost predicate Spent(x: State, s: Side, far: Leg, near: Leg) {
    && x.bound && !x.closing && !x.up.foreign && x.up.eof && x.down.eof && x.up.queue == [] && x.down.queue == []
    && At(x, s).sink == ShutLeg(far) && At(x, Other(s)).sink == ShutLeg(near)
  }

  lemma SecondEnd(x: State, y: State, s: Side, far: Leg, near: Leg)
    requires Half(x, s, far, near) && SmoothShut(near) && !Drained(ShutLeg(far)) && EofEffect(x, y, Other(s))
    ensures Spent(y, s, far, near)
  {
    hide LegInv, After, Jammed, SmoothShut, ShutLeg, Drained;
  }

  lemma LastWrite(x: State, y: State, s: Side, far: Leg, near: Leg, pre: seq<byte>)
    requires Spent(x, s, far, near) && Parting(ShutLeg(far), pre) && Drained(ShutLeg(near)) && DoneEffect(x, y, s, true)
    ensures ReadyToClose(y)
  {
    hide LegInv, After, ShutLeg, Drained, Hushed, LowDue, FinDone, DroppedLeg, Hush;
  }

  lemma ServiceEnds(c: Ends, l: Sockets, v: View, v': View)
    requires Connected(l, v) && !v.a.up.foreign && v.ks == |c.service| && SmoothShut(l.broker) && Stepped(c, l, v, EndService, v')
    ensures v' == v.(a := v'.a) && Half(v'.a, Down, l.broker, NewRaw(l.service))
  {
    hide LegInv, EofEffect, SmoothShut, ShutLeg, NewRaw, Half;
    RawFresh(l.service);
    EndsRole(v.a, v'.a, Down);
    FirstEnd(v.a, v'.a, Down, l.broker, NewRaw(l.service));
  }

  lemma EndsRole(x: State, y: State, s: Side)
    requires EofEffect(x, y, s)
    ensures y.role == x.role
  {
    hide LegInv, Step, Jammed, EndsSmoothly, Closes, ReadyToClose;
  }

  lemma ClientEnds(c: Ends, l: Sockets, v: View, v': View)
    requires Bare(v.b, l.agent, NewRaw(l.raw)) && v.kc == |c.client| && SmoothShut(l.agent) && Stepped(c, l, v, EndClient, v')
    ensures v' == v.(b := v'.b) && Half(v'.b, Up, l.agent, NewRaw(l.raw))
  {
    hide LegInv, EofEffect, SmoothShut, ShutLeg, NewRaw, Half;
    RawFresh(l.raw);
    EndsRole(v.b, v'.b, Up);
    FirstEnd(v.b, v'.b, Up, l.agent, NewRaw(l.raw));
  }

  /** The users are silent, the alerts are on their way. */
  ghost predicate Silence(c: Ends, l: Sockets, v: View) {
    && v.started && v.gotA == [] && v.gotB == [] && Parts(l.agent) && Parts(l.broker)
    && c.preUp == Accepted(l.agent) && c.preDown == Accepted(l.broker)
  }

  lemma EndReachesAgent(c: Ends, l: Sockets, v: View, v': View)
    requires Silence(c, l, v) && Half(v.a, Down, l.broker, NewRaw(l.service)) && v.b.up.sink == ShutLeg(l.agent)
    requires Stepped(c, l, v, EndAtAgent(false), v')
    ensures v' == v.(a := v'.a) && Spent(v'.a, Down, l.broker, NewRaw(l.service))
  {
    hide LegInv, EofEffect, SmoothShut, ShutLeg, NewRaw, Spent, Handed, Drained, Hushed, Hush;
    RawShuts(l.service);
    assert c.preUp + [] == c.preUp;
    SecondEnd(v.a, v'.a, Down, l.broker, NewRaw(l.service));
  }

  lemma EndReachesBroker(c: Ends, l: Sockets, v: View, v': View)
    requires Silence(c, l, v) && Half(v.b, Up, l.agent, NewRaw(l.raw)) && v.a.down.sink == ShutLeg(l.broker)
    requires Stepped(c, l, v, EndAtBroker(false), v')
    ensures v' == v.(b := v'.b) && Spent(v'.b, Up, l.agent, NewRaw(l.raw))
  {
    hide LegInv, EofEffect, SmoothShut, ShutLeg, NewRaw, Spent, Handed, Drained, Hushed, Hush;
    RawShuts(l.raw);
    assert c.preDown + [] == c.preDown;
    SecondEnd(v.b, v'.b, Up, l.agent, NewRaw(l.raw));
  }

  /** With both users silent, everything is passed on and both relays stay open: each
      waits for a callback that its last completion did not cause. */
  lemma Hangs(c: Ends, l: Sockets, vs: seq<View>)
    requires Fits(c, l) && !c.early && c.client == [] && c.service == [] && Trace(c, l, HangEvents(), vs)
    requires Parts(l.agent) && Parts(l.broker) && Out(l.agent)
    ensures |vs| == 10 && ReadyToClose(vs[9].b) && ReadyToClose(vs[9].a) && vs[9].started
  {
    hide LegInv, Trace, Stepped, Half, Spent, Connected, Bare, Handed, Pending, Parting, Accepted, NewRaw, Tokens,
      SmoothShut, ShutLeg, FreshLeg, ReadyToClose;
    var events := HangEvents();
    TraceSteps(c, l, events, vs);
    assert Stepped(c, l, vs[0], events[0], vs[1]) && Stepped(c, l, vs[1], events[1], vs[2])
        && Stepped(c, l, vs[2], events[2], vs[3]) && Stepped(c, l, vs[3], events[3], vs[4])
        && Stepped(c, l, vs[4], events[4], vs[5]) && Stepped(c, l, vs[5], events[5], vs[6])
        && Stepped(c, l, vs[6], events[6], vs[7]) && Stepped(c, l, vs[7], events[7], vs[8])
        && Stepped(c, l, vs[8], events[8], vs[9]);
    Attached(c, l, vs[0], vs[1]);
    BareStart(vs[1], l.agent, NewRaw(l.raw));
    AgentStarts(c, l, vs[1], vs[2]);
    AgentConnects(c, l, vs[2], vs[3]);
    NotForeign(c, l, vs[2], vs[3]);
    ServiceEnds(c, l, vs[3], vs[4]);
    ClientEnds(c, l, vs[4], vs[5]);
    HalfSink(vs[5].b, Up, l.agent, NewRaw(l.raw));
    EndReachesAgent(c, l, vs[5], vs[6]);
    SpentSink(vs[6].a, Down, l.broker, NewRaw(l.service));
    EndReachesBroker(c, l, vs[6], vs[7]);
    RawShuts(l.raw);
    RawShuts(l.service);
    LastOfBroker(c, l, vs[7], vs[8]);
    LastOfAgent(c, l, vs[8], vs[9]);
  }

  lemma BareStart(v: View, up: Leg, down: Leg)
    requires Bare(v.b, up, down)
    ensures v.b.bound && v.b.up.sink == up
  {
  }

  lemma NotForeign(c: Ends, l: Sockets, v: View, v': View)
    requires v.started && v.a == Pending(Agent, l.broker, []) && FreshLeg(l.broker) && Stepped(c, l, v, Connect, v')
    ensures !v'.a.up.foreign
  {
    hide LegInv, CutExactly, Accepted, Handed;
  }

  lemma HalfSink(x: State, s: Side, far: Leg, near: Leg)
    requires Half(x, s, far, near)
    ensures At(x, s).sink == ShutLeg(far)
  {
  }

  lemma SpentSink(x: State, s: Side, far: Leg, near: Leg)
    requires Spent(x, s, far, near)
    ensures At(x, s).sink == ShutLeg(far) && x.bound
  {
  }

  lemma LastOfBroker(c: Ends, l: Sockets, v: View, v': View)
    requires Parts(l.agent) && Spent(v.b, Up, l.agent, NewRaw(l.raw)) && Drained(ShutLeg(NewRaw(l.raw)))
    requires Stepped(c, l, v, Wrote(Broker, Up, true), v')
    ensures v' == v.(b := v'.b) && ReadyToClose(v'.b)
  {
    hide LegInv, DoneEffect, ShutLeg, Drained, NewRaw, Parting, ReadyToClose;
    LastWrite(v.b, v'.b, Up, l.agent, NewRaw(l.raw), Accepted(l.agent));
  }

  lemma LastOfAgent(c: Ends, l: Sockets, v: View, v': View)
    requires Parts(l.broker) && v.started && Spent(v.a, Down, l.broker, NewRaw(l.service))
    requires Drained(ShutLeg(NewRaw(l.service))) && Stepped(c, l, v, Wrote(Agent, Down, true), v')
    ensures v' == v.(a := v'.a) && ReadyToClose(v'.a)
  {
    hide LegInv, DoneEffect, ShutLeg, Drained, NewRaw, Parting, ReadyToClose;
    LastWrite(v.a, v'.a, Down, l.broker, NewRaw(l.service), Accepted(l.broker));
  }

  /** Such a run exists for all frames before. */
  method HangRun(toPeer: seq<byte>, toAgent: seq<byte>, toBroker: seq<byte>) returns (c: Ends, v: View)
    ensures c == Ends([], [], toAgent, toBroker, toPeer, false) && TunnelOk(c, v)
    ensures v.started && ReadyToClose(v.b) && ReadyToClose(v.a)
  {
    IdleParts(toAgent, [Tls.Wrote(1, false)]);
    IdleParts(toBroker, [Tls.Wrote(1, false)]);
    var l := Willing(toPeer, toAgent, toBroker, 1);
    assert Parts(l.agent) && Parts(l.broker);
    WillingUsable(toPeer, toAgent, toBroker, [0]);
    hide LegInv, Usable, Trace, Promised, TunnelOk, ReadyToClose, Willing, Parts;
    var vs;
    c, vs := Run([], [], l, false, HangEvents());
    Hangs(c, l, vs);
    v := vs[9];
  }
}
