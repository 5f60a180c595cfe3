/** Laws about whole runs of a tunnel: what one event of a run changes for good, and where
    octets come from that the client never sent. */
module TunnelLaws {
  import opened Bytes
  import opened Wire
  import opened Legs
  import opened RelayState
  import opened Tunnels

  /** What no event but a bind changes about the legs of a relay: which they are, and
      that a leg which refuses octets keeps refusing them. */
  ghost predicate Inert(x: State, y: State) {
    && y.bound == x.bound && y.up.foreign == x.up.foreign
    && (Refuses(x.up.sink) ==> Refuses(y.up.sink)) && (Refuses(x.down.sink) ==> Refuses(y.down.sink))
    && SameKind(x.down.sink, y.down.sink)
  }

  lemma AfterInert(x: State, y: State)
    requires After(x, y)
    ensures Inert(x, y)
  {
    hide LegInv, Handed, Accepted, Completed, Alive, SendClosed, ReadPaused;
    assert Step(At(x, Up), At(y, Up)) && Step(At(x, Down), At(y, Down));
  }

  lemma ReadInert(x: State, y: State, s: Side, data: seq<byte>)
    requires ReadEffect(x, y, s, data)
    ensures Inert(x, y)
  {
    hide LegInv, Handed, Accepted, Alive, SendClosed, Queued, Joined, ReadPaused, Closed;
  }

  lemma EofInert(x: State, y: State, s: Side)
    requires EofEffect(x, y, s)
    ensures Inert(x, y)
  {
    hide LegInv, After, ReadyToClose, Alive, SendClosed;
    if !x.closing { AfterInert(Ending(x, s), y); }
  }

  lemma FailInert(x: State, y: State, s: Side)
    requires FailEffect(x, y, s)
    ensures Inert(x, y)
  {
    hide LegInv, After, ReadyToClose, Inert, Orphaned;
    AfterInert(x, y);
  }

  lemma ReadStepInert(c: Ends, v: View, e: Event, v': View)
    requires (e.ReadClient? || e.ReadService? || e.ReadAtBroker? || e.ReadAtAgent? || e.Stray?) && SteppedRead(c, v, e, v')
    ensures Inert(v.b, v'.b) && Inert(v.a, v'.a)
  {
    hide LegInv, ReadEffect, Refuses, Handed, Ahead, Sent, Alive;
    match e
    case ReadClient(n) =>
      if v'.b != v.b { ReadInert(v.b, v'.b, Up, Sent(c.client, v.kc, n)); }
    case ReadService(n) =>
      if v'.a != v.a { ReadInert(v.a, v'.a, Down, Sent(c.service, v.ks, n)); }
    case ReadAtAgent(n) =>
      if v'.a != v.a { ReadInert(v.a, v'.a, Up, Ahead(c.preUp, v.gotA, Handed(v.b.up.sink), n)); }
    case ReadAtBroker(n) =>
      if v'.b != v.b { ReadInert(v.b, v'.b, Down, Ahead(c.preDown, v.gotB, Handed(v.a.down.sink), n)); }
    case Stray(all) =>
      if v'.b != v.b { ReadInert(v.b, v'.b, Up, all[..Min(|all|, READ_MAX)]); }
  }

  lemma EndStepInert(c: Ends, v: View, e: Event, v': View)
    requires (e.EndClient? || e.EndService? || e.EndAtBroker? || e.EndAtAgent? || e.EndAgain?) && SteppedEnd(c, v, e, v')
    ensures Inert(v.b, v'.b) && Inert(v.a, v'.a)
  {
    hide LegInv, EofEffect, Refuses, Handed, ClosesNext, Alive;
    match e
    case EndClient => if v'.b != v.b { EofInert(v.b, v'.b, Up); }
    case EndService => if v'.a != v.a { EofInert(v.a, v'.a, Down); }
    case EndAtBroker(_) => if v'.b != v.b { EofInert(v.b, v'.b, Down); }
    case EndAtAgent(_) => if v'.a != v.a { EofInert(v.a, v'.a, Up); }
    case EndAgain(_, s) =>
      if v'.b != v.b { EofInert(v.b, v'.b, s); }
      if v'.a != v.a { EofInert(v.a, v'.a, s); }
  }

  lemma LegStepInert(v: View, e: Event, v': View)
    requires (e.Wrote? || e.Fail? || e.Abort?) && SteppedLeg(v, e, v')
    ensures Inert(v.b, v'.b) && Inert(v.a, v'.a)
  {
    hide LegInv, After, FailEffect, DoneEffect, Refuses, Alive;
    match e
    case Fail(_, s) =>
      if v'.b != v.b { FailInert(v.b, v'.b, s); }
      if v'.a != v.a { FailInert(v.a, v'.a, s); }
    case Wrote(_, s, ok) =>
      if v'.b != v.b { DonesAfter(v.b, v'.b, s, ok); AfterInert(v.b, v'.b); }
      if v'.a != v.a { DonesAfter(v.a, v'.a, s, ok); AfterInert(v.a, v'.a); }
    case Abort(_) =>
      if v'.b != v.b { AfterInert(v.b, v'.b); }
      if v'.a != v.a { AfterInert(v.a, v'.a); }
  }

  lemma StepInert(c: Ends, l: Sockets, v: View, e: Event, v': View)
    requires Stepped(c, l, v, e, v')
    ensures e.Attach? || Inert(v.b, v'.b)
    ensures e.Start? || e.Connect? || Inert(v.a, v'.a)
  {
    hide LegInv, SteppedRead, SteppedEnd, SteppedLeg, Inert, BindDone, Leftover;
    if e.ReadClient? || e.ReadService? || e.ReadAtBroker? || e.ReadAtAgent? || e.Stray? {
      ReadStepInert(c, v, e, v');
    } else if e.EndClient? || e.EndService? || e.EndAtBroker? || e.EndAtAgent? || e.EndAgain? {
      EndStepInert(c, v, e, v');
    } else if e.Wrote? || e.Fail? || e.Abort? {
      LegStepInert(v, e, v');
    } else {
      InertRefl(v.b);
      InertRefl(v.a);
    }
  }

  lemma InertRefl(x: State)
    ensures Inert(x, x)
  {
  }

  /** A bound leg of one of the relays that takes no more octets. */
  predicate Refusing(v: View, role: Role, s: Side) {
    if role.Broker? then v.b.bound && Refuses(At(v.b, s).sink)
    else v.started && v.a.bound && Refuses(At(v.a, s).sink)
  }

  /** Refusal is permanent, over a whole run. */
  lemma {:induction false} RefusalIsPermanent(c: Ends, l: Sockets, events: seq<Event>, vs: seq<View>, i: nat, j: nat,
                                              role: Role, s: Side)
    requires Trace(c, l, events, vs) && i <= j < |vs| && Refusing(vs[i], role, s)
    ensures Refusing(vs[j], role, s)
    decreases j
  {
    hide LegInv, Stepped, Inert, Opening;
    if i < j {
      RefusalIsPermanent(c, l, events, vs, i, j - 1, role, s);
      assert Stepped(c, l, vs[j - 1], events[j - 1], vs[j]);
      StillRefusing(c, l, vs[j - 1], events[j - 1], vs[j], role, s);
    }
  }

  lemma StillRefusing(c: Ends, l: Sockets, v: View, e: Event, v': View, role: Role, s: Side)
    requires Stepped(c, l, v, e, v') && Refusing(v, role, s)
    ensures Refusing(v', role, s)
  {
    hide LegInv, SteppedRead, SteppedEnd, SteppedLeg, Refuses, BindDone, Leftover;
    StepInert(c, l, v, e, v');
    StepStarted(c, l, v, e, v');
  }

  lemma StepStarted(c: Ends, l: Sockets, v: View, e: Event, v': View)
    requires Stepped(c, l, v, e, v')
    ensures v.started ==> v'.started
    ensures v'.abrupt ==> v.abrupt || CutShort(e)
  {
    hide LegInv, ReadEffect, EofEffect, FailEffect, BindDone, After, DoneEffect, Leftover, Ahead, Sent, Handed, Alive;
  }

  /** An abrupt end is an event of the run. */
  lemma {:induction false} AbruptByEvent(c: Ends, l: Sockets, events: seq<Event>, vs: seq<View>, i: nat)
    requires Trace(c, l, events, vs) && i < |vs| && vs[i].abrupt
    ensures exists k :: 0 <= k < i && CutShort(events[k])
    decreases i
  {
    hide LegInv, Stepped;
    if i > 0 {
      assert Stepped(c, l, vs[i - 1], events[i - 1], vs[i]);
      StepStarted(c, l, vs[i - 1], events[i - 1], vs[i]);
      if vs[i - 1].abrupt { AbruptByEvent(c, l, events, vs, i - 1); }
    }
  }

  // ------------------------------------------------- a peer that dies too early

  /** The agent attaches although the peer's leg is dead: the broker puts a raw leg over
      the socket, and takes what it reads there for octets of the stream. */
  predicate Misread(c: Ends, v: View, e: Event) {
    e.Attach? && c.early && !v.b.bound && !v.b.closing && !v.b.down.live
  }

  ghost predicate Misreads(c: Ends, events: seq<Event>, vs: seq<View>, i: nat)
    requires i < |vs| == |events| + 1
  {
    exists k :: 0 <= k < i && Misread(c, vs[k], events[k])
  }

  lemma ForeignStep(c: Ends, l: Sockets, v: View, e: Event, v': View)
    requires Stepped(c, l, v, e, v') && TunnelOk(c, v)
    ensures v'.b.up.foreign <==> v.b.up.foreign || Misread(c, v, e)
  {
    hide LegInv, SteppedRead, SteppedEnd, SteppedLeg, Stable, AgentOk, Refuses;
    StepInert(c, l, v, e, v');
    ForeignBound(v.b);
    if e.Attach? && !v.b.closing && !v.b.bound { BindForeign(v.b, v'.b, l.agent, NewRaw(l.raw)); }
  }

  lemma BindForeign(x: State, y: State, leg: Leg, client: Leg)
    requires BindDone(x, y, leg, client) && !x.closing
    ensures y.up.foreign == (!x.down.live && x.down.sink != NoLeg)
  {
    hide LegInv, CutExactly, Bound, Balanced, Handed, Accepted;
  }

  /** Octets that are not the client's are read exactly after that. */
  lemma {:induction false} ForeignExactly(c: Ends, l: Sockets, events: seq<Event>, vs: seq<View>, i: nat)
    requires Trace(c, l, events, vs) && i < |vs| && (forall k :: 0 <= k < |vs| ==> TunnelOk(c, vs[k]))
    ensures vs[i].b.up.foreign <==> Misreads(c, events, vs, i)
    decreases i
  {
    hide LegInv, Stepped, TunnelOk, Misread;
    if i > 0 {
      ForeignExactly(c, l, events, vs, i - 1);
      assert Stepped(c, l, vs[i - 1], events[i - 1], vs[i]);
      ForeignStep(c, l, vs[i - 1], events[i - 1], vs[i]);
    }
  }

  /** The prefix law, where it holds: in every state of every run before the agent
      attaches to a stream whose peer's leg is dead. */
  lemma PrefixLaw(c: Ends, l: Sockets, events: seq<Event>, vs: seq<View>, i: nat)
    requires Trace(c, l, events, vs) && i < |vs| && (forall k :: 0 <= k < |vs| ==> TunnelOk(c, vs[k]))
    requires !Misreads(c, events, vs, i)
    ensures vs[i].stray == [] && AtService(vs[i]) <= c.client
  {
    hide LegInv, Trace, AtService, AgentOk, Misreads;
    ForeignExactly(c, l, events, vs, i);
    assert TunnelOk(c, vs[i]);
    UpPrefix(c, vs[i]);
  }

  /** What leaves for the peer of a closed tunnel goes into a raw TCP leg, outside its TLS
      connection, exactly after that. */
  lemma {:induction false} RawExactly(c: Ends, l: Sockets, events: seq<Event>, vs: seq<View>, i: nat)
    requires Trace(c, l, events, vs) && i < |vs| && (forall k :: 0 <= k < |vs| ==> TunnelOk(c, vs[k]))
    requires c.early && l.peer.TlsLeg?
    ensures vs[i].b.down.sink.TcpLeg? <==> Misreads(c, events, vs, i)
    decreases i
  {
    hide LegInv, Stepped, TunnelOk, Misread;
    if i > 0 {
      RawExactly(c, l, events, vs, i - 1);
      assert Stepped(c, l, vs[i - 1], events[i - 1], vs[i]);
      RawStep(c, l, vs[i - 1], events[i - 1], vs[i]);
    }
  }

  lemma RawStep(c: Ends, l: Sockets, v: View, e: Event, v': View)
    requires Stepped(c, l, v, e, v') && TunnelOk(c, v) && c.early
    ensures v'.b.down.sink.TcpLeg? <==> if Misread(c, v, e) then true else v.b.down.sink.TcpLeg?
  {
    hide LegInv, SteppedRead, SteppedEnd, SteppedLeg, Stable, AgentOk, Refuses;
    StepInert(c, l, v, e, v');
    if e.Attach? && !v.b.closing && !v.b.bound { BindKind(v.b, v'.b, l.agent, NewRaw(l.raw)); }
  }

  lemma BindKind(x: State, y: State, leg: Leg, client: Leg)
    requires BindDone(x, y, leg, client) && !x.closing
    ensures SameKind(if x.down.live then x.down.sink else client, y.down.sink)
  {
    hide LegInv, CutExactly, Bound, Balanced, Handed, Accepted;
  }

  // ------------------------------------------------- finished streams

  lemma ReadUnfinished(x: State, y: State, s: Side, data: seq<byte>)
    requires ReadEffect(x, y, s, data) && !x.closing && (!At(x, s).eof || x.up.foreign) && Whole(y)
    ensures !ReadyToClose(y)
  {
    hide LegInv, Handed, Alive, SendClosed, Queued, Joined, ReadPaused, Closed, Drained, Smooth, Written, Passed;
  }

  lemma EofUnfinished(x: State, y: State, s: Side)
    requires Stable(x) && EofEffect(x, y, s)
    ensures !ReadyToClose(y)
  {
    hide LegInv, DirOk, After, Drained, Jammed, EndsSmoothly, Closes;
    assert SideOk(x, Up) && SideOk(x, Down);
  }

  lemma BindUnfinished(x: State, y: State, leg: Leg, client: Leg)
    requires Stable(x) && !x.bound && BindDone(x, y, leg, client) && Whole(y)
    ensures !ReadyToClose(y)
  {
    hide LegInv, DirOk, CutExactly, Bound, Balanced, Handed, Accepted, Drained, Alive;
    assert SideOk(x, Up);
  }

  lemma DoneUnfinished(x: State, y: State, s: Side, ok: bool)
    requires DoneEffect(x, y, s, ok)
    ensures ReadyToClose(y) <==> ReadyToClose(x) || Overlooked(x, s, ok)
  {
    hide LegInv, After, ReadyToClose, Overlooked, Hushed, LowDue, FinDone, DroppedLeg;
  }

  lemma FailUnfinished(x: State, y: State, s: Side)
    requires FailEffect(x, y, s)
    ensures !ReadyToClose(y)
  {
    hide LegInv, After, Drained, Orphaned;
  }

  /** The event is a write completion that finishes the stream of this relay unnoticed. */
  predicate Unnoticed(x: State, e: Event, role: Role) {
    e.Wrote? && e.role == role && Overlooked(x, e.side, e.ok)
  }

  /** A finished stream closes, on whole legs: an event leaves both inputs ended,
      everything passed on and the stream open if and only if it is the last completion
      of a TLS leg that owes no low-water callback. */
  lemma FinishedCloses(c: Ends, l: Sockets, v: View, e: Event, v': View)
    requires Stepped(c, l, v, e, v') && TunnelOk(c, v)
    ensures Whole(v'.b) && !ReadyToClose(v.b) ==> (ReadyToClose(v'.b) <==> Unnoticed(v.b, e, Broker))
    ensures v.started && Whole(v'.a) && !ReadyToClose(v.a) ==> (ReadyToClose(v'.a) <==> Unnoticed(v.a, e, Agent))
  {
    hide LegInv, SteppedRead, SteppedEnd, SteppedLeg, SteppedBind, Stable, BrokerOk, AgentOk, ReadyToClose, Whole, Overlooked;
    BrokerParts(c, v);
    if e.ReadClient? || e.ReadService? || e.ReadAtBroker? || e.ReadAtAgent? || e.Stray? {
      ReadFinishes(c, v, e, v');
    } else if e.EndClient? || e.EndService? || e.EndAtBroker? || e.EndAtAgent? || e.EndAgain? {
      EndFinishes(c, v, e, v');
    } else if e.Wrote? || e.Fail? || e.Abort? {
      LegFinishes(c, v, e, v');
    } else {
      BindFinishes(c, l, v, e, v');
    }
  }

  lemma ReadFinishes(c: Ends, v: View, e: Event, v': View)
    requires (e.ReadClient? || e.ReadService? || e.ReadAtBroker? || e.ReadAtAgent? || e.Stray?) && SteppedRead(c, v, e, v')
    ensures v'.b == v.b || (Whole(v'.b) ==> !ReadyToClose(v'.b))
    ensures v'.a == v.a || (Whole(v'.a) ==> !ReadyToClose(v'.a))
  {
    hide LegInv, ReadEffect, ReadyToClose, Whole, Handed, Ahead, Sent, Alive;
    match e
    case ReadClient(n) =>
      if v'.b != v.b && Whole(v'.b) { ReadUnfinished(v.b, v'.b, Up, Sent(c.client, v.kc, n)); }
    case ReadService(n) =>
      if v'.a != v.a && Whole(v'.a) { ReadUnfinished(v.a, v'.a, Down, Sent(c.service, v.ks, n)); }
    case ReadAtAgent(n) =>
      if v'.a != v.a && Whole(v'.a) { ReadUnfinished(v.a, v'.a, Up, Ahead(c.preUp, v.gotA, Handed(v.b.up.sink), n)); }
    case ReadAtBroker(n) =>
      if v'.b != v.b && Whole(v'.b) { ReadUnfinished(v.b, v'.b, Down, Ahead(c.preDown, v.gotB, Handed(v.a.down.sink), n)); }
    case Stray(all) =>
      if v'.b != v.b && Whole(v'.b) { ReadUnfinished(v.b, v'.b, Up, all[..Min(|all|, READ_MAX)]); }
  }

  lemma EndFinishes(c: Ends, v: View, e: Event, v': View)
    requires e.EndClient? || e.EndService? || e.EndAtBroker? || e.EndAtAgent? || e.EndAgain?
    requires SteppedEnd(c, v, e, v') && Stable(v.b) && (v.started ==> Stable(v.a))
    ensures (v'.b == v.b || !ReadyToClose(v'.b)) && (v'.a == v.a || !ReadyToClose(v'.a))
  {
    hide LegInv, EofEffect, ReadyToClose, Stable, Handed, ClosesNext, Alive;
    match e
    case EndClient => if v'.b != v.b { EofUnfinished(v.b, v'.b, Up); }
    case EndService => if v'.a != v.a { EofUnfinished(v.a, v'.a, Down); }
    case EndAtBroker(_) => if v'.b != v.b { EofUnfinished(v.b, v'.b, Down); }
    case EndAtAgent(_) => if v'.a != v.a { EofUnfinished(v.a, v'.a, Up); }
    case EndAgain(_, s) =>
      if v'.b != v.b { EofUnfinished(v.b, v'.b, s); }
      if v'.a != v.a { EofUnfinished(v.a, v'.a, s); }
  }

  lemma LegFinishes(c: Ends, v: View, e: Event, v': View)
    requires (e.Wrote? || e.Fail? || e.Abort?) && SteppedLeg(v, e, v') && TunnelOk(c, v)
    ensures !ReadyToClose(v.b) ==> (ReadyToClose(v'.b) <==> Unnoticed(v.b, e, Broker))
    ensures v.started && !ReadyToClose(v.a) ==> (ReadyToClose(v'.a) <==> Unnoticed(v.a, e, Agent))
  {
    hide LegInv, After, FailEffect, DoneEffect, Alive, BrokerOk, AgentOk, Stable, Drained, Hushed;
    BrokerParts(c, v);
    match e
    case Wrote(role, s, ok) =>
      if role.Broker? && (v.b.bound || s.Down?) {
        DoneUnfinished(v.b, v'.b, s, ok);
      } else if role.Agent? && v.started && (v.a.bound || s.Down?) {
        DoneUnfinished(v.a, v'.a, s, ok);
      } else if role.Broker? {
        PendingOpen(v.b, ok);
      } else if v.started {
        PendingOpen(v.a, ok);
      }
    case Fail(_, s) =>
      if v'.b != v.b { FailUnfinished(v.b, v'.b, s); }
      if v'.a != v.a { FailUnfinished(v.a, v'.a, s); }
    case Abort(_) =>
  }

  lemma PendingOpen(x: State, ok: bool)
    requires Stable(x) && !x.bound
    ensures !Overlooked(x, Up, ok)
  {
    hide LegInv, DirOk, Hushed, Drained;
    assert SideOk(x, Up);
  }

  lemma BindFinishes(c: Ends, l: Sockets, v: View, e: Event, v': View)
    requires (e.Attach? || e.Start? || e.Connect?) && SteppedBind(c, l, v, e, v')
    requires Stable(v.b) && (v.started ==> Stable(v.a))
    ensures v'.b == v.b || (Whole(v'.b) ==> !ReadyToClose(v'.b))
    ensures v.started ==> v'.a == v.a || (Whole(v'.a) ==> !ReadyToClose(v'.a))
  {
    hide LegInv, BindDone, ReadyToClose, Whole, Stable, Handed, Leftover, Pending, NewRaw;
    match e
    case Attach => if v'.b != v.b && Whole(v'.b) { BindUnfinished(v.b, v'.b, l.agent, NewRaw(l.raw)); }
    case Start(_) =>
    case Connect => if v'.a != v.a && Whole(v'.a) { BindUnfinished(v.a, v'.a, NewRaw(l.service), NewRaw(l.service)); }
  }
}
