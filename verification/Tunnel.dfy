/** A whole TCP tunnel: the broker's relay and the agent's relay, joined by the two
    directions of their TLS connection, with a client on one end and the service on
    the other. A run is any sequence of events; a channel delivers what was handed to
    the socket at its other end, in order, in pieces of any size. */
module Tunnels {
  import opened Bytes
  import opened Wire
  import opened Legs
  import opened RelayState
  import opened Relays

  /** What the two users send, and what the TLS legs carried before the relays took
      over: the DATA_BIND_OK frame one way, the DATA_BIND frame the other way, and the
      frames to the peer. A peer of a closed tunnel is connected from the start
      (`early`); a client of an open tunnel is read from the bind on. */
  datatype Ends = Ends(client: seq<byte>, service: seq<byte>, preUp: seq<byte>, preDown: seq<byte>,
                       preClient: seq<byte>, early: bool)

  /** What the client's leg had accepted before the first octet of the service. */
  function Base(c: Ends, b: State): seq<byte> {
    if c.early && !b.up.foreign then c.preClient else []
  }

  datatype View = View(
    b: State,           // the broker's relay
    a: State,           // the agent's relay, once `started`
    started: bool,
    kc: nat,            // octets of the client read so far
    stray: seq<byte>,   // taken on from the raw leg over a dead peer's leg
    ks: nat,            // octets of the service read so far
    gotA: seq<byte>,    // read by the agent off the broker's channel
    gotB: seq<byte>,    // read by the broker off the agent's channel
    abrupt: bool)       // a TCP end without close_notify was taken for an end of input

  /** The reader of a channel holds the next octets of what was handed to it. */
  ghost predicate Channel(pre: seq<byte>, got: seq<byte>, writer: Leg) {
    Tokens(pre + got) <= Handed(writer)
  }

  /** The next read off a channel, at most `n` octets. */
  function Ahead(pre: seq<byte>, got: seq<byte>, handed: seq<Token>, n: nat): (data: seq<byte>)
    ensures |data| <= READ_MAX
  {
    if |pre| + |got| > |handed| then []
    else
      var next := Octets(handed[|pre| + |got|..]);
      next[..Min(Min(n, |next|), READ_MAX)]
  }

  lemma AheadReads(pre: seq<byte>, got: seq<byte>, writer: Leg, n: nat)
    requires Channel(pre, got, writer)
    ensures Channel(pre, got + Ahead(pre, got, Handed(writer), n), writer)
  {
    hide LegInv, Handed, Octets;
    var data := Ahead(pre, got, Handed(writer), n);
    ReadNext(pre + got, Handed(writer), |data|);
    assert pre + got + data == pre + (got + data);
  }

  /** What the broker's relay took on for the service. */
  function Taken(c: Ends, v: View): seq<byte>
    requires v.kc <= |c.client|
  {
    c.client[..v.kc] + v.stray
  }

  ghost predicate BrokerOk(c: Ends, v: View) {
    && v.kc <= |c.client| && v.ks <= |c.service|
    && Stable(v.b) && v.b.role == Broker && !v.b.up.cut
    && v.b.up.fed == (if v.b.bound then c.preUp else []) + Taken(c, v)
    && v.b.down.fed == Base(c, v.b) + v.gotB
    && (v.stray != [] ==> v.b.up.foreign)
    && (!v.b.bound ==> v.gotB == [] && (v.b.down.live ==> c.early) && (c.early <==> v.b.down.sink != NoLeg))
    && (Over(v.b.up) && !v.abrupt ==> v.kc == |c.client|)
    && (Over(v.b.down) && !v.abrupt ==> v.started && v.a.down.eof && v.gotB == c.service[..v.ks])
  }

  ghost predicate AgentOk(c: Ends, v: View) {
    && v.kc <= |c.client| && v.ks <= |c.service|
    && Stable(v.a) && v.a.role == Agent && v.b.bound
    && v.a.up.fed == v.gotA
    && v.a.down.fed == c.preDown + c.service[..v.ks]
    && Channel(c.preUp, v.gotA, v.b.up.sink)
    && Channel(c.preDown, v.gotB, v.a.down.sink)
    && (Over(v.a.down) && !v.abrupt ==> v.ks == |c.service|)
    && (Over(v.a.up) && !v.abrupt ==> v.b.up.eof && v.gotA == Taken(c, v) && Close in Handed(v.b.up.sink))
  }

  ghost predicate TunnelOk(c: Ends, v: View) {
    && BrokerOk(c, v)
    && (if v.started then AgentOk(c, v) else v.gotA == [] && v.gotB == [] && v.ks == 0)
  }

  /** What has arrived at the service, and what at the client. */
  function AtService(v: View): seq<byte> {
    if v.started then Accepted(v.a.up.sink) else []
  }

  function AtClient(c: Ends, v: View): seq<byte> {
    Past(Base(c, v.b), Accepted(v.b.down.sink))
  }

  /** What comes after the first `|p|` octets. */
  function Past(p: seq<byte>, s: seq<byte>): seq<byte> {
    if |p| <= |s| then s[|p|..] else []
  }

  lemma PastPrefix(p: seq<byte>, s: seq<byte>, t: seq<byte>)
    requires s <= p + t
    ensures Past(p, s) <= t && (s == p + t ==> Past(p, s) == t)
  {
    if |p| <= |s| {
      assert s[|p|..] <= (p + t)[|p|..] == t;
    }
  }

  /** What has arrived at the service is a prefix of what the broker took on: octets of
      the client, then octets of the raw leg over a dead peer's leg. */
  lemma UpPrefix(c: Ends, v: View)
    requires TunnelOk(c, v)
    ensures v.gotA <= Taken(c, v) && AtService(v) <= Taken(c, v)
    ensures v.stray == [] ==> AtService(v) <= c.client
    ensures AtService(v) <= c.client[..v.kc] <==> |AtService(v)| <= v.kc
  {
    if v.started {
      hide LegInv, DirOk;
      assert SideOk(v.b, Up) && SideOk(v.a, Up);
      DirPrefix(v.b.up, v.b.closing);
      DirPrefix(v.a.up, v.a.closing);
      LegFacts(v.b.up.sink);
      ChannelPrefix(c.preUp + v.gotA, Handed(v.b.up.sink), Accepted(v.b.up.sink));
      PrefixTail(c.preUp, v.gotA, Taken(c, v));
      Front(Accepted(v.a.up.sink), c.client[..v.kc], v.stray);
    }
  }

  lemma Front(p: seq<byte>, a: seq<byte>, b: seq<byte>)
    requires p <= a + b
    ensures p <= a <==> |p| <= |a|
  {
  }

  lemma DirPrefix(d: Dir, closing: bool)
    requires DirOk(d, closing)
    ensures Accepted(d.sink) <= d.fed
  {
  }

  lemma PrefixTail(p: seq<byte>, a: seq<byte>, b: seq<byte>)
    requires p + a <= p + b
    ensures a <= b
  {
    forall i | 0 <= i < |a| ensures a[i] == b[i] {
      assert (p + a)[|p| + i] == (p + b)[|p| + i];
    }
  }

  lemma DownPrefix(c: Ends, v: View)
    requires TunnelOk(c, v)
    ensures v.gotB <= c.service[..v.ks]
    ensures AtClient(c, v) <= c.service
  {
    hide LegInv, DirOk;
    assert SideOk(v.b, Down);
    DirPrefix(v.b.down, v.b.closing);
    PastPrefix(Base(c, v.b), Accepted(v.b.down.sink), v.gotB);
    if v.started {
      assert SideOk(v.a, Down);
      DirPrefix(v.a.down, v.a.closing);
      LegFacts(v.a.down.sink);
      ChannelPrefix(c.preDown + v.gotB, Handed(v.a.down.sink), Accepted(v.a.down.sink));
      PrefixTail(c.preDown, v.gotB, c.service[..v.ks]);
    }
  }

  /** Both relays closed on their own, no leg failed, no end was abrupt and the agent
      did not cut its queue off: then everything arrived, on completed writes. */
  lemma Complete(c: Ends, v: View)
    requires TunnelOk(c, v) && v.started && v.b.clean && v.a.clean && !v.a.up.cut && !v.abrupt
    ensures AtService(v) == c.client && Delivered(v.a.up.sink)
    ensures AtClient(c, v) == c.service && Delivered(v.b.down.sink)
    ensures !v.b.up.foreign && v.stray == []
  {
    hide LegInv, Stable, Accepted;
    CleanDelivers(v.b);
    CleanDelivers(v.a);
    PastPrefix(Base(c, v.b), Accepted(v.b.down.sink), v.gotB);
    assert c.client[..|c.client|] == c.client && c.service[..|c.service|] == c.service;
  }

  /** A relay that closed on its own had passed everything on. */
  lemma CleanDelivers(x: State)
    requires Stable(x) && x.clean
    ensures Over(x.up) && Over(x.down) && Delivered(x.up.sink) && Delivered(x.down.sink)
    ensures (x.up.cut || Accepted(x.up.sink) == x.up.fed) && Accepted(x.down.sink) == x.down.fed
    ensures !x.up.foreign
  {
    hide LegInv, DirOk, Settled, Accepted, Delivered;
    assert SideOk(x, Up) && SideOk(x, Down);
  }

  // -------------------------------------------------------------------- steps

  lemma Kept(x: State, y: State)
    requires After(x, y)
    ensures Handed(x.up.sink) <= Handed(y.up.sink) && Handed(x.down.sink) <= Handed(y.down.sink)
    ensures y.up.fed == x.up.fed && y.down.fed == x.down.fed && y.up.cut == x.up.cut
    ensures Over(y.up) == Over(x.up) && Over(y.down) == Over(x.down)
    ensures (x.up.eof ==> y.up.eof) && (x.down.eof ==> y.down.eof)
    ensures y.bound == x.bound && y.role == x.role && (y.down.live ==> x.down.live)
    ensures y.up.foreign == x.up.foreign && y.down.sink.NoLeg? == x.down.sink.NoLeg?
  {
    assert Step(At(x, Up), At(y, Up)) && Step(At(x, Down), At(y, Down));
  }

  /** A step of a relay that takes no input. */
  lemma BrokerStepped(c: Ends, v: View, b: State)
    requires TunnelOk(c, v) && Stable(b) && After(v.b, b)
    ensures TunnelOk(c, v.(b := b))
  {
    hide LegInv, Stable, After, Handed;
    Kept(v.b, b);
  }

  lemma AgentStepped(c: Ends, v: View, a: State)
    requires TunnelOk(c, v) && v.started && Stable(a) && After(v.a, a)
    ensures TunnelOk(c, v.(a := a))
  {
    hide LegInv, Stable, After, Handed;
    Kept(v.a, a);
  }

  /** What a read leaves of a relay, in the terms of the tunnel. */
  lemma Grown(x: State, y: State, s: Side, n: nat, data: seq<byte>)
    requires Evolved(Noted(x, s, n), y, s, data)
    ensures At(y, s).fed == At(x, s).fed + data && At(y, Other(s)).fed == At(x, Other(s)).fed
    ensures Handed(x.up.sink) <= Handed(y.up.sink) && Handed(x.down.sink) <= Handed(y.down.sink)
    ensures y.up.cut == x.up.cut && y.up.foreign == x.up.foreign && y.down.sink.NoLeg? == x.down.sink.NoLeg?
    ensures Over(y.up) == Over(x.up) && Over(y.down) == Over(x.down)
    ensures (x.up.eof ==> y.up.eof) && (x.down.eof ==> y.down.eof)
    ensures y.bound == x.bound && y.role == x.role && (y.down.live ==> x.down.live)
  {
    hide LegInv, Handed, Alive, SendClosed, ReadPaused;
    assert At(x, Other(s)).fed + [] == At(x, Other(s)).fed;
  }

  lemma BrokerReadClient(c: Ends, v: View, b: State, data: seq<byte>)
    requires TunnelOk(c, v) && !v.b.up.eof && Stable(b) && Evolved(Noted(v.b, Up, |data|), b, Up, data)
    requires v.kc + |data| <= |c.client| && data == c.client[v.kc..v.kc + |data|]
    ensures TunnelOk(c, v.(b := b, kc := v.kc + |data|))
  {
    hide LegInv, Stable, Handed, Evolved, BrokerOk, AgentOk;
    Grown(v.b, b, Up, |data|, data);
    ClientRead(c, v, b, data);
    if v.started { AgentBeside(c, v, v.(b := b, kc := v.kc + |data|)); }
  }

  lemma ClientRead(c: Ends, v: View, b: State, data: seq<byte>)
    requires BrokerOk(c, v) && !v.b.up.eof && Stable(b) && Evolved(Noted(v.b, Up, |data|), b, Up, data)
    requires v.kc + |data| <= |c.client| && data == c.client[v.kc..v.kc + |data|]
    ensures BrokerOk(c, v.(b := b, kc := v.kc + |data|))
  {
    hide LegInv, Stable, Handed, Evolved;
    Grown(v.b, b, Up, |data|, data);
    ForeignEnded(v.b);
    assert v.stray == [];
    assert Taken(c, v.(kc := v.kc + |data|)) == Taken(c, v) + data by {
      assert c.client[..v.kc + |data|] == c.client[..v.kc] + data;
    }
    Longer(if v.b.bound then c.preUp else [], Taken(c, v), data);
  }

  lemma Longer(a: seq<byte>, b: seq<byte>, data: seq<byte>)
    ensures (a + b) + data == a + (b + data)
  {
  }

  /** The agent's side while the broker takes on octets, before its input ends. */
  lemma AgentBeside(c: Ends, v: View, v': View)
    requires AgentOk(c, v) && v' == v.(b := v'.b, kc := v'.kc, stray := v'.stray) && v'.kc <= |c.client|
    requires v'.b.bound == v.b.bound && (v.b.up.eof ==> v'.b.up.eof) && Handed(v.b.up.sink) <= Handed(v'.b.up.sink)
    requires Close in Handed(v.b.up.sink) ==> !v.b.up.eof || (v'.kc == v.kc && v'.stray == v.stray)
    ensures AgentOk(c, v')
  {
    hide LegInv, Stable, Handed;
  }

  lemma ForeignEnded(b: State)
    requires Stable(b)
    ensures b.up.foreign ==> b.up.eof
  {
    assert SideOk(b, Up);
  }

  /** Octets of the raw leg over a dead peer's leg. */
  lemma BrokerStray(c: Ends, v: View, b: State, n: nat, data: seq<byte>)
    requires TunnelOk(c, v) && v.b.up.foreign && Stable(b) && Evolved(Noted(v.b, Up, n), b, Up, data)
    ensures TunnelOk(c, v.(b := b, stray := v.stray + data))
  {
    hide LegInv, Stable, Handed, Evolved, AgentOk;
    Grown(v.b, b, Up, n, data);
    Longer(c.client[..v.kc], v.stray, data);
    Longer(if v.b.bound then c.preUp else [], Taken(c, v), data);
    if Close in Handed(v.b.up.sink) {
      NothingBehindClose(v.b, b, n, data);
      assert v.stray + [] == v.stray;
    }
    if v.started { AgentBeside(c, v, v.(b := b, stray := v.stray + data)); }
  }

  /** Once a half-close was handed over, nothing more is taken on. */
  lemma NothingBehindClose(x: State, y: State, n: nat, data: seq<byte>)
    requires Stable(x) && Stable(y) && !x.up.cut && Evolved(Noted(x, Up, n), y, Up, data)
    requires Close in Handed(x.up.sink)
    ensures data == []
  {
    hide LegInv, Settled, Handed, Accepted, DirOk, Alive;
    assert SideOk(x, Up) && SideOk(y, Up);
    HandedClose(x.up, x.closing);
    HandedClose(y.up, y.closing);
    assert Handed(x.up.sink) <= Handed(y.up.sink);
    assert Handed(y.up.sink)[|x.up.fed|] == Close;
  }

  lemma HandedClose(d: Dir, closing: bool)
    requires DirOk(d, closing) && Close in Handed(d.sink) && !d.cut
    ensures Handed(d.sink) == Tokens(d.fed) + [Close]
  {
    hide LegInv, Handed, Accepted, Alive;
    LegFacts(d.sink);
    DisciplinedClose(Handed(d.sink), Accepted(d.sink));
  }

  lemma AgentReadService(c: Ends, v: View, a: State, data: seq<byte>)
    requires TunnelOk(c, v) && v.started && !v.a.down.eof && Stable(a) && Evolved(Noted(v.a, Down, |data|), a, Down, data)
    requires v.ks + |data| <= |c.service| && data == c.service[v.ks..v.ks + |data|]
    ensures TunnelOk(c, v.(a := a, ks := v.ks + |data|))
  {
    hide LegInv, Stable, Handed, Evolved;
    Grown(v.a, a, Down, |data|, data);
    assert c.service[..v.ks + |data|] == c.service[..v.ks] + data;
  }

  lemma AgentReadChannel(c: Ends, v: View, a: State, data: seq<byte>)
    requires TunnelOk(c, v) && v.started && !v.a.up.eof && Stable(a) && Evolved(Noted(v.a, Up, |data|), a, Up, data)
    requires Channel(c.preUp, v.gotA + data, v.b.up.sink)
    ensures TunnelOk(c, v.(a := a, gotA := v.gotA + data))
  {
    hide LegInv, Stable, Handed, Evolved;
    Grown(v.a, a, Up, |data|, data);
  }

  lemma BrokerReadChannel(c: Ends, v: View, b: State, data: seq<byte>)
    requires TunnelOk(c, v) && v.started && !v.b.down.eof && Stable(b) && Evolved(Noted(v.b, Down, |data|), b, Down, data)
    requires Channel(c.preDown, v.gotB + data, v.a.down.sink)
    ensures TunnelOk(c, v.(b := b, gotB := v.gotB + data))
  {
    hide LegInv, Stable, Handed, Evolved;
    Grown(v.b, b, Down, |data|, data);
  }

  /** An end of input: of a user who sent everything, of a channel whose close signal
      was read, or an abrupt one. */
  lemma BrokerEnded(c: Ends, v: View, s: Side, b: State, abrupt: bool)
    requires TunnelOk(c, v) && !At(v.b, s).eof && Stable(b) && After(Ending(v.b, s), b)
    requires v.abrupt ==> abrupt
    requires abrupt || (if s.Up? then v.kc == |c.client| else v.started && v.a.down.eof && v.gotB == c.service[..v.ks])
    ensures TunnelOk(c, v.(b := b, abrupt := abrupt))
  {
    hide LegInv, Stable, After, Handed;
    Kept(Ending(v.b, s), b);
  }

  lemma AgentEnded(c: Ends, v: View, s: Side, a: State, abrupt: bool)
    requires TunnelOk(c, v) && v.started && !At(v.a, s).eof && Stable(a) && After(Ending(v.a, s), a)
    requires v.abrupt ==> abrupt
    requires abrupt || (if s.Up? then v.b.up.eof && v.gotA == Taken(c, v) && Close in Handed(v.b.up.sink) else v.ks == |c.service|)
    ensures TunnelOk(c, v.(a := a, abrupt := abrupt))
  {
    hide LegInv, Stable, After, Handed;
    Kept(Ending(v.a, s), a);
  }

  /** The close signal is next on a channel: the writer's source ended, and the reader
      has everything it sent. */
  lemma ClosedUp(c: Ends, v: View)
    requires TunnelOk(c, v) && v.started && Handed(v.b.up.sink) == Tokens(c.preUp + v.gotA) + [Close]
    ensures v.b.up.eof && v.gotA == Taken(c, v) && Close in Handed(v.b.up.sink)
  {
    hide LegInv, DirOk;
    assert SideOk(v.b, Up);
    LegFacts(v.b.up.sink);
    ChannelEnd(c.preUp + v.gotA, Handed(v.b.up.sink), Accepted(v.b.up.sink));
    DirHalfClosed(v.b.up, v.b.closing);
    PrefixTail(c.preUp, v.gotA, Taken(c, v));
  }

  lemma ClosedDown(c: Ends, v: View)
    requires TunnelOk(c, v) && v.started && Handed(v.a.down.sink) == Tokens(c.preDown + v.gotB) + [Close]
    ensures v.a.down.eof && v.gotB == c.service[..v.ks]
  {
    hide LegInv, DirOk;
    assert SideOk(v.a, Down);
    LegFacts(v.a.down.sink);
    ChannelEnd(c.preDown + v.gotB, Handed(v.a.down.sink), Accepted(v.a.down.sink));
    DirHalfClosed(v.a.down, v.a.closing);
    PrefixTail(c.preDown, v.gotB, c.service[..v.ks]);
  }

  lemma DirHalfClosed(d: Dir, closing: bool)
    requires DirOk(d, closing) && SendClosed(d.sink) && !d.cut
    ensures d.eof && d.fed == Accepted(d.sink)
  {
  }

  lemma BrokerBound(c: Ends, v: View, b: State, leg: Leg, client: Leg)
    requires TunnelOk(c, v) && !v.b.bound && Stable(b) && BindEffect(v.b, b, leg, client)
    requires Accepted(leg) == c.preUp && Accepted(client) == []
    ensures TunnelOk(c, v.(b := b))
  {
    hide LegInv, Stable, Handed, Accepted, BindEffect;
    BindFeeds(v.b, b, leg, client);
    ForeignBound(v.b);
    assert !v.started && v.gotB == [] && v.stray == [];
    assert [] + Taken(c, v) == Taken(c, v);
    assert v.b.down.fed + [] == v.b.down.fed && c.preClient + [] == c.preClient;
    assert BrokerOk(c, v.(b := b));
  }

  lemma ForeignBound(b: State)
    requires Stable(b)
    ensures b.up.foreign ==> b.bound
  {
    assert SideOk(b, Up);
  }

  lemma BindFeeds(x: State, y: State, leg: Leg, client: Leg)
    requires BindEffect(x, y, leg, client)
    ensures y.role == x.role && y.bound && (y.up.cut ==> x.role.Agent?)
    ensures y.up.fed == Accepted(leg) + x.up.fed
    ensures y.down.fed == if x.down.live then x.down.fed else Accepted(client)
    ensures Over(y.up) == Over(x.up) && Over(y.down) == Over(x.down)
    ensures y.up.foreign == (!x.down.live && x.down.sink != NoLeg)
  {
    hide LegInv, Handed, Accepted;
  }

  lemma AgentBound(c: Ends, v: View, a: State, leg: Leg)
    requires TunnelOk(c, v) && v.started && v.a.down.live && Stable(a) && BindEffect(v.a, a, leg, leg)
    requires Accepted(leg) == []
    ensures TunnelOk(c, v.(a := a))
  {
    hide LegInv, Stable, Handed;
  }

  lemma BrokerParts(c: Ends, v: View)
    requires TunnelOk(c, v)
    ensures Stable(v.b) && v.kc <= |c.client| && v.ks <= |c.service|
    ensures v.started ==> Stable(v.a) && v.b.bound && (v.a.closing || v.a.down.live)
    ensures v.started ==> Channel(c.preUp, v.gotA, v.b.up.sink) && Channel(c.preDown, v.gotB, v.a.down.sink)
  {
    if v.started {
      hide LegInv, DirOk;
      assert SideOk(v.a, Down);
    }
  }

  lemma AgentStarted(c: Ends, v: View, a: State, got: seq<byte>)
    requires TunnelOk(c, v) && !v.started && v.b.bound && Channel(c.preUp, got, v.b.up.sink)
    requires Stable(a) && a.role == Agent && a.up.fed == got && !a.up.eof && !a.down.eof
    requires a.down.fed == c.preDown && Tokens(c.preDown) <= Handed(a.down.sink)
    ensures TunnelOk(c, v.(a := a, started := true, gotA := got))
  {
    hide LegInv, Stable, Handed;
    assert c.preDown + [] == c.preDown;
  }

  // -------------------------------------------------------------------- events

  /** `EndAgain` is an end of input that was already seen; `Stray` are octets of the raw
      leg that `tm_stream_relay_start` puts over a dead peer's leg. */
  datatype Event =
    | ReadClient(n: nat) | EndClient | Stray(data: seq<byte>)
    | ReadService(n: nat) | EndService
    | ReadAtBroker(n: nat) | EndAtBroker(abrupt: bool)
    | ReadAtAgent(n: nat) | EndAtAgent(abrupt: bool)
    | EndAgain(role: Role, side: Side)
    | Wrote(role: Role, side: Side, ok: bool)
    | Fail(role: Role, side: Side)
    | Abort(role: Role)
    | Attach | Start(n: nat) | Connect

  /** An end of the TCP stream under a TLS leg without its closure alert. */
  predicate CutShort(e: Event) {
    (e.EndAtBroker? || e.EndAtAgent?) && e.abrupt
  }

  /** What the parties come with: the leg of a closed tunnel's peer, the client's socket,
      the broker's leg to the agent, the agent's leg back, and the local socket.
      What the TLS legs accepted before is on their record, and the request that led to
      the relay has left the agent. */
  datatype Sockets = Sockets(peer: Leg, raw: seq<bool>, agent: Leg, broker: Leg, service: seq<bool>)

  ghost predicate Usable(l: Sockets) {
    && FreshLeg(l.peer) && FreshLeg(l.agent) && FreshLeg(l.broker)
    && Tokens(Accepted(l.broker)) <= Handed(l.broker)
  }

  function EndsOf(client: seq<byte>, service: seq<byte>, l: Sockets, early: bool): Ends {
    Ends(client, service, Accepted(l.agent), Accepted(l.broker), Accepted(l.peer), early)
  }

  /** A stream was created at the broker; nothing was read yet. */
  function Opening(l: Sockets, early: bool): View {
    View(Pending(Broker, if early then l.peer else NoLeg, []), Pending(Agent, l.broker, []), false, 0, [], 0, [], [], false)
  }

  /** Input of the source of `s` may arrive. */
  predicate Reads(x: State, s: Side) {
    !x.closing && Alive(At(x, Other(s)).sink) && !At(x, s).eof
  }

  /** The next read of what a user sends, at most `n` octets. */
  function Sent(all: seq<byte>, k: nat, n: nat): (data: seq<byte>)
    ensures |data| <= READ_MAX && k + |data| <= Max(k, |all|)
    ensures k <= |all| ==> data == all[k..k + |data|]
  {
    if k > |all| then [] else all[k..k + Min(Min(n, |all| - k), READ_MAX)]
  }

  function Max(a: nat, b: nat): nat {
    if a < b then b else a
  }

  /** What came in the same read as DATA_BIND_OK, at most `n` octets. */
  function Leftover(pre: seq<byte>, handed: seq<Token>, n: nat): (data: seq<byte>)
    ensures |data| <= HIGH_WATER
  {
    if |pre| > |handed| then []
    else
      var next := Octets(handed[|pre|..]);
      next[..Min(Min(n, |next|), HIGH_WATER)]
  }

  /** What the relay of the broker took on of `data`. */
  function KeptOf(x: State, y: State, data: seq<byte>): seq<byte> {
    if |y.up.fed| > |x.up.fed| then data else []
  }

  // The step relation: which events take effect, and what they do to whom.

  ghost predicate SteppedRead(c: Ends, v: View, e: Event, v': View)
    requires e.ReadClient? || e.ReadService? || e.ReadAtBroker? || e.ReadAtAgent? || e.Stray?
  {
    match e
    case ReadClient(n) =>
      var data := Sent(c.client, v.kc, n);
      if data == [] || !Reads(v.b, Up) then v' == v
      else v' == v.(b := v'.b, kc := v.kc + |data|) && ReadEffect(v.b, v'.b, Up, data)
    case ReadService(n) =>
      var data := Sent(c.service, v.ks, n);
      if data == [] || !v.started || !Reads(v.a, Down) then v' == v
      else v' == v.(a := v'.a, ks := v.ks + |data|) && ReadEffect(v.a, v'.a, Down, data)
    case ReadAtAgent(n) =>
      var data := Ahead(c.preUp, v.gotA, Handed(v.b.up.sink), n);
      if data == [] || !v.started || !Reads(v.a, Up) then v' == v
      else v' == v.(a := v'.a, gotA := v.gotA + data) && ReadEffect(v.a, v'.a, Up, data)
    case ReadAtBroker(n) =>
      var data := Ahead(c.preDown, v.gotB, Handed(v.a.down.sink), n);
      if data == [] || !v.started || !Reads(v.b, Down) then v' == v
      else v' == v.(b := v'.b, gotB := v.gotB + data) && ReadEffect(v.b, v'.b, Down, data)
    case Stray(all) =>
      var data := all[..Min(|all|, READ_MAX)];
      if data == [] || v.b.closing || !v.b.up.foreign || !Alive(v.b.down.sink) then v' == v
      else v' == v.(b := v'.b, stray := v.stray + KeptOf(v.b, v'.b, data)) && ReadEffect(v.b, v'.b, Up, data)
  }

  /** The close signal is the next thing on a channel. */
  predicate ClosesNext(pre: seq<byte>, got: seq<byte>, handed: seq<Token>) {
    handed == Tokens(pre + got) + [Close]
  }

  ghost predicate SteppedEnd(c: Ends, v: View, e: Event, v': View)
    requires e.EndClient? || e.EndService? || e.EndAtBroker? || e.EndAtAgent? || e.EndAgain?
  {
    match e
    case EndClient =>
      if !Reads(v.b, Up) || v.kc != |c.client| then v' == v
      else v' == v.(b := v'.b) && EofEffect(v.b, v'.b, Up)
    case EndService =>
      if !v.started || !Reads(v.a, Down) || v.ks != |c.service| then v' == v
      else v' == v.(a := v'.a) && EofEffect(v.a, v'.a, Down)
    case EndAtBroker(abrupt) =>
      if !Reads(v.b, Down) || (!abrupt && (!v.started || !ClosesNext(c.preDown, v.gotB, Handed(v.a.down.sink)))) then v' == v
      else v' == v.(b := v'.b, abrupt := v.abrupt || abrupt) && EofEffect(v.b, v'.b, Down)
    case EndAtAgent(abrupt) =>
      if !v.started || !Reads(v.a, Up) || (!abrupt && !ClosesNext(c.preUp, v.gotA, Handed(v.b.up.sink))) then v' == v
      else v' == v.(a := v'.a, abrupt := v.abrupt || abrupt) && EofEffect(v.a, v'.a, Up)
    case EndAgain(role, s) =>
      if role.Broker? && At(v.b, s).eof && Alive(At(v.b, Other(s)).sink)
      then v' == v.(b := v'.b) && EofEffect(v.b, v'.b, s)
      else if role.Agent? && v.started && At(v.a, s).eof && Alive(At(v.a, Other(s)).sink)
      then v' == v.(a := v'.a) && EofEffect(v.a, v'.a, s)
      else v' == v
  }

  ghost predicate SteppedLeg(v: View, e: Event, v': View)
    requires e.Wrote? || e.Fail? || e.Abort?
  {
    match e
    case Wrote(role, s, ok) =>
      if role.Broker? && (v.b.bound || s.Down?)
      then v' == v.(b := v'.b) && DoneEffect(v.b, v'.b, s, ok)
      else if role.Agent? && v.started && (v.a.bound || s.Down?)
      then v' == v.(a := v'.a) && DoneEffect(v.a, v'.a, s, ok)
      else v' == v
    case Fail(role, s) =>
      if role.Broker? && Alive(At(v.b, s).sink) then v' == v.(b := v'.b) && FailEffect(v.b, v'.b, s)
      else if role.Agent? && v.started && Alive(At(v.a, s).sink) then v' == v.(a := v'.a) && FailEffect(v.a, v'.a, s)
      else v' == v
    case Abort(role) =>
      if role.Broker? then v' == v.(b := v'.b) && After(v.b, v'.b) && v'.b.closing
      else if v.started then v' == v.(a := v'.a) && After(v.a, v'.a) && v'.a.closing
      else v' == v
  }

  ghost predicate SteppedBind(c: Ends, l: Sockets, v: View, e: Event, v': View)
    requires e.Attach? || e.Start? || e.Connect?
  {
    match e
    case Attach =>
      if v.b.closing || v.b.bound then v' == v
      else v' == v.(b := v'.b) && BindDone(v.b, v'.b, l.agent, NewRaw(l.raw))
    case Start(n) =>
      var data := Leftover(c.preUp, Handed(v.b.up.sink), n);
      if v.started || !v.b.bound || !(Tokens(c.preUp) <= Handed(v.b.up.sink)) then v' == v
      else v' == v.(a := Pending(Agent, l.broker, data), started := true, gotA := data)
    case Connect =>
      if !v.started || v.a.closing || v.a.bound then v' == v
      else v' == v.(a := v'.a) && BindDone(v.a, v'.a, NewRaw(l.service), NewRaw(l.service))
  }

  ghost predicate Stepped(c: Ends, l: Sockets, v: View, e: Event, v': View) {
    if e.ReadClient? || e.ReadService? || e.ReadAtBroker? || e.ReadAtAgent? || e.Stray? then SteppedRead(c, v, e, v')
    else if e.EndClient? || e.EndService? || e.EndAtBroker? || e.EndAtAgent? || e.EndAgain? then SteppedEnd(c, v, e, v')
    else if e.Wrote? || e.Fail? || e.Abort? then SteppedLeg(v, e, v')
    else SteppedBind(c, l, v, e, v')
  }

  // What the effects of relay events say, one fact at a time.

  lemma ReadTakes(x: State, y: State, s: Side, data: seq<byte>)
    requires ReadEffect(x, y, s, data) && !x.closing && !At(x, s).eof
    ensures Evolved(Noted(x, s, |data|), y, s, data)
  {
    hide LegInv, Evolved, Queued, Joined;
  }

  lemma ReadKeeps(x: State, y: State, data: seq<byte>)
    requires ReadEffect(x, y, Up, data) && !x.closing && data != []
    ensures Evolved(Noted(x, Up, |data|), y, Up, KeptOf(x, y, data))
  {
    hide LegInv, Queued, Joined, Closed, Handed, Alive, SendClosed;
  }

  lemma EndsAfter(x: State, y: State, s: Side)
    requires EofEffect(x, y, s) && !x.closing
    ensures After(Ending(x, s), y)
  {
    hide LegInv, After;
  }

  lemma EndsAgain(x: State, y: State, s: Side)
    requires Stable(x) && EofEffect(x, y, s) && At(x, s).eof
    ensures After(x, y)
  {
    hide LegInv, Stable, Sound, After;
    assert x.closing || Ending(x, s) == x;
    AfterRefl(x);
  }

  lemma AfterRefl(x: State)
    ensures After(x, x)
  {
  }

  lemma DonesAfter(x: State, y: State, s: Side, ok: bool)
    requires DoneEffect(x, y, s, ok)
    ensures After(x, y)
  {
    hide LegInv, After, ReadyToClose, Overlooked, Hushed, LowDue, FinDone, DroppedLeg;
  }

  lemma FailsAfter(x: State, y: State, s: Side)
    requires FailEffect(x, y, s)
    ensures After(x, y)
  {
    hide LegInv, After;
  }

  lemma BindsWith(x: State, y: State, leg: Leg, client: Leg)
    requires BindDone(x, y, leg, client) && !x.closing
    ensures BindEffect(x, y, leg, client)
  {
    hide LegInv, BindEffect, CutExactly, Bound, Balanced;
  }

  lemma LeftoverReads(pre: seq<byte>, writer: Leg, n: nat)
    requires Tokens(pre) <= Handed(writer)
    ensures Channel(pre, Leftover(pre, Handed(writer), n), writer)
  {
    hide LegInv, Handed, Octets;
    ReadNext(pre, Handed(writer), |Leftover(pre, Handed(writer), n)|);
  }

  class Tunnel {
    const c: Ends
    const legs: Sockets
    const broker: Relay
    var agent: Relay
    var started: bool
    var kc: nat
    var stray: seq<byte>
    var ks: nat
    var gotA: seq<byte>
    var gotB: seq<byte>
    var abrupt: bool

    function V(): View
      reads this, broker, agent
    {
      View(broker.st, agent.st, started, kc, stray, ks, gotA, gotB, abrupt)
    }

    ghost predicate Valid()
      reads this, broker, agent
    {
      && broker != agent && Usable(legs)
      && c.preUp == Accepted(legs.agent) && c.preDown == Accepted(legs.broker) && c.preClient == Accepted(legs.peer)
      && TunnelOk(c, V())
    }

    constructor (client: seq<byte>, service: seq<byte>, l: Sockets, early: bool)
      requires Usable(l)
      ensures Valid() && fresh(broker) && fresh(agent)
      ensures legs == l && c == EndsOf(client, service, l, early) && V() == Opening(l, early)
    {
      c := EndsOf(client, service, l, early);
      legs := l;
      broker := new Relay(Broker, if early then l.peer else NoLeg, []);
      agent := new Relay(Agent, l.broker, []);
      started, kc, stray, ks, gotA, gotB, abrupt := false, 0, [], 0, [], [], false;
    }

    /** The client's next octets reach the broker. */
    method ReadClient(n: nat)
      requires Valid()
      modifies this, broker, agent
      ensures Valid() && agent == old(agent) && SteppedRead(c, old(V()), Event.ReadClient(n), V())
    {
      hide LegInv, Stable, BrokerOk, AgentOk, Usable, Evolved, Alive, ReadEffect;
      BrokerParts(c, V());
      var data := Sent(c.client, kc, n);
      if data == [] || !Reads(broker.st, Up) { return; }
      ghost var v := V();
      broker.Read(Up, data);
      kc := kc + |data|;
      ReadTakes(v.b, broker.st, Up, data);
      BrokerReadClient(c, v, broker.st, data);
    }

    /** Octets of the raw leg over a dead peer's leg reach the broker. */
    method Stray(all: seq<byte>)
      requires Valid()
      modifies this, broker, agent
      ensures Valid() && agent == old(agent) && SteppedRead(c, old(V()), Event.Stray(all), V())
    {
      hide LegInv, Stable, BrokerOk, AgentOk, Usable, Evolved, Alive, ReadEffect;
      BrokerParts(c, V());
      var data := all[..Min(|all|, READ_MAX)];
      if data == [] || broker.st.closing || !broker.st.up.foreign || !Alive(broker.st.down.sink) { return; }
      ghost var v := V();
      var x := broker.st;
      broker.Read(Up, data);
      stray := stray + KeptOf(x, broker.st, data);
      ReadKeeps(v.b, broker.st, data);
      BrokerStray(c, v, broker.st, |data|, KeptOf(x, broker.st, data));
    }

    /** The service's next octets reach the agent. */
    method ReadService(n: nat)
      requires Valid()
      modifies this, broker, agent
      ensures Valid() && agent == old(agent) && SteppedRead(c, old(V()), Event.ReadService(n), V())
    {
      hide LegInv, Stable, BrokerOk, AgentOk, Usable, Evolved, Alive, ReadEffect;
      BrokerParts(c, V());
      var data := Sent(c.service, ks, n);
      if data == [] || !started || !Reads(agent.st, Down) { return; }
      ghost var v := V();
      agent.Read(Down, data);
      ks := ks + |data|;
      ReadTakes(v.a, agent.st, Down, data);
      AgentReadService(c, v, agent.st, data);
    }

    /** The next octets on the broker's channel reach the agent. */
    method ReadAtAgent(n: nat)
      requires Valid()
      modifies this, broker, agent
      ensures Valid() && agent == old(agent) && SteppedRead(c, old(V()), Event.ReadAtAgent(n), V())
    {
      hide LegInv, Stable, BrokerOk, AgentOk, Usable, Evolved, Alive, Handed, Ahead, Channel, ReadEffect;
      BrokerParts(c, V());
      var data := Ahead(c.preUp, gotA, Handed(broker.st.up.sink), n);
      if data == [] || !started || !Reads(agent.st, Up) { return; }
      AheadReads(c.preUp, gotA, broker.st.up.sink, n);
      ghost var v := V();
      agent.Read(Up, data);
      gotA := gotA + data;
      ReadTakes(v.a, agent.st, Up, data);
      AgentReadChannel(c, v, agent.st, data);
    }

    /** The next octets on the agent's channel reach the broker. */
    method ReadAtBroker(n: nat)
      requires Valid()
      modifies this, broker, agent
      ensures Valid() && agent == old(agent) && SteppedRead(c, old(V()), Event.ReadAtBroker(n), V())
    {
      hide LegInv, Stable, BrokerOk, AgentOk, Usable, Evolved, Alive, Handed, Ahead, Channel, ReadEffect;
      BrokerParts(c, V());
      var data := Ahead(c.preDown, gotB, Handed(agent.st.down.sink), n);
      if data == [] || !started || !Reads(broker.st, Down) { return; }
      AheadReads(c.preDown, gotB, agent.st.down.sink, n);
      ghost var v := V();
      broker.Read(Down, data);
      gotB := gotB + data;
      ReadTakes(v.b, broker.st, Down, data);
      BrokerReadChannel(c, v, broker.st, data);
    }

    /** The client has sent everything. */
    method EndClient()
      requires Valid()
      modifies this, broker, agent
      ensures Valid() && agent == old(agent) && SteppedEnd(c, old(V()), Event.EndClient, V())
    {
      hide LegInv, Stable, BrokerOk, AgentOk, Usable, After, Alive, Handed, EofEffect;
      BrokerParts(c, V());
      if !Reads(broker.st, Up) || kc != |c.client| { return; }
      ghost var v := V();
      broker.OnEof(Up);
      EndsAfter(v.b, broker.st, Up);
      BrokerEnded(c, v, Up, broker.st, abrupt);
    }

    /** The service has sent everything. */
    method EndService()
      requires Valid()
      modifies this, broker, agent
      ensures Valid() && agent == old(agent) && SteppedEnd(c, old(V()), Event.EndService, V())
    {
      hide LegInv, Stable, BrokerOk, AgentOk, Usable, After, Alive, Handed, EofEffect;
      BrokerParts(c, V());
      if !started || !Reads(agent.st, Down) || ks != |c.service| { return; }
      ghost var v := V();
      agent.OnEof(Down);
      EndsAfter(v.a, agent.st, Down);
      AgentEnded(c, v, Down, agent.st, abrupt);
    }

    /** The end of the agent's channel at the broker: its closure alert, or abrupt. */
    method EndAtBroker(cutShort: bool)
      requires Valid()
      modifies this, broker, agent
      ensures Valid() && agent == old(agent) && SteppedEnd(c, old(V()), Event.EndAtBroker(cutShort), V())
    {
      hide LegInv, Stable, BrokerOk, AgentOk, Usable, After, Alive, Handed, EofEffect;
      BrokerParts(c, V());
      if !Reads(broker.st, Down) { return; }
      if !cutShort {
        if !started || !ClosesNext(c.preDown, gotB, Handed(agent.st.down.sink)) { return; }
        ClosedDown(c, V());
      }
      ghost var v := V();
      abrupt := abrupt || cutShort;
      broker.OnEof(Down);
      EndsAfter(v.b, broker.st, Down);
      BrokerEnded(c, v, Down, broker.st, abrupt);
    }

    /** The end of the broker's channel at the agent. */
    method EndAtAgent(cutShort: bool)
      requires Valid()
      modifies this, broker, agent
      ensures Valid() && agent == old(agent) && SteppedEnd(c, old(V()), Event.EndAtAgent(cutShort), V())
    {
      hide LegInv, Stable, BrokerOk, AgentOk, Usable, After, Alive, Handed, EofEffect;
      BrokerParts(c, V());
      if !started || !Reads(agent.st, Up) { return; }
      if !cutShort {
        if !ClosesNext(c.preUp, gotA, Handed(broker.st.up.sink)) { return; }
        ClosedUp(c, V());
      }
      ghost var v := V();
      abrupt := abrupt || cutShort;
      agent.OnEof(Up);
      EndsAfter(v.a, agent.st, Up);
      AgentEnded(c, v, Up, agent.st, abrupt);
    }

    /** A leg reports the end of its input once more. */
    method EndAgain(role: Role, s: Side)
      requires Valid()
      modifies this, broker, agent
      ensures Valid() && agent == old(agent) && SteppedEnd(c, old(V()), Event.EndAgain(role, s), V())
    {
      hide LegInv, Stable, BrokerOk, AgentOk, Usable, After, Alive, Handed, EofEffect;
      BrokerParts(c, V());
      ghost var v := V();
      if role.Broker? && At(broker.st, s).eof && Alive(At(broker.st, Other(s)).sink) {
        broker.OnEof(s);
        EndsAgain(v.b, broker.st, s);
        BrokerStepped(c, v, broker.st);
      } else if role.Agent? && started && At(agent.st, s).eof && Alive(At(agent.st, Other(s)).sink) {
        agent.OnEof(s);
        EndsAgain(v.a, agent.st, s);
        AgentStepped(c, v, agent.st);
      }
    }

    /** A socket write of a relay completes. */
    method Wrote(role: Role, s: Side, ok: bool)
      requires Valid()
      modifies this, broker, agent
      ensures Valid() && agent == old(agent) && SteppedLeg(old(V()), Event.Wrote(role, s, ok), V())
    {
      hide LegInv, Stable, BrokerOk, AgentOk, Usable, After, DoneEffect;
      BrokerParts(c, V());
      ghost var v := V();
      if role.Broker? && (broker.st.bound || s.Down?) {
        broker.OnWriteDone(s, ok);
        DonesAfter(v.b, broker.st, s, ok);
        BrokerStepped(c, v, broker.st);
      } else if role.Agent? && started && (agent.st.bound || s.Down?) {
        agent.OnWriteDone(s, ok);
        DonesAfter(v.a, agent.st, s, ok);
        AgentStepped(c, v, agent.st);
      }
    }

    /** A leg of a relay fails. */
    method Fail(role: Role, s: Side)
      requires Valid()
      modifies this, broker, agent
      ensures Valid() && agent == old(agent) && SteppedLeg(old(V()), Event.Fail(role, s), V())
    {
      hide LegInv, Stable, BrokerOk, AgentOk, Usable, After, Alive, FailEffect;
      BrokerParts(c, V());
      ghost var v := V();
      if role.Broker? && Alive(At(broker.st, s).sink) {
        broker.OnError(s);
        FailsAfter(v.b, broker.st, s);
        BrokerStepped(c, v, broker.st);
      } else if role.Agent? && started && Alive(At(agent.st, s).sink) {
        agent.OnError(s);
        FailsAfter(v.a, agent.st, s);
        AgentStepped(c, v, agent.st);
      }
    }

    /** One of the relays is closed from outside. */
    method Abort(role: Role)
      requires Valid()
      modifies this, broker, agent
      ensures Valid() && agent == old(agent) && SteppedLeg(old(V()), Event.Abort(role), V())
    {
      hide LegInv, Stable, BrokerOk, AgentOk, Usable, After;
      BrokerParts(c, V());
      ghost var v := V();
      if role.Broker? {
        broker.Abort();
        BrokerStepped(c, v, broker.st);
      } else if started {
        agent.Abort();
        AgentStepped(c, v, agent.st);
      }
    }

    /** The agent's data connection is attached to the stream. */
    method Attach()
      requires Valid()
      modifies this, broker, agent
      ensures Valid() && agent == old(agent) && SteppedBind(c, legs, old(V()), Event.Attach, V())
    {
      hide LegInv, Stable, BrokerOk, AgentOk, BindEffect, NewTcp, Accepted, BindDone, NewRaw, Alive, SendClosed, ReadPaused;
      BrokerParts(c, V());
      if broker.st.closing || broker.st.bound { return; }
      ghost var v := V();
      var raw := NewRaw(legs.raw);
      broker.Bind(legs.agent, raw);
      BindsWith(v.b, broker.st, legs.agent, raw);
      BrokerBound(c, v, broker.st, legs.agent, raw);
    }

    /** DATA_BIND_OK reaches the agent; `n` octets came in the same read. */
    method Start(n: nat)
      requires Valid()
      modifies this, broker, agent
      ensures Valid() && (agent == old(agent) || fresh(agent))
      ensures SteppedBind(c, legs, old(V()), Event.Start(n), V())
    {
      hide LegInv, Stable, BrokerOk, AgentOk, TunnelOk, Octets, Leftover, Handed, Accepted, NewTcp;
      if started || !broker.st.bound || !(Tokens(c.preUp) <= Handed(broker.st.up.sink)) { return; }
      var data := Leftover(c.preUp, Handed(broker.st.up.sink), n);
      LeftoverReads(c.preUp, broker.st.up.sink, n);
      ghost var v := V();
      agent := new Relay(Agent, legs.broker, data);
      started, gotA := true, data;
      AgentStarted(c, v, agent.st, data);
    }

    /** The agent's connection to the service is up. */
    method Connect()
      requires Valid()
      modifies this, broker, agent
      ensures Valid() && agent == old(agent) && SteppedBind(c, legs, old(V()), Event.Connect, V())
    {
      hide LegInv, Stable, BrokerOk, AgentOk, BindEffect, NewTcp, Accepted, BindDone, NewRaw, Alive, SendClosed, ReadPaused;
      BrokerParts(c, V());
      if !started || agent.st.closing || agent.st.bound { return; }
      ghost var v := V();
      var local := NewRaw(legs.service);
      agent.Bind(local, local);
      BindsWith(v.a, agent.st, local, local);
      AgentBound(c, v, agent.st, local);
    }

    method Handle(e: Event)
      requires Valid()
      modifies this, broker, agent
      ensures Valid() && (agent == old(agent) || fresh(agent)) && Stepped(c, legs, old(V()), e, V())
    {
      hide LegInv, TunnelOk, Usable, SteppedRead, SteppedEnd, SteppedLeg, SteppedBind;
      match e
      case ReadClient(n) => ReadClient(n);
      case Stray(data) => Stray(data);
      case ReadService(n) => ReadService(n);
      case ReadAtBroker(n) => ReadAtBroker(n);
      case ReadAtAgent(n) => ReadAtAgent(n);
      case EndClient => EndClient();
      case EndService => EndService();
      case EndAtBroker(cutShort) => EndAtBroker(cutShort);
      case EndAtAgent(cutShort) => EndAtAgent(cutShort);
      case EndAgain(role, side) => EndAgain(role, side);
      case Wrote(role, side, ok) => Wrote(role, side, ok);
      case Fail(role, side) => Fail(role, side);
      case Abort(role) => Abort(role);
      case Attach => Attach();
      case Start(n) => Start(n);
      case Connect => Connect();
    }
  }

  // ---------------------------------------------------------------------- runs

  /** A run: every state follows from the one before by its event. */
  ghost predicate Trace(c: Ends, l: Sockets, events: seq<Event>, vs: seq<View>) {
    && |vs| == |events| + 1
    && vs[0] == Opening(l, c.early)
    && (forall i :: 0 <= i < |events| ==> Stepped(c, l, vs[i], events[i], vs[i + 1]))
  }

  /** What is promised in every state: what the service has been given is a prefix of
      what the client sent, and the other way around; if both relays closed on their
      own, with no leg failure, no abrupt end and no early cut, everything arrived. The
      octets of a raw leg over a dead peer's leg are accounted for, and no run with such
      a leg counts as complete. */
  ghost predicate Promised(c: Ends, v: View) {
    && v.kc <= |c.client|
    && AtService(v) <= Taken(c, v) && AtClient(c, v) <= c.service
    && (v.started && v.b.clean && v.a.clean && !v.a.up.cut && !v.abrupt ==>
          AtService(v) == c.client && AtClient(c, v) == c.service && !v.b.up.foreign)
  }

  lemma Promises(c: Ends, v: View)
    requires TunnelOk(c, v)
    ensures Promised(c, v)
  {
    hide LegInv, AtService, AtClient, BrokerOk, AgentOk;
    BrokerParts(c, v);
    UpPrefix(c, v);
    DownPrefix(c, v);
    if v.started && v.b.clean && v.a.clean && !v.a.up.cut && !v.abrupt { Complete(c, v); }
  }

  /** End to end, for every run. */
  method Run(client: seq<byte>, service: seq<byte>, l: Sockets, early: bool, events: seq<Event>)
    returns (c: Ends, vs: seq<View>)
    requires Usable(l)
    ensures c == EndsOf(client, service, l, early) && Trace(c, l, events, vs)
    ensures forall i :: 0 <= i < |vs| ==> TunnelOk(c, vs[i]) && Promised(c, vs[i])
  {
    hide LegInv, TunnelOk, Usable, Promised, Stepped;
    var t := new Tunnel(client, service, l, early);
    c, vs := t.c, [t.V()];
    Promises(c, t.V());
    for i := 0 to |events|
      invariant t.Valid() && fresh(t) && fresh(t.broker) && fresh(t.agent)
      invariant t.c == c && t.legs == l
      invariant |vs| == i + 1 && vs[0] == Opening(l, early) && vs[i] == t.V()
      invariant forall j :: 0 <= j < i ==> Stepped(c, l, vs[j], events[j], vs[j + 1])
      invariant forall j :: 0 <= j <= i ==> TunnelOk(c, vs[j]) && Promised(c, vs[j])
    {
      t.Handle(events[i]);
      Promises(c, t.V());
      vs := vs + [t.V()];
    }
  }
}
