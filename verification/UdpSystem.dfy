/** A peer, the broker's tunnel and the agent together, over a network that loses,
    repeats and reorders: any message ever sent may arrive at any time, any number of
    times. Other clients, peers and sessions of the tunnel do as they please. */
module UdpSystem {
  import opened Bytes
  import opened Frames
  import opened UdpFlows

  /** Messages of `later` that answer to `p` come from messages of `earlier`. */
  ghost predicate Asked(earlier: seq<Passed<Addr>>, later: seq<Passed<Source>>, session: nat) {
    forall i :: 0 <= i < |later| && later[i].Forwarded? && later[i].from.Peer? && later[i].from.session == session ==>
      SentAs(earlier, later[i].from.flow, later[i].payload)
  }

  /** A datagram went out under this tag. */
  ghost predicate SentAs<S(!new)>(log: seq<Passed<S>>, tag: nat, payload: seq<byte>) {
    exists s :: Forwarded(s, tag, payload) in log
  }

  /** An answer went to this source. */
  ghost predicate AnsweredTo<S(!new)>(log: seq<Passed<S>>, to: S, payload: seq<byte>) {
    exists tag :: Replied(tag, to, payload) in log
  }

  ghost predicate Passed2(broker: seq<Passed<Source>>, agent: seq<Passed<nat>>) {
    forall i :: 0 <= i < |agent| && agent[i].Forwarded? ==> SentAs(broker, agent[i].from, agent[i].payload)
  }

  ghost predicate Answered1(agent: seq<Passed<nat>>, broker: seq<Passed<Source>>) {
    forall i :: 0 <= i < |broker| && broker[i].Replied? ==> AnsweredTo(agent, broker[i].tag, broker[i].payload)
  }

  ghost predicate Answered2(broker: seq<Passed<Source>>, peer: seq<Passed<Addr>>, session: nat) {
    forall i :: 0 <= i < |peer| && peer[i].Replied? ==>
      AnsweredTo(broker, Peer(session, peer[i].tag), peer[i].payload)
  }

  /** Where every message of the three logs came from. */
  ghost predicate Provenance(peer: seq<Passed<Addr>>, broker: seq<Passed<Source>>, agent: seq<Passed<nat>>, session: nat) {
    && Asked(peer, broker, session) && Passed2(broker, agent)
    && Answered1(agent, broker) && Answered2(broker, peer, session)
  }

  /** More history keeps what was sent sent. */
  lemma SentStays<S(!new)>(log: seq<Passed<S>>, more: seq<Passed<S>>, tag: nat, payload: seq<byte>)
    requires log <= more && SentAs(log, tag, payload)
    ensures SentAs(more, tag, payload)
  {
    var s :| Forwarded(s, tag, payload) in log;
    assert Forwarded(s, tag, payload) in more;
  }

  lemma AnsweredStays<S(!new)>(log: seq<Passed<S>>, more: seq<Passed<S>>, to: S, payload: seq<byte>)
    requires log <= more && AnsweredTo(log, to, payload)
    ensures AnsweredTo(more, to, payload)
  {
    var t :| Replied(t, to, payload) in log;
    assert Replied(t, to, payload) in more;
  }

  /** What an application can know about an answer it gets: the service sent it on a
      socket that only ever carried this application's datagrams. */
  lemma OnlyOwnAnswers(peer: seq<Passed<Addr>>, pi: seq<Addr>, broker: seq<Passed<Source>>, bi: seq<Source>,
                       agent: seq<Passed<nat>>, ai: seq<nat>, session: nat, j: nat) returns (sock: nat, flow: nat)
    requires Provenance(peer, broker, agent, session)
    requires LogOk(peer, pi) && LogOk(broker, bi) && LogOk(agent, ai)
    requires j < |peer| && peer[j].Replied?
    ensures Replied(sock, flow, peer[j].payload) in agent
    ensures forall i :: 0 <= i < |agent| && agent[i].Forwarded? && agent[i].tag == sock ==>
      exists tag :: Forwarded(peer[j].to, tag, agent[i].payload) in peer
  {
    var p, payload := peer[j].tag, peer[j].payload;
    assert AnsweredTo(broker, Peer(session, p), payload);
    flow :| Replied(flow, Peer(session, p), payload) in broker;
    var b :| 0 <= b < |broker| && broker[b] == Replied(flow, Peer(session, p), payload);
    assert AnsweredTo(agent, broker[b].tag, broker[b].payload);
    sock :| Replied(sock, flow, payload) in agent;
    var a :| 0 <= a < |agent| && agent[a] == Replied(sock, flow, payload);
    forall i | 0 <= i < |agent| && agent[i].Forwarded? && agent[i].tag == sock
      ensures exists tag :: Forwarded(peer[j].to, tag, agent[i].payload) in peer
    {
      OwnRequest(peer, pi, broker, bi, agent, ai, session, j, b, a, i);
    }
  }

  /** A datagram on the socket of an answer came from the application it goes to. */
  lemma OwnRequest(peer: seq<Passed<Addr>>, pi: seq<Addr>, broker: seq<Passed<Source>>, bi: seq<Source>,
                   agent: seq<Passed<nat>>, ai: seq<nat>, session: nat, j: nat, b: nat, a: nat, i: nat)
    requires Provenance(peer, broker, agent, session)
    requires LogOk(peer, pi) && LogOk(broker, bi) && LogOk(agent, ai)
    requires j < |peer| && peer[j].Replied? && b < |broker| && a < |agent| && i < |agent|
    requires agent[a].Replied? && broker[b] == Replied(agent[a].to, Peer(session, peer[j].tag), peer[j].payload)
    requires agent[i].Forwarded? && agent[i].tag == agent[a].tag
    ensures exists tag :: Forwarded(peer[j].to, tag, agent[i].payload) in peer
  {
    assert agent[i].from == agent[a].to == broker[b].tag;
    assert SentAs(broker, agent[i].from, agent[i].payload);
    var src :| Forwarded(src, agent[i].from, agent[i].payload) in broker;
    var c :| 0 <= c < |broker| && broker[c] == Forwarded(src, agent[i].from, agent[i].payload);
    assert src == broker[b].to;
    assert SentAs(peer, peer[j].tag, agent[i].payload);
    var addr :| Forwarded(addr, peer[j].tag, agent[i].payload) in peer;
    var q :| 0 <= q < |peer| && peer[q] == Forwarded(addr, peer[j].tag, agent[i].payload);
    assert addr == peer[j].to;
  }

  // ----------------------------------------------------------- growing logs

  /** The peer's log grew by a request, or by an answer the broker sent to it. */
  lemma PeerGrew(peer: seq<Passed<Addr>>, peer': seq<Passed<Addr>>, broker: seq<Passed<Source>>,
                 agent: seq<Passed<nat>>, session: nat)
    requires Provenance(peer, broker, agent, session) && peer <= peer' && |peer'| <= |peer| + 1
    requires |peer'| > |peer| && peer'[|peer|].Replied? ==>
      AnsweredTo(broker, Peer(session, peer'[|peer|].tag), peer'[|peer|].payload)
    ensures Provenance(peer', broker, agent, session)
  {
    forall i | 0 <= i < |broker| && broker[i].Forwarded? && broker[i].from.Peer? && broker[i].from.session == session
      ensures SentAs(peer', broker[i].from.flow, broker[i].payload)
    {
      SentStays(peer, peer', broker[i].from.flow, broker[i].payload);
    }
  }

  lemma BrokerGrew(peer: seq<Passed<Addr>>, broker: seq<Passed<Source>>, broker': seq<Passed<Source>>,
                   agent: seq<Passed<nat>>, session: nat)
    requires Provenance(peer, broker, agent, session) && broker <= broker' && |broker'| <= |broker| + 1
    requires |broker'| > |broker| ==>
      var m := broker'[|broker|];
      if m.Replied? then AnsweredTo(agent, m.tag, m.payload)
      else m.from.Peer? && m.from.session == session ==> SentAs(peer, m.from.flow, m.payload)
    ensures Provenance(peer, broker', agent, session)
  {
    forall i | 0 <= i < |agent| && agent[i].Forwarded? ensures SentAs(broker', agent[i].from, agent[i].payload) {
      SentStays(broker, broker', agent[i].from, agent[i].payload);
    }
    forall i | 0 <= i < |peer| && peer[i].Replied?
      ensures AnsweredTo(broker', Peer(session, peer[i].tag), peer[i].payload)
    {
      AnsweredStays(broker, broker', Peer(session, peer[i].tag), peer[i].payload);
    }
  }

  lemma AgentGrew(peer: seq<Passed<Addr>>, broker: seq<Passed<Source>>, agent: seq<Passed<nat>>,
                  agent': seq<Passed<nat>>, session: nat)
    requires Provenance(peer, broker, agent, session) && agent <= agent' && |agent'| <= |agent| + 1
    requires |agent'| > |agent| && agent'[|agent|].Forwarded? ==>
      SentAs(broker, agent'[|agent|].from, agent'[|agent|].payload)
    ensures Provenance(peer, broker, agent', session)
  {
    forall i | 0 <= i < |broker| && broker[i].Replied? ensures AnsweredTo(agent', broker[i].tag, broker[i].payload) {
      AnsweredStays(agent, agent', broker[i].tag, broker[i].payload);
    }
  }

  // ------------------------------------------------------------------- runs

  datatype Event =
    | App(addr: Addr, payload: seq<byte>)                // a local application sends
    | ToBroker(i: nat, newOk: bool)                      // a message of the peer arrives
    | ToAgent(i: nat, connects: bool)                    // a datagram of the broker arrives
    | Answer(sock: nat, payload: seq<byte>, rateOk: bool) // the service answers on a socket
    | BackToBroker(i: nat)                               // an answer of the agent arrives
    | BackToPeer(i: nat)                                 // an answer of the broker arrives
    | Stranger(src: Source, payload: seq<byte>, newOk: bool) // any other source of the tunnel
    | NewSession(addr: Addr, newOk: bool)
    | Authenticate(key: nat, isAgent: bool)
    | CloseSession(key: nat)
    | ExpireFlow(id: nat)
    | SweepPeer(idle: set<nat>)
    | SweepAgent(idle: set<nat>)

  /** The limits of the three tables, and the peer's session at the broker. */
  datatype Setup = Setup(limit: nat, size: nat, session: nat)

  /** The three tables between two events. */
  datatype Tables = Tables(
    apps: map<nat, Addr>, peerLog: seq<Passed<Addr>>,
    flows: map<nat, Source>, sessions: map<nat, Session>, agent: Option<nat>, brokerLog: seq<Passed<Source>>,
    socks: map<nat, nat>, agentLog: seq<Passed<nat>>)

  const EMPTY := Tables(map[], [], map[], map[], None, [], map[], [])

  /** The session belongs to a peer that proved its token. */
  predicate PeerOf(sessions: map<nat, Session>, k: nat) {
    k in sessions && sessions[k].authed && !sessions[k].isAgent
  }

  /** A datagram of `src` reaches the broker. */
  ghost predicate Reached(k: Setup, x: Tables, y: Tables, src: Source, payload: seq<byte>, newOk: bool) {
    var may := newOk && |x.flows| < k.limit;
    && y == x.(flows := y.flows, brokerLog := y.brokerLog)
    && Opened(x.flows, y.flows, src, may)
    && WentOut(y.flows, x.brokerLog, y.brokerLog, src, payload,
               (Known(x.flows, src) || may) && x.agent.Some? && |payload| <= k.size)
  }

  /** What a datagram does on its way to the service. */
  ghost predicate SteppedOut(k: Setup, x: Tables, e: Event, y: Tables)
    requires e.App? || e.ToBroker? || e.ToAgent? || e.Stranger?
  {
    match e
    case App(addr, payload) =>
      var may := |payload| <= k.size && |x.apps| < k.limit;
      && y == x.(apps := y.apps, peerLog := y.peerLog)
      && Opened(x.apps, y.apps, addr, may)
      && WentOut(y.apps, x.peerLog, y.peerLog, addr, payload, |payload| <= k.size && (Known(x.apps, addr) || |x.apps| < k.limit))
    case ToBroker(i, newOk) =>
      if i >= |x.peerLog| || !x.peerLog[i].Forwarded? || !PeerOf(x.sessions, k.session) then y == x
      else Reached(k, x, y, Peer(k.session, x.peerLog[i].tag), x.peerLog[i].payload, newOk)
    case ToAgent(i, connects) =>
      if i >= |x.brokerLog| || !x.brokerLog[i].Forwarded? then y == x
      else
        var m := x.brokerLog[i];
        var may := |x.socks| < k.limit && connects;
        && y == x.(socks := y.socks, agentLog := y.agentLog)
        && Opened(x.socks, y.socks, m.tag, m.tag != 0 && |m.payload| <= k.size && may)
        && WentOut(y.socks, x.agentLog, y.agentLog, m.tag, m.payload,
                   m.tag != 0 && |m.payload| <= k.size && (Known(x.socks, m.tag) || may))
    case Stranger(src, payload, newOk) =>
      if src.Peer? && (src.session == k.session || !PeerOf(x.sessions, src.session)) then y == x
      else Reached(k, x, y, src, payload, newOk)
  }

  /** What an answer does on its way back. */
  ghost predicate SteppedBack(k: Setup, x: Tables, e: Event, y: Tables)
    requires e.Answer? || e.BackToBroker? || e.BackToPeer?
  {
    match e
    case Answer(sock, payload, rateOk) =>
      && y == x.(agentLog := y.agentLog)
      && CameBack(x.socks, x.agentLog, y.agentLog, sock, payload, rateOk && |payload| <= k.size)
    case BackToBroker(i) =>
      if i >= |x.agentLog| || !x.agentLog[i].Replied? then y == x
      else
        var m := x.agentLog[i];
        && y == x.(brokerLog := y.brokerLog)
        && CameBack(x.flows, x.brokerLog, y.brokerLog, m.to, m.payload, m.to != 0 && |m.payload| <= k.size)
    case BackToPeer(i) =>
      if i >= |x.brokerLog| || !x.brokerLog[i].Replied? || !x.brokerLog[i].to.Peer? || x.brokerLog[i].to.session != k.session
      then y == x
      else
        var m := x.brokerLog[i];
        && y == x.(peerLog := y.peerLog)
        && CameBack(x.apps, x.peerLog, y.peerLog, m.to.flow, m.payload, |m.payload| <= k.size)
  }

  /** Sessions and flows come and go; no message moves. */
  ghost predicate SteppedAside(x: Tables, e: Event, y: Tables)
    requires e.NewSession? || e.Authenticate? || e.CloseSession? || e.ExpireFlow? || e.SweepPeer? || e.SweepAgent?
  {
    match e
    case NewSession(addr, newOk) =>
      if !newOk || (exists s :: s in x.sessions && x.sessions[s].addr == addr) then y == x
      else y == x.(sessions := y.sessions) &&
           exists s :: s !in x.sessions && s in y.sessions && y.sessions == x.sessions[s := Session(addr, false, false)]
    case Authenticate(key, isAgent) =>
      if key !in x.sessions || x.sessions[key].authed then y == x
      else
        var gone := if isAgent && x.agent.Some? then {x.agent.value} else {};
        y == x.(sessions := (x.sessions - gone)[key := x.sessions[key].(authed := true, isAgent := isAgent)],
                flows := if gone == {} then x.flows else Without(x.flows, x.agent.value),
                agent := if isAgent then Some(key) else x.agent)
    case CloseSession(key) =>
      y == x.(sessions := x.sessions - {key}, flows := if key in x.sessions then Without(x.flows, key) else x.flows,
              agent := if x.agent == Some(key) then None else x.agent)
    case ExpireFlow(id) => y == x.(flows := x.flows - {id})
    case SweepPeer(idle) => y == x.(apps := x.apps - idle)
    case SweepAgent(idle) => y == x.(socks := x.socks - idle)
  }

  ghost predicate Stepped(k: Setup, x: Tables, e: Event, y: Tables) {
    if e.App? || e.ToBroker? || e.ToAgent? || e.Stranger? then SteppedOut(k, x, e, y)
    else if e.Answer? || e.BackToBroker? || e.BackToPeer? then SteppedBack(k, x, e, y)
    else SteppedAside(x, e, y)
  }

  class System {
    const k: Setup
    const peer: PeerTable
    const broker: Tunnel
    const agent: AgentTable

    function T(): Tables
      reads this, peer, broker, agent
    {
      Tables(peer.flows, peer.log, broker.flows, broker.sessions, broker.agent, broker.log, agent.flows, agent.log)
    }

    ghost predicate Valid()
      reads this, peer, broker, agent
    {
      && peer.Valid() && broker.Valid() && agent.Valid() && Provenance(peer.log, broker.log, agent.log, k.session)
      && peer.maxFlows == broker.maxFlows == agent.maxFlows == k.limit
      && peer.maxSize == broker.maxSize == agent.maxSize == k.size
    }

    constructor (k: Setup)
      requires k.limit <= LIMIT_MAX
      ensures Valid() && fresh(peer) && fresh(broker) && fresh(agent)
      ensures this.k == k && T() == EMPTY && peer.issued == [] && broker.issued == []
    {
      this.k := k;
      peer := new PeerTable(k.limit, k.size);
      broker := new Tunnel(true, k.limit, k.size);
      agent := new AgentTable(k.limit, k.size);
    }

    method FromApp(addr: Addr, payload: seq<byte>)
      requires Valid()
      modifies peer
      ensures Valid() && |peer.issued| <= old(|peer.issued|) + 1 && SteppedOut(k, old(T()), App(addr, payload), T())
    {
      hide Provenance, LogOk, FlowsOk, PeersLive, AgentsOk, SessionsOk, Draw, NonZero, Opened, Known;
      ghost var p := peer.log;
      peer.FromLocal(addr, payload);
      PeerGrew(p, peer.log, broker.log, agent.log, k.session);
    }

    method FromService(sock: nat, payload: seq<byte>, rateOk: bool)
      requires Valid()
      modifies agent
      ensures Valid() && SteppedBack(k, old(T()), Answer(sock, payload, rateOk), T())
    {
      hide Provenance, LogOk, FlowsOk, PeersLive, AgentsOk, SessionsOk, Draw, NonZero;
      ghost var a := agent.log;
      agent.FromService(sock, payload, rateOk);
      AgentGrew(peer.log, broker.log, a, agent.log, k.session);
    }

    method Housekeep(e: Event)
      requires Valid()
      requires e.NewSession? || e.Authenticate? || e.CloseSession? || e.ExpireFlow? || e.SweepPeer? || e.SweepAgent?
      modifies peer, broker, agent
      ensures Valid() && broker.issued == old(broker.issued) && peer.issued == old(peer.issued)
      ensures SteppedAside(old(T()), e, T())
    {
      hide Provenance, LogOk, FlowsOk, PeersLive, AgentsOk, SessionsOk, Draw, NonZero, Without;
      match e
      case NewSession(addr, newOk) =>
        var s := broker.SessionFor(addr, newOk);
      case Authenticate(key, isAgent) =>
        if key in broker.sessions && !broker.sessions[key].authed { broker.Authenticate(key, isAgent); }
      case CloseSession(key) => broker.SessionClose(key);
      case ExpireFlow(id) => broker.Expire(id);
      case SweepPeer(idle) => peer.Sweep(idle);
      case SweepAgent(idle) => agent.Sweep(idle);
    }

    method FromStranger(src: Source, payload: seq<byte>, newOk: bool)
      requires Valid()
      modifies broker
      ensures Valid() && |broker.issued| <= old(|broker.issued|) + 1
      ensures SteppedOut(k, old(T()), Stranger(src, payload, newOk), T())
    {
      hide Provenance, LogOk, FlowsOk, PeersLive, AgentsOk, SessionsOk, Draw, NonZero, Opened, Known;
      if src.Peer? && (src.session == k.session || !PeerOf(broker.sessions, src.session)) { return; }
      ghost var b := broker.log;
      broker.FromSource(src, payload, newOk);
      BrokerGrew(peer.log, b, broker.log, agent.log, k.session);
    }

    method DeliverToBroker(i: nat, newOk: bool)
      requires Valid()
      modifies broker
      ensures Valid() && |broker.issued| <= old(|broker.issued|) + 1
      ensures SteppedOut(k, old(T()), ToBroker(i, newOk), T())
    {
      hide Provenance, LogOk, FlowsOk, PeersLive, AgentsOk, SessionsOk, Draw, NonZero, Opened, Known;
      if i >= |peer.log| || !peer.log[i].Forwarded? || !PeerOf(broker.sessions, k.session) { return; }
      ghost var b, m := broker.log, peer.log[i];
      assert Forwarded(m.from, m.tag, m.payload) in peer.log;
      broker.FromSource(Peer(k.session, peer.log[i].tag), peer.log[i].payload, newOk);
      BrokerGrew(peer.log, b, broker.log, agent.log, k.session);
    }

    method DeliverToAgent(i: nat, connects: bool)
      requires Valid()
      modifies agent
      ensures Valid() && SteppedOut(k, old(T()), ToAgent(i, connects), T())
    {
      hide Provenance, LogOk, FlowsOk, PeersLive, AgentsOk, SessionsOk, Draw, NonZero, Opened, Known;
      if i >= |broker.log| || !broker.log[i].Forwarded? { return; }
      ghost var a, m := agent.log, broker.log[i];
      assert Forwarded(m.from, m.tag, m.payload) in broker.log;
      agent.FromBroker(Env(broker.log[i].tag, 0, broker.log[i].payload), connects);
      AgentGrew(peer.log, broker.log, a, agent.log, k.session);
    }

    method ReturnToBroker(i: nat)
      requires Valid()
      modifies broker
      ensures Valid() && broker.issued == old(broker.issued) && SteppedBack(k, old(T()), BackToBroker(i), T())
    {
      hide Provenance, LogOk, FlowsOk, PeersLive, AgentsOk, SessionsOk, Draw, NonZero;
      if i >= |agent.log| || !agent.log[i].Replied? { return; }
      ghost var b, m := broker.log, agent.log[i];
      assert Replied(m.tag, m.to, m.payload) in agent.log;
      broker.AgentEnv(Env(agent.log[i].to, 0, agent.log[i].payload));
      BrokerGrew(peer.log, b, broker.log, agent.log, k.session);
    }

    method ReturnToPeer(i: nat)
      requires Valid()
      modifies peer
      ensures Valid() && peer.issued == old(peer.issued) && SteppedBack(k, old(T()), BackToPeer(i), T())
    {
      hide Provenance, LogOk, FlowsOk, PeersLive, AgentsOk, SessionsOk, Draw, NonZero;
      if i >= |broker.log| || !broker.log[i].Replied? || !broker.log[i].to.Peer? || broker.log[i].to.session != k.session {
        return;
      }
      ghost var p, m := peer.log, broker.log[i];
      assert Replied(m.tag, m.to, m.payload) in broker.log;
      peer.FromBroker(Env(broker.log[i].to.flow, 0, broker.log[i].payload));
      PeerGrew(p, peer.log, broker.log, agent.log, k.session);
    }

    method Handle(e: Event)
      requires Valid()
      modifies peer, broker, agent
      ensures Valid() && |peer.issued| <= old(|peer.issued|) + 1 && |broker.issued| <= old(|broker.issued|) + 1
      ensures Stepped(k, old(T()), e, T())
    {
      hide Provenance, LogOk, FlowsOk, PeersLive, AgentsOk, SessionsOk, Draw, NonZero, SteppedOut, SteppedBack, SteppedAside;
      match e
      case App(addr, payload) => FromApp(addr, payload);
      case ToBroker(i, newOk) => DeliverToBroker(i, newOk);
      case ToAgent(i, connects) => DeliverToAgent(i, connects);
      case Answer(sock, payload, rateOk) => FromService(sock, payload, rateOk);
      case BackToBroker(i) => ReturnToBroker(i);
      case BackToPeer(i) => ReturnToPeer(i);
      case Stranger(src, payload, newOk) => FromStranger(src, payload, newOk);
      case _ => Housekeep(e);
    }
  }

  /** A run: every state follows from the one before by its event. */
  ghost predicate Trace(k: Setup, events: seq<Event>, xs: seq<Tables>) {
    && |xs| == |events| + 1 && xs[0] == EMPTY
    && (forall i :: 0 <= i < |events| ==> Stepped(k, xs[i], events[i], xs[i + 1]))
  }

  /** Each answer an application got was sent by the service on a socket that only ever
      carried datagrams of that application. */
  ghost predicate OwnAnswers(x: Tables) {
    forall j :: 0 <= j < |x.peerLog| && x.peerLog[j].Replied? ==> OwnAnswer(x.peerLog, x.agentLog, x.peerLog[j])
  }

  /** What is promised in every state: no table sends an answer anywhere but where the
      datagrams under its tag came from, and every application gets only answers to its
      own datagrams. */
  ghost predicate Promised(x: Tables) {
    Routed(x.peerLog) && Routed(x.brokerLog) && Routed(x.agentLog) && OwnAnswers(x)
  }

  /** Every state of every run, up to 2^64 - 1 events. */
  method Run(k: Setup, events: seq<Event>) returns (xs: seq<Tables>)
    requires k.limit <= LIMIT_MAX
    ensures Trace(k, events, xs)
    ensures forall i :: 0 <= i < |xs| && i <= IDS ==> Promised(xs[i])
  {
    hide Provenance, LogOk, FlowsOk, PeersLive, AgentsOk, SessionsOk, Draw, NonZero, Stepped, Promised;
    var s := new System(k);
    xs := [s.T()];
    Promises(s);
    for i := 0 to |events|
      invariant s.Valid() && s.k == k && fresh(s) && fresh(s.peer) && fresh(s.broker) && fresh(s.agent)
      invariant |s.peer.issued| <= i && |s.broker.issued| <= i
      invariant |xs| == i + 1 && xs[0] == EMPTY && xs[i] == s.T()
      invariant forall j :: 0 <= j < i ==> Stepped(k, xs[j], events[j], xs[j + 1])
      invariant forall j :: 0 <= j <= i && j <= IDS ==> Promised(xs[j])
    {
      s.Handle(events[i]);
      if i + 1 <= IDS { Promises(s); }
      xs := xs + [s.T()];
    }
  }

  lemma Promises(s: System)
    requires s.Valid() && |s.peer.issued| <= IDS && |s.broker.issued| <= IDS
    ensures Promised(s.T())
  {
    hide Provenance, LogOk, Routed, FlowsOk, PeersLive, AgentsOk, SessionsOk, Draw, NonZero;
    var peer, agent := s.peer.log, s.agent.log;
    ReplyReachesSender(peer, s.peer.issued);
    ReplyReachesSender(s.broker.log, s.broker.issued);
    ReplyReachesSender(agent, s.agent.issued);
    forall j | 0 <= j < |peer| && peer[j].Replied? ensures OwnAnswer(peer, agent, peer[j]) {
      var sock, flow := OnlyOwnAnswers(peer, s.peer.issued, s.broker.log, s.broker.issued, agent, s.agent.issued,
                                       s.k.session, j);
    }
  }

  /** The service sent the answer on a socket used by its receiver alone. */
  ghost predicate OwnAnswer(peer: seq<Passed<Addr>>, agent: seq<Passed<nat>>, m: Passed<Addr>)
    requires m.Replied?
  {
    exists sock, flow :: Replied(sock, flow, m.payload) in agent &&
      forall i :: 0 <= i < |agent| && agent[i].Forwarded? && agent[i].tag == sock ==>
        exists tag :: Forwarded(m.to, tag, agent[i].payload) in peer
  }
}
