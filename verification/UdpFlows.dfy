/** Flow routing of a UDP tunnel: the broker names every client address and every
    peer flow with an id of its own, the agent keeps one local socket per id, and a
    reply carries the id back. Linked lists keyed by a unique field are maps here;
    each insertion is proved to use a new key. */
module UdpFlows {
  import opened Bytes
  import opened Frames

  /** Distinct non-zero 64-bit flow ids. */
  const IDS: nat := 0xFFFF_FFFF_FFFF_FFFF
  const WORD: nat := 0x1_0000_0000_0000_0000
  /** The configured limits are a signed 64-bit `long long`. */
  const LIMIT_MAX: nat := 0x7FFF_FFFF_FFFF_FFFF
  const MAX_SECRET: nat := 256
  const AUTH_REQ: nat := 2

  type Addr = nat

  /** Whom a flow was created for: an address of an open tunnel, or a flow of a
      peer's session. */
  datatype Source = Client(addr: Addr) | Peer(session: nat, flow: nat)

  datatype Session = Session(addr: Addr, authed: bool, isAgent: bool)

  /** What the session's secret matches. */
  datatype Credential = AgentSecret | SharedToken | Wrong

  /** What a table passed on: a datagram of a source under a tag, or an answer under a
      tag to a source. */
  datatype Passed<S> =
    | Forwarded(from: S, tag: nat, payload: seq<byte>)
    | Replied(tag: nat, to: S, payload: seq<byte>)

  /** `issued[i]` is the source of the flow with id `i + 1`; live flows agree with
      it, and no source has two live flows. */
  ghost predicate FlowsOk<S(!new)>(flows: map<nat, S>, issued: seq<S>) {
    && (forall id :: id in flows ==> 1 <= id <= |issued| && flows[id] == issued[id - 1])
    && (forall a, b :: a in flows && b in flows && flows[a] == flows[b] ==> a == b)
  }

  /** Every message ever passed on used a tag for the source it was issued for. */
  ghost predicate LogOk<S>(log: seq<Passed<S>>, issued: seq<S>) {
    forall i :: 0 <= i < |log| ==>
      && 1 <= log[i].tag <= |issued|
      && issued[log[i].tag - 1] == if log[i].Forwarded? then log[i].from else log[i].to
  }

  /** A new flow keeps both. */
  lemma FlowsMore<S(!new)>(flows: map<nat, S>, issued: seq<S>, src: S)
    requires FlowsOk(flows, issued) && forall f :: f in flows ==> flows[f] != src
    ensures |issued| + 1 !in flows && FlowsOk(flows[|issued| + 1 := src], issued + [src])
  {
  }

  lemma LogMore<S>(log: seq<Passed<S>>, issued: seq<S>, src: S)
    requires LogOk(log, issued)
    ensures LogOk(log, issued + [src])
  {
  }

  ghost predicate PeersLive(flows: map<nat, Source>, sessions: map<nat, Session>) {
    forall id :: id in flows && flows[id].Peer? ==>
      var k := flows[id].session; k in sessions && sessions[k].authed && !sessions[k].isAgent
  }

  /** At most one authenticated agent session, and the tunnel knows it. */
  ghost predicate AgentsOk(sessions: map<nat, Session>, agent: Option<nat>) {
    && (forall k :: k in sessions && sessions[k].authed && sessions[k].isAgent ==> agent == Some(k))
    && (agent.Some? ==> agent.value in sessions && sessions[agent.value].authed && sessions[agent.value].isAgent)
  }

  ghost predicate SessionsOk(sessions: map<nat, Session>, next: nat) {
    && (forall k :: k in sessions ==> k < next)
    && (forall a, b :: a in sessions && b in sessions && sessions[a].addr == sessions[b].addr ==> a == b)
  }

  /** The source has a live flow. */
  ghost predicate Known<S(!new)>(flows: map<nat, S>, src: S) {
    exists id :: id in flows && flows[id] == src
  }

  /** A source without a live flow got one, if it may. */
  ghost predicate Opened<S(!new)>(flows: map<nat, S>, flows': map<nat, S>, src: S, may: bool) {
    if Known(flows, src) || !may then flows' == flows else exists id :: id in flows' && flows' == flows[id := src]
  }

  /** A datagram of the source went out under the tag of its live flow, or was dropped. */
  ghost predicate WentOut<S(!new)>(flows': map<nat, S>, log: seq<Passed<S>>, log': seq<Passed<S>>, src: S,
                                   payload: seq<byte>, passes: bool)
  {
    if passes then exists id :: (id in flows' && flows'[id] == src && log' == log + [Forwarded(src, id, payload)])
    else log' == log
  }

  /** An answer under a tag went to the source of its live flow, or was dropped. */
  predicate CameBack<S(==)>(flows: map<nat, S>, log: seq<Passed<S>>, log': seq<Passed<S>>, tag: nat, payload: seq<byte>,
                            passes: bool)
  {
    log' == if passes && tag in flows then log + [Replied(tag, flows[tag], payload)] else log
  }

  /** An answer reaches the source whose datagrams went out under its tag, and no other. */
  ghost predicate Routed<S(!new)>(log: seq<Passed<S>>) {
    forall i, j :: 0 <= i < |log| && 0 <= j < |log| && log[i].Forwarded? && log[j].Replied? && log[j].tag == log[i].tag ==>
      log[j].to == log[i].from
  }

  /** A corollary of `LogOk`, which every table keeps. */
  lemma ReplyReachesSender<S(!new)>(log: seq<Passed<S>>, issued: seq<S>)
    requires LogOk(log, issued)
    ensures Routed(log)
  {
  }

  /** An envelope that asks for authentication with a secret of legal length. */
  predicate Claims(data: seq<byte>) {
    var e := DecodeEnv(data);
    e.Some? && e.value.flags as nat / AUTH_REQ % 2 == 1 && 0 < |e.value.payload| <= MAX_SECRET
  }

  /** Flows that are not about `k` survive the end of session `k`. */
  function Without(flows: map<nat, Source>, k: nat): map<nat, Source> {
    map id | id in flows && !(flows[id].Peer? && flows[id].session == k) :: flows[id]
  }

  class Tunnel {
    const closed: bool         // a closed tunnel has peers with a shared token instead of open clients
    const maxFlows: nat
    const maxSize: nat
    var flows: map<nat, Source>
    var sessions: map<nat, Session>
    var agent: Option<nat>
    var nextFlow: nat          // next_flow_id, a uint64_t
    var made: nat              // sessions created so far, which is also the next key
    ghost var issued: seq<Source>
    var log: seq<Passed<Source>>  // history

    /** Everything a run keeps. Flow ids run out after 2^64 - 1 flows; until then
        they are never reused. */
    ghost predicate Valid()
      reads this
    {
      && nextFlow < WORD
      && (|issued| <= IDS ==>
            nextFlow == (|issued| + 1) % WORD && FlowsOk(flows, issued) && LogOk(log, issued))
      && PeersLive(flows, sessions) && AgentsOk(sessions, agent) && SessionsOk(sessions, made)
    }

    constructor (closed: bool, maxFlows: nat, maxSize: nat)
      ensures Valid() && flows == map[] && sessions == map[] && agent == None && issued == [] && log == []
      ensures this.closed == closed && this.maxFlows == maxFlows && this.maxSize == maxSize
    {
      this.closed, this.maxFlows, this.maxSize := closed, maxFlows, maxSize;
      flows, sessions, agent, nextFlow, made := map[], map[], None, 1, 0;
      issued, log := [], [];
    }

    ghost predicate PeerSession(k: nat)
      reads this
    {
      k in sessions && sessions[k].authed && !sessions[k].isAgent
    }

    /** `src` has a live flow, or may get one. */
    ghost predicate Serves(src: Source, newOk: bool)
      reads this
    {
      Known(flows, src) || (newOk && |flows| < maxFlows)
    }

    /** `flow_new`: the id was never used before. */
    method FlowNew(src: Source) returns (id: nat)
      requires Valid() && (forall f :: f in flows ==> flows[f] != src)
      requires src.Peer? ==> PeerSession(src.session)
      modifies this`flows, this`nextFlow, this`issued
      ensures Valid() && issued == old(issued) + [src] && flows == old(flows)[id := src] && id != 0
      ensures |issued| <= IDS ==> id !in old(flows) && id == |issued|
    {
      hide AgentsOk, SessionsOk, FlowsOk, LogOk;
      if |issued| < IDS {
        FlowsMore(flows, issued, src);
        LogMore(log, issued, src);
      }
      if nextFlow == 0 { nextFlow := 1; }
      id := nextFlow;
      nextFlow := (nextFlow + 1) % WORD;
      flows, issued := flows[id := src], issued + [src];
    }

    /** `flow_find_src`, `flow_find_peer`, then `flow_new` if the limits allow it. */
    method FlowFor(src: Source, newOk: bool) returns (id: Option<nat>)
      requires Valid() && (src.Peer? ==> PeerSession(src.session))
      modifies this`flows, this`nextFlow, this`issued
      ensures Valid() && old(issued) <= issued && |issued| <= |old(issued)| + 1
      ensures id.Some? ==> id.value in flows && flows[id.value] == src
      ensures id.None? ==> flows == old(flows) && issued == old(issued)
      ensures id.Some? <==> old(Serves(src, newOk))
      ensures Opened(old(flows), flows, src, newOk && |old(flows)| < maxFlows)
    {
      hide FlowsOk, LogOk, PeersLive, AgentsOk, SessionsOk;
      if f :| f in flows && flows[f] == src { return Some(f); }
      if !newOk || |flows| >= maxFlows { return None; }
      var f := FlowNew(src);
      return Some(f);
    }

    /** `forward_to_agent` */
    method ForwardToAgent(id: nat, payload: seq<byte>)
      requires Valid() && id in flows
      modifies this`log
      ensures Valid()
      ensures log == if agent.Some? && |payload| <= maxSize
                     then old(log) + [Forwarded(flows[id], id, payload)] else old(log)
    {
      hide PeersLive, AgentsOk, SessionsOk;
      if agent.None? || |payload| > maxSize { return; }
      log := log + [Forwarded(flows[id], id, payload)];
    }

    /** `forward_to_peer` */
    method ForwardToPeer(id: nat, payload: seq<byte>)
      requires Valid() && id in flows
      modifies this`log
      ensures Valid()
      ensures log == if |payload| <= maxSize then old(log) + [Replied(id, flows[id], payload)] else old(log)
    {
      hide AgentsOk, SessionsOk;
      if |payload| > maxSize { return; }
      log := log + [Replied(id, flows[id], payload)];
    }

    /** `agent_session_env`: the answer goes where its tag says, or nowhere. */
    method AgentEnv(e: Env)
      requires Valid()
      modifies this`log
      ensures Valid()
      ensures CameBack(flows, old(log), log, e.flow, e.payload, e.flow != 0 && |e.payload| <= maxSize)
    {
      if e.flow == 0 || e.flow !in flows { return; }
      ForwardToPeer(e.flow, e.payload);
    }

    /** `peer_session_env` and `open_client_datagram`, after their rate checks. */
    method FromSource(src: Source, payload: seq<byte>, newOk: bool)
      requires Valid() && (src.Peer? ==> PeerSession(src.session))
      modifies this`flows, this`nextFlow, this`issued, this`log
      ensures Valid() && old(issued) <= issued && |issued| <= |old(issued)| + 1
      ensures Opened(old(flows), flows, src, newOk && |old(flows)| < maxFlows)
      ensures WentOut(flows, old(log), log, src, payload, old(Serves(src, newOk)) && agent.Some? && |payload| <= maxSize)
    {
      hide FlowsOk, LogOk, PeersLive, AgentsOk, SessionsOk, Opened, Known;
      var id := FlowFor(src, newOk);
      if id.Some? { ForwardToAgent(id.value, payload); }
    }

    /** `tm_udp_flow_expire` */
    method Expire(id: nat)
      requires Valid()
      modifies this`flows
      ensures Valid() && flows == old(flows) - {id}
    {
      flows := flows - {id};
    }

    /** The session list's lookup by address, then `session_create`. */
    method SessionFor(addr: Addr, newOk: bool) returns (k: Option<nat>)
      requires Valid()
      modifies this`sessions, this`made
      ensures Valid() && made >= old(made)
      ensures k.Some? ==> k.value in sessions && sessions[k.value].addr == addr
      ensures k.Some? && k.value !in old(sessions) ==> !sessions[k.value].authed
      ensures k.None? <==> !newOk && (forall s :: s in old(sessions) ==> old(sessions)[s].addr != addr)
      ensures sessions == old(sessions) ||
        (k.Some? && k.value !in old(sessions) && sessions == old(sessions)[k.value := Session(addr, false, false)])
      ensures (exists s :: s in old(sessions) && old(sessions)[s].addr == addr) ==> sessions == old(sessions)
    {
      hide FlowsOk, LogOk;
      if s :| s in sessions && sessions[s].addr == addr { return Some(s); }
      if !newOk { return None; }
      sessions, made := sessions[made := Session(addr, false, false)], made + 1;
      return Some(made - 1);
    }

    /** `tm_udp_session_close`: its flows go with it. */
    method SessionClose(k: nat)
      requires Valid()
      modifies this`flows, this`sessions, this`agent
      ensures Valid() && sessions == old(sessions) - {k}
      ensures flows == if k in old(sessions) then Without(old(flows), k) else old(flows)
      ensures agent == if old(agent) == Some(k) then None else old(agent)
    {
      hide LogOk;
      if k !in sessions { return; }
      flows, sessions := Without(flows, k), sessions - {k};
      if agent == Some(k) { agent := None; }
    }

    /** A session proved who it is; a new agent session replaces the old one. */
    method Authenticate(k: nat, isAgent: bool)
      requires Valid() && k in sessions && !sessions[k].authed
      modifies this`flows, this`sessions, this`agent
      ensures Valid()
      ensures var a := if isAgent && old(agent).Some? then {old(agent).value} else {};
        && sessions == (old(sessions) - a)[k := old(sessions)[k].(authed := true, isAgent := isAgent)]
        && flows == (if a == {} then old(flows) else Without(old(flows), old(agent).value))
        && agent == if isAgent then Some(k) else old(agent)
    {
      hide FlowsOk, LogOk;
      if isAgent {
        if agent.Some? { SessionClose(agent.value); }
        agent := Some(k);
      }
      sessions := sessions[k := sessions[k].(authed := true, isAgent := isAgent)];
    }

    /** `session_appdata`: a session's plaintext, with what its secret would match. */
    method AppData(k: nat, data: seq<byte>, secret: Credential, rateOk: bool, newOk: bool)
      requires Valid() && k in sessions
      modifies this
      ensures Valid() && old(issued) <= issued
      ensures old(log) <= log && |log| <= |old(log)| + 1
      ensures !old(sessions)[k].authed ==>
        && log == old(log)
        && (Claims(data) && (secret.AgentSecret? || (secret.SharedToken? && closed)) ==>
              k in sessions && sessions[k].authed && sessions[k].isAgent == secret.AgentSecret?)
      ensures old(sessions)[k].authed ==> sessions == old(sessions) && agent == old(agent)
      ensures old(sessions)[k].authed && |log| > |old(log)| ==>
        var last := log[|old(log)|];
        if old(sessions)[k].isAgent then last.Replied? else last.Forwarded? && last.from.Peer? && last.from.session == k
      ensures old(sessions)[k].authed && !old(sessions)[k].isAgent && DecodeEnv(data).Some? ==>
        var e := DecodeEnv(data).value;
        (|log| > |old(log)| <==> rateOk && e.flow != 0 && old(Serves(Peer(k, e.flow), newOk)) && agent.Some? && |e.payload| <= maxSize)
    {
      hide FlowsOk, LogOk, PeersLive, AgentsOk, SessionsOk;
      var e := DecodeEnv(data);
      if e.None? { return; }
      if !sessions[k].authed {
        if !Claims(data) { return; }
        if secret.AgentSecret? {
          Authenticate(k, true);
        } else if secret.SharedToken? && closed {
          Authenticate(k, false);
        }
        return;
      }
      if sessions[k].isAgent {
        AgentEnv(e.value);
      } else if rateOk && e.value.flow != 0 {
        FromSource(Peer(k, e.value.flow), e.value.payload, newOk);
      }
    }

    /** `open_client_datagram` */
    method Datagram(addr: Addr, payload: seq<byte>, rateOk: bool, newOk: bool)
      requires Valid()
      modifies this
      ensures Valid() && old(issued) <= issued
      ensures if !closed && rateOk && |payload| <= maxSize && old(Serves(Client(addr), newOk)) && agent.Some?
              then WentOut(flows, old(log), log, Client(addr), payload, true) else log == old(log)
    {
      if closed || !rateOk || |payload| > maxSize { return; }
      FromSource(Client(addr), payload, newOk);
    }
  }

  /** The `i`-th id a counter that starts at `s` and skips zero draws. */
  function Draw(s: nat, i: nat): (id: nat)
    requires 1 <= s <= IDS
    ensures 1 <= id <= IDS
  {
    (s - 1 + i) % IDS + 1
  }

  function NonZero(next: nat): nat {
    if next == 0 then 1 else next
  }

  lemma DrawNext(s: nat, i: nat)
    requires 1 <= s <= IDS
    ensures Draw(s, i + 1) == if Draw(s, i) == IDS then 1 else Draw(s, i) + 1
  {
    var q, r := (s - 1 + i) / IDS, (s - 1 + i) % IDS;
    assert s - 1 + i + 1 == if r + 1 == IDS then (q + 1) * IDS else q * IDS + (r + 1);
    ModOf(s - 1 + i + 1, if r + 1 == IDS then q + 1 else q, if r + 1 == IDS then 0 else r + 1);
  }

  /** Before the counter wraps around, the ids count up. */
  lemma DrawFirst(n: nat)
    ensures n < IDS ==> Draw(1, n) == n + 1
  {
  }

  lemma ModOf(n: nat, q: nat, r: nat)
    requires n == q * IDS + r && r < IDS
    ensures n % IDS == r
  {
  }

  lemma DrawInjective(s: nat, i: nat, j: nat)
    requires 1 <= s <= IDS && i < j < IDS
    ensures Draw(s, i) != Draw(s, j)
  {
  }

  /** `tried` are the first draws. */
  ghost predicate Drawn(s: nat, tried: set<nat>)
    requires 1 <= s <= IDS
  {
    forall x :: x in tried ==> exists i :: 0 <= i < |tried| && x == Draw(s, i)
  }

  lemma DrawnMore(s: nat, tried: set<nat>)
    requires 1 <= s <= IDS && |tried| < IDS && Drawn(s, tried)
    ensures var more := tried + {Draw(s, |tried|)}; |more| == |tried| + 1 && Drawn(s, more)
  {
    hide Draw;
    var n := |tried|;
    forall x | x in tried ensures x != Draw(s, n) && exists i :: 0 <= i < n + 1 && x == Draw(s, i) {
      var i :| 0 <= i < n && x == Draw(s, i);
      DrawInjective(s, i, n);
    }
  }

  lemma Fewer(a: set<nat>, m: map<nat, Addr>)
    requires a <= m.Keys
    ensures |a| <= |m|
  {
    assert m.Keys == a + (m.Keys - a);
    assert |m.Keys| == |m|;
  }

  /** The peer's table: local applications by flow id. */
  class PeerTable {
    const maxFlows: nat
    const maxSize: nat
    var flows: map<nat, Addr>
    var nextFlow: nat          // next_flow_id, a uint64_t
    ghost var issued: seq<Addr>
    var log: seq<Passed<Addr>>    // history

    ghost predicate Valid()
      reads this
    {
      && nextFlow < WORD && maxFlows <= LIMIT_MAX && 0 !in flows
      && (forall a, b :: a in flows && b in flows && flows[a] == flows[b] ==> a == b)
      && (|issued| <= IDS ==>
            NonZero(nextFlow) == Draw(1, |issued|) && FlowsOk(flows, issued) && LogOk(log, issued))
    }

    constructor (maxFlows: nat, maxSize: nat)
      requires maxFlows <= LIMIT_MAX
      ensures Valid() && flows == map[] && issued == [] && log == []
      ensures this.maxFlows == maxFlows && this.maxSize == maxSize
    {
      this.maxFlows, this.maxSize := maxFlows, maxSize;
      flows, nextFlow := map[], 0;
      issued, log := [], [];
    }

    /** The counter's next non-zero value. */
    method NextId() returns (id: nat)
      requires nextFlow < WORD
      modifies this`nextFlow
      ensures nextFlow < WORD && 1 <= id <= IDS && id == NonZero(old(nextFlow))
      ensures NonZero(nextFlow) == if id == IDS then 1 else id + 1
    {
      id := nextFlow;
      nextFlow := (nextFlow + 1) % WORD;
      if id == 0 {
        id := nextFlow;
        nextFlow := (nextFlow + 1) % WORD;
      }
    }

    /** `flow_id_new`: finds an unused id even after the counter wrapped around. */
    method FlowIdNew() returns (id: nat)
      requires nextFlow < WORD && |flows| < IDS
      modifies this`nextFlow
      ensures nextFlow < WORD && 1 <= id <= IDS && id !in flows
      ensures NonZero(old(nextFlow)) !in flows ==>
        id == NonZero(old(nextFlow)) && NonZero(nextFlow) == if id == IDS then 1 else id + 1
    {
      ghost var s, tried := NonZero(nextFlow), {};
      assert Draw(s, 0) == s;
      hide Draw, Drawn, NonZero;
      while true
        invariant nextFlow < WORD && tried <= flows.Keys && |tried| <= |flows|
        invariant Draw(s, |tried|) == NonZero(nextFlow)
        invariant Drawn(s, tried)
        invariant tried != {} ==> s in flows
        decreases |flows| - |tried|
      {
        id := NextId();
        if id !in flows { return; }
        DrawnMore(s, tried);
        DrawNext(s, |tried|);
        Fewer(tried + {id}, flows);
        tried := tried + {id};
      }
    }

    /** A new flow for an application that has none. */
    method FlowNew(addr: Addr) returns (id: nat)
      requires Valid() && |flows| < maxFlows && (forall f :: f in flows ==> flows[f] != addr)
      modifies this`flows, this`nextFlow, this`issued
      ensures Valid() && issued == old(issued) + [addr] && flows == old(flows)[id := addr]
      ensures id !in old(flows) && (|issued| <= IDS ==> id == |issued|)
    {
      DrawFirst(|issued|);
      DrawNext(1, |issued|);
      hide NonZero, FlowsOk, LogOk, Draw;
      if |issued| < IDS {
        FlowsMore(flows, issued, addr);
        LogMore(log, issued, addr);
      }
      id := FlowIdNew();
      flows, issued := flows[id := addr], issued + [addr];
    }

    /** The datagram goes out under the tag of a live flow. */
    method Forward(id: nat, payload: seq<byte>)
      requires Valid() && id in flows
      modifies this`log
      ensures Valid() && log == old(log) + [Forwarded(flows[id], id, payload)]
    {
      hide Draw, NonZero;
      log := log + [Forwarded(flows[id], id, payload)];
    }

    /** `local_recv_cb`: a datagram of a local application, under its tag. */
    method FromLocal(addr: Addr, payload: seq<byte>)
      requires Valid()
      modifies this`flows, this`nextFlow, this`issued, this`log
      ensures Valid() && old(issued) <= issued && |issued| <= |old(issued)| + 1
      ensures Opened(old(flows), flows, addr, |payload| <= maxSize && |old(flows)| < maxFlows)
      ensures WentOut(flows, old(log), log, addr, payload,
                      |payload| <= maxSize && (Known(old(flows), addr) || |old(flows)| < maxFlows))
    {
      hide Draw, NonZero, FlowsOk, LogOk;
      if |payload| > maxSize { return; }
      var id: nat;
      if f :| f in flows && flows[f] == addr {
        id := f;
      } else {
        if |flows| >= maxFlows { return; }
        id := FlowNew(addr);
      }
      Forward(id, payload);
    }

    /** `handle_broker_env`: the answer goes to the application of its tag, or nowhere. */
    method FromBroker(e: Env)
      requires Valid()
      modifies this`log
      ensures Valid()
      ensures CameBack(flows, old(log), log, e.flow, e.payload, |e.payload| <= maxSize)
    {
      hide Draw;
      if e.flow == 0 || |e.payload| > maxSize || e.flow !in flows { return; }
      log := log + [Replied(e.flow, flows[e.flow], e.payload)];
    }

    /** `flow_sweep_cb`: idle flows end. */
    method Sweep(idle: set<nat>)
      requires Valid()
      modifies this`flows
      ensures Valid() && flows == old(flows) - idle
    {
      hide Draw, LogOk;
      flows := flows - idle;
    }
  }

  /** The agent's table: one local socket per flow id. A socket is named by the order
      of its creation, so the `tag` of this table is the socket and its source is the
      broker's flow id. */
  class AgentTable {
    const maxFlows: nat
    const maxSize: nat
    var flows: map<nat, nat>
    var made: nat
    ghost var issued: seq<nat>
    var log: seq<Passed<nat>>     // history

    ghost predicate Valid()
      reads this
    {
      made == |issued| && FlowsOk(flows, issued) && LogOk(log, issued)
    }

    constructor (maxFlows: nat, maxSize: nat)
      ensures Valid() && flows == map[] && issued == [] && log == []
      ensures this.maxFlows == maxFlows && this.maxSize == maxSize
    {
      this.maxFlows, this.maxSize := maxFlows, maxSize;
      flows, made, issued, log := map[], 0, [], [];
    }

    /** `handle_broker_env`: deliver on the flow's own socket, opening it if need be. */
    method FromBroker(e: Env, connects: bool)
      requires Valid()
      modifies this`flows, this`made, this`issued, this`log
      ensures Valid() && old(issued) <= issued
      ensures Opened(old(flows), flows, e.flow, e.flow != 0 && |e.payload| <= maxSize && |old(flows)| < maxFlows && connects)
      ensures WentOut(flows, old(log), log, e.flow, e.payload,
                      e.flow != 0 && |e.payload| <= maxSize && (Known(old(flows), e.flow) || (|old(flows)| < maxFlows && connects)))
    {
      hide FlowsOk, LogOk;
      if e.flow == 0 || |e.payload| > maxSize { return; }
      var s: nat;
      if f :| f in flows && flows[f] == e.flow {
        s := f;
      } else {
        if |flows| >= maxFlows || !connects { return; }
        s := SocketNew(e.flow);
      }
      Send(s, e.payload);
    }

    /** A new socket for a flow that has none. */
    method SocketNew(flow: nat) returns (s: nat)
      requires Valid() && forall f :: f in flows ==> flows[f] != flow
      modifies this`flows, this`made, this`issued
      ensures Valid() && issued == old(issued) + [flow] && flows == old(flows)[s := flow] && s !in old(flows)
    {
      hide FlowsOk, LogOk;
      FlowsMore(flows, issued, flow);
      LogMore(log, issued, flow);
      made := made + 1;
      s := made;
      flows, issued := flows[s := flow], issued + [flow];
    }

    /** The datagram goes out on the socket of its flow. */
    method Send(s: nat, payload: seq<byte>)
      requires Valid() && s in flows
      modifies this`log
      ensures Valid() && log == old(log) + [Forwarded(flows[s], s, payload)]
    {
      log := log + [Forwarded(flows[s], s, payload)];
    }

    /** `flow_recv_cb`: what the service sends to that socket is an answer for that
        flow. A closed socket receives nothing. */
    method FromService(s: nat, payload: seq<byte>, rateOk: bool)
      requires Valid()
      modifies this`log
      ensures Valid()
      ensures CameBack(flows, old(log), log, s, payload, rateOk && |payload| <= maxSize)
    {
      if s !in flows || !rateOk || |payload| > maxSize { return; }
      log := log + [Replied(s, flows[s], payload)];
    }

    /** `flow_sweep_cb` */
    method Sweep(idle: set<nat>)
      requires Valid()
      modifies this`flows
      ensures Valid() && flows == old(flows) - idle
    {
      flows := flows - idle;
    }
  }
}
