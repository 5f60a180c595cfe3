/** What the relay promises between any two events, in the terms of its two legs.
    Every event handler of `Relay` keeps `Stable`, so each law holds in every
    state a run can reach. */
module RelayLaws {
  import opened Bytes
  import opened Wire
  import opened Legs
  import opened RelayState
  import opened Relays
  import Tls

  /** While a sink takes octets, or is still to come, every octet read for it was
      accepted by it or waits, in order. */
  lemma Conservation(x: State, s: Side)
    requires Stable(x) && !x.closing && (!x.bound || !Refuses(At(x, s).sink))
    ensures At(x, s).fed == Accepted(At(x, s).sink) + At(x, s).queue
  {
    hide LegInv, Settled;
    assert SideOk(x, s) && SideOk(x, Up) && !At(x, s).flushing;
  }

  /** `SSL_write` has to be retried, and no write is in flight whose completion would. */
  predicate Stalled(l: Leg) {
    l.TlsLeg? && l.s.q != [] && !l.s.inflight && Tls.Waiting(l.s.calls)
  }

  /** The leg still owes its owner a low-water callback: a write is in flight on a raw leg
      with octets queued, or on a TLS leg above its low-water mark; or `SSL_write` has to
      be retried first. */
  ghost predicate OwesLow(l: Leg) {
    match l
    case NoLeg => false
    case TcpLeg(t) => t.pending && t.q != []
    case TlsLeg(s) => s.aboveLow && (s.inflight || Stalled(l))
  }

  /** No lost wakeup, with reads of at most 65536 octets: whatever waits, and whoever is
      paused, a low-water callback is to come. Octets wait only with their source paused
      or ended; and a source is paused only while octets wait, except that after the
      broker's end the agent's local source may wait for the broker leg's own queue. */
  lemma NoLostWakeup(x: State, s: Side)
    requires Stable(x) && x.bound && Healthy(x)
    ensures At(x, s).queue != [] ==> OwesLow(At(x, s).sink) && (At(x, s).paused || Silent(At(x, s)))
    ensures ReadPaused(At(x, Other(s)).sink) && !At(x, s).eof && !At(x, s).bulk ==> OwesLow(At(x, s).sink)
    ensures ReadPaused(At(x, Other(s)).sink) && !At(x, s).eof && !(x.role.Agent? && s.Down? && x.up.eof)
            ==> At(x, s).queue != []
  {
    hide DirOk, Backlog;
    assert SideOk(x, s) && SideOk(x, Other(s)) && Settled(x, s);
    SoundKeeps(x, Up);
  }

  /** How many tokens completions can still cover before the next read. */
  ghost function Left(x: State, s: Side): int {
    |At(x, s).fed| + 1 - Completed(At(x, s).sink)
  }

  lemma LeftBound(x: State, s: Side)
    requires Stable(x)
    ensures Left(x, s) >= 0
    ensures Alive(At(x, s).sink) && InFlight(At(x, s).sink) ==> Completed(At(x, s).sink) < |Handed(At(x, s).sink)|
  {
    hide Settled;
    assert SideOk(x, s);
    LegFacts(At(x, s).sink);
  }

  /** Every completion of a write leaves fewer to come. */
  lemma Advances(x: State, y: State, s: Side)
    requires Stable(x) && DoneEffect(x, y, s, true) && Alive(At(x, s).sink) && InFlight(At(x, s).sink)
    ensures Left(y, s) < Left(x, s)
  {
    LeftBound(x, s);
    hide LegInv, Stable, Handed, Alive, InFlight, Completed, ReadyToClose, Overlooked, Hushed, LowDue, DroppedLeg, FinDone;
    assert Step(At(x, s), At(y, s));
  }

  /** With no write in flight nothing waits, and no source is paused. */
  lemma AtRest(x: State, s: Side)
    requires Stable(x) && x.bound && Healthy(x) && !InFlight(At(x, s).sink) && !Stalled(At(x, s).sink)
    ensures At(x, s).queue == []
    ensures !At(x, s).eof && !At(x, s).bulk ==> !ReadPaused(At(x, Other(s)).sink)
  {
    NoLostWakeup(x, s);
    hide LegInv, Stable;
  }

  /** The owed callback comes: with both legs alive, no more write completions than octets
      read and one half-close empty the queue and resume the source, unless `SSL_write`
      answered WANT to the last of them. */
  method Progress(r: Relay, s: Side) returns (n: nat)
    requires Stable(r.st) && r.st.bound
    modifies r
    ensures Stable(r.st) && n <= |old(At(r.st, s).fed)| + 1 && After(old(r.st), r.st)
    ensures Healthy(r.st) && !Stalled(At(r.st, s).sink) ==> At(r.st, s).queue == []
    ensures Healthy(r.st) && !Stalled(At(r.st, s).sink) && !At(r.st, s).eof && !At(r.st, s).bulk
            ==> !ReadPaused(At(r.st, Other(s)).sink)
  {
    hide LegInv, Stable, DoneEffect, After, InFlight, Alive, ReadPaused, Stalled;
    n := 0;
    LeftBound(r.st, s);
    ghost var bound := Left(r.st, s);
    AfterSelf(r.st);
    while Healthy(r.st) && InFlight(At(r.st, s).sink)
      invariant Stable(r.st) && r.st.bound && After(old(r.st), r.st)
      invariant 0 <= Left(r.st, s) && n + Left(r.st, s) <= bound
      decreases Left(r.st, s)
    {
      ghost var x := r.st;
      r.OnWriteDone(s, true);
      Advances(x, r.st, s);
      AfterMore(old(r.st), x, r.st, s);
      LeftBound(r.st, s);
      n := n + 1;
    }
    if Healthy(r.st) && !Stalled(At(r.st, s).sink) { AtRest(r.st, s); }
  }

  lemma AfterSelf(x: State)
    ensures After(x, x)
  {
    hide LegInv;
  }

  lemma AfterMore(x: State, y: State, z: State, s: Side)
    requires After(x, y) && DoneEffect(y, z, s, true)
    ensures After(x, z) && z.bound == y.bound
  {
    hide LegInv, Step, InFlight, Completes, ReadyToClose, Overlooked, Hushed, LowDue, DroppedLeg, FinDone;
    forall t ensures Step(At(x, t), At(z, t)) {
      StepTrans(At(x, t), At(y, t), At(z, t));
    }
  }

  /** No tail loss: a stream closed by `MaybeClose` before any leg failed had passed
      everything on, in completed socket writes. */
  lemma NoTailLoss(x: State, s: Side)
    requires Stable(x) && x.clean && !At(x, s).cut
    ensures At(x, s).eof && Accepted(At(x, s).sink) == At(x, s).fed
    ensures Completed(At(x, s).sink) <= |Handed(At(x, s).sink)|
    ensures Tokens(At(x, s).fed) <= Handed(At(x, s).sink)[..Completed(At(x, s).sink)]
  {
    hide LegInv, DirOk, Settled;
    assert SideOk(x, s);
  }

  /** Close ordering: the half-close of a leg comes at most once, after every octet
      read for it, unless the agent cut the stream off; nothing follows it. */
  lemma CloseOrdering(x: State, s: Side)
    requires Stable(x) && Close in Handed(At(x, s).sink)
    ensures Handed(At(x, s).sink) == Tokens(Accepted(At(x, s).sink)) + [Close]
    ensures At(x, s).eof
    ensures !At(x, s).cut ==> Accepted(At(x, s).sink) == At(x, s).fed && At(x, s).queue == []
  {
    hide LegInv, Settled;
    assert SideOk(x, s);
    LegFacts(At(x, s).sink);
    DisciplinedClose(Handed(At(x, s).sink), Accepted(At(x, s).sink));
  }

  /** A leg's buffer never outgrows 256 KiB. */
  ghost predicate Fits(l: Leg) {
    match l
    case NoLeg => true
    case TcpLeg(t) => |t.q| <= t.cap <= HIGH_WATER
    case TlsLeg(s) => |s.q| <= s.cap <= HIGH_WATER
  }

  /** Bounded buffering: sources that respect their pause never make a queue exceed
      the high-water mark by more than one read; leg buffers are bounded anyway. */
  lemma Bounded(x: State, s: Side)
    requires Stable(x)
    ensures !At(x, s).rude ==> |At(x, s).queue| <= HIGH_WATER + READ_MAX
    ensures Fits(At(x, s).sink)
  {
    hide Settled;
    assert SideOk(x, s);
  }

  /** What `cut` means: the leg refuses the rest of a stream it has not got. */
  lemma CutLosesTail(x: State)
    requires Stable(x) && x.up.cut
    ensures x.up.eof && Refuses(x.up.sink) && Accepted(x.up.sink) < x.up.fed
  {
    hide LegInv, Settled;
    assert SideOk(x, Up);
  }

  /** The agent holds `q` for a local leg that is still to come. */
  ghost predicate Holds(x: State, q: seq<byte>) {
    && x.role == Agent && !x.bound && !x.closing && !x.up.live && !x.up.eof
    && x.up.fed == x.up.queue == q && Alive(x.down.sink)
  }

  lemma HoldsMore(x: State, q: seq<byte>, data: seq<byte>)
    requires Holds(x, q)
    ensures Holds(Queued(Noted(x, Up, |data|), data), q + data)
  {
    hide LegInv, ReadPaused;
  }

  lemma JustQueued(x: State, y: State, data: seq<byte>)
    requires ReadEffect(x, y, Up, data) && JoinsQueue(x, Up, data)
    ensures y == Queued(Noted(x, Up, |data|), data)
  {
    hide LegInv, Queued, Took, Joined, Smooth, Written;
  }

  lemma JustEnded(x: State, y: State)
    requires EofEffect(x, y, Up) && x.role.Agent? && !x.up.live && !x.closing
    ensures y == Ending(x, Up)
  {
    hide LegInv, After;
  }

  /** The agent's side of a stream whose input ended before the local connect. */
  method EndedEarly(leg: Leg, first: seq<byte>, second: seq<byte>) returns (r: Relay)
    requires FreshLeg(leg) && |first| == READ_MAX && 0 < |second| <= READ_MAX
    ensures fresh(r) && Stable(r.st) && !r.st.bound && !r.st.closing && r.st.role == Agent
    ensures r.st.up.eof && r.st.up.fed == r.st.up.queue == first + second
  {
    assert leg != NoLeg;
    hide LegInv, Stable, Sound, Alive, Evolved, After, Queued, Noted, ReadEffect, EofEffect;
    r := new Relay(Agent, leg, []);
    SoundKeeps(r.st, Up);
    HoldsMore(r.st, [], first);
    ghost var x := r.st;
    r.Read(Up, first);
    JustQueued(x, r.st, first);
    HoldsMore(r.st, first, second);
    x := r.st;
    r.Read(Up, second);
    JustQueued(x, r.st, second);
    x := r.st;
    r.OnEof(Up);
    JustEnded(x, r.st);
  }

  /** An early end of the broker's input costs the tail of a stream with more than one
      piece waiting for the local connect (and of no other, `Relay.Bind`): a run of
      the agent that loses octets although no leg failed. */
  method EarlyEnd(leg: Leg, first: seq<byte>, second: seq<byte>) returns (r: Relay)
    requires FreshLeg(leg) && |first| == READ_MAX && 0 < |second| <= READ_MAX
    ensures fresh(r) && r.st.up.fed == first + second
    ensures Refuses(r.st.up.sink) && Accepted(r.st.up.sink) < first + second
  {
    hide Stable, Refuses;
    r := EndedEarly(leg, first, second);
    var local := NewRaw([]);
    r.Bind(local, local);
    CutLosesTail(r.st);
  }
}
