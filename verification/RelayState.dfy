/** The state of a relay, its invariants, and what each update of it keeps.

    `Up` carries client octets towards the service: leg A to leg B in the broker,
    the broker leg to the local leg in the agent. `Down` is the way back. The sink of
    one direction is the source of the other. */
module RelayState {
  import opened Bytes
  import opened Wire
  import opened Legs
  import Tcp

  const FLUSH_MAX: nat := 65536
  const QUEUE_MAX: nat := HIGH_WATER + READ_MAX

  datatype Role = Broker | Agent
  datatype Side = Up | Down

  function Other(s: Side): Side {
    if s.Up? then Down else Up
  }

  datatype Dir = Dir(
    sink: Leg,
    live: bool,          // the io pointer of the sink is not NULL
    queue: seq<byte>,    // octets waiting for the sink: before bind, preq; then pend
    paused: bool,        // reading from the source is paused
    eof: bool,           // the source ended
    fin: bool,           // the half-close was passed on to the sink
    flushing: bool,      // flush_pend is walking the queue
    fed: seq<byte>,      // history: every octet for the sink, in arrival order
    lost: bool,          // history: the sink refused some of them
    cut: bool,           // history: the agent's early FIN cut the queue off
    rude: bool,          // history: the source delivered while it was paused
    broken: bool,        // history: the source died before its input ended
    bulk: bool,          // history: one read brought more than READ_MAX octets
    foreign: bool)       // history: the source is a raw leg put over a dead peer's TLS leg

  /** The input of the source ended, and not by a failure. */
  predicate Over(d: Dir) {
    d.eof && !d.broken
  }

  /** No more input will come. A raw leg put over a dead one delivers although the
      input has ended. */
  predicate Silent(d: Dir) {
    d.eof && !d.foreign
  }

  /** Nothing was dropped, duplicated or reordered between source and sink. */
  ghost predicate Conserved(d: Dir) {
    if d.lost then d.queue == [] else d.fed == Accepted(d.sink) + d.queue
  }

  ghost predicate DirOk(d: Dir, closing: bool) {
    && (Alive(d.sink) ==> d.live && !closing)
    && Accepted(d.sink) <= d.fed
    && (|d.queue| <= QUEUE_MAX || d.rude)
    && (!closing && !d.flushing ==> Conserved(d))
    && (d.flushing ==> d.queue != [])
    && (d.lost || d.fin ==> Refuses(d.sink))
    && (SendClosed(d.sink) && !d.cut ==> d.eof && d.queue == [] && d.fed == Accepted(d.sink))
    && (d.cut ==> Refuses(d.sink) && d.eof && |Accepted(d.sink)| < |d.fed|)
  }

  /** What callbacks keep of a direction; they never add octets to it. While
      `flush_pend` walks a queue, they do not touch that queue at all. */
  ghost predicate Step(d: Dir, d': Dir) {
    && d'.fed == d.fed && d'.cut == d.cut && d'.rude == d.rude && d'.flushing == d.flushing
    && d'.bulk == d.bulk && d'.foreign == d.foreign && SameKind(d.sink, d'.sink)
    && (d'.live ==> d.live) && (d.eof ==> d'.eof) && (d.lost ==> d'.lost) && (d.fin ==> d'.fin)
    && Over(d') == Over(d)
    && (Alive(d'.sink) ==> Alive(d.sink))
    && (SendClosed(d.sink) ==> SendClosed(d'.sink))
    && Handed(d.sink) <= Handed(d'.sink) && Accepted(d.sink) <= Accepted(d'.sink)
    && Completed(d.sink) <= Completed(d'.sink)
    && (d'.paused ==> d.paused)
    && (d'.queue != [] ==> d.queue != [] && d'.paused == d.paused)
    && (d.flushing ==> d'.queue == d.queue && d'.lost == d.lost && Accepted(d'.sink) == Accepted(d.sink))
  }

  lemma StepTrans(a: Dir, b: Dir, c: Dir)
    requires Step(a, b) && Step(b, c)
    ensures Step(a, c)
  {
    hide LegInv, Accepted, Handed, Completed, Alive, SendClosed;
  }

  /** The state of a relay between two statements. */
  datatype State = State(role: Role, up: Dir, down: Dir, bound: bool, closing: bool, clean: bool)

  function At(x: State, s: Side): Dir {
    if s.Up? then x.up else x.down
  }

  function With(x: State, s: Side, d: Dir): State {
    if s.Up? then x.(up := d) else x.(down := d)
  }

  function WithSink(x: State, s: Side, leg: Leg): State {
    With(x, s, At(x, s).(sink := leg))
  }

  predicate Healthy(x: State) {
    Alive(x.up.sink) && Alive(x.down.sink)
  }

  /** One direction together with its source, which is the sink of the other one. */
  ghost predicate SideOk(x: State, s: Side) {
    var d, e := At(x, s), At(x, Other(s));
    && DirOk(d, x.closing)
    && (Alive(e.sink) ==> ReadPaused(e.sink) == d.paused)
    && (!x.closing && !d.live && (x.bound || d.sink != NoLeg) ==> x.role.Broker? && e.eof)
    && (d.foreign ==> s.Up? && x.role.Broker? && x.bound && d.eof && !d.cut)
    && (s.Up? && !x.bound ==>
          && d.sink == NoLeg && !d.live && !d.cut && !d.fin
          && !e.eof && !e.fin && !e.lost && e.queue == [] && !e.paused
          && (x.closing || (!d.lost && (d.paused || d.rude || |d.queue| <= HIGH_WATER))))
    && (s.Down? ==> !d.cut && (x.closing || x.role.Broker? || d.live))
    && (d.broken ==> d.eof)
    // closed by MaybeClose before any leg failed: the tails were delivered
    && (x.clean ==> x.closing && d.eof && !d.broken && !d.foreign && Delivered(d.sink) && (d.cut || d.fed == Accepted(d.sink)))
  }

  ghost predicate Sound(x: State) {
    forall s :: SideOk(x, s)
  }

  /** What a callback keeps. */
  ghost predicate After(x: State, y: State) {
    && y.role == x.role && y.bound == x.bound
    && (x.closing ==> y.closing)
    && (forall s :: Step(At(x, s), At(y, s)))
  }

  /** Nothing happened to a direction but pausing or resuming the reads of its sink. */
  ghost predicate Aside(d: Dir, d': Dir) {
    && d' == d.(sink := d'.sink)
    && Armed(d'.sink) == Armed(d.sink) && Backlog(d'.sink) == Backlog(d.sink) && Room(d'.sink) == Room(d.sink)
  }

  /** Callbacks about side `s` ran from `x` to `y`. */
  ghost predicate Ran(x: State, y: State, s: Side) {
    && Sound(y) && After(x, y)
    && (Healthy(y) ==> Aside(At(x, Other(s)), At(y, Other(s))))
  }

  /** Nested callbacks use this up: a leg dies or half-closes once, and a flush
      does not start twice. */
  function Energy(d: Dir): nat {
    (if Alive(d.sink) then 2 else 0) + (if Refuses(d.sink) then 0 else 1) + (if d.flushing then 0 else 1)
  }

  function Fuel(x: State): nat {
    Energy(x.up) + Energy(x.down)
  }

  /** A source with octets waiting for its sink is paused, or has ended. */
  ghost predicate Pressed(x: State, s: Side) {
    x.bound && !x.closing && At(x, s).queue != [] ==> At(x, s).paused || Silent(At(x, s))
  }

  /** Octets wait because the sink has no room, and it will call back. */
  ghost predicate Stuck(d: Dir) {
    Armed(d.sink) && (d.bulk || Crowded(d.sink, Min(|d.queue|, FLUSH_MAX)))
  }

  /** The agent's `relay_broker_eof` also flushes towards the broker, and leaves it to
      the low-water callback to resume the local reads. */
  predicate Excused(x: State, s: Side) {
    x.role.Agent? && s.Down? && x.up.eof
  }

  /** No lost wakeup: octets wait only for a leg that will call back, and reads stay
      paused only towards such a leg; apart from `Excused`, only while octets wait. */
  ghost predicate Settled(x: State, s: Side) {
    && Pressed(x, s)
    && (x.bound && Healthy(x) ==>
          && (At(x, s).queue != [] ==> Stuck(At(x, s)))
          && (At(x, s).paused && !At(x, s).eof ==>
                (Excused(x, s) || At(x, s).queue != []) && (At(x, s).bulk || Armed(At(x, s).sink))))
  }

  /** What holds between two events. */
  ghost predicate Stable(x: State) {
    Sound(x) && forall s :: !At(x, s).flushing && Settled(x, s)
  }

  /** A relay whose service-side leg is still to come. */
  function Pending(role: Role, leg: Leg, leftover: seq<byte>): State {
    State(role,
          Dir(NoLeg, false, leftover, false, false, false, false, leftover, false, false, false, false, false, false),
          Dir(leg, leg != NoLeg, [], false, false, false, false, Accepted(leg), false, false, false, false, false, false),
          false, false, false)
  }

  // ---------------------------------------------------------------- callbacks

  lemma RanTrans(x: State, y: State, z: State, s: Side)
    requires Ran(x, y, s) && Ran(y, z, s)
    ensures Ran(x, z, s)
  {
    hide LegInv, Sound, Step, Accepted, Handed, Completed, Armed;
    AfterTrans(x, y, z);
    assert Step(At(y, Up), At(z, Up)) && Step(At(y, Down), At(z, Down));
    StepKeeps(y.up, z.up);
    StepKeeps(y.down, z.down);
  }

  lemma AfterTrans(x: State, y: State, z: State)
    requires After(x, y) && After(y, z)
    ensures After(x, z)
  {
    hide LegInv, Step;
    forall s ensures Step(At(x, s), At(z, s)) {
      StepTrans(At(x, s), At(y, s), At(z, s));
    }
  }

  lemma RanRefl(x: State, s: Side)
    requires Sound(x)
    ensures Ran(x, x, s) && After(x, x)
  {
  }

  lemma StepKeeps(d: Dir, d': Dir)
    requires Step(d, d')
    ensures d'.fed == d.fed && d'.cut == d.cut && d'.flushing == d.flushing
    ensures d'.bulk == d.bulk && d'.foreign == d.foreign && SameKind(d.sink, d'.sink)
    ensures (Alive(d'.sink) ==> Alive(d.sink)) && (d.eof ==> d'.eof) && (d.fin ==> d'.fin) && (d'.live ==> d.live)
    ensures d'.queue != [] ==> d.queue != [] && d'.paused == d.paused
    ensures Energy(d') <= Energy(d)
  {
  }

  lemma RanKeeps(x: State, y: State, s: Side)
    requires Ran(x, y, s)
    ensures Sound(y) && After(x, y) && Fuel(y) <= Fuel(x)
    ensures Pressed(x, s) ==> Pressed(y, s)
    ensures forall t :: At(y, t).flushing == At(x, t).flushing
    ensures (At(x, s).eof ==> At(y, s).eof) && (At(x, s).fin ==> At(y, s).fin)
    ensures At(y, s).queue != [] ==> At(x, s).queue != []
    ensures (x.closing ==> y.closing) && y.bound == x.bound && y.role == x.role
    ensures Healthy(y) ==> Healthy(x)
  {
    hide LegInv, Sound, Step, Energy;
    forall t ensures At(y, t).flushing == At(x, t).flushing {
      StepKeeps(At(x, t), At(y, t));
    }
    StepKeeps(At(x, Up), At(y, Up));
    StepKeeps(At(x, Down), At(y, Down));
  }

  lemma SoundKeeps(x: State, s: Side)
    requires Sound(x)
    ensures SideOk(x, s) && DirOk(At(x, s), x.closing)
    ensures At(x, s).flushing ==> At(x, s).queue != []
    ensures x.bound || s.Up? || (At(x, s).queue == [] && !At(x, s).eof)
    ensures x.bound || s.Down? || !At(x, s).live
    ensures At(x, s).live || !Alive(At(x, s).sink)
    ensures x.closing ==> !Alive(At(x, s).sink)
    ensures x.bound && !x.closing && !At(x, s).live ==> x.role.Broker? && At(x, Other(s)).eof
    ensures Alive(At(x, Other(s)).sink) ==> ReadPaused(At(x, Other(s)).sink) == At(x, s).paused
    ensures !Alive(At(x, s).sink) ==> ArmedOk(x, s) && (Pressed(x, s) ==> Settled(x, s))
    ensures x.clean ==> x.closing && Delivered(At(x, s).sink)
  {
    hide LegInv, Delivered, ReadPaused;
    assert SideOk(x, s);
    if s.Down? { assert SideOk(x, Up); }
  }

  lemma SoundDir(x: State, s: Side)
    requires Sound(x)
    ensures DirOk(At(x, s), x.closing) && (x.clean ==> Delivered(At(x, s).sink))
  {
    hide LegInv, DirOk, Delivered;
    assert SideOk(x, s);
  }

  lemma SidesSound(x: State, s: Side)
    requires SideOk(x, s) && SideOk(x, Other(s))
    ensures Sound(x)
  {
    hide LegInv, SideOk;
    forall t ensures SideOk(x, t) {
      assert t == s || t == Other(s);
    }
  }

  lemma StepRefl(d: Dir)
    ensures Step(d, d)
  {
  }

  /** `d` can take the place of `e`. */
  ghost predicate Swap(e: Dir, d: Dir, closing: bool, bound: bool, clean: bool) {
    forall c :: c == closing ==>
      && DirOk(d, c) && Step(e, d) && d.paused == e.paused && d.live == e.live
      && (Alive(d.sink) ==> ReadPaused(d.sink) == ReadPaused(e.sink))
      && d.broken == e.broken
      && (bound || (d.eof == e.eof && d.fin == e.fin && d.lost == e.lost))
      && (clean ==> Delivered(d.sink) && Accepted(d.sink) == Accepted(e.sink))
  }

  /** An update of one direction that keeps its own invariant. */
  lemma Replaced(x: State, s: Side, d: Dir)
    requires Sound(x) && (x.bound || s.Down?) && Swap(At(x, s), d, x.closing, x.bound, x.clean)
    ensures Ran(x, With(x, s, d), s)
  {
    hide LegInv, DirOk, Step, Delivered, Accepted, ReadPaused, Armed;
    var y := With(x, s, d);
    assert DirOk(d, x.closing);
    StepKeeps(At(x, s), d);
    StepRefl(At(x, Other(s)));
    assert SideOk(x, s) && SideOk(x, Other(s));
    assert SideOk(y, s);
    assert SideOk(y, Other(s));
    SidesSound(y, s);
  }

  lemma DeliveredKept(l: Leg, l': Leg)
    requires Kept(l, l') && Accepted(l') == Accepted(l) && Delivered(l)
    ensures Delivered(l')
  {
    LegFacts(l');
    assert Handed(l)[..Completed(l)] <= Handed(l')[..Completed(l')];
  }

  lemma DirStepped(d: Dir, leg: Leg, f: Fired, closing: bool)
    requires DirOk(d, closing) && StepEffect(d.sink, leg, f)
    ensures DirOk(d.(sink := leg), closing) && Step(d, d.(sink := leg))
  {
    hide LegInv, Accepted, Handed, Completed, Armed, ReadPaused;
  }

  lemma StepSwaps(d: Dir, leg: Leg, f: Fired, closing: bool, bound: bool, clean: bool)
    requires DirOk(d, closing) && StepEffect(d.sink, leg, f) && (clean ==> Delivered(d.sink))
    ensures Swap(d, d.(sink := leg), closing, bound, clean)
  {
    hide LegInv, DirOk, Step, Delivered, StepEffect, Alive, ReadPaused, Accepted;
    LegStepped(d.sink, leg, f);
    DirStepped(d, leg, f, closing);
    if clean { DeliveredKept(d.sink, leg); }
  }

  /** A step on a sink that accepts nothing. */
  lemma SinkStepped(x: State, s: Side, leg: Leg, f: Fired)
    requires Sound(x) && StepEffect(At(x, s).sink, leg, f)
    requires x.bound || s.Down?
    ensures Ran(x, WithSink(x, s, leg), s)
    ensures f.Error? ==> !Alive(leg)
  {
    hide LegInv, Sound, Ran, DirOk, Delivered, StepEffect, Kept, Swap, Alive;
    SoundDir(x, s);
    LegStepped(At(x, s).sink, leg, f);
    StepSwaps(At(x, s), leg, f, x.closing, x.bound, x.clean);
    Replaced(x, s, At(x, s).(sink := leg));
  }

  lemma LegStepped(l: Leg, l': Leg, f: Fired)
    requires StepEffect(l, l', f)
    ensures Kept(l, l') && Accepted(l') == Accepted(l) && ReadPaused(l') == ReadPaused(l) && (f.Error? ==> !Alive(l'))
  {
  }

  lemma SinkSettled(x: State, s: Side, leg: Leg, f: Fired)
    requires StepEffect(At(x, s).sink, leg, f)
    ensures Settled(x, s) ==> f.Low? || Settled(WithSink(x, s, leg), s)
  {
    hide LegInv, Accepted, Handed, Completed, ReadPaused, SendClosed, Armed, Backlog, Alive;
  }

  /** `tm_io_resume_read` and `tm_io_pause_read` on the source of `s`. */
  function SetReading(x: State, s: Side, paused: bool): State {
    var y := WithSink(x, Other(s), SetPaused(At(x, Other(s)).sink, paused));
    With(y, s, At(x, s).(paused := paused))
  }

  lemma DirPaused(d: Dir, paused: bool, closing: bool)
    requires DirOk(d, closing)
    ensures var d' := d.(sink := SetPaused(d.sink, paused)); DirOk(d', closing) && Step(d, d') && Aside(d, d')
    ensures var d' := d.(paused := paused); DirOk(d', closing) && (d.queue == [] && !paused ==> Step(d, d'))
  {
    hide LegInv, DirOk, Step, Aside;
    SinkPaused(d, paused, closing);
    SinkAside(d, paused);
    FlagPaused(d, paused, closing);
  }

  lemma SinkPaused(d: Dir, paused: bool, closing: bool)
    requires DirOk(d, closing)
    ensures DirOk(d.(sink := SetPaused(d.sink, paused)), closing)
  {
    hide LegInv, Accepted, Handed, Completed, Armed, ReadPaused;
  }

  lemma SinkAside(d: Dir, paused: bool)
    ensures var d' := d.(sink := SetPaused(d.sink, paused)); Step(d, d') && Aside(d, d')
  {
    hide LegInv, Accepted, Handed, Completed, Armed, ReadPaused, Alive, SendClosed, SetPaused, SameKind;
  }

  lemma FlagPaused(d: Dir, paused: bool, closing: bool)
    requires DirOk(d, closing)
    ensures var d' := d.(paused := paused); DirOk(d', closing) && (d.queue == [] && !paused ==> Step(d, d'))
  {
    hide LegInv, Accepted, Handed, Completed, Armed, ReadPaused, Alive, Refuses, SendClosed;
  }

  lemma ReadingSet(x: State, s: Side, paused: bool)
    requires Sound(x) && (x.bound || (s.Up? && paused))
    ensures Sound(SetReading(x, s, paused))
  {
    hide LegInv, SideOk;
    ReadingSetSide(x, s, paused);
    ReadingSetOther(x, s, paused);
    forall t ensures SideOk(SetReading(x, s, paused), t) {
      assert t == s || t == Other(s);
    }
  }

  lemma ReadingSetSide(x: State, s: Side, paused: bool)
    requires Sound(x) && (x.bound || (s.Up? && paused))
    ensures SideOk(SetReading(x, s, paused), s)
  {
    hide LegInv, DirOk, Step, Aside, Accepted, Handed, Completed, Armed, ReadPaused;
    assert SideOk(x, s) && SideOk(x, Other(s));
    DirPaused(At(x, s), paused, x.closing);
  }

  lemma ReadingSetOther(x: State, s: Side, paused: bool)
    requires Sound(x) && (x.bound || (s.Up? && paused))
    ensures SideOk(SetReading(x, s, paused), Other(s))
  {
    hide LegInv, DirOk, Step, Aside, Accepted, Handed, Completed, Armed, ReadPaused;
    assert SideOk(x, s) && SideOk(x, Other(s));
    DirPaused(At(x, Other(s)), paused, x.closing);
  }

  lemma Resumed(x: State, s: Side)
    requires Sound(x) && x.bound && At(x, s).queue == []
    ensures Ran(x, SetReading(x, s, false), s)
    ensures !At(SetReading(x, s, false), s).paused && At(SetReading(x, s, false), s).queue == []
  {
    hide LegInv, SideOk, DirOk, Step, Accepted, Handed, Completed, Armed, ReadPaused;
    ReadingSet(x, s, false);
    SoundKeeps(x, s);
    SoundKeeps(x, Other(s));
    DirPaused(At(x, s), false, x.closing);
    DirPaused(At(x, Other(s)), false, x.closing);
  }

  /** What a low-water callback needs at its end: nothing waits, reads go on. */
  lemma WokenUp(x: State, s: Side)
    requires At(x, s).queue == []
    requires !At(x, s).paused || At(x, s).eof || !Alive(At(x, Other(s)).sink)
    ensures Settled(x, s)
  {
  }

  // -------------------------------------------------------------------- flush

  /** `flush_pend` wrote the first `n` waiting octets: while the leg calls back they
      are both in the queue and accepted. */
  lemma DirWrote(d: Dir, n: nat, leg: Leg, f: Fired)
    requires DirOk(d, false) && !d.flushing && 0 < n <= |d.queue|
    requires WriteEffect(d.sink, d.queue[..n], leg, Status.Ok, f)
    ensures var e := d.(sink := leg, flushing := true); DirOk(e, false) && Energy(e) < Energy(d)
  {
    hide LegInv, Accepted, Handed, Completed, Armed, ReadPaused;
    assert d.queue == d.queue[..n] + d.queue[n..];
  }

  /** The piece leaves the queue once the callbacks are over. */
  lemma DirAdvanced(d: Dir, n: nat, leg: Leg, f: Fired, e: Dir, closing: bool)
    requires DirOk(d, false) && !d.flushing && 0 < n <= |d.queue|
    requires WriteEffect(d.sink, d.queue[..n], leg, Status.Ok, f)
    requires DirOk(e, closing) && Step(d.(sink := leg, flushing := true), e)
    ensures var e' := e.(queue := if closing then d.queue else d.queue[n..], flushing := false);
      DirOk(e', closing) && Step(d, e')
  {
    hide LegInv, Accepted, Handed, Completed, Armed, ReadPaused;
    assert d.queue == d.queue[..n] + d.queue[n..];
  }

  /** The state in which the callbacks of a write inside `flush_pend` run. */
  function Writing(x: State, s: Side, leg: Leg): State {
    With(x, s, At(x, s).(sink := leg, flushing := true))
  }

  /** The state after the written octets left the queue. */
  function Advanced(x: State, s: Side, n: nat): State {
    var q := At(x, s).queue;
    With(x, s, At(x, s).(queue := if x.closing || n > |q| then q else q[n..], flushing := false))
  }

  lemma FlushWrote(x: State, s: Side, n: nat, leg: Leg, f: Fired)
    requires Sound(x) && !x.closing && (x.bound || s.Down?)
    requires !At(x, s).flushing && 0 < n <= |At(x, s).queue|
    requires WriteEffect(At(x, s).sink, At(x, s).queue[..n], leg, Status.Ok, f)
    ensures Sound(Writing(x, s, leg)) && Fuel(Writing(x, s, leg)) < Fuel(x)
    ensures f.Error? ==> !Alive(leg)
  {
    hide LegInv, DirOk, Accepted, Handed, Completed, Armed, ReadPaused, Energy;
    assert SideOk(x, s);
    DirWrote(At(x, s), n, leg, f);
    assert SideOk(x, s) && SideOk(x, Other(s));
    assert SideOk(Writing(x, s, leg), s);
    assert SideOk(Writing(x, s, leg), Other(s));
    SidesSound(Writing(x, s, leg), s);
  }

  /** An update of one direction that keeps its sink and flags. */
  lemma SoundSwap(z: State, s: Side, d: Dir)
    requires Sound(z) && DirOk(d, z.closing) && (z.bound || s.Down?) && (z.bound || d.queue == [])
    requires d == At(z, s).(queue := d.queue, flushing := d.flushing)
    ensures Sound(With(z, s, d))
  {
    hide LegInv, DirOk, Delivered, Accepted, ReadPaused;
    assert SideOk(z, s) && SideOk(z, Other(s));
    assert SideOk(With(z, s, d), s);
    assert SideOk(With(z, s, d), Other(s));
    SidesSound(With(z, s, d), s);
  }

  lemma FlushNext(x: State, s: Side, n: nat, leg: Leg, f: Fired, z: State)
    requires Sound(x) && !x.closing && (x.bound || s.Down?)
    requires !At(x, s).flushing && 0 < n <= |At(x, s).queue|
    requires WriteEffect(At(x, s).sink, At(x, s).queue[..n], leg, Status.Ok, f)
    requires Ran(Writing(x, s, leg), z, s)
    ensures var y := Advanced(z, s, n);
      && Ran(x, y, s) && y.closing == z.closing
      && At(y, s).queue == if y.closing then At(x, s).queue else At(x, s).queue[n..]
  {
    hide LegInv, DirOk, Sound, Step, Accepted, Handed, Completed, Armed, ReadPaused, WriteEffect;
    var w, y := Writing(x, s, leg), Advanced(z, s, n);
    SoundKeeps(x, s);
    SoundKeeps(z, s);
    StepFrozen(At(w, s), At(z, s));
    DirAdvanced(At(x, s), n, leg, f, At(z, s), z.closing);
    SoundSwap(z, s, At(y, s));
    forall t ensures Step(At(x, t), At(y, t)) {
      assert Step(At(w, t), At(z, t));
    }
  }

  lemma StepFrozen(d: Dir, d': Dir)
    requires Step(d, d') && d.flushing
    ensures d'.queue == d.queue
  {
  }

  /** The sink is busy: the rest waits, and the leg is armed to call back. */
  lemma FlushBusy(x: State, s: Side, data: seq<byte>, leg: Leg)
    requires Sound(x) && (x.bound || s.Down?) && At(x, s).queue != [] && |data| == Min(|At(x, s).queue|, FLUSH_MAX)
    requires WriteEffect(At(x, s).sink, data, leg, Busy, Quiet)
    ensures var y := WithSink(x, s, leg); Ran(x, y, s) && ArmedOk(y, s) && (Pressed(x, s) ==> Settled(y, s))
  {
    hide LegInv, Sound, Ran, DirOk, Step, Delivered, Accepted, Handed, Completed, ReadPaused;
    SoundKeeps(x, s);
    DirBusy(At(x, s), data, leg, x.closing);
    if x.clean { DeliveredKept(At(x, s).sink, leg); }
    Replaced(x, s, At(x, s).(sink := leg));
  }

  lemma DirBusy(d: Dir, data: seq<byte>, leg: Leg, closing: bool)
    requires DirOk(d, closing) && WriteEffect(d.sink, data, leg, Busy, Quiet)
    ensures DirOk(d.(sink := leg), closing) && Step(d, d.(sink := leg))
  {
    hide LegInv, Accepted, Handed, Completed, Armed, ReadPaused;
  }

  /** The sink refuses for good: what waits for it is dropped. */
  function Dropped(x: State, s: Side): State {
    With(x, s, At(x, s).(queue := [], lost := true))
  }

  lemma DropSwaps(d: Dir)
    requires DirOk(d, false) && d.queue != [] && !d.flushing && Refuses(d.sink)
    ensures Swap(d, d.(queue := [], lost := true), false, true, false)
  {
    hide LegInv, Accepted, Handed, Completed, ReadPaused, Armed, Alive, SendClosed;
    var e := d.(queue := [], lost := true);
    assert DirOk(e, false);
    assert Step(d, e);
  }

  lemma FlushRefused(x: State, s: Side)
    requires Sound(x) && !x.closing && (x.bound || s.Down?)
    requires At(x, s).queue != [] && !At(x, s).flushing && Refuses(At(x, s).sink)
    ensures Ran(x, Dropped(x, s), s)
  {
    hide LegInv, Sound, Ran, DirOk, Delivered, Swap, Alive, SendClosed;
    SoundKeeps(x, s);
    DropSwaps(At(x, s));
    Replaced(x, s, At(x, s).(queue := [], lost := true));
  }

  predicate ReadyToClose(x: State) {
    && !x.closing && x.up.eof && x.down.eof
    && Drained(x.up.sink) && Drained(x.down.sink)
    && x.up.queue == [] && x.down.queue == []
  }

  lemma ReadyIsEmpty(x: State, s: Side)
    ensures ReadyToClose(x) ==> At(x, s).queue == []
  {
  }

  lemma IdleNotReady(x: State, s: Side)
    ensures Idle(At(x, s)) ==> !ReadyToClose(x)
  {
  }

  // --------------------------------------------------------------------- ends

  /** The half-close went to the sink: nothing waits, and nothing will follow. */
  function HalfClosed(x: State, s: Side, leg: Leg, mark: bool): State {
    With(x, s, At(x, s).(sink := leg, fin := At(x, s).fin || mark))
  }

  lemma FinPassed(x: State, s: Side, leg: Leg, f: Fired, mark: bool)
    requires Sound(x) && (x.bound || s.Down?)
    requires At(x, s).eof && At(x, s).queue == []
    requires ShutEffect(At(x, s).sink, leg, f)
    ensures Ran(x, HalfClosed(x, s, leg, mark), s)
    ensures f.Error? ==> !Alive(leg)
    ensures !f.Quiet? ==> Fuel(HalfClosed(x, s, leg, mark)) < Fuel(x)
  {
    hide LegInv, Sound, Ran, DirOk, Step, Delivered, Swap, Energy;
    SoundKeeps(x, s);
    DirFin(At(x, s), leg, f, x.closing, mark);
    FinSwaps(At(x, s), leg, f, x.closing, x.bound, x.clean, mark);
    Replaced(x, s, At(x, s).(sink := leg, fin := At(x, s).fin || mark));
  }

  lemma FinSwaps(d: Dir, leg: Leg, f: Fired, closing: bool, bound: bool, clean: bool, mark: bool)
    requires DirOk(d, closing) && ShutEffect(d.sink, leg, f) && d.eof && d.queue == [] && bound
    requires clean ==> Delivered(d.sink)
    ensures Swap(d, d.(sink := leg, fin := d.fin || mark), closing, bound, clean)
  {
    hide LegInv, DirOk, Step, Delivered, Alive, ReadPaused, Accepted, Handed, Completed, Armed;
    DirFin(d, leg, f, closing, mark);
    if clean { DeliveredKept(d.sink, leg); }
  }

  lemma DirFin(d: Dir, leg: Leg, f: Fired, closing: bool, mark: bool)
    requires DirOk(d, closing) && ShutEffect(d.sink, leg, f) && d.eof && d.queue == []
    ensures var e := d.(sink := leg, fin := d.fin || mark);
      DirOk(e, closing) && Step(d, e) && (!f.Quiet? ==> Energy(e) < Energy(d))
  {
    hide LegInv, Accepted, Handed, Completed, Armed, ReadPaused;
  }

  /** The source of `s` died: its input ends here. */
  function Broken(x: State, s: Side): State {
    With(x, s, At(x, s).(eof := true, broken := At(x, s).broken || !At(x, s).eof))
  }

  /** The io pointer of the dead sink of `s` becomes NULL. */
  function Unlinked(x: State, s: Side): State {
    With(x, s, At(x, s).(live := false))
  }

  /** The broker drops a dead leg: its input has ended, its io pointer is NULL. */
  function Orphaned(x: State, s: Side): State {
    Unlinked(Broken(x, Other(s)), s)
  }

  lemma DirEnded(d: Dir, closing: bool, broken: bool)
    requires DirOk(d, closing)
    ensures var e := d.(eof := true, broken := broken); DirOk(e, closing) && Energy(e) == Energy(d)
    ensures broken == (d.broken || !d.eof) ==> Step(d, d.(eof := true, broken := broken))
  {
    hide LegInv, Accepted, Handed, Completed, Armed, ReadPaused;
  }

  lemma DirGone(d: Dir, closing: bool)
    requires DirOk(d, closing) && !Alive(d.sink)
    ensures var e := d.(live := false); DirOk(e, closing) && Step(d, e) && Energy(e) == Energy(d)
  {
    hide LegInv, Accepted, Handed, Completed, Armed, ReadPaused;
  }

  lemma DirClosed(d: Dir, closing: bool)
    requires DirOk(d, closing)
    ensures var e := d.(sink := CloseLeg(d.sink)); DirOk(e, true) && Step(d, e)
  {
    hide LegInv, DirOk, Step;
    ClosedDirOk(d, closing);
    ClosedDirStep(d);
  }

  lemma ClosedDirOk(d: Dir, closing: bool)
    requires DirOk(d, closing)
    ensures DirOk(d.(sink := CloseLeg(d.sink)), true)
  {
    hide LegInv, Accepted, Handed, Completed, Armed, ReadPaused, CloseLeg;
  }

  lemma ClosedDirStep(d: Dir)
    ensures Step(d, d.(sink := CloseLeg(d.sink)))
  {
    hide LegInv, Accepted, Handed, Completed, Armed, ReadPaused, CloseLeg, Alive, SendClosed;
    KeptSteps(d, CloseLeg(d.sink));
  }

  /** A sink that kept its promises, and accepted nothing. */
  lemma KeptSteps(d: Dir, leg: Leg)
    requires Kept(d.sink, leg) && Accepted(leg) == Accepted(d.sink)
    ensures Step(d, d.(sink := leg))
  {
    hide LegInv, Accepted, Handed, Completed, Armed, ReadPaused, Alive, SendClosed, Refuses;
  }

  lemma BrokenSound(x: State, s: Side)
    requires Sound(x) && (x.bound || s.Up?) && !x.closing
    ensures Sound(Broken(x, s)) && After(x, Broken(x, s)) && Fuel(Broken(x, s)) == Fuel(x)
  {
    hide LegInv, SideOk, DirOk, Sound, After, Fuel, Broken;
    SoundDir(x, s);
    BrokenSide(x, s);
    BrokenOther(x, s);
    SidesSound(Broken(x, s), s);
    BrokenAfter(x, s);
  }

  lemma BrokenAfter(x: State, s: Side)
    requires DirOk(At(x, s), false)
    ensures After(x, Broken(x, s)) && Fuel(Broken(x, s)) == Fuel(x)
  {
    hide LegInv, DirOk, Step, Energy, After, Fuel, With;
    DirEnded(At(x, s), false, At(x, s).broken || !At(x, s).eof);
    WithAfter(x, s, At(x, s).(eof := true, broken := At(x, s).broken || !At(x, s).eof));
  }

  /** An update of one direction, seen from the whole relay. */
  lemma WithAfter(x: State, s: Side, d: Dir)
    requires Step(At(x, s), d)
    ensures After(x, With(x, s, d)) && (Energy(d) == Energy(At(x, s)) ==> Fuel(With(x, s, d)) == Fuel(x))
  {
    hide LegInv, Step, Energy;
    StepRefl(At(x, Other(s)));
    forall t ensures Step(At(x, t), At(With(x, s, d), t)) {
      assert t == s || t == Other(s);
    }
  }

  lemma BrokenSide(x: State, s: Side)
    requires Sound(x) && (x.bound || s.Up?) && !x.closing
    ensures SideOk(Broken(x, s), s)
  {
    hide LegInv, DirOk, Step, Accepted, ReadPaused, Delivered, Energy, Alive;
    assert SideOk(x, s) && SideOk(x, Other(s));
    DirEnded(At(x, s), false, At(x, s).broken || !At(x, s).eof);
  }

  lemma BrokenOther(x: State, s: Side)
    requires Sound(x) && (x.bound || s.Up?) && !x.closing
    ensures SideOk(Broken(x, s), Other(s))
  {
    hide LegInv, DirOk, Step, Accepted, ReadPaused, Delivered, Energy, Alive;
    assert SideOk(x, s) && SideOk(x, Other(s));
  }

  lemma UnlinkedSound(x: State, s: Side)
    requires Sound(x) && (x.bound || s.Down?) && !x.closing && !Alive(At(x, s).sink)
    requires x.role.Broker? && At(x, Other(s)).eof
    ensures Sound(Unlinked(x, s)) && After(x, Unlinked(x, s)) && Fuel(Unlinked(x, s)) == Fuel(x)
  {
    hide LegInv, DirOk, Step, Accepted, ReadPaused, Delivered, Energy;
    StepRefl(At(x, Other(s)));
    assert SideOk(x, s);
    DirGone(At(x, s), false);
    assert SideOk(x, s) && SideOk(x, Other(s));
    assert SideOk(Unlinked(x, s), s);
    assert SideOk(Unlinked(x, s), Other(s));
    SidesSound(Unlinked(x, s), s);
  }

  lemma CompletedKept(x: State, y: State, s: Side)
    requires Ran(x, y, s)
    ensures Completed(At(x, s).sink) <= Completed(At(y, s).sink) && Accepted(At(x, s).sink) <= Accepted(At(y, s).sink)
  {
    hide LegInv, Sound, Completed, Handed, Accepted;
    assert Step(At(x, s), At(y, s));
  }

  lemma HeldJoined(x: State, s: Side, leg: Leg, data: seq<byte>)
    ensures Joined(x, Held(x, s, leg, data), s, data)
  {
    hide LegInv, ReadPaused, Handed, Completed, Armed;
  }

  lemma PassedJoined(x: State, s: Side, leg: Leg, data: seq<byte>, f: Fired, z: State)
    requires WriteEffect(At(x, s).sink, data, leg, Status.Ok, f) && Ran(Passed(x, s, leg, data), z, s)
    ensures Joined(x, z, s, data)
  {
    hide LegInv, Sound, Ran, Accepted, Handed, Completed, Armed, ReadPaused;
    CompletedKept(Passed(x, s, leg, data), z, s);
  }

  lemma BusyIsQuiet(l: Leg, data: seq<byte>, leg: Leg, f: Fired)
    requires WriteEffect(l, data, leg, Busy, f)
    ensures f.Quiet? && !Refuses(l)
  {
  }

  lemma RefusedRefuses(l: Leg, data: seq<byte>, leg: Leg, f: Fired)
    requires WriteEffect(l, data, leg, Refused, f)
    ensures Refuses(l)
  {
  }

  /** Nothing ends on the service side before the bind. */
  lemma PendingStays(x: State)
    requires Sound(x)
    ensures !x.bound ==> !x.up.live && !ReadyToClose(x)
  {
    hide LegInv, DirOk;
    assert SideOk(x, Up);
  }

  lemma UnlinkedStays(x: State, y: State, s: Side)
    requires After(x, y) && !At(x, s).live && At(x, Other(s)).eof
    ensures !At(y, s).live && At(y, Other(s)).eof
  {
    assert Step(At(x, s), At(y, s)) && Step(At(x, Other(s)), At(y, Other(s)));
  }

  lemma DeadRan(x: State, y: State, s: Side)
    requires Sound(y) && After(x, y) && !Alive(At(x, s).sink)
    ensures Ran(x, y, s) && (Pressed(x, s) ==> Settled(y, s))
  {
    hide LegInv, Sound, Step;
    StepKeeps(At(x, s), At(y, s));
  }

  function Ending(x: State, s: Side): State {
    With(x, s, At(x, s).(eof := true))
  }

  lemma Ended(x: State, s: Side)
    requires Sound(x) && (x.bound || s.Up?) && !x.closing
    ensures Sound(Ending(x, s)) && Fuel(Ending(x, s)) == Fuel(x)
  {
    hide LegInv, SideOk, DirOk, Step, Energy;
    SoundDir(x, s);
    DirEnded(At(x, s), false, At(x, s).broken);
    EndedSide(x, s);
    EndedOther(x, s);
    SidesSound(Ending(x, s), s);
  }

  lemma EndedSide(x: State, s: Side)
    requires Sound(x) && (x.bound || s.Up?) && !x.closing
    ensures SideOk(Ending(x, s), s)
  {
    hide LegInv, DirOk, Step, Accepted, ReadPaused, Delivered, Energy, Alive;
    assert SideOk(x, s) && SideOk(x, Other(s));
    DirEnded(At(x, s), false, At(x, s).broken);
  }

  lemma EndedOther(x: State, s: Side)
    requires Sound(x) && (x.bound || s.Up?) && !x.closing
    ensures SideOk(Ending(x, s), Other(s))
  {
    hide LegInv, DirOk, Step, Accepted, ReadPaused, Delivered, Energy, Alive;
    assert SideOk(x, s) && SideOk(x, Other(s));
  }

  lemma EndedSettled(x: State, s: Side)
    ensures forall t :: Settled(x, t) ==> Settled(Ending(x, s), t)
  {
    hide LegInv, Armed;
  }

  /** What the end of a source leaves behind, the first or a repeated one. */
  ghost predicate EofEffect(x: State, y: State, s: Side) {
    if x.closing then y == x
    else
      && After(Ending(x, s), y)
      && (x.role.Agent? && !At(x, s).live ==> y == Ending(x, s))
      && (At(x, s).live || x.role.Broker? ==> !ReadyToClose(y))
      && (At(x, s).live && At(y, s).queue == [] ==> At(y, s).fin)
      && (x.role.Agent? && s.Up? && x.up.live ==> Jammed(y, Down))
      && (EndsSmoothly(x, s) ==> Closes(Ending(x, s), y, s))
  }

  /** Nothing waits, and passing the half-close on calls nobody back. */
  predicate EndsSmoothly(x: State, s: Side) {
    At(x, s).live && At(x, s).queue == [] && (x.role.Agent? && s.Up? ==> x.down.queue == []) && SmoothShut(At(x, s).sink)
  }

  /** The half-close was passed on, and a finished stream closed. */
  ghost predicate Closes(x: State, y: State, s: Side) {
    var w := HalfClosed(x, s, ShutLeg(At(x, s).sink), true);
    if ReadyToClose(w) then y.closing else y == w
  }

  /** A completion that finishes the stream and calls nobody back, so that nobody looks. */
  predicate Overlooked(x: State, s: Side, ok: bool) {
    && !x.closing && x.up.eof && x.down.eof && x.up.queue == [] && x.down.queue == []
    && Drained(At(x, Other(s)).sink)
    && Hushed(At(x, s).sink, ok) && !At(x, s).sink.s.shutdownPending
  }

  /** What a completed socket write of the sink of `s` leaves behind. A failure kills the
      leg. The last write of a TLS leg that owes no low-water callback changes nothing
      else, and that is the one way to leave a finished stream open. */
  ghost predicate DoneEffect(x: State, y: State, s: Side, ok: bool) {
    var l := At(x, s).sink;
    && After(x, y) && Completes(l, ok, At(y, s).sink)
    && (!InFlight(l) ==> y == x)
    && (!ok && Alive(l) && InFlight(l) ==> !Alive(At(y, s).sink) && DroppedLeg(x, y, s))
    && (Hushed(l, ok) && !l.s.shutdownPending ==> y == WithSink(x, s, Hush(l)))
    && (LowDue(l, ok) ==> FinDone(x, y, s))
    && (ReadyToClose(y) <==> ReadyToClose(x) || Overlooked(x, s, ok))
  }

  /** A half-close that waited for the queue of `s` was passed on. */
  ghost predicate FinDone(x: State, y: State, s: Side) {
    !x.closing && At(x, s).live && At(x, s).eof && At(y, s).queue == [] && Healthy(y) ==> At(y, s).fin
  }

  /** The owner of the dead sink of `s` was told. */
  ghost predicate DroppedLeg(x: State, y: State, s: Side) {
    if x.role.Agent? then y.closing else y.closing || (!ReadyToClose(y) && !At(y, s).live && At(y, Other(s)).eof)
  }

  /** From what the leg did to what the event did. */
  lemma DoneConcludes(x: State, z: State, s: Side, ok: bool, leg: Leg, f: Fired, c: Cont)
    requires After(x, z) && Completes(At(x, s).sink, ok, At(z, s).sink)
    requires DoneQuietly(At(x, s).sink, ok, leg, f, c)
    requires ok || !Alive(At(x, s).sink) || !InFlight(At(x, s).sink) || f.Error?
    requires f.Error? ==> !Alive(At(z, s).sink) && DroppedLeg(x, z, s)
    requires f.Quiet? && Settles(leg, c) ==> z == WithSink(x, s, leg)
    requires ReadyToClose(z) ==> f.Quiet? && ReadyToClose(WithSink(x, s, leg)) && (c.ShutNext? ==> Settles(leg, c))
    requires f.Low? ==> FinDone(WithSink(x, s, leg), z, s)
    ensures DoneEffect(x, z, s, ok)
  {
    hide LegInv, After, Completes, Alive, InFlight, ReadyToClose, Drained, Hushed, Hush, LowDue, DroppedLeg, Overlooked, Settles;
    ReadyBefore(x, s, leg);
    SameSink(x, s);
    if Hushed(At(x, s).sink, ok) {
      assert At(x, s).sink.TlsLeg? by { HushedTls(At(x, s).sink, ok); }
      OverlookedReady(x, s, ok);
    } else {
      NotOverlooked(x, s, ok);
    }
    if f.Low? { FinSame(x, z, s, leg); }
    if !InFlight(At(x, s).sink) { SettlesDone(leg); }
  }

  lemma HushedTls(l: Leg, ok: bool)
    requires Hushed(l, ok)
    ensures l.TlsLeg?
  {
  }

  lemma NotOverlooked(x: State, s: Side, ok: bool)
    requires !Hushed(At(x, s).sink, ok)
    ensures !Overlooked(x, s, ok)
  {
    hide LegInv, Hushed;
  }

  lemma SettlesDone(l: Leg)
    ensures Settles(l, Done)
  {
  }

  /** A half-close due before the leg went on is done after it. */
  lemma FinProceeds(x: State, s: Side, leg: Leg, f: Fired, z: State)
    requires FinDone(x, x, s)
    requires var y := WithSink(x, s, leg);
      && Sound(y) && Ran(y, z, s) && (f.Quiet? ==> z == y) && (f.Low? ==> FinDone(y, z, s)) && (f.Error? ==> !Alive(leg))
    requires Healthy(WithSink(x, s, leg)) ==> Healthy(x)
    ensures FinDone(x, z, s)
  {
    hide LegInv, Sound, Ran, Alive;
    var y := WithSink(x, s, leg);
    RanKeeps(y, z, s);
    SoundKeeps(y, s);
  }

  lemma FinSame(x: State, z: State, s: Side, leg: Leg)
    requires FinDone(WithSink(x, s, leg), z, s)
    ensures FinDone(x, z, s)
  {
    hide LegInv, Alive;
  }

  lemma ReadyBefore(x: State, s: Side, leg: Leg)
    ensures ReadyToClose(WithSink(x, s, leg)) && Drained(At(x, s).sink) ==> ReadyToClose(x)
    ensures ReadyToClose(WithSink(x, s, leg)) ==> Drained(leg)
    ensures ReadyToClose(x) ==> Drained(At(x, s).sink) && !x.closing
    ensures ReadyToClose(x) && Drained(leg) ==> ReadyToClose(WithSink(x, s, leg))
  {
    hide LegInv, Drained;
  }

  lemma SameSink(x: State, s: Side)
    ensures WithSink(x, s, At(x, s).sink) == x
  {
    hide LegInv;
    SameDir(At(x, s));
    match x case State(_, _, _, _, _, _) =>
  }

  lemma SameDir(d: Dir)
    ensures d.(sink := d.sink) == d
  {
    hide LegInv;
    match d case Dir(_, _, _, _, _, _, _, _, _, _, _, _, _, _) =>
  }

  lemma DeadStays(x: State, y: State, s: Side)
    requires Ran(x, y, s) && !Alive(At(x, s).sink)
    ensures !Alive(At(y, s).sink)
  {
    hide LegInv, Sound, Handed, Accepted, Completed;
    assert Step(At(x, s), At(y, s));
  }

  lemma OverlookedReady(x: State, s: Side, ok: bool)
    requires At(x, s).sink.TlsLeg? && Hushed(At(x, s).sink, ok) && Drained(Hush(At(x, s).sink))
    ensures Overlooked(x, s, ok) <==>
      ReadyToClose(WithSink(x, s, Hush(At(x, s).sink))) && !At(x, s).sink.s.shutdownPending
  {
    hide LegInv, Drained, Hushed, Hush;
  }

  /** What the failure of the sink of `s` leaves behind. */
  ghost predicate FailEffect(x: State, y: State, s: Side) {
    && After(x, y)
    && (if x.role.Agent? then y.closing else !ReadyToClose(y) && !At(y, s).live && At(y, Other(s)).eof)
    && (x.role.Broker? && !x.bound ==> y == Orphaned(WithSink(x, s, CloseLeg(At(x, s).sink)), s))
  }

  /** After callbacks about an ended source: both directions are as settled as
      before, provided what waits waits for an armed leg. */
  lemma FlushedEnd(x: State, y: State, s: Side)
    requires Ran(x, y, s) && At(x, s).eof
    requires Pressed(x, s) && At(y, s).queue != [] && !At(y, s).flushing ==> Settled(y, s)
    ensures forall t :: Settled(x, t) && !At(x, t).flushing ==> Settled(y, t)
  {
    hide LegInv, Sound, Step, Armed;
    StepKeeps(At(x, Up), At(y, Up));
    StepKeeps(At(x, Down), At(y, Down));
  }

  /** A flush of octets that had no room leaves the leg with a callback to come: it
      found the leg busy, or only added to what was in flight. */
  ghost predicate StaysArmed(x: State, y: State, s: Side) {
    At(x, s).queue != [] && Stuck(At(x, s)) && !At(x, s).bulk ==> Armed(At(y, s).sink)
  }

  /** Nothing waits that the sink would take. */
  ghost predicate Jammed(x: State, s: Side) {
    x.closing || !Healthy(x) || At(x, s).queue == [] || Room(At(x, s).sink) < Min(|At(x, s).queue|, FLUSH_MAX)
  }

  lemma JammedStops(x: State, s: Side, data: seq<byte>, leg: Leg, r: Status, f: Fired)
    requires WriteEffect(At(x, s).sink, data, leg, r, f) && !r.Ok? && |data| == Min(|At(x, s).queue|, FLUSH_MAX)
    ensures Jammed(if r.Busy? then WithSink(x, s, leg) else Dropped(x, s), s)
  {
    hide LegInv, Room, Armed, Backlog, Accepted, Handed, Completed, ReadPaused, Alive, SendClosed;
  }

  /** Callbacks of the other side leave it so. */
  lemma JammedBeside(x: State, y: State, s: Side)
    requires Ran(x, y, s) && Jammed(x, Other(s))
    ensures Jammed(y, Other(s))
  {
    hide LegInv, Sound, Step, Room, Armed, Backlog, Alive, Energy;
    assert Step(At(x, Up), At(y, Up)) && Step(At(x, Down), At(y, Down));
    StepKeeps(At(x, Up), At(y, Up));
    StepKeeps(At(x, Down), At(y, Down));
  }

  /** How far such a flush has come. */
  ghost predicate Adding(x: State, y: State, s: Side) {
    At(x, s).queue != [] && Stuck(At(x, s)) && !At(x, s).bulk ==>
      y == x || (Armed(At(y, s).sink) && InFlight(At(y, s).sink))
  }

  lemma AddingStarts(x: State, s: Side)
    ensures Adding(x, x, s)
  {
  }

  lemma AddingTurn(x: State, y: State, s: Side, leg: Leg, f: Fired, c: Cont, z: State)
    requires Adding(x, y, s) && At(y, s).queue != [] && !At(y, s).flushing
    requires var n := Min(|At(y, s).queue|, FLUSH_MAX); WriteQuiet(At(y, s).sink, At(y, s).queue[..n], leg, Ok, f, c)
    requires f.Quiet? && c.Done? ==> z == Writing(y, s, leg)
    ensures Adding(x, Advanced(z, s, Min(|At(y, s).queue|, FLUSH_MAX)), s)
  {
    hide LegInv, Armed, InFlight, Backlog;
  }

  lemma AddingEnds(x: State, y: State, s: Side)
    requires Adding(x, y, s)
    ensures StaysArmed(x, y, s)
  {
    hide LegInv, Armed, InFlight, Backlog;
  }

  lemma AddingStops(x: State, y: State, s: Side, data: seq<byte>, leg: Leg, r: Status, f: Fired)
    requires Adding(x, y, s) && !r.Ok? && |data| <= HIGH_WATER && WriteEffect(At(y, s).sink, data, leg, r, f)
    ensures StaysArmed(x, if r.Busy? then WithSink(y, s, leg) else Dropped(y, s), s)
  {
    hide LegInv, Armed, InFlight, Backlog, Accepted, Handed, Completed, ReadPaused, Alive, SendClosed;
  }

  /** The agent's extra flush towards the broker. */
  lemma FlushedBack(x: State, y: State)
    requires Ran(x, y, Down) && x.up.eof && x.role.Agent?
    requires Pressed(x, Down) && y.down.queue != [] && !y.down.flushing ==> Settled(y, Down)
    requires StaysArmed(x, y, Down) && (x.down.queue == [] ==> y == x)
    ensures y.up.eof
    ensures forall t :: Settled(x, t) && !At(x, t).flushing ==> Settled(y, t)
  {
    hide LegInv, Sound, Step, Armed;
    StepKeeps(At(x, Up), At(y, Up));
    StepKeeps(At(x, Down), At(y, Down));
  }

  function Closed(x: State): State {
    x.(closing := true, up := x.up.(sink := CloseLeg(x.up.sink)), down := x.down.(sink := CloseLeg(x.down.sink)))
  }

  lemma ClosedSound(x: State)
    requires Sound(x) && !x.closing
    ensures Sound(Closed(x)) && After(x, Closed(x))
  {
    hide LegInv, DirOk, Step, Accepted, Handed, Completed, Armed, ReadPaused, Delivered;
    assert SideOk(x, Up) && SideOk(x, Down);
    DirClosed(At(x, Up), false);
    DirClosed(At(x, Down), false);
    assert SideOk(Closed(x), Up);
    assert SideOk(Closed(x), Down);
    SidesSound(Closed(x), Up);
    forall t ensures Step(At(x, t), At(Closed(x), t)) {
      assert SideOk(x, t);
      DirClosed(At(x, t), false);
    }
  }

  /** No leg failed so far, also none that was replaced. */
  predicate Whole(x: State) {
    Healthy(x) && !x.up.broken && !x.down.broken && !x.up.foreign
  }

  lemma ClosedClean(x: State)
    requires Sound(x) && ReadyToClose(x) && Whole(x)
    ensures Sound(Closed(x).(clean := true))
  {
    hide LegInv, DirOk, Step, Handed, Completed, Armed, ReadPaused;
    ClosedSound(x);
    forall t ensures SideOk(Closed(x).(clean := true), t) {
      assert SideOk(x, t) && SideOk(Closed(x), t);
      LegFacts(At(x, t).sink);
      DirDelivered(At(x, t));
    }
  }

  lemma DirDelivered(d: Dir)
    requires DirOk(d, false) && Alive(d.sink) && d.queue == []
    ensures d.cut || d.fed == Accepted(d.sink)
  {
    hide LegInv, Accepted;
  }

  lemma RefusedOrBusy(x: State, s: Side, data: seq<byte>, leg: Leg, r: Status, f: Fired)
    requires Sound(x) && !x.closing && (x.bound || s.Down?)
    requires At(x, s).queue != [] && !At(x, s).flushing && |data| == Min(|At(x, s).queue|, FLUSH_MAX)
    requires WriteEffect(At(x, s).sink, data, leg, r, f) && !r.Ok?
    ensures var y := if r.Busy? then WithSink(x, s, leg) else Dropped(x, s);
      Ran(x, y, s) && ArmedOk(y, s) && (r.Busy? && Pressed(x, s) ==> Settled(y, s))
  {
    hide LegInv, Sound, Ran, Settled, Pressed, Armed;
    if r.Busy? { FlushBusy(x, s, data, leg); } else { FlushRefused(x, s); }
  }

  /** A direction a read may arrive on: nothing waits, its source runs. */
  predicate Idle(d: Dir) {
    d.queue == [] && !d.eof && !d.paused
  }

  /** What waits, waits for a leg that will call back. */
  ghost predicate ArmedOk(x: State, s: Side) {
    x.bound && Healthy(x) && At(x, s).queue != [] ==> Stuck(At(x, s))
  }

  // ------------------------------------------------------------------- events

  /** The loop may deliver input of the source of `s`: it is connected and has not
      ended. A loop that respects `Pause` delivers none while reads are paused. */
  predicate CanRead(x: State, s: Side) {
    Alive(At(x, Other(s)).sink) && !Silent(At(x, s))
  }

  /** A read of `n` octets arrives; history notes what a well-behaved loop never does. */
  function Noted(x: State, s: Side, n: nat): State {
    var d := At(x, s);
    With(x, s, d.(rude := d.rude || ReadPaused(At(x, Other(s)).sink), bulk := d.bulk || n > READ_MAX))
  }

  ghost predicate Grew(d: Dir, d': Dir, data: seq<byte>) {
    && d'.fed == d.fed + data && d'.cut == d.cut && (d.rude ==> d'.rude)
    && (d.eof ==> d'.eof) && Over(d') == Over(d) && (d'.live ==> d.live) && d'.foreign == d.foreign
    && Handed(d.sink) <= Handed(d'.sink) && (Refuses(d.sink) ==> Refuses(d'.sink))
    && SameKind(d.sink, d'.sink)
  }

  /** What an event leaves behind: `data` arrived on side `s`, nothing was unsaid. */
  ghost predicate Evolved(x: State, y: State, s: Side, data: seq<byte>) {
    && y.role == x.role && y.bound == x.bound && (x.closing ==> y.closing)
    && Grew(At(x, s), At(y, s), data) && Grew(At(x, Other(s)), At(y, Other(s)), [])
  }

  /** A read was taken on, or, after the end of the input, given up with the stream. */
  ghost predicate Took(x: State, y: State, s: Side, data: seq<byte>) {
    Evolved(x, y, s, data) || (At(x, s).eof && y == Closed(x) && Evolved(x, y, s, []))
  }

  lemma TookOn(x: State, y: State, s: Side, data: seq<byte>)
    requires Evolved(x, y, s, data)
    ensures Took(x, y, s, data)
  {
  }

  lemma EvolvedRefl(x: State, s: Side)
    ensures Evolved(x, x, s, [])
  {
    hide LegInv, Handed, Alive, SendClosed;
    assert At(x, s).fed + [] == At(x, s).fed && At(x, Other(s)).fed + [] == At(x, Other(s)).fed;
  }

  lemma EvolvedAfter(x: State, y: State, z: State, s: Side, data: seq<byte>)
    requires Evolved(x, y, s, data) && After(y, z)
    ensures Evolved(x, z, s, data)
  {
    hide LegInv, Handed, Completed, Accepted, Alive, SendClosed;
    assert Step(At(y, s), At(z, s)) && Step(At(y, Other(s)), At(z, Other(s)));
  }

  /** Callbacks about `s` leave the other direction as settled as it was. */
  lemma BesideSettled(x: State, y: State, s: Side)
    requires Ran(x, y, s) && Settled(x, Other(s))
    ensures Settled(y, Other(s))
  {
    hide LegInv, Sound, Step, Armed, Backlog, Alive, Energy;
    assert Step(At(x, Up), At(y, Up)) && Step(At(x, Down), At(y, Down));
    StepKeeps(At(x, Up), At(y, Up));
    StepKeeps(At(x, Down), At(y, Down));
    if x.bound && Healthy(y) { SettledAside(x, y, Other(s)); }
  }

  lemma SettledAside(x: State, y: State, t: Side)
    requires Settled(x, t) && Healthy(x) && Aside(At(x, t), At(y, t))
    requires y.role == x.role && y.bound == x.bound && (x.closing ==> y.closing) && (x.up.eof ==> y.up.eof)
    ensures Settled(y, t)
  {
    hide LegInv, Armed, Backlog, Alive;
  }

  lemma RanStable(x: State, y: State, s: Side)
    requires Stable(x) && Ran(x, y, s) && Settled(y, s)
    ensures Stable(y)
  {
    hide LegInv, Sound, Settled, Step;
    RanKeeps(x, y, s);
    BesideSettled(x, y, s);
  }

  /** The read is given up together with the stream. After the end of the input it was
      never taken on. */
  function Discarded(x: State, s: Side, data: seq<byte>): State {
    Closed(if At(x, s).eof then x else With(x, s, At(x, s).(fed := At(x, s).fed + data, lost := true)))
  }

  lemma ReadDiscarded(x: State, s: Side, data: seq<byte>)
    requires Stable(x) && !x.closing && (x.bound || s.Up?)
    ensures Stable(Discarded(x, s, data)) && Took(x, Discarded(x, s, data), s, data)
  {
    hide LegInv, Stable, Evolved, Closed;
    if At(x, s).eof { GivenUp(x, s); } else { Dropping(x, s, data); }
  }

  lemma GivenUp(x: State, s: Side)
    requires Stable(x) && !x.closing
    ensures Stable(Closed(x)) && Evolved(x, Closed(x), s, [])
  {
    hide LegInv, Sound, Settled, After, Evolved, Closed;
    ClosedSound(x);
    ClosedStable(x);
    EvolvedRefl(x, s);
    EvolvedAfter(x, x, Closed(x), s, []);
  }

  lemma Dropping(x: State, s: Side, data: seq<byte>)
    requires Stable(x) && !x.closing && (x.bound || s.Up?) && !At(x, s).eof
    ensures Stable(Discarded(x, s, data)) && Evolved(x, Discarded(x, s, data), s, data)
  {
    hide LegInv, SideOk, Settled, Handed, Alive, SendClosed, Accepted, Evolved;
    var y := Discarded(x, s, data);
    DroppingSide(x, s, data);
    DroppingOther(x, s, data);
    DroppingGrows(x, s, data);
    SidesSound(y, s);
    forall t ensures !At(y, t).flushing && Settled(y, t) {
      assert !At(x, t).flushing;
      ClosingSettled(y, t);
    }
  }

  lemma DroppingGrows(x: State, s: Side, data: seq<byte>)
    requires !At(x, s).eof
    ensures Evolved(x, Discarded(x, s, data), s, data)
  {
    hide LegInv, Grew, CloseLeg, Legs.Kept, Alive, Handed, Accepted;
    match s
    case Up =>
      DirGrows(x.up, data);
      DirGrows(x.down, []);
    case Down =>
      DirGrows(x.down, data);
      DirGrows(x.up, []);
  }

  lemma DirGrows(d: Dir, data: seq<byte>)
    ensures !d.eof ==> Grew(d, d.(sink := CloseLeg(d.sink), fed := d.fed + data, lost := true), data)
    ensures data == [] ==> Grew(d, d.(sink := CloseLeg(d.sink)), data)
  {
    hide LegInv, Handed, Accepted, SendClosed, CloseLeg;
  }

  lemma DroppingSide(x: State, s: Side, data: seq<byte>)
    requires Sound(x) && !x.closing && (x.bound || s.Up?) && !At(x, s).eof
    ensures SideOk(Discarded(x, s, data), s)
  {
    hide LegInv, DirOk, Accepted, Handed, Completed, Armed, ReadPaused, Delivered;
    assert SideOk(x, s) && SideOk(x, Other(s));
    DirDiscarded(At(x, s), data);
  }

  lemma DroppingOther(x: State, s: Side, data: seq<byte>)
    requires Sound(x) && !x.closing && (x.bound || s.Up?) && !At(x, s).eof
    ensures SideOk(Discarded(x, s, data), Other(s))
  {
    hide LegInv, DirOk, Accepted, Handed, Completed, Armed, ReadPaused, Delivered;
    assert SideOk(x, s) && SideOk(x, Other(s));
    DirDiscarded(At(x, Other(s)), data);
  }

  lemma ClosingSettled(x: State, s: Side)
    requires Sound(x) && x.closing
    ensures Settled(x, s)
  {
    assert SideOk(x, s);
  }

  lemma DirDiscarded(d: Dir, data: seq<byte>)
    requires DirOk(d, false)
    ensures DirOk(d.(sink := CloseLeg(d.sink)), true)
    ensures !d.eof ==> DirOk(d.(sink := CloseLeg(d.sink), fed := d.fed + data, lost := true), true)
  {
    hide LegInv, Accepted, Handed, Completed, Armed, ReadPaused;
  }

  /** `data` waits behind what already waits. */
  function Waits(x: State, s: Side, leg: Leg, data: seq<byte>): State {
    var d := At(x, s);
    With(x, s, d.(sink := leg, queue := d.queue + data, fed := d.fed + data))
  }

  lemma DirWaits(d: Dir, leg: Leg, data: seq<byte>)
    requires DirOk(d, false) && !d.flushing && !SendClosed(d.sink) && !d.cut && !d.lost
    requires d.rude || |d.queue| + |data| <= QUEUE_MAX
    requires leg == d.sink || WriteEffect(d.sink, data, leg, Busy, Quiet)
    ensures var e := d.(sink := leg, queue := d.queue + data, fed := d.fed + data); DirOk(e, false) && Grew(d, e, data)
    ensures Alive(leg) == Alive(d.sink) && ReadPaused(leg) == ReadPaused(d.sink)
  {
    hide LegInv, Accepted, Handed, Completed, Armed, ReadPaused;
    assert d.fed + data == Accepted(d.sink) + (d.queue + data);
  }

  lemma WaitsSound(x: State, s: Side, leg: Leg, data: seq<byte>)
    requires Sound(x) && x.bound && !x.closing && !At(x, s).flushing && !At(x, s).lost
    requires !SendClosed(At(x, s).sink) && !At(x, s).cut
    requires At(x, s).rude || |At(x, s).queue| + |data| <= QUEUE_MAX
    requires leg == At(x, s).sink || WriteEffect(At(x, s).sink, data, leg, Busy, Quiet)
    ensures Sound(Waits(x, s, leg, data)) && Evolved(x, Waits(x, s, leg, data), s, data)
  {
    hide LegInv, SideOk, DirOk, WriteEffect, Grew, Alive, SendClosed;
    SoundDir(x, s);
    DirWaits(At(x, s), leg, data);
    WaitsSide(x, s, leg, data);
    WaitsOther(x, s, leg, data);
    SidesSound(Waits(x, s, leg, data), s);
    GrewNothing(At(x, Other(s)));
  }

  lemma GrewNothing(d: Dir)
    ensures Grew(d, d, [])
  {
    assert d.fed + [] == d.fed;
  }

  lemma WaitsSide(x: State, s: Side, leg: Leg, data: seq<byte>)
    requires Sound(x) && x.bound && !x.closing && DirOk(At(Waits(x, s, leg, data), s), false)
    requires Grew(At(x, s), At(Waits(x, s, leg, data), s), data)
    ensures SideOk(Waits(x, s, leg, data), s)
  {
    hide LegInv, DirOk, Accepted, Handed, ReadPaused, Delivered;
    assert SideOk(x, s);
  }

  lemma WaitsOther(x: State, s: Side, leg: Leg, data: seq<byte>)
    requires Sound(x) && x.bound && !x.closing && Alive(leg) == Alive(At(x, s).sink)
    requires ReadPaused(leg) == ReadPaused(At(x, s).sink)
    ensures SideOk(Waits(x, s, leg, data), Other(s))
  {
    hide LegInv, DirOk, Accepted, Handed, ReadPaused, Delivered;
    assert SideOk(x, Other(s));
  }

  /** Before bind, the queue has room for every read that respects the pause: the
      branch that gives the stream up is not taken. */
  lemma RoomBeforeBind(x: State, data: seq<byte>)
    requires Stable(x) && !x.bound && !x.closing && CanRead(x, Up) && !Noted(x, Up, |data|).up.rude
    requires |data| <= READ_MAX || (x.up.queue == [] && |data| <= HIGH_WATER)
    ensures |x.up.queue| + |data| <= QUEUE_MAX
  {
    assert SideOk(x, Up) && SideOk(x, Down);
  }

  /** A read before bind: queue it, and pause the source at the high-water mark. */
  function Queued(x: State, data: seq<byte>): State {
    var y := Waits(x, Up, x.up.sink, data);
    if |y.up.queue| >= HIGH_WATER then SetReading(y, Up, true) else y
  }

  /** A read before the service-side leg is there, with room in the queue. */
  predicate JoinsQueue(x: State, s: Side, data: seq<byte>) {
    && !x.bound && !x.closing && s.Up? && |x.up.queue| + |data| <= QUEUE_MAX
    && (x.role.Agent? || !x.down.eof)
  }

  /** What was read is accepted by the sink, or waits for it behind everything else. */
  ghost predicate Joined(x: State, y: State, s: Side, data: seq<byte>) {
    || Accepted(At(x, s).sink) + data <= Accepted(At(y, s).sink)
    || At(y, s).queue == At(x, s).queue + data
  }

  /** What a read leaves behind. A read after the end of the input may be given up
      with the stream. */
  ghost predicate ReadEffect(x: State, y: State, s: Side, data: seq<byte>) {
    var w := Noted(x, s, |data|);
    if x.closing then y == x
    else
      && Took(w, y, s, data)
      && (JoinsQueue(x, s, data) ==> y == Queued(w, data))
      && (At(x, s).live && At(x, s).queue == [] && Smooth(At(x, s).sink, data) ==>
            y == Passed(w, s, Written(At(x, s).sink, data), data))
      && (JoinsQueue(x, s, data) || (At(x, s).live && !Refuses(At(x, s).sink)) ==> Joined(x, y, s, data))
  }

  lemma ReadQueued(x: State, data: seq<byte>)
    requires Stable(x) && !x.bound && !x.closing && CanRead(x, Up) && |x.up.queue| + |data| <= QUEUE_MAX
    ensures Stable(Queued(x, data)) && Evolved(x, Queued(x, data), Up, data)
  {
    hide LegInv, DirOk, Accepted, Handed, Completed, Armed, ReadPaused, Delivered, Step, Aside;
    assert SideOk(x, Up) && SideOk(x, Down);
    DirWaits(x.up, x.up.sink, data);
    DirPaused(Waits(x, Up, x.up.sink, data).up, true, false);
    DirPaused(x.down, true, false);
    assert SideOk(Queued(x, data), Up) && SideOk(Queued(x, data), Down);
  }

  /** A read of a bound relay that the sink had no room for, or that has to queue
      behind what already waits. */
  function Held(x: State, s: Side, leg: Leg, data: seq<byte>): State {
    SetReading(Waits(x, s, leg, data), s, true)
  }

  lemma ReadHeld(x: State, s: Side, leg: Leg, data: seq<byte>)
    requires Stable(x) && x.bound && !x.closing && CanRead(x, s)
    requires At(x, s).queue == [] || (At(x, s).rude && leg == At(x, s).sink)
    requires 0 < |data| <= HIGH_WATER && (|data| <= READ_MAX || At(x, s).bulk)
    requires leg == At(x, s).sink || WriteEffect(At(x, s).sink, data, leg, Busy, Quiet)
    requires At(x, s).queue == [] ==> WriteEffect(At(x, s).sink, data, leg, Busy, Quiet)
    ensures Stable(Held(x, s, leg, data)) && Evolved(x, Held(x, s, leg, data), s, data)
  {
    hide LegInv, Sound, Settled, Evolved, DirOk, Step, Accepted, Handed, Completed, ReadPaused, Delivered, Armed, Backlog;
    var y := Waits(x, s, leg, data);
    SoundKeeps(x, s);
    NotLost(At(x, s));
    StillOpen(x, s);
    WaitsSound(x, s, leg, data);
    ReadingSet(y, s, true);
    assert Settled(x, s) && Settled(x, Other(s));
    SettledArmed(x, s);
    HeldSettled(y, s);
    SettledSame(x, y, Other(s));
    OtherSettled(y, s, true);
    HeldEvolved(x, y, s, data);
  }

  /** A sink that octets wait for, or that is busy, was not half-closed. */
  lemma StillOpen(x: State, s: Side)
    requires Sound(x) && CanRead(x, s) && !x.closing && (At(x, s).queue != [] || !Refuses(At(x, s).sink))
    ensures !SendClosed(At(x, s).sink) && !At(x, s).cut
  {
    assert SideOk(x, s);
  }

  lemma SettledArmed(x: State, s: Side)
    requires Settled(x, s)
    ensures ArmedOk(x, s) && Pressed(x, s)
  {
  }

  lemma HeldEvolved(x: State, y: State, s: Side, data: seq<byte>)
    requires Evolved(x, y, s, data)
    ensures Evolved(x, SetReading(y, s, true), s, data)
  {
    hide LegInv, Handed, ReadPaused;
  }

  lemma NotLost(d: Dir)
    requires DirOk(d, false) && !d.flushing && (d.queue != [] || !Refuses(d.sink))
    ensures !d.lost
  {
  }

  lemma PassedStable(y: State, z: State, s: Side)
    requires Sound(y) && Settled(y, Other(s)) && !y.up.flushing && !y.down.flushing
    requires Ran(y, z, s) && Settled(z, s)
    ensures Stable(z)
  {
    hide LegInv, Sound, Settled, Step;
    RanKeeps(y, z, s);
    BesideSettled(y, z, s);
  }

  /** A read that finds octets waiting for a connected sink came from a source that
      ignored its pause. */
  lemma StableKeeps(x: State, s: Side)
    requires Stable(x) && CanRead(x, s) && !x.closing
    ensures At(x, s).live && At(x, s).queue != [] ==> forall n: nat :: At(Noted(x, s, n), s).rude
    ensures At(x, s).live || s.Down? ==> x.bound
    ensures s.Up? && !x.up.live && !(x.role.Broker? && x.down.eof) ==> !x.bound
  {
    hide LegInv, DirOk;
    assert SideOk(x, Up) && SideOk(x, Down) && Settled(x, s);
    SoundKeeps(x, Up);
  }

  /** What was written towards the client comes back only from a bound relay. */
  lemma SourceBound(x: State, s: Side)
    requires Sound(x) && Alive(At(x, Other(s)).sink)
    ensures x.bound || s.Up?
  {
    hide LegInv, DirOk;
    assert SideOk(x, Up);
  }

  /** `Settled` depends on little. */
  lemma SettledSame(x: State, y: State, t: Side)
    requires Settled(x, t) && y.role == x.role && y.bound == x.bound && y.closing == x.closing
    requires var d, e := At(x, t), At(y, t);
      && e.queue == d.queue && e.paused == d.paused && e.eof == d.eof && e.foreign == d.foreign && (d.bulk ==> e.bulk)
      && Armed(e.sink) == Armed(d.sink) && Backlog(e.sink) == Backlog(d.sink)
    requires (Healthy(y) ==> Healthy(x)) && y.up.eof == x.up.eof
    ensures Settled(y, t)
  {
    hide LegInv, Armed, Healthy;
  }

  lemma DirNoted(d: Dir, rude: bool, bulk: bool, closing: bool)
    requires DirOk(d, closing) && (d.rude ==> rude)
    ensures DirOk(d.(rude := rude, bulk := bulk), closing)
  {
    hide LegInv, Accepted;
  }

  lemma NotedStable(x: State, s: Side, n: nat)
    requires Stable(x)
    ensures Stable(Noted(x, s, n)) && Evolved(x, Noted(x, s, n), s, [])
  {
    hide LegInv, SideOk, Settled, Accepted, Handed, ReadPaused, Evolved;
    var y := Noted(x, s, n);
    NotedSide(x, s, n);
    NotedOther(x, s, n);
    NotedGrows(x, s, n);
    SidesSound(y, s);
    forall t ensures Settled(y, t) && !At(y, t).flushing {
      assert Settled(x, t) && !At(x, t).flushing;
      SettledSame(x, y, t);
    }
  }

  lemma NotedGrows(x: State, s: Side, n: nat)
    ensures Evolved(x, Noted(x, s, n), s, [])
  {
    hide LegInv, Handed, Accepted, ReadPaused;
    assert At(x, s).fed + [] == At(x, s).fed && At(x, Other(s)).fed + [] == At(x, Other(s)).fed;
  }

  lemma NotedSide(x: State, s: Side, n: nat)
    requires Sound(x)
    ensures SideOk(Noted(x, s, n), s)
  {
    hide LegInv, DirOk, Accepted, Delivered, ReadPaused;
    assert SideOk(x, s);
    var d := At(Noted(x, s, n), s);
    DirNoted(At(x, s), d.rude, d.bulk, x.closing);
  }

  lemma NotedOther(x: State, s: Side, n: nat)
    requires Sound(x)
    ensures SideOk(Noted(x, s, n), Other(s))
  {
    hide LegInv, DirOk, Accepted, Delivered, ReadPaused;
    assert SideOk(x, Other(s));
  }

  /** A read of a bound relay that went straight to the sink. */
  function Passed(x: State, s: Side, leg: Leg, data: seq<byte>): State {
    With(x, s, At(x, s).(sink := leg, fed := At(x, s).fed + data))
  }

  lemma DirPassed(d: Dir, leg: Leg, data: seq<byte>, f: Fired)
    requires DirOk(d, false) && !d.flushing && d.queue == []
    requires WriteEffect(d.sink, data, leg, Status.Ok, f)
    ensures var e := d.(sink := leg, fed := d.fed + data); DirOk(e, false) && Grew(d, e, data)
  {
    hide LegInv, Accepted, Handed, Completed, Armed, ReadPaused;
  }

  lemma ReadPassed(x: State, s: Side, leg: Leg, data: seq<byte>, f: Fired)
    requires Stable(x) && x.bound && !x.closing && At(x, s).queue == []
    requires WriteEffect(At(x, s).sink, data, leg, Status.Ok, f)
    ensures var y := Passed(x, s, leg, data);
      && Sound(y) && Evolved(x, y, s, data) && (f.Low? || Settled(y, s)) && Settled(y, Other(s)) && Pressed(y, s)
      && !y.up.flushing && !y.down.flushing
    ensures f.Error? ==> !Alive(leg)
  {
    hide LegInv, DirOk, Accepted, Handed, Completed, Armed, Backlog, ReadPaused, Delivered;
    var y := Passed(x, s, leg, data);
    assert SideOk(x, s) && SideOk(x, Other(s)) && Settled(x, Other(s)) && Settled(x, s);
    assert !At(x, s).flushing && !At(x, Other(s)).flushing;
    DirPassed(At(x, s), leg, data, f);
    GrewNothing(At(x, Other(s)));
    assert SideOk(y, s);
    assert SideOk(y, Other(s));
    SidesSound(y, s);
  }

  lemma LegClosed(l: Leg)
    requires Alive(l)
    ensures StepEffect(l, CloseLeg(l), Error)
  {
  }

  // ------------------------------------------- the first flush into a new leg

  /** What a first flush leaves of a queue: the buffer of a new TCP leg takes one
      piece and cannot grow while that piece is in flight. */
  function Beyond(q: seq<byte>): seq<byte> {
    if |q| <= FLUSH_MAX then [] else q[FLUSH_MAX..]
  }

  /** How far a flush of side `s` that started in `x` has come in `y`, when the sink
      was a new TCP leg. */
  ghost predicate Pushing(x: State, y: State, s: Side) {
    var d, e := At(x, s), At(y, s);
    NewTcp(d.sink) && !x.closing && d.queue != [] ==>
      || y == x
      || (Tcp.NextNet(d.sink.t) && !y.closing && e.queue == Beyond(d.queue) && e.eof == d.eof
          && WroteTcp(d.sink, d.queue[..Min(|d.queue|, FLUSH_MAX)], e.sink, Status.Ok, Quiet, Done))
      || (!Tcp.NextNet(d.sink.t) && (x.role.Agent? ==> y.closing))
  }

  /** The end of such a flush. */
  ghost predicate Pushed(x: State, y: State, s: Side) {
    var d, e := At(x, s), At(y, s);
    NewTcp(d.sink) && !x.closing && d.queue != [] ==>
      if Tcp.NextNet(d.sink.t) then !y.closing && e.queue == Beyond(d.queue) && e.eof == d.eof else x.role.Agent? ==> y.closing
  }

  lemma PushStarts(x: State, s: Side)
    ensures Pushing(x, x, s)
  {
  }

  lemma PushFirst(x: State, s: Side, leg: Leg, r: Status, f: Fired, c: Cont)
    requires At(x, s).queue != [] && NewTcp(At(x, s).sink)
    requires WroteTcp(At(x, s).sink, At(x, s).queue[..Min(|At(x, s).queue|, FLUSH_MAX)], leg, r, f, c)
    ensures r.Ok? && c.Done? && f == if Tcp.NextNet(At(x, s).sink.t) then Quiet else Error
  {
    Tcp.FirstWrite(At(x, s).sink.t.net, At(x, s).queue[..Min(|At(x, s).queue|, FLUSH_MAX)]);
  }

  lemma PushSecond(x: State, y: State, s: Side, piece: seq<byte>, leg: Leg, r: Status, f: Fired, c: Cont)
    requires Pushing(x, y, s) && NewTcp(At(x, s).sink) && !x.closing && At(x, s).queue != [] && y != x
    requires Tcp.NextNet(At(x, s).sink.t) && At(y, s).queue != [] && piece != []
    requires WroteTcp(At(y, s).sink, piece, leg, r, f, c)
    ensures r.Busy?
  {
    Tcp.SecondWrite(At(x, s).sink.t.net, At(x, s).queue[..FLUSH_MAX], piece);
  }

  /** One turn of the flush loop, with the write's own callbacks run in `z`. */
  lemma PushTurn(x: State, y: State, s: Side, leg: Leg, r: Status, f: Fired, c: Cont, z: State)
    requires Pushing(x, y, s) && At(y, s).queue != [] && !y.closing && y.role == x.role && !At(y, s).flushing
    requires var n := Min(|At(y, s).queue|, FLUSH_MAX); WroteTcp(At(y, s).sink, At(y, s).queue[..n], leg, r, f, c)
    requires r.Ok? && (f.Quiet? && c.Done? ==> z == Writing(y, s, leg))
    requires f.Error? && y.role.Agent? ==> z.closing
    ensures Pushing(x, Advanced(z, s, Min(|At(y, s).queue|, FLUSH_MAX)), s)
  {
    hide LegInv, WroteTcp, Tcp.NextNet, Tcp.Fresh;
    if NewTcp(At(x, s).sink) && !x.closing && At(x, s).queue != [] {
      if y == x {
        PushFirst(x, s, leg, r, f, c);
      } else if Tcp.NextNet(At(x, s).sink.t) {
        PushSecond(x, y, s, At(y, s).queue[..Min(|At(y, s).queue|, FLUSH_MAX)], leg, r, f, c);
      }
    }
  }

  /** The loop ends: the queue is empty, the leg is busy, or the stream closed. */
  lemma PushEnds(x: State, y: State, s: Side)
    requires Pushing(x, y, s) && (At(y, s).queue == [] || y.closing)
    ensures Pushed(x, y, s)
  {
    hide LegInv, WroteTcp, Tcp.NextNet, Tcp.Fresh;
  }

  lemma PushStops(x: State, y: State, s: Side, leg: Leg, r: Status, f: Fired, c: Cont)
    requires Pushing(x, y, s) && At(y, s).queue != [] && !y.closing && y.role == x.role
    requires var n := Min(|At(y, s).queue|, FLUSH_MAX); WroteTcp(At(y, s).sink, At(y, s).queue[..n], leg, r, f, c)
    requires !r.Ok?
    ensures Pushed(x, if r.Busy? then WithSink(y, s, leg) else Dropped(y, s), s)
  {
    hide LegInv, WroteTcp, Tcp.NextNet, NewTcp, Pushing, Beyond;
    if NewTcp(At(x, s).sink) && !x.closing && At(x, s).queue != [] {
      PushStopped(x, y, s, leg, r, f, c);
    }
  }

  /** A write that was not accepted ends a first flush only after its first piece. */
  lemma PushStopped(x: State, y: State, s: Side, leg: Leg, r: Status, f: Fired, c: Cont)
    requires Pushing(x, y, s) && At(y, s).queue != [] && !y.closing && y.role == x.role
    requires var n := Min(|At(y, s).queue|, FLUSH_MAX); WroteTcp(At(y, s).sink, At(y, s).queue[..n], leg, r, f, c)
    requires !r.Ok? && NewTcp(At(x, s).sink) && !x.closing && At(x, s).queue != []
    ensures Tcp.NextNet(At(x, s).sink.t) ==>
      r.Busy? && At(y, s).queue == Beyond(At(x, s).queue) && At(y, s).eof == At(x, s).eof
    ensures !Tcp.NextNet(At(x, s).sink.t) ==> x.role.Broker?
  {
    hide LegInv, WroteTcp, Tcp.NextNet, Tcp.Fresh, Beyond;
    if y == x {
      PushFirst(x, s, leg, r, f, c);
    } else if Tcp.NextNet(At(x, s).sink.t) {
      PushSecond(x, y, s, At(y, s).queue[..Min(|At(y, s).queue|, FLUSH_MAX)], leg, r, f, c);
    }
  }

  // --------------------------------------------------------------------- bind

  predicate FreshLeg(l: Leg) {
    Alive(l) && !SendClosed(l) && !ReadPaused(l)
  }

  /** The service-side leg is attached; an open tunnel's client leg starts now. What
      a new leg accepted before counts as fed to it. A peer's leg that died in the
      meantime is replaced as if the tunnel were open. (A fresh client leg that takes
      over from a paused one starts paused: no read can come before `Bind` settles
      that at its end.) */
  function Bound(x: State, leg: Leg, client: Leg): State {
    var u := x.up.(sink := leg, live := true, fed := Accepted(leg) + x.up.fed,
                   foreign := !x.down.live && x.down.sink != NoLeg);
    var d := if x.down.live then x.down
             else x.down.(sink := SetPaused(client, x.up.paused), live := true, fed := Accepted(client));
    x.(up := u, down := d, bound := true)
  }

  lemma DirFresh(d: Dir, leg: Leg, foreign: bool)
    requires DirOk(d, false) && !d.flushing && !d.fin && !d.lost && !d.cut
    requires Alive(leg) && !SendClosed(leg)
    ensures d.sink == NoLeg ==> DirOk(d.(sink := leg, live := true, fed := Accepted(leg) + d.fed, foreign := foreign), false)
    ensures d.queue == [] ==> DirOk(d.(sink := leg, live := true, fed := Accepted(leg)), false)
  {
    hide LegInv, Handed, Completed, Armed, ReadPaused;
    assert d.sink == NoLeg ==> d.fed == d.queue;
  }

  lemma BoundSound(x: State, leg: Leg, client: Leg)
    requires Stable(x) && !x.bound && !x.closing && FreshLeg(leg) && FreshLeg(client)
    ensures Sound(Bound(x, leg, client))
  {
    hide LegInv, DirOk, Accepted, Delivered, Armed, ReadPaused;
    assert SideOk(x, Up) && SideOk(x, Down);
    DirFresh(x.up, leg, Bound(x, leg, client).up.foreign);
    DirFresh(x.down, SetPaused(client, x.up.paused), false);
    assert SideOk(Bound(x, leg, client), Up) && SideOk(Bound(x, leg, client), Down);
  }

  lemma HeldSettled(x: State, s: Side)
    requires x.bound && ArmedOk(x, s) && At(x, s).queue != []
    ensures Settled(SetReading(x, s, true), s)
  {
    hide LegInv, Armed, ReadPaused;
  }

  lemma OtherSettled(x: State, s: Side, paused: bool)
    requires Settled(x, Other(s))
    ensures Settled(SetReading(x, s, paused), Other(s))
  {
    hide LegInv, Settled, Armed, ReadPaused;
    SettledSame(x, SetReading(x, s, paused), Other(s));
  }

  /** The agent half-closes the local leg although octets still wait for it. */
  function CutOff(x: State, leg: Leg): State {
    x.(up := x.up.(sink := leg, cut := true))
  }

  lemma DirCut(d: Dir, leg: Leg, f: Fired)
    requires DirOk(d, false) && !d.flushing && d.eof && d.queue != [] && ShutEffect(d.sink, leg, f)
    ensures DirOk(d.(sink := leg, cut := true), false)
  {
    hide LegInv, Handed, Completed, Armed, ReadPaused;
  }

  lemma CutSound(x: State, leg: Leg, f: Fired)
    requires Stable(x) && x.bound && !x.closing && x.up.eof && x.up.queue != [] && x.role.Agent?
    requires ShutEffect(x.up.sink, leg, f)
    ensures var y := CutOff(x, leg); Sound(y) && Pressed(y, Up) && Settled(y, Down) && (f.Low? || Settled(y, Up))
    ensures f.Error? ==> !Alive(leg)
  {
    hide LegInv, DirOk, Accepted, Handed, Completed, ReadPaused, Delivered;
    assert SideOk(x, Up) && SideOk(x, Down) && Settled(x, Up) && Settled(x, Down);
    DirCut(x.up, leg, f);
    assert SideOk(CutOff(x, leg), Up) && SideOk(CutOff(x, leg), Down);
  }

  /** What binding leaves behind: the feeds start with what the legs had accepted,
      and only the agent can cut the queue off, after the broker's early end. */
  ghost predicate BindEffect(x: State, y: State, leg: Leg, client: Leg) {
    var c := if x.down.live then x.down.sink else client;
    && y.role == x.role && y.bound
    && y.up.fed == Accepted(leg) + x.up.fed
    && y.down.fed == (if x.down.live then x.down.fed else Accepted(client))
    && Handed(leg) <= Handed(y.up.sink) && Handed(c) <= Handed(y.down.sink)
    && (x.up.eof ==> y.up.eof) && (x.down.eof ==> y.down.eof)
    && Over(y.up) == Over(x.up) && Over(y.down) == Over(x.down)
    && (y.up.cut ==> x.role.Agent? && y.up.eof)
    && y.up.foreign == (!x.down.live && x.down.sink != NoLeg) && SameKind(c, y.down.sink)
  }

  lemma BoundEffect(x: State, leg: Leg, client: Leg)
    requires Sound(x) && !x.bound
    ensures BindEffect(x, Bound(x, leg, client), leg, client)
    ensures Settled(Bound(x, leg, client), Down)
  {
    hide LegInv, DirOk, Armed, ReadPaused;
    assert SideOk(x, Up);
  }

  lemma BindEffectAfter(x: State, y: State, z: State, leg: Leg, client: Leg)
    requires BindEffect(x, y, leg, client) && After(y, z)
    ensures BindEffect(x, z, leg, client)
  {
    hide LegInv, Accepted, Completed, Alive, SendClosed;
    assert Step(At(y, Up), At(z, Up)) && Step(At(y, Down), At(z, Down));
  }

  /** The waiting octets pause the client, or their absence resumes it. */
  function Balanced(x: State): State {
    if x.up.queue != [] then SetReading(x, Up, true) else if x.up.paused then SetReading(x, Up, false) else x
  }

  lemma BalancedStable(x: State)
    requires Sound(x) && x.bound && !x.up.flushing && !x.down.flushing
    requires x.up.queue == [] || ArmedOk(x, Up)
    requires Settled(x, Down)
    ensures Stable(Balanced(x))
  {
    hide LegInv, Sound, Settled, ArmedOk;
    if x.up.queue != [] {
      ReadingSet(x, Up, true);
      HeldSettled(x, Up);
      OtherSettled(x, Up, true);
    } else if x.up.paused {
      ReadingSet(x, Up, false);
      WokenUp(SetReading(x, Up, false), Up);
      OtherSettled(x, Up, false);
    } else {
      WokenUp(x, Up);
    }
  }

  lemma BalancedEffect(x: State, y: State, leg: Leg, client: Leg)
    requires BindEffect(x, y, leg, client)
    ensures BindEffect(x, Balanced(y), leg, client)
  {
    hide LegInv, Accepted, Handed, SetReading;
    ReadingStory(y, true);
    ReadingStory(y, false);
  }

  /** Pausing reads changes no history. */
  ghost predicate SameStory(d: Dir, d': Dir) {
    && d'.fed == d.fed && d'.eof == d.eof && d'.broken == d.broken && d'.cut == d.cut
    && d'.foreign == d.foreign && SameKind(d.sink, d'.sink)
    && Handed(d'.sink) == Handed(d.sink)
  }

  lemma ReadingStory(x: State, paused: bool)
    ensures var y := SetReading(x, Up, paused);
      y.role == x.role && y.bound == x.bound && SameStory(x.up, y.up) && SameStory(x.down, y.down)
  {
    hide LegInv, Handed, ReadPaused, Accepted, Completed, Armed;
  }

  lemma AfterStable(x: State, y: State, s: Side)
    requires Stable(x) && Sound(y) && After(Ending(x, s), y)
    requires forall t :: Settled(x, t) && !At(x, t).flushing ==> Settled(y, t)
    ensures Stable(y)
  {
    hide LegInv, Sound, Settled;
    forall t ensures !At(y, t).flushing && Settled(y, t) {
      assert !At(x, t).flushing && Settled(x, t);
      assert Step(At(Ending(x, s), t), At(y, t));
    }
  }

  lemma StableParts(x: State, s: Side)
    requires Stable(x)
    ensures Sound(x) && Settled(x, s) && Settled(x, Other(s)) && Pressed(x, s) && ArmedOk(x, s)
    ensures !At(x, s).flushing && !At(x, Other(s)).flushing
  {
    hide LegInv, Sound;
  }

  lemma HalfSettled(x: State, leg: Leg, f: Fired)
    requires Stable(x) && x.up.eof && x.up.queue == []
    requires Ran(x, HalfClosed(x, Up, leg, false), Up)
    ensures var y := HalfClosed(x, Up, leg, false); Settled(y, Up) && Settled(y, Down) && Pressed(y, Up)
  {
    hide LegInv, Sound, Settled;
    StableParts(x, Up);
    WokenUp(HalfClosed(x, Up, leg, false), Up);
    BesideSettled(x, HalfClosed(x, Up, leg, false), Up);
  }

  /** When the agent cuts a stream off: the broker's input ended before the local
      connect, more than one piece waits, and the first write to the new socket works. */
  ghost predicate TooLate(x: State, leg: Leg) {
    x.role.Agent? && x.up.eof && |x.up.queue| > FLUSH_MAX && leg.TcpLeg? && Tcp.NextNet(leg.t)
  }

  ghost predicate CutExactly(x: State, y: State, leg: Leg) {
    NewTcp(leg) && x.role.Agent? ==> (y.up.cut <==> TooLate(x, leg))
  }

  /** What binding leaves behind, in full. */
  ghost predicate BindDone(x: State, y: State, leg: Leg, client: Leg) {
    if x.closing then y == x
    else
      && BindEffect(x, y, leg, client) && CutExactly(x, y, leg)
      && ((x.role.Broker? || !x.up.eof) && x.up.queue == [] ==> y == Balanced(Bound(x, leg, client)))
  }

  /** A relay whose new leg just got what came before it. */
  ghost predicate Flushed(x: State, y: State, leg: Leg, client: Leg) {
    forall s :: s == Up ==>
      && Sound(y) && y.bound && y.role == x.role && BindEffect(x, y, leg, client) && !y.up.cut
      && !y.up.flushing && !y.down.flushing && Settled(y, Down) && (At(y, s).queue == [] || ArmedOk(y, s))
      && (x.up.queue == [] ==> y == Bound(x, leg, client) && y.up.eof == x.up.eof)
      && (NewTcp(leg) && x.role.Agent? ==> (!y.closing && y.up.eof && y.up.queue != [] <==> TooLate(x, leg)))
  }

  lemma FlushedParts(x: State, y: State, leg: Leg, client: Leg)
    requires Flushed(x, y, leg, client)
    ensures Sound(y) && y.bound && y.role == x.role && BindEffect(x, y, leg, client) && !y.up.cut
    ensures !y.up.flushing && !y.down.flushing && Settled(y, Down) && (y.up.queue == [] || ArmedOk(y, Up))
    ensures x.up.queue == [] ==> y == Bound(x, leg, client) && y.up.eof == x.up.eof
    ensures NewTcp(leg) && x.role.Agent? ==> (!y.closing && y.up.eof && y.up.queue != [] <==> TooLate(x, leg))
  {
    hide LegInv, Sound, BindEffect, Settled, ArmedOk, NewTcp, TooLate, Bound;
    assert At(y, Up) == y.up;
  }

  /** Pausing and resuming changes nothing else. */
  lemma BalancedSame(x: State)
    ensures var y := Balanced(x);
      && y.up.queue == x.up.queue && y.closing == x.closing && y.role == x.role && y.bound == x.bound
      && y.up.eof == x.up.eof && y.up.cut == x.up.cut
  {
    hide LegInv;
  }

  lemma FlushedBalanced(x: State, y: State, leg: Leg, client: Leg)
    requires Flushed(x, y, leg, client)
    ensures var z := Balanced(y);
      Stable(z) && z.bound && z.role == x.role && BindEffect(x, z, leg, client) && !z.up.cut
  {
    hide LegInv, Sound, BindEffect, Settled, ArmedOk, NewTcp, TooLate, Bound, Flushed, Stable, Balanced;
    FlushedParts(x, y, leg, client);
    BalancedStable(y);
    BalancedEffect(x, y, leg, client);
    BalancedSame(y);
  }

  lemma BindNothing(x: State, leg: Leg, client: Leg)
    ensures x.closing ==> BindDone(x, x, leg, client)
  {
    hide LegInv, BindEffect, CutExactly, Balanced, Bound;
  }

  /** Binding without the agent's early half-close. */
  lemma FlushBinds(x: State, y: State, leg: Leg, client: Leg)
    requires Flushed(x, y, leg, client) && !x.closing && !(x.role.Agent? && Balanced(y).up.eof)
    ensures BindDone(x, Balanced(y), leg, client)
  {
    hide LegInv, Sound, BindEffect, Settled, ArmedOk, NewTcp, TooLate, Bound, Flushed, Stable, Balanced;
    FlushedParts(x, y, leg, client);
    FlushedBalanced(x, y, leg, client);
    BalancedSame(y);
  }

  /** Binding with it. */
  lemma FinBinds(x: State, y: State, z: State, leg: Leg, client: Leg)
    requires Flushed(x, y, leg, client) && !x.closing && x.role.Agent? && Balanced(y).up.eof && BindEffect(x, z, leg, client)
    requires var w := Balanced(y); z.up.cut <==> !w.closing && w.up.queue != []
    ensures BindDone(x, z, leg, client)
  {
    hide LegInv, Sound, BindEffect, Settled, ArmedOk, NewTcp, TooLate, Bound, Flushed, Stable, Balanced;
    FlushedParts(x, y, leg, client);
    BalancedSame(y);
  }

  /** After the first flush octets still wait exactly in that case. */
  lemma StillWaits(x: State, y: State, leg: Leg, client: Leg)
    requires Stable(x) && !x.bound && !x.closing && NewTcp(leg) && x.role.Agent?
    requires if x.up.queue == [] then y == Bound(x, leg, client) else Pushed(Bound(x, leg, client), y, Up)
    ensures !y.closing && y.up.eof && y.up.queue != [] <==> TooLate(x, leg)
  {
    hide LegInv, DirOk, Step, Ran, Sound, Tcp.NextNet, Tcp.Fresh;
  }

  lemma BoundKeeps(x: State, leg: Leg, client: Leg)
    requires Stable(x) && !x.bound
    ensures var y := Bound(x, leg, client);
      y.role == x.role && y.up.eof == x.up.eof && y.up.queue == x.up.queue && y.up.sink == leg && !y.up.cut
  {
    hide LegInv, DirOk, Settled;
    assert SideOk(x, Up);
  }

  lemma CutKept(x: State, y: State)
    requires After(x, y)
    ensures y.up.cut == x.up.cut
  {
    assert Step(At(x, Up), At(y, Up));
  }

  lemma NeverCut(x: State, y: State, leg: Leg, client: Leg)
    requires Stable(x) && !x.bound && After(Bound(x, leg, client), y)
    ensures !y.up.cut
  {
    hide LegInv, DirOk, Settled;
    assert SideOk(x, Up);
    assert Step(At(Bound(x, leg, client), Up), At(y, Up));
  }

  lemma CutEffect(x: State, y: State, leg: Leg, f: Fired, leg0: Leg, client: Leg)
    requires BindEffect(x, y, leg0, client) && y.role.Agent? && y.up.eof && ShutEffect(y.up.sink, leg, f)
    ensures BindEffect(x, CutOff(y, leg), leg0, client)
  {
    hide LegInv, Accepted, Handed;
  }

  /** What the callbacks after the agent's early half-close may rely on. */
  ghost predicate Halved(x: State, y: State, f: Fired, leg0: Leg, client: Leg) {
    forall s :: s == Up ==>
      && Sound(y) && y.bound && BindEffect(x, y, leg0, client) && Pressed(y, s)
      && !y.up.flushing && !y.down.flushing && Settled(y, Down) && (f.Low? || Settled(y, s))
      && (f.Error? ==> !Alive(At(y, s).sink))
  }

  lemma FinReady(x: State, y: State, leg: Leg, f: Fired, leg0: Leg, client: Leg)
    requires Stable(y) && y.bound && y.up.eof && y.up.queue == [] && BindEffect(x, y, leg0, client)
    requires ShutEffect(y.up.sink, leg, f)
    ensures Halved(x, HalfClosed(y, Up, leg, false), f, leg0, client)
  {
    hide LegInv, Stable, Sound, Settled, Pressed, Ran, After, BindEffect, ShutEffect, Alive;
    var z := HalfClosed(y, Up, leg, false);
    StableParts(y, Up);
    FinPassed(y, Up, leg, f, false);
    HalfSettled(y, leg, f);
    RanKeeps(y, z, Up);
    BindEffectAfter(x, y, z, leg0, client);
  }

  lemma CutReady(x: State, y: State, leg: Leg, f: Fired, leg0: Leg, client: Leg)
    requires Stable(y) && y.bound && !y.closing && y.up.eof && y.up.queue != [] && y.role.Agent?
    requires BindEffect(x, y, leg0, client) && ShutEffect(y.up.sink, leg, f)
    ensures Halved(x, CutOff(y, leg), f, leg0, client)
  {
    hide LegInv, Stable, Sound, Settled, Pressed, BindEffect, ShutEffect, Alive;
    StableParts(y, Up);
    CutSound(y, leg, f);
    CutEffect(x, y, leg, f, leg0, client);
  }

  lemma ClosedStable(x: State)
    requires Stable(x) && Sound(Closed(x))
    ensures Stable(Closed(x))
  {
    hide LegInv, Sound, Settled;
    forall t ensures !At(Closed(x), t).flushing && Settled(Closed(x), t) {
      assert !At(x, t).flushing;
      ClosingSettled(Closed(x), t);
    }
  }
}
