/** The relay that pairs two legs and moves octets both ways with bounded queues,
    pause/resume backpressure and half-close. The broker (`broker/src/relay.c`) and
    the agent (`agent/src/tcp.c`) run the same code with the differences marked by
    `role`; each callback there exists once per direction, here once per side.

    A leg calls back from inside the relay's own calls into it, and those callbacks
    call into the legs again: `FlushPend`, `Dispatch`, `Low`, `Error` and `PassFin`
    are recursive as in the source. A read is an event: resuming a leg makes further
    reads possible, it does not perform them. */
module Relays {
  import opened Bytes
  import opened Wire
  import opened Legs
  import opened RelayState

  class Relay {
    var st: State

    /** `tm_stream_close`, `tm_astream_close` */
    method Close()
      requires Sound(st) && !st.closing
      modifies this
      ensures Sound(st) && After(old(st), st) && st == Closed(old(st)) && st.closing
    {
      hide LegInv, Sound, After, CloseLeg;
      ClosedSound(st);
      st := st.(closing := true, up := st.up.(sink := CloseLeg(st.up.sink)), down := st.down.(sink := CloseLeg(st.down.sink)));
    }

    /** Close once both sources ended and every queued octet left its socket;
        dropping a leg with unsent data would lose the tail. */
    method MaybeClose()
      requires Sound(st)
      modifies this
      ensures Ran(old(st), st, Up) && Ran(old(st), st, Down)
      ensures !ReadyToClose(old(st)) ==> st == old(st)
      ensures ReadyToClose(old(st)) ==> st.closing && (Whole(old(st)) ==> st.clean)
      ensures !ReadyToClose(st)
      ensures forall t :: Settled(old(st), t) ==> Settled(st, t)
    {
      hide LegInv, Sound, Step, Accepted, Handed, Completed, Armed, ReadPaused;
      RanRefl(st, Up);
      RanRefl(st, Down);
      if !ReadyToClose(st) { return; }
      var whole := Whole(st);
      Close();
      if whole {
        ClosedClean(old(st));
        st := st.(clean := true);
      }
    }

    /** The low-water and error callbacks of the sink of `s`, then the rest of what
        that leg was doing. */
    method Dispatch(s: Side, f: Fired, c: Cont)
      requires Sound(st) && (st.bound || s.Down?)
      requires f.Error? ==> !Alive(At(st, s).sink)
      modifies this
      ensures Ran(old(st), st, s)
      ensures !At(old(st), s).flushing && Pressed(old(st), s) && (f.Low? || Settled(old(st), s))
              ==> Settled(st, s)
      ensures f.Quiet? && Settles(At(old(st), s).sink, c) ==> st == old(st)
      ensures f.Error? && old(st).role.Agent? ==> st.closing
      ensures f.Error? ==> DroppedLeg(old(st), st, s)
      ensures ReadyToClose(st) ==> f.Quiet? && ReadyToClose(old(st)) && (c.ShutNext? ==> Settles(At(old(st), s).sink, c))
      ensures f.Low? && !At(old(st), s).flushing ==> FinDone(old(st), st, s)
      decreases Fuel(st), 5, Rank(c), 1
    {
      hide LegInv, Sound, Ran, Settled, Pressed, Fuel, Drained, Alive, Settles, SameKind;
      RanRefl(st, s);
      SettlesDone(At(st, s).sink);
      if f.Low? { Low(s); } else if f.Error? { Error(s); }
      RanKeeps(old(st), st, s);
      if !c.Done? {
        ghost var x := st;
        SoundKeeps(x, s);
        Proceed(s, c);
        RanKeeps(x, st, s);
        RanTrans(old(st), x, st, s);
      }
    }

    /** What a leg does after a callback, and the callbacks of that. */
    method Proceed(s: Side, c: Cont)
      requires Sound(st) && (st.bound || s.Down?) && !c.Done?
      modifies this
      ensures Ran(old(st), st, s)
      ensures !At(old(st), s).flushing && Settled(old(st), s) ==> Settled(st, s)
      ensures Settles(At(old(st), s).sink, c) ==> st == old(st)
      ensures ReadyToClose(st) ==> ReadyToClose(old(st)) && (c.ShutNext? ==> Settles(At(old(st), s).sink, c))
      ensures !At(old(st), s).flushing && FinDone(old(st), old(st), s) ==> FinDone(old(st), st, s)
      decreases Fuel(st), 5, Rank(c), 0
    {
      hide LegInv, Sound, Ran, Settled, Pressed, Fuel, StepEffect, ContinuesAs, Drained, Alive, Settles, SameKind, FinDone,
        ReadyToClose, DroppedLeg;
      ghost var x := st;
      var leg, f, c' := Continue(At(st, s).sink, c);
      SinkStepped(st, s, leg, f);
      SinkSettled(st, s, leg, f);
      if Settled(st, s) { SettledArmed(st, s); }
      ReadyBefore(st, s, leg);
      SameSink(st, s);
      st := WithSink(st, s, leg);
      RanKeeps(x, st, s);
      SettlesDone(leg);
      ghost var y := st;
      Dispatch(s, f, c');
      if !At(x, s).flushing && FinDone(x, x, s) { FinProceeds(x, s, leg, f, st); }
      RanTrans(x, y, st, s);
    }

    /** The sink of `s` drained: push what waits, pass on a half-close, resume. Run
        from inside a write to that sink, this does nothing: a flush in progress
        holds the queue, and a read in progress found it empty. */
    method Low(s: Side)
      requires Sound(st) && (st.bound || s.Down?)
      modifies this
      ensures Ran(old(st), st, s)
      ensures At(old(st), s).flushing || old(st).closing ==> st == old(st)
      ensures Idle(At(old(st), s)) ==> st == old(st)
      ensures !At(old(st), s).flushing && Pressed(old(st), s) ==> Settled(st, s)
      ensures !ReadyToClose(st)
      ensures !old(st).closing && At(old(st), s).live && At(old(st), s).eof && At(st, s).queue == [] ==> At(st, s).fin
      decreases Fuel(st), 3, 0
    {
      hide LegInv, Sound, Ran, Settled, Pressed, Fuel, Drained;
      RanRefl(st, s);
      SoundKeeps(st, s);
      if st.closing { return; }
      if !At(st, s).live {
        MaybeClose();
        return;
      }
      FlushPend(s);
      ghost var x := st;
      RanKeeps(old(st), x, s);
      if At(st, s).queue == [] {
        Wake(s);
      } else {
        ReadyIsEmpty(st, s);
        MaybeClose();
      }
      RanTrans(old(st), x, st, s);
    }

    /** The end of a low-water callback that left nothing waiting. */
    method Wake(s: Side)
      requires Sound(st) && (st.bound || s.Down?)
      requires At(st, s).queue == []
      modifies this
      ensures Ran(old(st), st, s)
      ensures Idle(At(old(st), s)) ==> st == old(st)
      ensures Settled(st, s) && !ReadyToClose(st) && (At(old(st), s).eof ==> At(st, s).fin)
      decreases Fuel(st), 2, 0
    {
      hide LegInv, Sound, Ran, Fuel, Settled, Alive, SetReading, ReadyToClose;
      RanRefl(st, s);
      IdleNotReady(st, s);
      if At(st, s).eof && !At(st, s).fin { PassFin(s); }
      RanKeeps(old(st), st, s);
      ghost var x := st;
      SoundKeeps(st, Other(s));
      if At(st, s).paused && At(st, Other(s)).live {
        Resumed(st, s);
        st := SetReading(st, s, false);
        RanTrans(old(st), x, st, s);
        RanKeeps(x, st, s);
      }
      WokenUp(st, s);
      ghost var y := st;
      MaybeClose();
      RanKeeps(y, st, s);
      RanTrans(old(st), y, st, s);
    }

    /** Feed the queue of `s` to its sink in pieces, until the sink is busy. A write
        may run the callbacks of the sink before the piece left the queue; the
        flag keeps them off it. */
    method FlushPend(s: Side)
      requires Sound(st) && (st.bound || s.Down?)
      modifies this
      ensures Ran(old(st), st, s)
      ensures At(old(st), s).flushing || At(old(st), s).queue == [] ==> st == old(st)
      ensures Pressed(old(st), s) && At(st, s).queue != [] && !At(st, s).flushing ==> Settled(st, s)
      ensures At(st, s).flushing || At(st, s).queue == [] || ArmedOk(st, s)
      ensures !At(old(st), s).flushing ==> Pushed(old(st), st, s) && StaysArmed(old(st), st, s) && Jammed(st, s)
      decreases Fuel(st), 2, 0
    {
      hide LegInv, Sound, Ran, Settled, Pressed, Fuel, WriteEffect, WriteQuiet, ArmedOk, Pushing, Pushed, WroteTcp, Adding, StaysArmed,
        Smooth, Written;
      RanRefl(st, s);
      if At(st, s).flushing { return; }
      SoundKeeps(st, s);
      PushStarts(st, s);
      AddingStarts(st, s);
      while At(st, s).queue != [] && !st.closing
        invariant Ran(old(st), st, s) && Sound(st) && st.bound == old(st).bound
        invariant !At(st, s).flushing
        invariant At(old(st), s).queue == [] ==> st == old(st)
        invariant Pressed(old(st), s) ==> Pressed(st, s)
        invariant Fuel(st) <= Fuel(old(st))
        invariant st.closing && Pressed(st, s) ==> Settled(st, s)
        invariant st.closing ==> ArmedOk(st, s)
        invariant Pushing(old(st), st, s) && Adding(old(st), st, s) && st.role == old(st).role
        decreases |At(st, s).queue|, !st.closing
      {
        ghost var x := st;
        var n := Min(|At(st, s).queue|, FLUSH_MAX);
        var piece := At(st, s).queue[..n];
        var leg, r, f, c := Write(At(st, s).sink, piece);
        if !r.Ok? {
          RefusedOrBusy(st, s, piece, leg, r, f);
          PushStops(old(st), x, s, leg, r, f, c);
          AddingStops(old(st), x, s, piece, leg, r, f);
          JammedStops(st, s, piece, leg, r, f);
          st := if r.Busy? then WithSink(st, s, leg) else Dropped(st, s);
          RanTrans(old(st), x, st, s);
          return;
        }
        FlushWrote(st, s, n, leg, f);
        st := Writing(st, s, leg);
        Dispatch(s, f, c);
        FlushNext(x, s, n, leg, f, st);
        PushTurn(old(st), x, s, leg, r, f, c, st);
        AddingTurn(old(st), x, s, leg, f, c, st);
        st := Advanced(st, s, n);
        RanTrans(old(st), x, st, s);
        RanKeeps(old(st), st, s);
        SoundKeeps(st, s);
      }
      PushEnds(old(st), st, s);
      AddingEnds(old(st), st, s);
    }

    /** The source of the other direction is the sink of `s`, and it died. The broker
        drops that leg and goes on as after the end of its input; the agent gives
        the whole stream up. */
    method Error(s: Side)
      requires Sound(st) && (st.bound || s.Down?) && !Alive(At(st, s).sink)
      modifies this
      ensures Ran(old(st), st, s)
      ensures Pressed(old(st), s) ==> Settled(st, s)
      ensures if old(st).role.Agent? then st.closing
              else old(st).closing || (!ReadyToClose(st) && !At(st, s).live && At(st, Other(s)).eof)
      ensures old(st).role.Broker? && !old(st).bound && !old(st).closing ==> st == Orphaned(old(st), s)
      decreases Fuel(st), 4, 0
    {
      hide LegInv, Sound, Ran, After, Settled, Pressed, Fuel, Alive, Closed, ReadyToClose;
      RanRefl(st, s);
      SoundKeeps(st, s);
      if st.closing { return; }
      if st.role.Agent? {
        Close();
      } else {
        Lose(s);
      }
      DeadRan(old(st), st, s);
    }

    /** The broker's way: unlink the dead leg, end its input, push what it had sent. */
    method Lose(s: Side)
      requires Sound(st) && (st.bound || s.Down?) && !Alive(At(st, s).sink) && !st.closing && st.role.Broker?
      modifies this
      ensures Sound(st) && After(old(st), st)
      ensures !ReadyToClose(st) && !At(st, s).live && At(st, Other(s)).eof
      ensures !old(st).bound ==> st == Orphaned(old(st), s)
      decreases Fuel(st), 3, 1
    {
      hide LegInv, Sound, After, Settled, Fuel, Alive, ReadyToClose;
      BrokenSound(st, Other(s));
      st := Broken(st, Other(s));
      ghost var x := st;
      UnlinkedSound(st, s);
      st := Unlinked(st, s);
      ghost var y := st;
      PendingStays(y);
      EndOf(Other(s));
      UnlinkedStays(y, st, s);
      AfterTrans(x, y, st);
      AfterTrans(old(st), x, st);
    }

    /** The input of the source of `s` ended. A TLS leg says so at the closure alert, again
        at the end of the TCP stream, and again when reads resume. */
    method OnEof(s: Side)
      requires Stable(st) && Alive(At(st, Other(s)).sink)
      modifies this
      ensures Stable(st) && EofEffect(old(st), st, s)
    {
      hide LegInv, Sound, After, Settled, Pressed, ArmedOk, Fuel, Alive, Jammed;
      if st.closing { return; }
      SourceBound(st, s);
      StableParts(st, Up);
      Ended(st, s);
      EndedSettled(st, s);
      ghost var x := st;
      st := Ending(st, s);
      EndOf(s);
      AfterStable(x, st, s);
    }

    /** Push what waits, then pass the half-close on. */
    method EndOf(s: Side)
      requires Sound(st) && (st.bound || s.Up?) && At(st, s).eof
      modifies this
      ensures Sound(st) && After(old(st), st)
      ensures forall t :: Settled(old(st), t) && !At(old(st), t).flushing ==> Settled(st, t)
      ensures !At(old(st), s).live && (old(st).role.Agent? || !ReadyToClose(old(st))) ==> st == old(st)
      ensures At(old(st), s).live || old(st).role.Broker? ==> !ReadyToClose(st)
      ensures At(old(st), s).live && At(st, s).queue == [] ==> At(st, s).fin
      ensures old(st).role.Agent? && s.Up? && At(old(st), s).live && !At(old(st), Down).flushing ==> Jammed(st, Down)
      ensures EndsSmoothly(old(st), s) ==> Closes(old(st), st, s)
      decreases Fuel(st), 3, 0
    {
      hide LegInv, Sound, Ran, After, Settled, Fuel, Jammed;
      RanRefl(st, s);
      if At(st, s).live {
        Finish(s);
      } else if st.role.Broker? {
        MaybeClose();
        RanKeeps(old(st), st, s);
      }
    }

    /** The end of a source whose sink still lives. */
    method Finish(s: Side)
      requires Sound(st) && (st.bound || s.Up?) && At(st, s).eof && At(st, s).live
      modifies this
      ensures Sound(st) && After(old(st), st)
      ensures forall t :: Settled(old(st), t) && !At(old(st), t).flushing ==> Settled(st, t)
      ensures !ReadyToClose(st) && (At(st, s).queue == [] ==> At(st, s).fin)
      ensures old(st).role.Agent? && s.Up? && !At(old(st), Down).flushing ==> Jammed(st, Down)
      ensures EndsSmoothly(old(st), s) ==> Closes(old(st), st, s)
      decreases Fuel(st), 2, 1
    {
      hide LegInv, Sound, Ran, After, Settled, Pressed, Fuel, Jammed;
      SoundKeeps(st, s);
      FlushPend(s);
      ghost var x := st;
      RanKeeps(old(st), x, s);
      FlushedEnd(old(st), x, s);
      if st.role.Agent? && s.Up? {
        FlushPend(Down);
        RanKeeps(x, st, Down);
        FlushedBack(x, st);
        AfterTrans(old(st), x, st);
      }
      ghost var y := st;
      if At(st, s).queue == [] {
        PassFin(s);
        RanKeeps(y, st, s);
        if s.Up? && Jammed(y, Down) { JammedBeside(y, st, Up); }
        FlushedEnd(y, st, s);
        AfterTrans(old(st), y, st);
      }
      ghost var z := st;
      MaybeClose();
      RanKeeps(z, st, s);
      if s.Up? && Jammed(z, Down) { JammedBeside(z, st, Up); }
      AfterTrans(old(st), z, st);
    }

    /** The queue is empty after the end of the source: half-close the sink. */
    method PassFin(s: Side)
      requires Sound(st) && (st.bound || s.Down?)
      requires At(st, s).eof && At(st, s).queue == []
      modifies this
      ensures Ran(old(st), st, s) && At(st, s).fin
      ensures SmoothShut(At(old(st), s).sink) ==> st == HalfClosed(old(st), s, ShutLeg(At(old(st), s).sink), true)
      decreases Fuel(st), 1, 0
    {
      hide LegInv, Sound, Ran, Fuel, ShutEffect, ShutsAs, Pressed, Settled, SmoothShut, ShutLeg;
      var leg, f := ShutdownSend(At(st, s).sink);
      FinPassed(st, s, leg, f, true);
      st := HalfClosed(st, s, leg, true);
      if !f.Quiet? {
        RanKeeps(old(st), st, s);
        ghost var x := st;
        Dispatch(s, f, Done);
        RanKeeps(x, st, s);
        RanTrans(old(st), x, st, s);
      }
    }

    // ------------------------------------------------------------------ events

    /** A relay whose service-side leg is still to come. The client-side leg exists
        already (a peer's or the broker's TLS connection, which may have carried
        frames before) or not (`NoLeg`: an open tunnel's raw socket starts at bind).
        `leftover` came in the same read as the frame that started the relay. */
    constructor (role: Role, leg: Leg, leftover: seq<byte>)
      requires leg == NoLeg || FreshLeg(leg)
      requires |leftover| <= HIGH_WATER && (role.Agent? ==> leg != NoLeg)
      ensures Stable(st) && st == Pending(role, leg, leftover)
    {
      st := Pending(role, leg, leftover);
    }

    /** `relay_a_read`, `relay_b_read`, `relay_broker_read`, `relay_local_read` */
    method Read(s: Side, data: seq<byte>)
      requires Stable(st) && CanRead(st, s) && data != []
      requires |data| <= READ_MAX || (At(st, s).queue == [] && |data| <= HIGH_WATER)
      modifies this
      ensures Stable(st) && ReadEffect(old(st), st, s, data)
    {
      hide LegInv, Sound, Stable, Evolved, Alive, Took, Smooth, Written;
      if st.closing { return; }
      StableKeeps(st, s);
      NotedStable(st, s, |data|);
      st := Noted(st, s, |data|);
      if At(st, s).live {
        Forward(s, data);
      } else if s.Down? || (st.role.Broker? && st.down.eof) || |st.up.queue| + |data| > QUEUE_MAX {
        ReadDiscarded(st, s, data);
        st := Discarded(st, s, data);
      } else {
        ReadQueued(st, data);
        TookOn(st, Queued(st, data), s, data);
        st := Queued(st, data);
      }
    }

    /** A read while the sink is there. Once anything waits, everything queues behind
        it: a chunk that fits must not overtake one that did not. */
    method Forward(s: Side, data: seq<byte>)
      requires Stable(st) && CanRead(st, s) && 0 < |data| <= HIGH_WATER && st.bound && !st.closing
      requires At(st, s).queue == [] || At(st, s).rude
      requires |data| <= READ_MAX || At(st, s).bulk
      modifies this
      ensures Stable(st) && Took(old(st), st, s, data)
      ensures !Refuses(At(old(st), s).sink) ==> Joined(old(st), st, s, data)
      ensures At(old(st), s).queue == [] && Smooth(At(old(st), s).sink, data) ==>
        st == Passed(old(st), s, Written(At(old(st), s).sink, data), data)
    {
      hide LegInv, Sound, Stable, Settled, Pressed, Evolved, Ran, WriteEffect, WriteQuiet, WroteTcp, Alive, Joined, Refuses, Took,
        Held, Discarded, Smooth, Written;
      if At(st, s).queue != [] {
        ReadHeld(st, s, At(st, s).sink, data);
        HeldJoined(st, s, At(st, s).sink, data);
        st := Held(st, s, At(st, s).sink, data);
        TookOn(old(st), st, s, data);
        return;
      }
      var leg, r, f, c := Write(At(st, s).sink, data);
      match r {
        case Busy =>
          BusyIsQuiet(At(st, s).sink, data, leg, f);
          ReadHeld(st, s, leg, data);
          HeldJoined(st, s, leg, data);
          st := Held(st, s, leg, data);
          TookOn(old(st), st, s, data);
        case Refused =>
          RefusedRefuses(At(st, s).sink, data, leg, f);
          ReadDiscarded(st, s, data);
          st := Discarded(st, s, data);
        case Ok => Accept(s, data, leg, f, c);
      }
    }

    /** The sink accepted the read; its callbacks run. */
    method Accept(s: Side, data: seq<byte>, leg: Leg, f: Fired, c: Cont)
      requires Stable(st) && st.bound && !st.closing && At(st, s).queue == []
      requires WriteEffect(At(st, s).sink, data, leg, Status.Ok, f)
      modifies this
      ensures Stable(st) && Took(old(st), st, s, data) && Joined(old(st), st, s, data)
      ensures f.Quiet? && c.Done? ==> st == Passed(old(st), s, leg, data)
    {
      hide LegInv, Sound, Stable, Settled, Pressed, Evolved, Ran, WriteEffect, Alive, Joined, Took;
      ReadPassed(st, s, leg, data, f);
      st := Passed(st, s, leg, data);
      ghost var y := st;
      Dispatch(s, f, c);
      PassedJoined(old(st), s, leg, data, f, st);
      RanKeeps(y, st, s);
      PassedStable(y, st, s);
      EvolvedAfter(old(st), y, st, s, data);
      TookOn(old(st), st, s, data);
    }

    /** A read error or a transport failure of the sink of `s`. */
    method OnError(s: Side)
      requires Stable(st) && Alive(At(st, s).sink)
      modifies this
      ensures Stable(st) && FailEffect(old(st), st, s)
    {
      hide LegInv, Sound, Ran, Settled, Pressed, StepEffect;
      ghost var x := st;
      SoundKeeps(st, s);
      var leg := CloseLeg(At(st, s).sink);
      LegClosed(At(st, s).sink);
      SinkStepped(st, s, leg, Fired.Error);
      SinkSettled(st, s, leg, Fired.Error);
      st := WithSink(st, s, leg);
      ghost var y := st;
      StableParts(x, s);
      RanKeeps(x, y, s);
      Error(s);
      RanTrans(x, y, st, s);
      RanKeeps(x, st, s);
      RanStable(x, st, s);
    }

    /** The stream is closed from outside: a bind or connect timeout, a failed local
        connect, a CLOSE_STREAM frame, or the end of its tunnel. */
    method Abort()
      requires Stable(st)
      modifies this
      ensures Stable(st) && After(old(st), st) && st.closing
    {
      hide LegInv, Sound, After, Settled;
      RanRefl(st, Up);
      if st.closing { return; }
      Close();
      ClosedStable(old(st));
    }

    /** A socket write of the sink of `s` completed. */
    method OnWriteDone(s: Side, ok: bool)
      requires Stable(st) && (st.bound || s.Down?)
      modifies this
      ensures Stable(st) && DoneEffect(old(st), st, s, ok)
    {
      hide LegInv, Sound, Ran, Settled, Pressed, StepEffect, DoneAs, Drained, Hushed, DoneQuietly, DoneEffect, Settles, InFlight, Alive,
        FinDone;
      ghost var x := st;
      var leg, f, c := WriteDone(At(st, s).sink, ok);
      SinkStepped(st, s, leg, f);
      SinkSettled(st, s, leg, f);
      st := WithSink(st, s, leg);
      ghost var y := st;
      StableParts(x, s);
      RanKeeps(x, y, s);
      Dispatch(s, f, c);
      if f.Error? { DeadStays(y, st, s); }
      CompletedKept(y, st, s);
      RanTrans(x, y, st, s);
      RanKeeps(x, st, s);
      RanStable(x, st, s);
      DoneConcludes(x, st, s, ok, leg, f, c);
    }

    /** `tm_stream_relay_attach_agent` and `tm_stream_relay_start` in the broker,
        `local_connected` in the agent: attach the service-side leg and push what
        came before it. */
    method Bind(leg: Leg, client: Leg)
      requires Stable(st) && !st.bound && FreshLeg(leg) && FreshLeg(client)
      modifies this
      ensures Stable(st) && BindDone(old(st), st, leg, client)
    {
      BindNothing(st, leg, client);
      hide LegInv, Stable, FreshLeg, Flushed, Balanced, BindEffect, BindDone;
      if st.closing { return; }
      ghost var x := st;
      PushPending(leg, client);
      ghost var y := st;
      FlushedBalanced(x, y, leg, client);
      st := Balanced(st);
      if st.role.Agent? && st.up.eof {
        EarlyFin(x, leg, client);
        FinBinds(x, y, st, leg, client);
      } else {
        FlushBinds(x, y, leg, client);
      }
    }

    /** The new leg gets what came before it. */
    method PushPending(leg: Leg, client: Leg)
      requires Stable(st) && !st.bound && !st.closing && FreshLeg(leg) && FreshLeg(client)
      modifies this
      ensures Flushed(old(st), st, leg, client)
    {
      hide LegInv, Sound, Settled, Pressed, Ran, After, ArmedOk, BindEffect, FreshLeg, Pushed, NewTcp, TooLate;
      ghost var x := st;
      BoundSound(st, leg, client);
      BoundEffect(st, leg, client);
      BoundKeeps(x, leg, client);
      st := Bound(st, leg, client);
      ghost var y := st;
      StableParts(x, Up);
      FlushPend(Up);
      RanKeeps(y, st, Up);
      assert !At(st, Up).flushing && !At(st, Down).flushing;
      BesideSettled(y, st, Up);
      BindEffectAfter(x, y, st, leg, client);
      NeverCut(x, st, leg, client);
      if x.role.Agent? && NewTcp(leg) { StillWaits(x, st, leg, client); }
    }

    /** The broker's input ended before the local connect: the agent half-closes the
        local leg at once, whether or not octets still wait for it. */
    method EarlyFin(ghost x: State, ghost leg0: Leg, ghost client: Leg)
      requires Stable(st) && st.bound && st.role.Agent? && st.up.eof && BindEffect(x, st, leg0, client)
      modifies this
      ensures Stable(st) && BindEffect(x, st, leg0, client)
      ensures !old(st).up.cut ==> (st.up.cut <==> !old(st).closing && old(st).up.queue != [])
    {
      hide LegInv, Stable, BindEffect, ShutEffect, ShutsAs, Halved;
      if st.closing { return; }
      var leg, f := ShutdownSend(st.up.sink);
      if st.up.queue == [] {
        FinReady(x, st, leg, f, leg0, client);
        st := HalfClosed(st, Up, leg, false);
      } else {
        CutReady(x, st, leg, f, leg0, client);
        st := CutOff(st, leg);
      }
      EarlyFinRest(x, leg0, client, f);
    }

    /** The callbacks of that half-close, and the end of a stream that is over. */
    method EarlyFinRest(ghost x: State, ghost leg0: Leg, ghost client: Leg, f: Fired)
      requires Halved(x, st, f, leg0, client)
      modifies this
      ensures Stable(st) && BindEffect(x, st, leg0, client) && st.up.cut == old(st).up.cut
      ensures st.down.eof ==> st.closing
    {
      hide LegInv, Sound, Settled, Pressed, Ran, After, BindEffect, Alive;
      assert Pressed(st, Up);
      Dispatch(Up, f, Done);
      RanKeeps(old(st), st, Up);
      CutKept(old(st), st);
      PassedStable(old(st), st, Up);
      BindEffectAfter(x, old(st), st, leg0, client);
      if st.down.eof && !st.closing {
        ghost var z := st;
        Close();
        BindEffectAfter(x, z, st, leg0, client);
        CutKept(z, st);
        ClosedStable(z);
      }
    }
  }
}
