/** The public listener of an open TCP tunnel: asynchronous close, deferred restart
    and deferred free. */
module Listener {

  /** What libuv knows of the handle: not in its list, initialised by a start whose
      bind or listen failed, listening, or waiting for its close callback. */
  datatype Handle = Idle | Stranded | Listening | Closing

  /** `bind` says whether a start that happens in this event can bind and listen. */
  datatype Event = Enable(bind: bool) | Disable | Delete | CloseDone(bind: bool)

  class Tunnel {
    var enabled: bool
    var listenerOpen: bool
    var listenerClosing: bool
    var restartPending: bool
    var deleting: bool
    var closeRefs: nat
    var listed: bool           // still in the registry
    var frees: nat             // how often the tunnel was freed
    var handle: Handle
    ghost var failed: bool     // some start could not bind

    ghost predicate Valid()
      reads this
    {
      // the flags say what libuv knows; close_refs counts the closes under way
      && (listenerOpen <==> handle.Listening?) && (listenerClosing <==> handle.Closing?)
      && closeRefs == (if handle.Closing? then 1 else 0)
      && (restartPending ==> handle.Closing? && listed)
      // freed exactly once, after the last callback of a deleted tunnel
      && (listed <==> !deleting)
      && frees == (if deleting && !handle.Closing? then 1 else 0)
      // a tunnel at rest listens iff it is enabled, and one that closes will
      && (listed && handle.Closing? ==> (restartPending <==> enabled))
      && (listed && !handle.Closing? && !failed ==> (listenerOpen <==> enabled))
      && (handle.Stranded? ==> failed)
      && (deleting ==> !handle.Listening?)
    }

    /** `tm_tunnel_listener_start`. The handle is never initialised while it closes,
        nor while it is in use; after a failed bind it is initialised again. */
    method Start(bind: bool)
      requires !deleting && (listenerOpen <==> handle.Listening?) && (listenerClosing <==> handle.Closing?)
      requires handle.Stranded? ==> failed
      modifies this`listenerOpen, this`restartPending, this`handle, this`failed
      ensures if old(handle).Listening? then handle == Listening && restartPending == old(restartPending) && failed == old(failed)
              else if old(handle).Closing? then handle == Closing && restartPending && failed == old(failed)
              else handle == (if bind then Listening else Stranded)
                   && restartPending == old(restartPending) && failed == (old(failed) || !bind)
      ensures listenerOpen <==> handle.Listening?
    {
      if listenerOpen { return; }
      if listenerClosing {
        restartPending := true;
        return;
      }
      assert !handle.Closing? && !handle.Listening? && (!failed ==> handle.Idle?);
      if bind {
        handle, listenerOpen := Listening, true;
      } else {
        handle, failed := Stranded, true;
      }
    }

    /** `tm_tunnel_listener_stop` */
    method Stop()
      requires (listenerOpen <==> handle.Listening?) && (listenerClosing <==> handle.Closing?)
      modifies this`restartPending, this`closeRefs, this`listenerClosing, this`listenerOpen, this`handle
      ensures !restartPending && !listenerOpen && (listenerClosing <==> handle.Closing?)
      ensures if old(handle).Listening? then handle == Closing && closeRefs == old(closeRefs) + 1
              else handle == old(handle) && closeRefs == old(closeRefs)
    {
      restartPending := false;
      if listenerOpen {
        closeRefs, listenerClosing, handle, listenerOpen := closeRefs + 1, true, Closing, false;
      }
    }

    /** `tm_tunnel_create` */
    constructor (bind: bool)
      ensures Valid() && enabled && listed && frees == 0 && failed == !bind
    {
      enabled, listenerOpen, listenerClosing, restartPending, deleting := true, false, false, false, false;
      closeRefs, listed, frees, handle, failed := 0, true, 0, Idle, false;
      new;
      Start(bind);
    }

    /** One event; requests about a deleted tunnel do not find it, and libuv calls
        back only for a close under way. */
    method Handle(e: Event)
      requires Valid()
      modifies this
      ensures Valid()
      ensures deleting <==> old(deleting) || e.Delete?
      ensures enabled == if old(deleting) then old(enabled) else if e.Enable? then true else if e.Disable? then false else old(enabled)
      ensures e.CloseDone? && old(handle).Closing? && !(e.bind && old(restartPending)) ==> !handle.Closing? && !handle.Listening?
      ensures frees >= old(frees)
      ensures failed ==> old(failed) || ((e.Enable? || e.CloseDone?) && !e.bind)
    {
      match e
      case Enable(bind) =>
        if !listed || enabled { return; }
        enabled := true;
        Start(bind);
      case Disable =>
        if !listed || !enabled { return; }
        enabled := false;
        Stop();
      case Delete =>
        if !listed { return; }
        deleting := true;
        Stop();
        listed := false;
        if closeRefs == 0 { frees := frees + 1; }
      case CloseDone(bind) =>
        if !handle.Closing? { return; }
        handle, listenerClosing, closeRefs := Idle, false, closeRefs - 1;
        if deleting {
          if closeRefs == 0 { frees := frees + 1; }
          return;
        }
        if restartPending {
          restartPending := false;
          Start(bind);
        }
    }
  }

  predicate Deleted(events: seq<Event>) {
    Delete in events
  }

  /** What the last request before a deletion asked for; a new tunnel is enabled. */
  function Wanted(events: seq<Event>): bool {
    if events == [] then true
    else
      var before, e := events[..|events| - 1], events[|events| - 1];
      if Deleted(before) then Wanted(before)
      else if e.Enable? then true else if e.Disable? then false else Wanted(before)
  }

  lemma WantedNext(events: seq<Event>, i: nat)
    requires i < |events|
    ensures var before, e := events[..i], events[i];
      && (Deleted(events[..i + 1]) <==> Deleted(before) || e.Delete?)
      && Wanted(events[..i + 1]) == if Deleted(before) then Wanted(before)
                                    else if e.Enable? then true else if e.Disable? then false else Wanted(before)
  {
    assert events[..i + 1] == events[..i] + [events[i]];
    assert events[..i + 1][..i] == events[..i];
  }

  /** Every run: once no close is under way, a live tunnel listens iff the last request
      enabled it, provided every bind worked, and a deleted one has been freed exactly
      once; before that it has not been freed. */
  method Run(bind: bool, events: seq<Event>) returns (listening: bool, quiet: bool, frees: nat)
    ensures quiet && !Deleted(events) && bind && (forall i :: 0 <= i < |events| ==> Binds(events[i])) ==>
      (listening <==> Wanted(events))
    ensures Deleted(events) ==> !listening
    ensures frees == if Deleted(events) && quiet then 1 else 0
  {
    assert Wanted(events[..0]) && !Deleted(events[..0]);
    hide Wanted, Deleted;
    var t := new Tunnel(bind);
    for i := 0 to |events|
      invariant t.Valid() && fresh(t)
      invariant t.deleting == Deleted(events[..i]) && t.enabled == Wanted(events[..i])
      invariant bind && (forall j :: 0 <= j < i ==> Binds(events[j])) ==> !t.failed
    {
      WantedNext(events, i);
      t.Handle(events[i]);
    }
    assert events[..|events|] == events;
    return t.handle.Listening?, !t.handle.Closing?, t.frees;
  }

  predicate Binds(e: Event) {
    (e.Enable? || e.CloseDone?) ==> e.bind
  }
}
