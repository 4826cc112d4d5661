/** The engine's animation ticker (`Timer`, an `EventEmitter`): `start`
    subscribes a closure to its own "tick" event that asks the host for an
    animation frame, whose callback emits "tick" again, and then emits one
    "tick" at once. The host's frame scheduler is abstract: a requested frame
    is counted in `pendingFrames` and delivered by `OnFrame`. */
module Timers {
  import opened EventEmitter
  import opened Wrappers

  /** Listeners of "tick": the engine's own subscribers, and the rescheduling
      closure that each call of `start` creates. */
  datatype TickListener = Subscriber(id: nat) | Rescheduler(serial: nat)

  const TICK := "tick"

  /** The subscriber ids among the handlers an emit invoked, in order. */
  function Notified(calls: seq<TickListener>): (ids: seq<nat>)
    ensures forall id :: id in ids <==> Subscriber(id) in calls
  {
    if calls == [] then []
    else (if calls[0].Subscriber? then [calls[0].id] else []) + Notified(calls[1..])
  }

  /** The number of animation frames an emit requested: one per rescheduler invoked. */
  function FramesRequested(calls: seq<TickListener>): (n: nat)
    ensures n <= |calls|
    ensures (exists k :: Rescheduler(k) in calls) ==> n > 0
  {
    if calls == [] then 0
    else (if calls[0].Rescheduler? then 1 else 0) + FramesRequested(calls[1..])
  }

  class Timer {
    const bus: Emitter<TickListener>
    /** The closure `stop` calls; `None` is the initial `() => undefined`. */
    var unsubscribe: Option<Listener<TickListener>>
    /** Rescheduling closures created so far. */
    var closures: nat
    /** Animation frames requested and not yet delivered. */
    var pendingFrames: nat

    ghost function Ticking(): seq<Listener<TickListener>>
      reads this, bus
    {
      Subscribers(bus.listeners, TICK)
    }

    ghost predicate Valid()
      reads this, bus
    {
      && bus.Valid()
      && (forall l :: l in Ticking() ==> l.Callback?)
      && (forall l :: l in Ticking() && l.handler.Rescheduler? ==> l.handler.serial < closures)
      && (unsubscribe.Some? ==> closures > 0 && unsubscribe.value == Callback(Rescheduler(closures - 1)))
    }

    /** The ticker keeps itself going while some rescheduler is subscribed. */
    ghost predicate Running()
      reads this, bus
    {
      exists k :: Callback(Rescheduler(k)) in Ticking()
    }

    constructor()
      ensures Valid() && fresh(bus) && !Running()
      ensures unsubscribe.None? && closures == 0 && pendingFrames == 0 && Ticking() == []
    {
      bus := new Emitter();
      unsubscribe := None;
      closures := 0;
      pendingFrames := 0;
    }

    /** A subscriber of the engine: `timer.on("tick", …)`. */
    method Subscribe(id: nat)
      requires Valid()
      modifies bus
      ensures Valid()
      ensures Ticking() == Added(old(Ticking()), Callback(Subscriber(id)))
    {
      var _ := bus.On(TICK, Subscriber(id));
    }

    /** Emits "tick": every listener runs, and each rescheduler asks for a frame. */
    method Tick() returns (notified: seq<nat>)
      requires Valid()
      modifies this`pendingFrames, bus
      ensures Valid() && Ticking() == old(Ticking())
      ensures notified == Notified(Fire(Ticking(), Ticking()).0)
      ensures pendingFrames == old(pendingFrames) + FramesRequested(Fire(Ticking(), Ticking()).0)
    {
      var called := bus.Emit(TICK);
      if TICK in old(bus.listeners) {
        FireWithoutWrappersKeepsSet(old(Ticking()), old(Ticking()));
      }
      notified := Notified(called);
      pendingFrames := pendingFrames + FramesRequested(called);
    }

    /** `start()`: subscribes a new rescheduler, keeps its unsubscriber (the
        previous one is overwritten), then emits "tick" once. */
    method Start() returns (notified: seq<nat>)
      requires Valid()
      modifies this, bus
      ensures Valid() && Running()
      ensures closures == old(closures) + 1
      ensures unsubscribe == Some(Callback(Rescheduler(old(closures))))
      ensures Ticking() == old(Ticking()) + [Callback(Rescheduler(old(closures)))]
      ensures notified == Notified(Fire(Ticking(), Ticking()).0)
      ensures pendingFrames == old(pendingFrames) + FramesRequested(Fire(Ticking(), Ticking()).0)
      ensures pendingFrames > old(pendingFrames)
    {
      var mine := Callback(Rescheduler(closures));
      assert mine !in Ticking();
      var u := bus.On(TICK, Rescheduler(closures));
      unsubscribe := Some(u);
      closures := closures + 1;
      assert Ticking() == old(Ticking()) + [mine];
      notified := Tick();
      var s := Ticking();
      forall j | 0 <= j < |s| ensures s[j].Callback? {
        assert s[j] in s;
      }
      FireCallsReached(s, s, |s| - 1, Rescheduler(closures - 1));
    }

    /** A requested animation frame arrives; its callback emits "tick". */
    method OnFrame() returns (notified: seq<nat>)
      requires Valid() && pendingFrames > 0
      modifies this, bus
      ensures Valid() && Ticking() == old(Ticking()) && unsubscribe == old(unsubscribe)
      ensures notified == Notified(Fire(Ticking(), Ticking()).0)
      ensures pendingFrames == old(pendingFrames) - 1 + FramesRequested(Fire(Ticking(), Ticking()).0)
    {
      pendingFrames := pendingFrames - 1;
      notified := Tick();
    }

    /** `stop()`: calls the kept unsubscriber, which deletes only the
        rescheduler of the latest `start`. */
    method Stop()
      requires Valid()
      modifies bus
      ensures Valid()
      ensures unsubscribe.None? ==> Ticking() == old(Ticking())
      ensures unsubscribe.Some? ==> Ticking() == Without(old(Ticking()), unsubscribe.value)
    {
      if unsubscribe.Some? {
        bus.Unsubscribe(TICK, unsubscribe.value);
      }
    }

    /** `destroy()` does what `stop()` does. */
    method Destroy()
      requires Valid()
      modifies bus
      ensures Valid()
      ensures unsubscribe.Some? ==> Ticking() == Without(old(Ticking()), unsubscribe.value)
      ensures unsubscribe.None? ==> Ticking() == old(Ticking())
    {
      Stop();
    }
  }

  /** Starting twice and stopping once leaves the first rescheduler
      subscribed, so the ticker keeps running. */
  method StartTwiceStopOnce() returns (t: Timer)
    ensures t.Valid() && t.Running()
    ensures t.Ticking() == [Callback(Rescheduler(0))]
  {
    t := new Timer();
    var _ := t.Start();
    var _ := t.Start();
    var both := [Callback(Rescheduler(0)), Callback(Rescheduler(1))];
    assert t.Ticking() == both;
    assert both[1..] == [Callback(Rescheduler(1))];
    t.Stop();
  }

  /** One start and one stop leave nothing to reschedule: the frame already
      requested is the last tick. */
  method StartThenStop() returns (t: Timer)
    ensures t.Valid() && !t.Running() && t.pendingFrames == 1
  {
    t := new Timer();
    var _ := t.Start();
    t.Stop();
  }
}
