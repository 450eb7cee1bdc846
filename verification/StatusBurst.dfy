/** StatusBurst with its fields, updated in place. The armed timers and running ticks, which live in
    Home Assistant's event loop, are kept beside them. */
module StatusBurstClass {
  import opened StatusBursts

  class StatusBurst {
    var timers: map<DeviceId, nat>
    var generation: map<DeviceId, nat>
    var closed: bool
    var ticks: seq<Tick>

    ghost function View(now: real): State
      reads this
    {
      State(timers, generation, closed, ticks, now)
    }

    constructor ()
      ensures View(0.0) == INIT
    {
      timers, generation, closed, ticks := map[], map[], false, [];
    }

    method BumpGeneration(device: DeviceId) returns (g: nat)
      modifies this`generation
      ensures g == old(Generation(View(0.0), device)) + 1
      ensures generation == old(generation)[device := g]
    {
      g := (if device in generation then generation[device] else 0) + 1;
      generation := generation[device := g];
    }

    method StopBurst(device: DeviceId, ghost now: real)
      requires device in timers ==> timers[device] < |ticks|
      modifies this
      ensures View(now) == DoStop(old(View(now)), device)
    {
      var _ := BumpGeneration(device);
      if device in timers {
        var t := timers[device];
        timers := timers - {device};
        if ticks[t].phase.Armed? {
          ticks := ticks[t := ticks[t].(phase := Ended)];
        }
      }
    }

    /** _arm */
    method ArmTick(tick: Tick, ghost now: real)
      modifies this
      ensures View(now) == Arm(old(View(now)), tick)
    {
      timers := timers[tick.device := |ticks|];
      ticks := ticks + [tick];
    }

    method StartBurst(device: DeviceId, duration: real, interval: real, now: real)
      requires device in timers ==> timers[device] < |ticks|
      modifies this
      ensures View(now) == DoStart(old(View(now)), device, duration, interval)
    {
      if closed {
        return;
      }
      var d := if duration < MAX_DURATION then duration else MAX_DURATION;
      var i := if interval > MIN_INTERVAL then interval else MIN_INTERVAL;
      StopBurst(device, now);
      var g := BumpGeneration(device);
      ArmTick(Tick(device, g, now, d, i, 0, Armed(now), false), now);
    }

    /** The rest of _tick, once its query was awaited. */
    method TickReturned(t: nat, now: real)
      requires t < |ticks|
      modifies this
      ensures View(now) == DoReturn(old(View(now)), t)
    {
      var tick := ticks[t];
      ticks := ticks[t := tick.(phase := Ended)];
      if closed || (if tick.device in generation then generation[tick.device] else 0) != tick.generation {
        return;
      }
      if now + tick.interval >= tick.start + tick.duration {
        timers := timers - {tick.device};
        return;
      }
      ArmTick(tick.(round := tick.round + 1, phase := Armed(now + tick.interval), sent := false), now);
    }

    /** async_shutdown */
    method AsyncShutdown(ghost now: real)
      requires Valid(View(now))
      modifies this
      ensures View(now) == DoShutdown(old(View(now)))
    {
      closed := true;
      ghost var before := View(now);
      var devices := timers.Keys;
      StopNone(before);
      while devices != {}
        invariant devices <= before.timers.Keys
        invariant View(now) == StopAll(before, before.timers.Keys - devices)
        decreases devices
      {
        hide DoStop;
        var device :| device in devices;
        assert TimerOk(old(View(now)), device);
        StopOneMore(before, before.timers.Keys - devices, device);
        assert before.timers.Keys - devices + {device} == before.timers.Keys - (devices - {device});
        StopBurst(device, now);
        devices := devices - {device};
      }
    }
  }
}
