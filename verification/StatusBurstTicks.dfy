/** What a burst does next: which tick it arms, when it ends and what ends it, for every run. */
module StatusBurstTicks {
  import opened StatusBursts

  predicate ShutDown(events: seq<Event>) {
    events != [] && (events[|events| - 1].Shutdown? || ShutDown(events[..|events| - 1]))
  }

  lemma {:induction false} RunClosed(events: seq<Event>)
    ensures Run(events).closed == ShutDown(events)
  {
    if events != [] {
      RunClosed(events[..|events| - 1]);
      StepClosed(Run(events[..|events| - 1]), events[|events| - 1]);
    }
  }

  lemma StepClosed(s: State, e: Event)
    ensures Step(s, e).closed == (s.closed || e.Shutdown?)
  {
  }

  // ---------- starting ----------

  /** The first tick of a burst: at once, with the duration cut to 120 s and the interval raised to 3 s. */
  predicate FirstTick(tick: Tick, device: DeviceId, duration: real, interval: real, now: real) {
    && tick.device == device && tick.round == 0 && !tick.sent
    && tick.start == now && tick.phase == Armed(now)
    && tick.duration == (if duration > 120.0 then 120.0 else duration)
    && tick.interval == (if interval < 3.0 then 3.0 else interval)
  }

  /** Over every run: unless bursts are shut down, a start arms the first tick of a burst of its own; no older
      tick of the device stays armed or goes on. */
  lemma StartArms(events: seq<Event>, device: DeviceId, duration: real, interval: real, t: nat)
    ensures var s := Run(events);
      var s', n := Step(s, Start(device, duration, interval)), |s.ticks|;
      if ShutDown(events) then s' == s
      else
        && |s'.ticks| == n + 1 && Going(s', n, device)
        && FirstTick(s'.ticks[n], device, duration, interval, s.now)
        && (t < n && s.ticks[t].device == device ==>
              !s'.ticks[t].phase.Armed? && !Going(s', t, device) && s'.ticks[t].generation != s'.ticks[n].generation)
  {
    hide Run;
    var s := Run(events);
    RunClosed(events);
    RunValid(events);
    assert TickOk(s, t) && TimerOk(s, device);
    if !s.closed { StopEnds(s, device, t); }
    StepValid(s, Start(device, duration, interval));
    hide DoStop;
  }

  lemma StopEnds(s: State, device: DeviceId, t: nat)
    requires TickOk(s, t) && TimerOk(s, device)
    ensures var s' := DoStop(s, device);
      && |s'.ticks| == |s.ticks| && s'.closed == s.closed && s'.now == s.now
      && Generation(s', device) == Generation(s, device) + 1
      && (t < |s.ticks| ==> SameBurst(s.ticks[t], s'.ticks[t]))
      && (t < |s.ticks| && s.ticks[t].device == device ==>
            !s'.ticks[t].phase.Armed? && s'.ticks[t].generation < Generation(s', device))
  {
  }

  // ---------- going on ----------

  /** The tick after a returned one: the same burst, one interval from now. */
  function NextTick(tick: Tick, now: real): Tick {
    Tick(tick.device, tick.generation, tick.start, tick.duration, tick.interval, tick.round + 1,
         Armed(now + tick.interval), false)
  }

  /** Over every run: a tick whose query has returned arms the next one exactly when its burst is current, not
      shut down, and one more interval stays before its end; otherwise the tick just ends, and a current burst
      with it. */
  lemma ReturnIff(events: seq<Event>, t: nat)
    requires var s := Run(events); t < |s.ticks| && s.ticks[t].phase.Running?
    ensures var s := Run(events);
      var s', tick, n := Step(s, Return(t)), s.ticks[t], |s.ticks|;
      && t < |s'.ticks| && s'.ticks[t].phase.Ended?
      && if !ShutDown(events) && Current(s, t) && s.now + tick.interval < tick.start + tick.duration
         then |s'.ticks| == n + 1 && s'.ticks[n] == NextTick(tick, s.now) && Going(s', n, tick.device)
         else |s'.ticks| == n && (Current(s, t) ==> forall u: nat :: !Going(s', u, tick.device))
  {
    hide Run;
    var s := Run(events);
    RunClosed(events);
    RunValid(events);
    assert TickOk(s, t);
    forall u: nat ensures Current(s, t) && |Step(s, Return(t)).ticks| == |s.ticks| ==> !Going(Step(s, Return(t)), u, s.ticks[t].device) {
      assert TickOk(s, u);
    }
  }

  /** Over every run: what takes a burst that is going out of currency is a stop or a start for its device, or
      the shutdown, and nothing else. */
  lemma CurrentUntil(events: seq<Event>, e: Event, t: nat, device: DeviceId)
    requires Going(Run(events), t, device) && !ShutDown(events)
    ensures var s' := Step(Run(events), e);
      t < |s'.ticks| && (Current(s', t) <==> !e.Shutdown? && !(e.Start? && e.device == device) && !(e.Stop? && e.device == device))
  {
    hide Run;
    var s := Run(events);
    RunClosed(events);
    RunValid(events);
    assert TickOk(s, t) && TimerOk(s, device);
    StepMoves(s, e, t);
  }

  /** Over every run: an armed tick runs exactly when its time has come, and a running one queries once; a stop
      unsubscribes the device's armed tick and leaves a running one to return. */
  lemma TicksRun(events: seq<Event>, t: nat, device: DeviceId)
    requires var s := Run(events); t < |s.ticks| && s.ticks[t].device == device
    ensures var s := Run(events);
      var tick, fired, sent, stopped := s.ticks[t], Step(s, Fire(t)), Step(s, Send(t)), Step(s, Stop(device));
      && |fired.ticks| == |sent.ticks| == |stopped.ticks| == |s.ticks|
      && (tick.phase.Armed? ==> (fired.ticks[t].phase.Running? <==> tick.phase.at <= s.now))
      && (sent.ticks[t].sent <==> tick.sent || tick.phase.Running?)
      && stopped.ticks[t] == (if tick.phase.Armed? then tick.(phase := Ended) else tick)
      && !Going(stopped, t, device)
  {
    hide Run;
    var s := Run(events);
    RunValid(events);
    assert TickOk(s, t) && TimerOk(s, device);
  }
}
