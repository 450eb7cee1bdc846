/** Bursts of status queries (status_burst.py) as a step machine: timers, ticks and generations. */
module StatusBursts {

  type DeviceId = string

  const MAX_DURATION := 120.0
  const MIN_INTERVAL := 3.0

  /** A tick is armed until its timer fires, then runs across the await of its query. */
  datatype Phase = Armed(at: real) | Running | Ended

  datatype Tick = Tick(
    device: DeviceId, generation: nat, start: real, duration: real, interval: real, round: nat,
    phase: Phase, sent: bool)

  datatype State = State(
    timers: map<DeviceId, nat>,
    generation: map<DeviceId, nat>,
    closed: bool,
    ticks: seq<Tick>,
    now: real)

  datatype Event =
    | Start(device: DeviceId, duration: real, interval: real)
    | Stop(device: DeviceId)
    | Shutdown
    | Fire(tick: nat)
    | Send(tick: nat)
    | Return(tick: nat)
    | Wait(seconds: real)

  const INIT := State(map[], map[], false, [], 0.0)

  function Generation(s: State, device: DeviceId): nat {
    if device in s.generation then s.generation[device] else 0
  }

  function Cancelled(tick: Tick): Tick {
    if tick.phase.Armed? then tick.(phase := Ended) else tick
  }

  /** stop: a new generation, and the timer is unsubscribed if it has not fired. */
  function DoStop(s: State, device: DeviceId): State {
    var s1 := s.(generation := s.generation[device := Generation(s, device) + 1]);
    if device in s.timers && s.timers[device] < |s.ticks| then
      var t := s.timers[device];
      s1.(timers := s.timers - {device}, ticks := s.ticks[t := Cancelled(s.ticks[t])])
    else s1
  }

  function Arm(s: State, tick: Tick): State {
    s.(timers := s.timers[tick.device := |s.ticks|], ticks := s.ticks + [tick])
  }

  function DoStart(s: State, device: DeviceId, duration: real, interval: real): State {
    if s.closed then s
    else
      var d := if duration < MAX_DURATION then duration else MAX_DURATION;
      var i := if interval > MIN_INTERVAL then interval else MIN_INTERVAL;
      var s1 := DoStop(s, device);
      var g := Generation(s1, device) + 1;
      Arm(s1.(generation := s1.generation[device := g]), Tick(device, g, s.now, d, i, 0, Armed(s.now), false))
  }

  /** stop for each of some devices. */
  function StopAll(s: State, devices: set<DeviceId>): State {
    s.(timers := s.timers - devices,
       generation := map d | d in s.generation.Keys + devices ::
         if d in devices then Generation(s, d) + 1 else s.generation[d],
       ticks := seq(|s.ticks|, t requires 0 <= t < |s.ticks| =>
         var d := s.ticks[t].device;
         if d in devices && d in s.timers && s.timers[d] == t then Cancelled(s.ticks[t]) else s.ticks[t]))
  }

  /** async_shutdown: every burst is stopped. */
  function DoShutdown(s: State): (s': State)
    ensures s'.timers == map[] && s'.closed
  {
    StopAll(s.(closed := true), s.timers.Keys)
  }

  /** The query was awaited: end, or arm the next tick. */
  function DoReturn(s: State, t: nat): State
    requires t < |s.ticks|
  {
    var tick := s.ticks[t];
    var s1 := s.(ticks := s.ticks[t := tick.(phase := Ended)]);
    if s.closed || Generation(s, tick.device) != tick.generation then s1
    else if s.now + tick.interval >= tick.start + tick.duration then s1.(timers := s.timers - {tick.device})
    else Arm(s1, tick.(round := tick.round + 1, phase := Armed(s.now + tick.interval), sent := false))
  }

  function Step(s: State, e: Event): State {
    match e
    case Start(device, duration, interval) => DoStart(s, device, duration, interval)
    case Stop(device) => DoStop(s, device)
    case Shutdown => DoShutdown(s)
    case Fire(t) =>
      if t < |s.ticks| && s.ticks[t].phase.Armed? && s.ticks[t].phase.at <= s.now
      then s.(ticks := s.ticks[t := s.ticks[t].(phase := Running)]) else s
    case Send(t) =>
      if t < |s.ticks| && s.ticks[t].phase.Running? && !s.ticks[t].sent
      then s.(ticks := s.ticks[t := s.ticks[t].(sent := true)]) else s
    case Return(t) => if t < |s.ticks| && s.ticks[t].phase.Running? then DoReturn(s, t) else s
    case Wait(seconds) => if seconds >= 0.0 then s.(now := s.now + seconds) else s
  }

  function RunFrom(s: State, events: seq<Event>): State {
    if events == [] then s else Step(RunFrom(s, events[..|events| - 1]), events[|events| - 1])
  }

  function Run(events: seq<Event>): State {
    RunFrom(INIT, events)
  }

  // ---------- invariants ----------

  predicate Active(tick: Tick) {
    !tick.phase.Ended?
  }

  predicate Current(s: State, t: nat)
    requires t < |s.ticks|
  {
    s.ticks[t].generation == Generation(s, s.ticks[t].device)
  }

  /** The table holds every armed tick and every tick of a current burst that is still going. */
  predicate TickOk(s: State, t: nat) {
    t < |s.ticks| ==>
      var tick := s.ticks[t];
      && tick.generation <= Generation(s, tick.device)
      && tick.interval >= MIN_INTERVAL && tick.duration <= MAX_DURATION
      && tick.start <= s.now
      && (tick.phase.Armed? ==> !tick.sent && Current(s, t))
      && (Active(tick) && Current(s, t) ==> tick.device in s.timers && s.timers[tick.device] == t)
      && (s.closed ==> !tick.phase.Armed?)
  }

  predicate TimerOk(s: State, d: DeviceId) {
    d in s.timers ==>
      && s.timers[d] < |s.ticks|
      && s.ticks[s.timers[d]].device == d
      && Active(s.ticks[s.timers[d]])
      && Current(s, s.timers[d])
  }

  ghost predicate Valid(s: State) {
    && (forall t: nat :: TickOk(s, t))
    && (forall d :: TimerOk(s, d))
    && (s.closed ==> s.timers == map[])
  }

  lemma StopValid(s: State, device: DeviceId)
    requires Valid(s)
    ensures Valid(DoStop(s, device)) && device !in DoStop(s, device).timers
  {
    var s' := DoStop(s, device);
    assert TimerOk(s, device);
    forall t: nat ensures TickOk(s', t) { assert TickOk(s, t); }
    forall d ensures TimerOk(s', d) { assert TimerOk(s, d); }
  }

  lemma StopOneMore(s: State, devices: set<DeviceId>, device: DeviceId)
    requires device in s.timers && device !in devices && TimerOk(s, device)
    ensures DoStop(StopAll(s, devices), device) == StopAll(s, devices + {device})
  {
    var one, all := DoStop(StopAll(s, devices), device), StopAll(s, devices + {device});
    assert one.timers == all.timers;
    assert one.generation == all.generation;
    assert one.ticks == all.ticks;
  }

  lemma StopNone(s: State)
    ensures StopAll(s, {}) == s
  {
    assert StopAll(s, {}).ticks == s.ticks && StopAll(s, {}).generation == s.generation;
  }

  lemma StartValid(s: State, device: DeviceId, duration: real, interval: real)
    requires Valid(s)
    ensures Valid(DoStart(s, device, duration, interval))
  {
    if !s.closed {
      var s1 := DoStop(s, device);
      StopValid(s, device);
      hide DoStop;
      var s' := DoStart(s, device, duration, interval);
      StopFrame(s, device);
      forall t: nat ensures TickOk(s', t) { assert TickOk(s1, t); }
      forall d ensures TimerOk(s', d) { assert TimerOk(s1, d); }
    }
  }

  lemma StopFrame(s: State, device: DeviceId)
    ensures var s' := DoStop(s, device);
      s'.now == s.now && s'.closed == s.closed && |s'.ticks| == |s.ticks|
      && Generation(s', device) == Generation(s, device) + 1
  {
  }

  lemma ReturnValid(s: State, t: nat)
    requires Valid(s) && t < |s.ticks| && s.ticks[t].phase.Running?
    ensures Valid(DoReturn(s, t))
  {
    var s' := DoReturn(s, t);
    assert TickOk(s, t) && TimerOk(s, s.ticks[t].device);
    forall u: nat ensures TickOk(s', u) { assert TickOk(s, u); }
    forall d ensures TimerOk(s', d) { assert TimerOk(s, d); }
  }

  lemma ShutdownValid(s: State)
    requires Valid(s)
    ensures Valid(DoShutdown(s))
  {
    var s' := DoShutdown(s);
    forall t: nat ensures TickOk(s', t) { assert TickOk(s, t); }
  }

  lemma StepValid(s: State, e: Event)
    requires Valid(s)
    ensures Valid(Step(s, e))
  {
    hide DoStop, DoStart, DoReturn, DoShutdown;
    var s' := Step(s, e);
    match e
    case Start(device, duration, interval) => StartValid(s, device, duration, interval);
    case Stop(device) => StopValid(s, device);
    case Shutdown => ShutdownValid(s);
    case Return(t) => if t < |s.ticks| && s.ticks[t].phase.Running? { ReturnValid(s, t); }
    case _ =>
      forall t: nat ensures TickOk(s', t) { assert TickOk(s, t); }
      forall d ensures TimerOk(s', d) { assert TimerOk(s, d); }
  }

  lemma {:induction false} RunValid(events: seq<Event>)
    ensures Valid(Run(events))
  {
    hide Step;
    if events != [] {
      RunValid(events[..|events| - 1]);
      StepValid(Run(events[..|events| - 1]), events[|events| - 1]);
    } else {
      forall t: nat ensures TickOk(INIT, t) {}
      forall d ensures TimerOk(INIT, d) {}
    }
  }

  predicate Going(s: State, t: nat, device: DeviceId) {
    t < |s.ticks| && s.ticks[t].device == device && Active(s.ticks[t]) && Current(s, t)
  }

  /** Over every run: per device at most one armed or running tick belongs to the current generation. */
  lemma OneTickPerBurst(events: seq<Event>, device: DeviceId, t: nat, u: nat)
    ensures Going(Run(events), t, device) && Going(Run(events), u, device) ==> t == u
  {
    RunValid(events);
    assert TickOk(Run(events), t) && TickOk(Run(events), u);
  }

  // ---------- counting a burst's queries ----------

  predicate InBurst(tick: Tick, device: DeviceId, g: nat) {
    tick.device == device && tick.generation == g
  }

  datatype What = All | Sent | Exposed

  predicate Counts(tick: Tick, what: What) {
    match what
    case All => true
    case Sent => tick.sent
    case Exposed => tick.sent || Active(tick)
  }

  /** How many ticks a burst has armed, how many have queried, how many may have. */
  function Number(ticks: seq<Tick>, what: What, device: DeviceId, g: nat): nat {
    if ticks == [] then 0
    else
      var last := ticks[|ticks| - 1];
      Number(ticks[..|ticks| - 1], what, device, g) + if InBurst(last, device, g) && Counts(last, what) then 1 else 0
  }

  lemma {:induction false} SentAtMostArmed(ticks: seq<Tick>, device: DeviceId, g: nat)
    ensures Number(ticks, Sent, device, g) <= Number(ticks, Exposed, device, g) <= Number(ticks, All, device, g)
  {
    if ticks != [] {
      SentAtMostArmed(ticks[..|ticks| - 1], device, g);
    }
  }

  predicate SameBurst(a: Tick, b: Tick) {
    b == a.(phase := b.phase, sent := b.sent)
  }

  /** A step keeps every tick's burst and round, and arms at most one more: for a fresh burst, or after
      a tick of a burst that is still current and has time left. */
  predicate Arms(s: State, s': State) {
    |s'.ticks| == |s.ticks| + 1 &&
      var next := s'.ticks[|s.ticks|];
      && next.phase.Armed? && !next.sent && !s.closed && !s'.closed
      && (next.round == 0 ==>
            && next.generation > Generation(s, next.device) && next.phase.at == next.start == s.now)
      && (next.round > 0 ==>
            && next.generation == Generation(s, next.device)
            && next.device in s.timers && s.timers[next.device] < |s.ticks|
            && var last := s.ticks[s.timers[next.device]];
            && Active(last) && !Active(s'.ticks[s.timers[next.device]])
            && next == last.(round := next.round, phase := next.phase, sent := false) && next.round == last.round + 1
            && last.phase.Running? && next.phase.at == s.now + next.interval < next.start + next.duration)
  }

  predicate Moves(s: State, s': State, t: nat) {
    && s.now <= s'.now && (s.closed ==> s'.closed)
    && (|s'.ticks| == |s.ticks| || Arms(s, s'))
    && (t < |s.ticks| ==>
          && SameBurst(s.ticks[t], s'.ticks[t])
          && Generation(s, s.ticks[t].device) <= Generation(s', s.ticks[t].device)
          && (s'.ticks[t].phase == s.ticks[t].phase || !Active(s'.ticks[t])
              || (s'.ticks[t].phase.Running? && s.ticks[t].phase.Armed? && s.ticks[t].phase.at <= s.now))
          && (s'.ticks[t].sent ==> s.ticks[t].sent || Active(s.ticks[t])))
  }

  lemma StartMoves(s: State, device: DeviceId, duration: real, interval: real, t: nat)
    requires TimerOk(s, device)
    ensures Moves(s, DoStart(s, device, duration, interval), t)
  {
  }

  lemma ReturnMoves(s: State, u: nat, t: nat)
    requires u < |s.ticks| && s.ticks[u].phase.Running? && TickOk(s, u) && TimerOk(s, s.ticks[u].device)
    ensures Moves(s, DoReturn(s, u), t)
  {
  }

  lemma ShutdownMoves(s: State, t: nat)
    ensures Moves(s, DoShutdown(s), t)
  {
  }

  lemma StepMoves(s: State, e: Event, t: nat)
    requires Valid(s)
    ensures Moves(s, Step(s, e), t)
  {
    hide DoShutdown, DoReturn, DoStart;
    match e
    case Return(u) =>
      if u < |s.ticks| && s.ticks[u].phase.Running? {
        assert TickOk(s, u) && TimerOk(s, s.ticks[u].device);
        ReturnMoves(s, u, t);
      }
    case Start(device, duration, interval) =>
      assert TimerOk(s, device);
      StartMoves(s, device, duration, interval, t);
    case Shutdown => ShutdownMoves(s, t);
    case _ =>
  }

  lemma {:induction false} NumberFrame(a: seq<Tick>, b: seq<Tick>, what: What, device: DeviceId, g: nat)
    requires |a| <= |b|
    requires forall t | 0 <= t < |a| ::
      InBurst(a[t], device, g) == InBurst(b[t], device, g) && (Counts(b[t], what) ==> Counts(a[t], what))
    requires forall t | |a| <= t < |b| :: !InBurst(b[t], device, g)
    ensures Number(b, what, device, g) <= Number(a, what, device, g)
  {
    if b != [] {
      var n := |b| - 1;
      if |a| == |b| {
        NumberFrame(a[..n], b[..n], what, device, g);
      } else {
        NumberFrame(a, b[..n], what, device, g);
      }
    }
  }

  /** Numbers only depend on what the ticks of the burst are. */
  lemma NumberSame(a: seq<Tick>, b: seq<Tick>, device: DeviceId, g: nat)
    requires |a| == |b| && forall t | 0 <= t < |a| :: SameBurst(a[t], b[t])
    ensures Number(b, All, device, g) == Number(a, All, device, g)
  {
    NumberFrame(a, b, All, device, g);
    NumberFrame(b, a, All, device, g);
  }

  // ---------- rounds and time ----------

  /** The time a number of intervals takes. */
  function Times(n: int, interval: real): real {
    n as real * interval
  }

  lemma TimesZero(interval: real)
    ensures Times(0, interval) == 0.0
  {
  }

  lemma TimesNext(n: int, interval: real)
    ensures Times(n + 1, interval) == Times(n, interval) + interval
  {
  }

  /** A tick of round n runs no earlier than n intervals into its burst, and before its end. */
  predicate TimeOk(s: State, t: nat) {
    t < |s.ticks| ==>
      var tick := s.ticks[t];
      && (tick.round > 0 ==> Times(tick.round, tick.interval) < tick.duration)
      && (tick.phase.Armed? ==> tick.phase.at >= tick.start + Times(tick.round, tick.interval))
      && (tick.phase.Running? ==> s.now >= tick.start + Times(tick.round, tick.interval))
  }

  predicate PairOk(s: State, t: nat, u: nat) {
    t < |s.ticks| && u < |s.ticks| && InBurst(s.ticks[u], s.ticks[t].device, s.ticks[t].generation) ==>
      && s.ticks[u].interval == s.ticks[t].interval && s.ticks[u].duration == s.ticks[t].duration
      && (Active(s.ticks[t]) && Active(s.ticks[u]) ==> t == u)
  }

  function Rounds(s: State, t: nat): nat
    requires t < |s.ticks|
  {
    Number(s.ticks, All, s.ticks[t].device, s.ticks[t].generation)
  }

  /** n ticks armed by a burst with these limits. */
  predicate Fits(n: nat, duration: real, interval: real) {
    n <= 1 || Times(n - 1, interval) < duration
  }

  predicate CountOk(s: State, t: nat) {
    t < |s.ticks| ==>
      && Fits(Rounds(s, t), s.ticks[t].duration, s.ticks[t].interval)
      && (Active(s.ticks[t]) && Current(s, t) ==> Rounds(s, t) == s.ticks[t].round + 1)
  }

  ghost predicate Paced(s: State) {
    && Valid(s)
    && (forall t: nat :: TimeOk(s, t))
    && (forall t: nat, u: nat :: PairOk(s, t, u))
    && (forall t: nat :: CountOk(s, t))
  }

  lemma NextRound(last: Tick, now: real, next: Tick)
    requires next.round == last.round + 1 && next.interval == last.interval
    requires now >= last.start + Times(last.round, last.interval)
    ensures now + next.interval >= last.start + Times(next.round, next.interval)
  {
    TimesNext(last.round, last.interval);
    hide Times;
  }

  lemma StepTimeOk(s: State, e: Event, t: nat)
    requires Paced(s)
    ensures TimeOk(Step(s, e), t)
  {
    hide Step, Number, Times;
    var s' := Step(s, e);
    StepMoves(s, e, t);
    assert TimeOk(s, t) && TickOk(s, t);
    if t == |s.ticks| && |s'.ticks| > |s.ticks| && s'.ticks[t].round == 0 {
      TimesZero(s'.ticks[t].interval);
    }
    if t == |s.ticks| && |s'.ticks| > |s.ticks| && s'.ticks[t].round > 0 {
      var u := s.timers[s'.ticks[t].device];
      assert TimeOk(s, u);
      NextRound(s.ticks[u], s.now, s'.ticks[t]);
    }
  }

  lemma StepPairOk(s: State, e: Event, t: nat, u: nat)
    requires Paced(s) && Valid(Step(s, e)) && t <= u
    ensures PairOk(Step(s, e), t, u) && PairOk(Step(s, e), u, t)
  {
    hide Step, Number;
    var s' := Step(s, e);
    StepMoves(s, e, t);
    StepMoves(s, e, u);
    assert PairOk(s, t, u) && PairOk(s, u, t) && TickOk(s, t);
    if u == |s.ticks| && |s'.ticks| > |s.ticks| && s'.ticks[u].round > 0 && t < |s.ticks| {
      assert PairOk(s, t, s.timers[s'.ticks[u].device]);
    }
  }

  lemma NumberAppend(ticks: seq<Tick>, tick: Tick, device: DeviceId, g: nat)
    ensures Number(ticks + [tick], All, device, g) == Number(ticks, All, device, g) + if InBurst(tick, device, g) then 1 else 0
  {
    assert (ticks + [tick])[..|ticks|] == ticks;
  }

  /** How a step changes the number of ticks a burst has armed. */
  lemma StepArmed(s: State, e: Event, device: DeviceId, g: nat)
    requires Valid(s)
    ensures var s' := Step(s, e);
      Number(s'.ticks, All, device, g) == Number(s.ticks, All, device, g)
        + if |s'.ticks| > |s.ticks| && InBurst(s'.ticks[|s.ticks|], device, g) then 1 else 0
  {
    hide Step, Number;
    var s' := Step(s, e);
    StepMoves(s, e, 0);
    var kept := s'.ticks[..|s.ticks|];
    forall t | 0 <= t < |s.ticks| ensures SameBurst(s.ticks[t], kept[t]) {
      StepMoves(s, e, t);
    }
    NumberSame(s.ticks, kept, device, g);
    if |s'.ticks| > |s.ticks| {
      NumberAppend(kept, s'.ticks[|s.ticks|], device, g);
      assert kept + [s'.ticks[|s.ticks|]] == s'.ticks;
    } else {
      assert kept == s'.ticks;
    }
  }

  lemma {:induction false} NoneYet(ticks: seq<Tick>, what: What, device: DeviceId, g: nat)
    requires forall t | 0 <= t < |ticks| :: !InBurst(ticks[t], device, g)
    ensures Number(ticks, what, device, g) == 0
  {
    if ticks != [] {
      NoneYet(ticks[..|ticks| - 1], what, device, g);
    }
  }

  lemma StepCountOk(s: State, e: Event, t: nat)
    requires Paced(s)
    ensures CountOk(Step(s, e), t)
  {
    hide Step, Number;
    var s' := Step(s, e);
    StepMoves(s, e, t);
    if t < |s'.ticks| {
      StepArmed(s, e, s'.ticks[t].device, s'.ticks[t].generation);
      assert CountOk(s, t) && TickOk(s, t);
      if |s'.ticks| > |s.ticks| && InBurst(s'.ticks[|s.ticks|], s'.ticks[t].device, s'.ticks[t].generation) {
        var next := s'.ticks[|s.ticks|];
        if next.round > 0 {
          var u := s.timers[next.device];
          assert CountOk(s, u) && TimeOk(s, u) && TickOk(s, u) && PairOk(s, t, u) && TimerOk(s, next.device);
          NextRound(s.ticks[u], s.now, next);
        } else if t == |s.ticks| {
          forall v: nat | v < |s.ticks| ensures !InBurst(s.ticks[v], next.device, next.generation) { assert TickOk(s, v); }
          NoneYet(s.ticks, All, next.device, next.generation);
        }
      }
    }
  }

  lemma StepPaced(s: State, e: Event)
    requires Paced(s)
    ensures Paced(Step(s, e))
  {
    hide Step;
    StepValid(s, e);
    forall t: nat ensures TimeOk(Step(s, e), t) { StepTimeOk(s, e, t); }
    forall t: nat ensures CountOk(Step(s, e), t) { StepCountOk(s, e, t); }
    forall t: nat, u: nat ensures PairOk(Step(s, e), t, u) {
      if t <= u { StepPairOk(s, e, t, u); } else { StepPairOk(s, e, u, t); }
    }
  }

  lemma {:induction false} RunFromPaced(s: State, events: seq<Event>)
    requires Paced(s)
    ensures Paced(RunFrom(s, events))
  {
    hide Step;
    if events != [] {
      RunFromPaced(s, events[..|events| - 1]);
      StepPaced(RunFrom(s, events[..|events| - 1]), events[|events| - 1]);
    }
  }

  lemma RunPaced(events: seq<Event>)
    ensures Paced(Run(events))
  {
    RunValid([]);
    assert Run([]) == INIT;
    RunFromPaced(INIT, events);
  }

  /** The least integer not below x. */
  function Ceil(x: real): int {
    if x.Floor as real == x then x.Floor else x.Floor + 1
  }

  /** Over every run, the burst of a tick queries at most max(1, ceil(duration / interval)) times,
      which is at most 40. */
  lemma BurstIsBounded(events: seq<Event>, t: nat)
    ensures var s := Run(events); t < |s.ticks| ==>
      var tick := s.ticks[t];
      && tick.interval > 0.0
      && var limit := Ceil(tick.duration / tick.interval);
      Number(s.ticks, Sent, tick.device, tick.generation) <= (if limit > 1 then limit else 1) <= 40
  {
    var s := Run(events);
    RunPaced(events);
    if t < |s.ticks| {
      var tick := s.ticks[t];
      assert CountOk(s, t) && TickOk(s, t);
      SentAtMostArmed(s.ticks, tick.device, tick.generation);
      CeilBound(Rounds(s, t), tick.duration, tick.interval);
    }
  }

  lemma CeilBound(n: nat, duration: real, interval: real)
    requires Fits(n, duration, interval) && interval >= MIN_INTERVAL && duration <= MAX_DURATION
    ensures var limit := Ceil(duration / interval); n <= (if limit > 1 then limit else 1) <= 40
  {
    var q := duration / interval;
    hide Times;
    AtMost(duration, interval, 40);
    if n > 1 { MoreThan(duration, interval, n - 1); }
  }

  lemma AtMost(duration: real, interval: real, k: int)
    requires interval > 0.0 && duration <= k as real * interval
    ensures duration / interval <= k as real
  {
    var q := duration / interval;
    if q > k as real { Factor(q, k as real, interval); }
  }

  lemma MoreThan(duration: real, interval: real, k: int)
    requires interval > 0.0 && Times(k, interval) < duration
    ensures k as real < duration / interval
  {
    var q := duration / interval;
    if q <= k as real { Factor(k as real, q, interval); }
  }

  lemma Factor(a: real, b: real, interval: real)
    requires interval > 0.0 && a >= b
    ensures a * interval >= b * interval
    ensures a > b ==> a * interval > b * interval
  {
  }

  // ---------- after a stop, and after shutdown ----------

  predicate Stopped(s: State, device: DeviceId, g: nat) {
    Generation(s, device) > g
  }

  lemma {:induction false} ExposedAtMostOneMore(s: State, n: nat, device: DeviceId, g: nat)
    requires Paced(s) && n <= |s.ticks|
    ensures Number(s.ticks[..n], Exposed, device, g) <= Number(s.ticks[..n], Sent, device, g) + 1
    ensures Number(s.ticks[..n], Exposed, device, g) > Number(s.ticks[..n], Sent, device, g) ==>
      exists t :: 0 <= t < n && InBurst(s.ticks[t], device, g) && Active(s.ticks[t])
  {
    if n > 0 {
      ExposedAtMostOneMore(s, n - 1, device, g);
      assert s.ticks[..n][..n - 1] == s.ticks[..n - 1];
      if InBurst(s.ticks[n - 1], device, g) && Active(s.ticks[n - 1]) {
        forall t: nat | t < n - 1 && InBurst(s.ticks[t], device, g) ensures !Active(s.ticks[t]) {
          assert PairOk(s, t, n - 1);
        }
      }
    }
  }

  lemma StepStopped(s: State, e: Event, device: DeviceId, g: nat)
    requires Paced(s) && Stopped(s, device, g)
    ensures Number(Step(s, e).ticks, Exposed, device, g) <= Number(s.ticks, Exposed, device, g)
    ensures Stopped(Step(s, e), device, g)
  {
    hide Number;
    var s' := Step(s, e);
    forall t | 0 <= t < |s.ticks|
      ensures SameBurst(s.ticks[t], s'.ticks[t]) && (Counts(s'.ticks[t], Exposed) ==> Counts(s.ticks[t], Exposed))
    {
      StepMoves(s, e, t);
    }
    StepMoves(s, e, 0);
    NumberFrame(s.ticks, s'.ticks, Exposed, device, g);
  }

  lemma {:induction false} RunFromStopped(s: State, events: seq<Event>, device: DeviceId, g: nat)
    requires Paced(s) && Stopped(s, device, g)
    ensures var s' := RunFrom(s, events);
      Stopped(s', device, g) && Number(s'.ticks, Exposed, device, g) <= Number(s.ticks, Exposed, device, g)
  {
    hide Step, Number;
    if events != [] {
      RunFromStopped(s, events[..|events| - 1], device, g);
      RunFromPaced(s, events[..|events| - 1]);
      StepStopped(RunFrom(s, events[..|events| - 1]), events[|events| - 1], device, g);
    }
  }

  /** Over every run, a burst that has been stopped or replaced sends at most one more query, whatever
      happens next. */
  lemma StoppedBurstQueriesOnceMore(before: seq<Event>, after: seq<Event>, device: DeviceId, g: nat)
    requires Stopped(Run(before), device, g)
    ensures Number(RunFrom(Run(before), after).ticks, Sent, device, g) <= Number(Run(before).ticks, Sent, device, g) + 1
  {
    var s := Run(before);
    RunPaced(before);
    RunFromStopped(s, after, device, g);
    ExposedAtMostOneMore(s, |s.ticks|, device, g);
    assert s.ticks[..|s.ticks|] == s.ticks;
    SentAtMostArmed(RunFrom(s, after).ticks, device, g);
  }

  /** After shutdown nothing is armed any more, whatever happens next. */
  lemma {:induction false} NothingArmedAfterShutdown(before: seq<Event>, after: seq<Event>)
    requires Run(before).closed
    ensures var s := RunFrom(Run(before), after); s.closed && |s.ticks| == |Run(before).ticks|
  {
    hide Step;
    if after != [] {
      var rest := after[..|after| - 1];
      NothingArmedAfterShutdown(before, rest);
      RunPaced(before);
      RunFromPaced(Run(before), rest);
      StepMoves(RunFrom(Run(before), rest), after[|after| - 1], 0);
    }
  }
}
