/** A LAN write from its gates to its confirm: send, settle, read back, count a miss (coordinator.py, lan_confirm.py). */
module LanWrites {
  import opened LanTier
  import T = LanTier

  type Seconds = x: real | 0.0 <= x witness 0.0

  // ---------- the echo window ----------

  /** async_settle's wait: what is left of the lag, never negative. */
  function Settle(lag: Seconds, since: Option<real>, now: real): (delay: real)
    ensures 0.0 <= delay
  {
    var left := if since.Some? then lag - (now - since.value) else lag;
    if left <= 0.0 then 0.0 else left
  }

  predicate CountsAsMiss(lag: Seconds, elapsed: real) {
    lag <= 0.0 || elapsed >= lag
  }

  /** However late the confirm starts and however late it wakes, its read starts after the echo window,
      the added wait is exactly what is left of the window and nothing once it has passed, and a readback counts
      exactly when it ends after the window; without a declared lag neither rule does anything. */
  lemma EchoWindow(lag: Seconds, sentAt: real, start: real, readAt: real, done: real)
    requires sentAt <= start && start + Settle(lag, Some(sentAt), start) <= readAt <= done
    ensures sentAt + lag <= readAt
    ensures Settle(lag, Some(sentAt), start) <= lag
    ensures start >= sentAt + lag ==> Settle(lag, Some(sentAt), start) == 0.0
    ensures CountsAsMiss(lag, done - sentAt)
    ensures lag == 0.0 ==> Settle(lag, Some(sentAt), start) == 0.0 && forall elapsed :: CountsAsMiss(lag, elapsed)
    ensures start <= sentAt + lag ==> start + Settle(lag, Some(sentAt), start) == sentAt + lag
    ensures lag > 0.0 ==> forall elapsed :: elapsed < lag ==> !CountsAsMiss(lag, elapsed)
    ensures Settle(lag, None, start) == lag
  {
  }

  // ---------- the machine ----------

  datatype Phase = NotStarted | Settling(until: real) | Reading | Ended

  /** A confirm: the tail of a sent write, run inline or in a background task. */
  datatype Task = Task(device: DeviceId, lag: Seconds, sentAt: real, phase: Phase)

  datatype Entry =
    | Sent(device: DeviceId, at: real)
    | TransportFailure(device: DeviceId)
    | TransportSend(device: DeviceId)
    | TransportSuccess(device: DeviceId)

  datatype State = State(tier: T.State, writeOnly: set<DeviceId>, clock: real, tasks: seq<Task>, log: seq<Entry>)

  /** What the environment decides about one attempt to write over LAN. */
  datatype Attempt = Attempt(device: DeviceId, lag: Seconds, clientUp: bool, isGroup: bool, healthy: bool, mapped: bool, sendOk: bool)

  datatype Reply = NoReply | Mismatch | Match

  datatype Event =
    | Wait(time: Seconds)
    | Try(attempt: Attempt)
    | StartConfirm(task: nat, clientUp: bool)
    | Wake(task: nat)
    | ReadBack(task: nat, reply: Reply)
    | Abort(task: nat)
    | Map(change: T.Event)

  const START: State := State.State(T.INIT, {}, 0.0, [], [])

  predicate Reaches(s: State, a: Attempt) {
    a.clientUp && !a.isGroup && a.device in s.tier.devices && (a.device in s.writeOnly || a.healthy)
  }

  /** Whether an attempt puts a datagram on the wire. */
  predicate Sends(s: State, a: Attempt) {
    Reaches(s, a) && !Suppressed(s.tier, a.device, s.clock) && a.mapped
  }

  /** _try_lan_command up to the confirm. */
  function DoTry(s: State, a: Attempt): State {
    if !Reaches(s, a) then s
    else
      var checked := s.(tier := DoCheck(s.tier, a.device, s.clock));
      if !Sends(s, a) then checked
      else if !a.sendOk then checked.(log := s.log + [TransportFailure(a.device)])
      else if a.device in s.writeOnly then
        checked.(log := s.log + [Sent(a.device, s.clock), TransportSend(a.device), TransportSuccess(a.device)])
      else
        checked.(log := s.log + [Sent(a.device, s.clock)],
                 tasks := s.tasks + [Task(a.device, a.lag, s.clock, NotStarted)])
  }

  function SetPhase(s: State, id: nat, phase: Phase): State
    requires id < |s.tasks|
  {
    s.(tasks := s.tasks[id := s.tasks[id].(phase := phase)])
  }

  /** The first step of a confirm: over without a client, else it asks how long to settle. */
  function DoStart(s: State, id: nat, clientUp: bool): State
    requires id < |s.tasks|
  {
    var t := s.tasks[id];
    var delay := Settle(t.lag, Some(t.sentAt), s.clock);
    SetPhase(s, id, if !clientUp then Ended else if delay == 0.0 then Reading else Settling(s.clock + delay))
  }

  function CountMiss(s: State, d: DeviceId, lag: Seconds, sentAt: real): T.State {
    if CountsAsMiss(lag, s.clock - sentAt) then NoteMiss(s.tier, d, s.clock) else s.tier
  }

  /** _async_confirm_lan_write from its reply on. */
  function DoReadBack(s: State, id: nat, reply: Reply): State
    requires id < |s.tasks|
  {
    var t, ended := s.tasks[id], SetPhase(s, id, Ended);
    match reply
    case NoReply => ended.(tier := CountMiss(s, t.device, t.lag, t.sentAt))
    case Mismatch => ended.(tier := CountMiss(s, t.device, t.lag, t.sentAt), log := s.log + [TransportSuccess(t.device)])
    case Match => ended.(tier := ClearMisses(s.tier, t.device),
                         log := s.log + [TransportSend(t.device), TransportSuccess(t.device)])
  }

  predicate InPhase(s: State, id: nat) {
    id < |s.tasks| && !s.tasks[id].phase.Ended?
  }

  function Step(s: State, e: Event): State {
    match e
    case Wait(time) => s.(clock := s.clock + time)
    case Try(a) => DoTry(s, a)
    case StartConfirm(id, clientUp) => if InPhase(s, id) && s.tasks[id].phase.NotStarted? then DoStart(s, id, clientUp) else s
    case Wake(id) =>
      if InPhase(s, id) && s.tasks[id].phase.Settling? && s.clock >= s.tasks[id].phase.until then SetPhase(s, id, Reading) else s
    case ReadBack(id, reply) => if InPhase(s, id) && s.tasks[id].phase.Reading? then DoReadBack(s, id, reply) else s
    case Abort(id) => if InPhase(s, id) then SetPhase(s, id, Ended) else s
    case Map(change) => if change.Merge? || change.Refresh? then s.(tier := T.Step(s.tier, change)) else s
  }

  function Run(writeOnly: set<DeviceId>, events: seq<Event>): State {
    if events == [] then START.(writeOnly := writeOnly)
    else Step(Run(writeOnly, events[..|events| - 1]), events[|events| - 1])
  }

  // ---------- every unconfirmed read is evidence ----------

  /** A confirm never reads before its echo window has passed. */
  predicate TaskOk(s: State, id: nat)
    requires id < |s.tasks|
  {
    var t := s.tasks[id];
    && t.sentAt <= s.clock
    && (t.phase.Settling? ==> t.phase.until == t.sentAt + t.lag)
    && (t.phase.Reading? ==> s.clock >= t.sentAt + t.lag)
  }

  lemma StepKeepsTask(s: State, e: Event, id: nat)
    requires id < |Step(s, e).tasks| && (id < |s.tasks| ==> TaskOk(s, id))
    ensures TaskOk(Step(s, e), id)
  {
    hide T.Step, Suppressed, NoteMiss, ClearMisses, DoCheck;
  }

  lemma {:induction false} TasksOk(writeOnly: set<DeviceId>, events: seq<Event>, id: nat)
    requires id < |Run(writeOnly, events).tasks|
    ensures TaskOk(Run(writeOnly, events), id)
  {
    hide Step, TaskOk;
    var prefix, last := events[..|events| - 1], events[|events| - 1];
    if id < |Run(writeOnly, prefix).tasks| { TasksOk(writeOnly, prefix, id); }
    StepKeepsTask(Run(writeOnly, prefix), last, id);
  }

  /** Over every run, a readback that ends unconfirmed is counted: the window check never refuses it. */
  lemma UnconfirmedAlwaysCounts(writeOnly: set<DeviceId>, events: seq<Event>, id: nat, reply: Reply)
    requires var s := Run(writeOnly, events); id < |s.tasks| && s.tasks[id].phase.Reading?
    requires reply.NoReply? || reply.Mismatch?
    ensures var s := Run(writeOnly, events);
      Step(s, ReadBack(id, reply)).tier == NoteMiss(s.tier, s.tasks[id].device, s.clock)
  {
    TasksOk(writeOnly, events, id);
  }

  // ---------- transport health ----------

  /** Sends that failed on the socket. */
  function SendFailures(writeOnly: set<DeviceId>, events: seq<Event>, d: DeviceId): nat {
    if events == [] then 0
    else
      var prefix, e := events[..|events| - 1], events[|events| - 1];
      SendFailures(writeOnly, prefix, d)
      + if e.Try? && e.attempt.device == d && Sends(Run(writeOnly, prefix), e.attempt) && !e.attempt.sendOk then 1 else 0
  }

  function Failures(log: seq<Entry>, d: DeviceId): nat {
    if log == [] then 0 else Failures(log[..|log| - 1], d) + if log[|log| - 1] == TransportFailure(d) then 1 else 0
  }

  lemma FailuresAdd(log: seq<Entry>, more: seq<Entry>, d: DeviceId)
    ensures Failures(log + more, d) == Failures(log, d) + Failures(more, d)
  {
    if more == [] {
      assert log + more == log;
    } else {
      assert (log + more)[..|log + more| - 1] == log + more[..|more| - 1];
    }
  }

  /** What a step adds to the log. */
  function Added(s: State, e: Event): seq<Entry> {
    match e
    case Try(a) =>
      if !Sends(s, a) then []
      else if !a.sendOk then [TransportFailure(a.device)]
      else if a.device in s.writeOnly then [Sent(a.device, s.clock), TransportSend(a.device), TransportSuccess(a.device)]
      else [Sent(a.device, s.clock)]
    case ReadBack(id, reply) =>
      if !InPhase(s, id) || !s.tasks[id].phase.Reading? then []
      else if reply.Mismatch? then [TransportSuccess(s.tasks[id].device)]
      else if reply.Match? then [TransportSend(s.tasks[id].device), TransportSuccess(s.tasks[id].device)]
      else []
    case _ => []
  }

  lemma StepLog(s: State, e: Event)
    ensures Step(s, e).log == s.log + Added(s, e)
  {
    hide T.Step, Suppressed, NoteMiss, ClearMisses, DoCheck, Settle, CountsAsMiss;
    assert s.log + [] == s.log;
  }

  lemma AddedFailures(s: State, e: Event, d: DeviceId)
    ensures Failures(Added(s, e), d) ==
      if e.Try? && e.attempt.device == d && Sends(s, e.attempt) && !e.attempt.sendOk then 1 else 0
  {
    hide Sends;
    var added := Added(s, e);
    if |added| == 1 { FailuresOne(added[0], d); }
    if |added| == 2 { FailuresOne(added[0], d); FailuresOne(added[1], d); FailuresAdd([added[0]], [added[1]], d); assert added == [added[0]] + [added[1]]; }
    if |added| == 3 {
      FailuresOne(added[0], d);
      FailuresOne(added[1], d);
      FailuresOne(added[2], d);
      FailuresAdd([added[0]], [added[1]], d);
      FailuresAdd([added[0]] + [added[1]], [added[2]], d);
      assert added == [added[0]] + [added[1]] + [added[2]];
    }
  }

  lemma FailuresOne(entry: Entry, d: DeviceId)
    ensures Failures([entry], d) == if entry == TransportFailure(d) then 1 else 0
  {
    assert [entry][..0] == [];
  }

  /** Over every run, the LAN transport failures recorded are exactly the sends the socket refused: no
      unanswered or mismatching readback is ever recorded as one. */
  lemma {:induction false} FailuresAreSendFailures(writeOnly: set<DeviceId>, events: seq<Event>, d: DeviceId)
    ensures Failures(Run(writeOnly, events).log, d) == SendFailures(writeOnly, events, d)
  {
    hide Step, Sends;
    if events != [] {
      var prefix, last := events[..|events| - 1], events[|events| - 1];
      var s := Run(writeOnly, prefix);
      FailuresAreSendFailures(writeOnly, prefix, d);
      StepLog(s, last);
      FailuresAdd(s.log, Added(s, last), d);
      AddedFailures(s, last, d);
    }
  }
}
