/** Who is on the LAN map, how many writes in a row went unconfirmed, and which writes are sent: each read off the
    events of any run. */
module LanDecisions {
  import T = LanTier
  import opened LanWrites

  type DeviceId = T.DeviceId

  // ---------- the map ----------

  /** A rescan found another device at this address. */
  predicate TakenBy(matched: map<DeviceId, T.Info>, ip: T.Ip) {
    ip != "" && exists o <- matched :: matched[o].ip == ip
  }

  /** A solicited read of the device at this address went out and was not answered. */
  predicate ReadInVain(polled: map<T.Ip, DeviceId>, answered: set<T.Ip>, ip: T.Ip, d: DeviceId) {
    ip in polled && polled[ip] == d && ip !in answered
  }

  /** The device's entry: what the last rescan that found it said, until a rescan that does not find it finds its
      address taken, or its third read in a row goes unanswered. */
  ghost function Entry(events: seq<T.Event>, d: DeviceId): T.Option<T.Info> {
    if events == [] then T.None
    else
      var before, e := events[..|events| - 1], events[|events| - 1];
      var was := Entry(before, d);
      match e
      case Merge(matched) =>
        if d in matched then T.Some(matched[d])
        else if was.Some? && TakenBy(matched, was.value.ip) then T.None
        else was
      case Refresh(polled, writeOnly, answered) =>
        if was.Some? && T.PollOf(T.Run(before), writeOnly, polled) && ReadInVain(polled, answered, was.value.ip, d)
           && T.Streak(before, d) + 1 >= 3
        then T.None
        else was
      case _ => was
  }

  function EntryIn(s: T.State, d: DeviceId): T.Option<T.Info> {
    if d in s.devices then T.Some(s.devices[d]) else T.None
  }

  lemma MergeEntry(s: T.State, matched: map<DeviceId, T.Info>, d: DeviceId)
    ensures EntryIn(T.DoMerge(s, matched), d) ==
      if d in matched then T.Some(matched[d])
      else if d in s.devices && TakenBy(matched, s.devices[d].ip) then T.None
      else EntryIn(s, d)
  {
    if d in s.devices && TakenBy(matched, s.devices[d].ip) {
      var o :| o in matched && matched[o].ip == s.devices[d].ip;
      assert s.devices[d].ip in T.ClaimedIps(matched);
    }
  }

  lemma RefreshEntry(s: T.State, polled: map<T.Ip, DeviceId>, answered: set<T.Ip>, d: DeviceId)
    ensures EntryIn(T.DoRefresh(s, polled, answered), d) ==
      if d in s.devices && ReadInVain(polled, answered, s.devices[d].ip, d) && T.ReadMisses(s, d) + 1 >= 3 then T.None
      else EntryIn(s, d)
  {
  }

  /** Over every run: a device is on the map with exactly its entry, or not at all. */
  lemma {:induction false} MappedIff(events: seq<T.Event>, d: DeviceId)
    ensures EntryIn(T.Run(events), d) == Entry(events, d)
  {
    if events != [] {
      var before, e := events[..|events| - 1], events[|events| - 1];
      var s := T.Run(before);
      MappedIff(before, d);
      hide T.DoMerge, T.DoRefresh, T.PollOf, T.Streak, T.ReadMisses, TakenBy, ReadInVain;
      match e {
        case Merge(matched) => MergeEntry(s, matched, d);
        case Refresh(polled, writeOnly, answered) =>
          if T.PollOf(s, writeOnly, polled) {
            RefreshEntry(s, polled, answered, d);
            if d in s.devices { T.MissesAreTheStreak(before, d); }
          }
        case _ =>
      }
    }
  }

  // ---------- unconfirmed writes in a row ----------

  function Clock(events: seq<Event>): real {
    if events == [] then 0.0
    else Clock(events[..|events| - 1]) + if events[|events| - 1].Wait? then events[|events| - 1].time else 0.0
  }

  /** The device's writes in a row that were not confirmed, and until when it is spared further ones. */
  datatype Row = Row(misses: nat, until: T.Option<real>)

  const NONE := Row(0, T.None)

  /** From the third on, each miss spares the device for the next five minutes. */
  function Longer(r: Row, now: real): Row {
    Row(r.misses + 1, if r.misses + 1 >= 3 then T.Some(now + 300.0) else r.until)
  }

  predicate Expired(r: Row, now: real) {
    r.until.Some? && now >= r.until.value
  }

  predicate ReadsBack(s: State, e: Event, d: DeviceId) {
    e.ReadBack? && e.task < |s.tasks| && s.tasks[e.task].phase.Reading? && s.tasks[e.task].device == d
  }

  /** A confirmed write and leaving the map end the row, an unconfirmed one makes it longer, and the first attempt
      that could reach the device once the time is over starts a new one. */
  function RowAfter(s: State, e: Event, d: DeviceId, r: Row, now: real): Row {
    if ReadsBack(s, e, d) then
      if e.reply.Match? then NONE else Longer(r, now)
    else if e.Try? && e.attempt.device == d && Reaches(s, e.attempt) && Expired(r, now) then NONE
    else if e.Map? && d in s.tier.devices && d !in Step(s, e).tier.devices then NONE
    else r
  }

  function RowOf(writeOnly: set<DeviceId>, events: seq<Event>, d: DeviceId): Row {
    if events == [] then NONE
    else
      var before := events[..|events| - 1];
      RowAfter(Run(writeOnly, before), events[|events| - 1], d, RowOf(writeOnly, before, d), Clock(before))
  }

  function RowIn(s: State, d: DeviceId): Row {
    Row(T.WriteMisses(s.tier, d), if d in s.tier.suppressedUntil then T.Some(s.tier.suppressedUntil[d]) else T.None)
  }

  lemma TryRow(s: State, a: Attempt, d: DeviceId)
    ensures RowIn(DoTry(s, a), d) == RowAfter(s, Try(a), d, RowIn(s, d), s.clock)
  {
    hide Reaches, Sends;
  }

  lemma ReadBackRow(s: State, e: Event, d: DeviceId)
    requires e.ReadBack? && e.task < |s.tasks| && s.tasks[e.task].phase.Reading? && TaskOk(s, e.task)
    ensures RowIn(DoReadBack(s, e.task, e.reply), d) == RowAfter(s, e, d, RowIn(s, d), s.clock)
  {
  }

  lemma MapRow(s: State, e: Event, d: DeviceId)
    requires e.Map?
    ensures RowIn(Step(s, e), d) == RowAfter(s, e, d, RowIn(s, d), s.clock)
  {
    hide T.PollOf, T.NewMisses;
    if e.change.Refresh? { T.RefreshOnlyRemoves(s.tier, e.change.polled, e.change.answered, d); }
  }

  lemma StepRow(s: State, e: Event, d: DeviceId)
    requires e.ReadBack? && e.task < |s.tasks| ==> TaskOk(s, e.task)
    ensures RowIn(Step(s, e), d) == RowAfter(s, e, d, RowIn(s, d), s.clock)
  {
    hide DoTry, DoReadBack, T.Step, T.WriteMisses, Reaches, Settle, TaskOk;
    match e
    case Try(a) => TryRow(s, a, d);
    case ReadBack(id, _) => if InPhase(s, id) && s.tasks[id].phase.Reading? { ReadBackRow(s, e, d); }
    case Map(_) => MapRow(s, e, d);
    case _ =>
  }

  lemma {:induction false} RunClock(writeOnly: set<DeviceId>, events: seq<Event>)
    ensures Run(writeOnly, events).clock == Clock(events) && Run(writeOnly, events).writeOnly == writeOnly
  {
    if events != [] {
      RunClock(writeOnly, events[..|events| - 1]);
      StepClock(Run(writeOnly, events[..|events| - 1]), events[|events| - 1]);
    }
  }

  lemma StepClock(s: State, e: Event)
    ensures Step(s, e).clock == s.clock + if e.Wait? then e.time else 0.0
    ensures Step(s, e).writeOnly == s.writeOnly
  {
    hide T.Step, Settle, CountsAsMiss, Sends, Reaches;
  }

  /** Over every run: the device's count of unconfirmed writes and its deadline are those of the row above. */
  lemma {:induction false} RowsAreCounted(writeOnly: set<DeviceId>, events: seq<Event>, d: DeviceId)
    ensures RowIn(Run(writeOnly, events), d) == RowOf(writeOnly, events, d)
  {
    hide Step, RowAfter, RowIn;
    if events == [] {
      NoRow(writeOnly, d);
    } else {
      var before, e := events[..|events| - 1], events[|events| - 1];
      RowsAreCounted(writeOnly, before, d);
      RunClock(writeOnly, before);
      if e.ReadBack? && e.task < |Run(writeOnly, before).tasks| { TasksOk(writeOnly, before, e.task); }
      StepRow(Run(writeOnly, before), e, d);
    }
  }

  lemma NoRow(writeOnly: set<DeviceId>, d: DeviceId)
    ensures RowIn(START.(writeOnly := writeOnly), d) == NONE
  {
  }

  // ---------- which writes are sent ----------

  /** Nothing stands in the way of a datagram: LAN is up, the device no group and on the map, its reads healthy
      (or it is write-only), it is not being spared after three misses, and the command has a LAN form. */
  predicate MaySend(writeOnly: set<DeviceId>, events: seq<Event>, a: Attempt) {
    && a.clientUp && !a.isGroup && a.mapped
    && a.device in Run(writeOnly, events).tier.devices
    && (a.device in writeOnly || a.healthy)
    && var r := RowOf(writeOnly, events, a.device);
    && !(r.until.Some? && Clock(events) < r.until.value)
  }

  /** Over every run: an attempt puts a datagram on the wire exactly when nothing stands in the way and the socket
      takes it; a refusal by the socket is recorded as a failure; and a sent write has a confirm exactly when the
      device is not write-only. */
  lemma SendsIff(writeOnly: set<DeviceId>, events: seq<Event>, a: Attempt)
    ensures var s := Run(writeOnly, events);
      var next := Step(s, Try(a));
      var d, may := a.device, MaySend(writeOnly, events, a);
      && next.log == s.log +
           (if !may then []
            else if !a.sendOk then [TransportFailure(d)]
            else if d in writeOnly then [Sent(d, Clock(events)), TransportSend(d), TransportSuccess(d)]
            else [Sent(d, Clock(events))])
      && next.tasks == s.tasks + if may && a.sendOk && d !in writeOnly then [Task(d, a.lag, Clock(events), NotStarted)] else []
  {
    hide Run, T.WriteMisses, RowOf;
    RowsAreCounted(writeOnly, events, a.device);
    RunClock(writeOnly, events);
    var s := Run(writeOnly, events);
    assert s.log + [] == s.log && s.tasks + [] == s.tasks;
    hide Clock;
  }

  // ---------- the confirm of a sent write ----------

  function PhaseOf(s: State, id: nat): Phase {
    if id < |s.tasks| then s.tasks[id].phase else Ended
  }

  function Waiting(now: real, ready: real): Phase {
    if now >= ready then Reading else Settling(ready)
  }

  function Heard(d: DeviceId, reply: Reply): seq<LanWrites.Entry> {
    match reply
    case NoReply => []
    case Mismatch => [TransportSuccess(d)]
    case Match => [TransportSend(d), TransportSuccess(d)]
  }

  /** Over every run: a confirm reads the device back exactly from its lag after the send on, waiting till then if
      need be, unless LAN is gone when it starts; and its reading ends it, recording that the device was heard when
      it answered, and a delivery only when the answer matched. */
  lemma ConfirmReadsIff(writeOnly: set<DeviceId>, events: seq<Event>, id: nat, clientUp: bool, reply: Reply)
    requires id < |Run(writeOnly, events).tasks|
    ensures var s := Run(writeOnly, events);
      var t := s.tasks[id];
      var ready := t.sentAt + t.lag;
      var read := Step(s, ReadBack(id, reply));
      && (t.phase.NotStarted? && !clientUp ==> PhaseOf(Step(s, StartConfirm(id, clientUp)), id) == Ended)
      && (t.phase.NotStarted? && clientUp ==> PhaseOf(Step(s, StartConfirm(id, clientUp)), id) == Waiting(Clock(events), ready))
      && (t.phase.Settling? ==> PhaseOf(Step(s, Wake(id)), id) == Waiting(Clock(events), ready))
      && (t.phase.Reading? ==> PhaseOf(read, id) == Ended && read.log == s.log + Heard(t.device, reply))
  {
    TasksOk(writeOnly, events, id);
    RunClock(writeOnly, events);
    hide Run, Clock, T.WriteMisses;
    assert Run(writeOnly, events).log + [] == Run(writeOnly, events).log;
  }
}
