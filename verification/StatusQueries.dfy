/** Status queries over AWS IoT: one lock, one in-flight marker, strikes, quarantine and the
    account-wide stop (coordinator.py), as a step machine over every interleaving. */
module StatusQueries {

  datatype Option<+T> = None | Some(value: T)

  type DeviceId = string

  const QUARANTINE_STRIKES := 2
  const ACCOUNT_REFUSAL_SKUS := 3
  const MIN_INTERVAL := 3.0

  /** The one sweep that may run: at the loop head, waiting for the lock, or inside its query. */
  datatype Sweep =
    | Idle
    | AtHead(rest: seq<DeviceId>)
    | AwaitingLock(device: DeviceId, rest: seq<DeviceId>)
    | InQuery(rest: seq<DeviceId>)

  datatype Lock = Free | HeldBySweep | HeldByRequest(device: DeviceId)

  datatype Entry =
    | SweepStarted(targets: seq<DeviceId>)
    | Passed(device: DeviceId)
    | QuerySent(device: DeviceId, bySweep: bool, at: real)
    | WindowClosed(answered: bool)
    | Struck(device: DeviceId, sku: string)
    | Quarantined(device: DeviceId)
    | Refused

  datatype State = State(
    sweep: Sweep,
    lock: Lock,
    inFlight: Option<DeviceId>,
    connected: bool,
    strikes: map<DeviceId, nat>,
    quarantine: set<DeviceId>,
    unansweredSkus: set<string>,
    refused: bool,
    requestLast: map<DeviceId, real>,
    now: real,
    log: seq<Entry>)

  datatype Event =
    | StartSweep(targets: seq<DeviceId>, pollEnabled: bool)
    | SweepHead(hasTopic: bool)
    | SweepAcquire
    | SweepQueryDone(raised: bool)
    | RequestAcquire(device: DeviceId, otherwisePossible: bool)
    | RequestDone(raised: bool)
    | Drop(sku: string)
    | Reconnect
    | Wait(seconds: real)

  const INIT := State(Idle, Free, None, false, map[], {}, {}, false, map[], 0.0, [])

  function Strikes(s: State, device: DeviceId): nat {
    if device in s.strikes then s.strikes[device] else 0
  }

  predicate Distinct(devices: seq<DeviceId>) {
    forall i, j | 0 <= i < j < |devices| :: devices[i] != devices[j]
  }

  /** The sweep's targets: every eligible device outside the quarantine, in order. */
  function Targets(devices: seq<DeviceId>, quarantine: set<DeviceId>): seq<DeviceId> {
    if devices == [] then []
    else
      var rest := Targets(devices[1..], quarantine);
      if devices[0] in quarantine then rest else [devices[0]] + rest
  }

  lemma {:induction false} TargetsAre(devices: seq<DeviceId>, quarantine: set<DeviceId>)
    ensures forall d :: d in Targets(devices, quarantine) <==> d in devices && d !in quarantine
    ensures Distinct(devices) ==> Distinct(Targets(devices, quarantine))
  {
    if devices != [] { TargetsAre(devices[1..], quarantine); }
  }

  /** _blame_status_query_for_drop */
  function Blame(s: State, sku: string): State {
    match s.inFlight
    case None => s
    case Some(device) =>
      var strikes := Strikes(s, device) + 1;
      var s1 := s.(inFlight := None,
                   strikes := s.strikes[device := strikes],
                   unansweredSkus := s.unansweredSkus + {sku},
                   log := s.log + [Struck(device, sku)]);
      if |s1.unansweredSkus| >= ACCOUNT_REFUSAL_SKUS then
        if s1.refused then s1 else s1.(refused := true, log := s1.log + [Refused])
      else if strikes < QUARANTINE_STRIKES then s1
      else s1.(quarantine := s1.quarantine + {device}, log := s1.log + [Quarantined(device)])
  }

  /** A query's window is over: its marker and the lock are released. A session that outlived it answered. */
  function Release(s: State, raised: bool): State {
    s.(lock := Free,
       inFlight := None,
       unansweredSkus := if !raised && s.connected then {} else s.unansweredSkus,
       log := s.log + [WindowClosed(!raised && s.connected)])
  }

  predicate Throttled(s: State, device: DeviceId) {
    device in s.requestLast && s.now - s.requestLast[device] < MIN_INTERVAL
  }

  /** status_query_possible; `otherwise` stands for topic, group and SKU. */
  predicate Possible(s: State, device: DeviceId, otherwise: bool) {
    s.connected && otherwise && device !in s.quarantine && !s.refused
  }

  /** One step; an event that cannot happen in this state changes nothing. */
  function Step(s: State, e: Event): State {
    match e
    case StartSweep(devices, pollEnabled) =>
      if !pollEnabled || s.refused || !s.connected || !s.sweep.Idle? || !Distinct(devices) then s
      else
        var targets := Targets(devices, s.quarantine);
        s.(sweep := AtHead(targets), log := s.log + [SweepStarted(targets)])
    case SweepHead(hasTopic) =>
      if !s.sweep.AtHead? then s
      else if s.sweep.rest == [] || !s.connected then s.(sweep := Idle)
      else if !hasTopic then s.(sweep := AtHead(s.sweep.rest[1..]), log := s.log + [Passed(s.sweep.rest[0])])
      else s.(sweep := AwaitingLock(s.sweep.rest[0], s.sweep.rest[1..]))
    case SweepAcquire =>
      if !s.sweep.AwaitingLock? || !s.lock.Free? then s
      else s.(sweep := InQuery(s.sweep.rest), lock := HeldBySweep, inFlight := Some(s.sweep.device),
              log := s.log + [QuerySent(s.sweep.device, true, s.now)])
    case SweepQueryDone(raised) =>
      if !s.sweep.InQuery? then s
      else Release(s, raised).(sweep := if raised then Idle else AtHead(s.sweep.rest))
    case RequestAcquire(device, otherwise) =>
      if !s.lock.Free? || !Possible(s, device, otherwise) || Throttled(s, device) then s
      else s.(lock := HeldByRequest(device), inFlight := Some(device), requestLast := s.requestLast[device := s.now],
              log := s.log + [QuerySent(device, false, s.now)])
    case RequestDone(raised) => if s.lock.HeldByRequest? then Release(s, raised) else s
    case Drop(sku) => Blame(s.(connected := false), sku)
    case Reconnect => s.(connected := true)
    case Wait(seconds) => if seconds >= 0.0 then s.(now := s.now + seconds) else s
  }

  function Run(events: seq<Event>): State {
    if events == [] then INIT else Step(Run(events[..|events| - 1]), events[|events| - 1])
  }

  // ---------- one query at a time, at most one strike each ----------

  datatype Query = Query(device: DeviceId, bySweep: bool)

  /** The query the next strike will be charged to, read off the log: the last one sent, unless its window
      has closed or a strike has followed. */
  function Chargeable(log: seq<Entry>): Option<Query> {
    if log == [] then None
    else match log[|log| - 1]
      case QuerySent(device, bySweep, _) => Some(Query(device, bySweep))
      case SweepStarted(_) => Chargeable(log[..|log| - 1])
      case Passed(_) => Chargeable(log[..|log| - 1])
      case _ => None
  }

  /** The last query sent is still inside its window. */
  predicate WindowOpen(log: seq<Entry>) {
    log != [] && (log[|log| - 1].QuerySent? || (!log[|log| - 1].WindowClosed? && WindowOpen(log[..|log| - 1])))
  }

  /** The lock, the sweep and the marker agree, and the marker is on the query that can be charged. */
  predicate Serialised(s: State) {
    && (s.sweep.InQuery? <==> s.lock.HeldBySweep?)
    && (s.lock.Free? <==> !WindowOpen(s.log))
    && (s.lock.Free? ==> s.inFlight.None?)
    && Chargeable(s.log) == (if s.inFlight.Some? then Some(Query(s.inFlight.value, s.lock.HeldBySweep?)) else None)
    && (s.inFlight.Some? && s.lock.HeldByRequest? ==> s.inFlight.value == s.lock.device)
  }

  /** The log as an event leaves it: at most one entry more, or a strike and its consequence. */
  predicate Logs(s: State, log: seq<Entry>) {
    || log == s.log
    || (|log| == |s.log| + 1 && log[..|s.log|] == s.log
        && (log[|s.log|].Struck? ==> s.inFlight == Some(log[|s.log|].device))
        && !log[|s.log|].Quarantined? && !log[|s.log|].Refused?)
    || (|log| == |s.log| + 2 && log[..|s.log|] == s.log
        && log[|s.log|].Struck? && s.inFlight == Some(log[|s.log|].device)
        && (log[|s.log| + 1] == Refused || log[|s.log| + 1] == Quarantined(log[|s.log|].device)))
  }

  lemma StepLogs(s: State, e: Event)
    ensures Logs(s, Step(s, e).log)
  {
    var log := Step(s, e).log;
    if e.Drop? && s.inFlight.Some? {
      assert log[..|s.log| + 1] == s.log + [Struck(s.inFlight.value, e.sku)];
    }
  }

  function ChargeableAfter(before: Option<Query>, entry: Entry): Option<Query> {
    match entry
    case QuerySent(device, bySweep, _) => Some(Query(device, bySweep))
    case SweepStarted(_) => before
    case Passed(_) => before
    case _ => None
  }

  lemma ChargeableAppend(log: seq<Entry>, entry: Entry)
    ensures Chargeable(log + [entry]) == ChargeableAfter(Chargeable(log), entry)
    ensures WindowOpen(log + [entry]) <==> entry.QuerySent? || (!entry.WindowClosed? && WindowOpen(log))
  {
    assert (log + [entry])[..|log|] == log;
  }

  lemma DropSerialised(s: State, sku: string)
    requires Serialised(s)
    ensures Serialised(Blame(s, sku))
  {
    if s.inFlight.Some? {
      var struck := Struck(s.inFlight.value, sku);
      ChargeableAppend(s.log, struck);
      ChargeableAppend(s.log + [struck], Refused);
      ChargeableAppend(s.log + [struck], Quarantined(s.inFlight.value));
      hide Chargeable, WindowOpen;
    }
  }

  lemma StepSerialised(s: State, e: Event)
    requires Serialised(s)
    ensures Serialised(Step(s, e))
  {
    hide Targets, Distinct, Chargeable, WindowOpen;
    if e.Drop? {
      hide Blame;
      DropSerialised(s.(connected := false), e.sku);
    } else if Step(s, e).log != s.log {
      ChargeableAppend(s.log, Step(s, e).log[|s.log|]);
    }
  }

  lemma {:induction false} RunSerialised(events: seq<Event>)
    ensures Serialised(Run(events))
  {
    if events != [] {
      RunSerialised(events[..|events| - 1]);
      StepSerialised(Run(events[..|events| - 1]), events[|events| - 1]);
    }
  }

  /** Over every run, a strike is charged to the device queried last, and no other strike has been
      since that query: no query is charged twice, no drop outside a query's window at all. */
  lemma {:induction false} StrikeFollowsItsQuery(events: seq<Event>, j: nat)
    ensures var log := Run(events).log; j < |log| && log[j].Struck? ==>
      Chargeable(log[..j]).Some? && Chargeable(log[..j]).value.device == log[j].device
  {
    hide Step, Chargeable;
    if events != [] {
      var s, log := Run(events[..|events| - 1]), Run(events).log;
      StrikeFollowsItsQuery(events[..|events| - 1], j);
      RunSerialised(events[..|events| - 1]);
      StepLogs(s, events[|events| - 1]);
      if j < |s.log| {
        assert log[..j] == s.log[..j];
      } else if j < |log| && log[j].Struck? {
        assert log[..j] == s.log;
      }
    }
  }

  // ---------- two strikes close a device ----------

  predicate Closed(s: State, device: DeviceId) {
    device in s.quarantine || s.refused
  }

  /** How many more queries of a device the running sweep or a query in flight may still be charged for. */
  function Exposure(s: State, device: DeviceId): nat {
    (match s.sweep
     case Idle => 0
     case AtHead(rest) => if device in rest then 1 else 0
     case AwaitingLock(d, rest) => if d == device || device in rest then 1 else 0
     case InQuery(rest) => if device in rest then 1 else 0)
    + (if s.inFlight == Some(device) then 1 else 0)
  }

  predicate SweepDistinct(s: State) {
    match s.sweep
    case Idle => true
    case AtHead(rest) => Distinct(rest)
    case AwaitingLock(d, rest) => Distinct(rest) && d !in rest
    case InQuery(rest) => Distinct(rest) && (s.inFlight.Some? ==> s.inFlight.value !in rest)
  }

  /** Below two strikes while open; at most three in all, counting what is still exposed. */
  predicate Bounded(s: State, device: DeviceId) {
    && Serialised(s) && SweepDistinct(s)
    && (if Closed(s, device) then Strikes(s, device) + Exposure(s, device) <= 3
        else Strikes(s, device) < QUARANTINE_STRIKES)
  }

  lemma StepSweepDistinct(s: State, e: Event)
    requires Serialised(s) && SweepDistinct(s)
    ensures SweepDistinct(Step(s, e))
  {
    if e.StartSweep? { TargetsAre(e.targets, s.quarantine); }
    hide Targets;
  }

  lemma DropBounded(s: State, sku: string, device: DeviceId)
    requires Serialised(s) && SweepDistinct(s)
    requires if Closed(s, device) then Strikes(s, device) + Exposure(s, device) <= 3
             else Strikes(s, device) < QUARANTINE_STRIKES
    ensures var s' := Blame(s, sku);
      if Closed(s', device) then Strikes(s', device) + Exposure(s', device) <= 3
      else Strikes(s', device) < QUARANTINE_STRIKES
  {
    if s.inFlight.Some? {
      var d := s.inFlight.value;
      var s' := Blame(s, sku);
      assert Strikes(s', device) == Strikes(s, device) + if d == device then 1 else 0;
      assert Exposure(s', device) + (if d == device then 1 else 0) == Exposure(s, device);
      assert Exposure(s, device) <= 2;
    }
  }

  lemma StepBounded(s: State, e: Event, device: DeviceId)
    requires Bounded(s, device)
    ensures Bounded(Step(s, e), device)
  {
    StepSerialised(s, e);
    StepSweepDistinct(s, e);
    if e.Drop? {
      hide Blame;
      DropBounded(s.(connected := false), e.sku, device);
    } else {
      hide Blame;
      StepExposure(s, e, device);
    }
  }

  /** Only a drop adds strikes or closes a device; only an open device gains exposure. */
  lemma StepExposure(s: State, e: Event, device: DeviceId)
    requires Serialised(s) && SweepDistinct(s) && !e.Drop?
    ensures var s' := Step(s, e);
      && s'.strikes == s.strikes && s'.quarantine == s.quarantine && s'.refused == s.refused
      && (Closed(s, device) ==> Exposure(s', device) <= Exposure(s, device))
  {
    if e.StartSweep? { TargetsAre(e.targets, s.quarantine); }
    hide Blame, Distinct, Targets;
  }

  lemma {:induction false} RunBounded(events: seq<Event>, device: DeviceId)
    ensures Bounded(Run(events), device)
  {
    if events != [] {
      RunBounded(events[..|events| - 1], device);
      StepBounded(Run(events[..|events| - 1]), events[|events| - 1], device);
    }
  }

  /** Bounded disruption, over every run: a device at two strikes is quarantined or the account is
      marked refused, and no device ever gets more than three. */
  lemma BoundedDisruption(events: seq<Event>, device: DeviceId)
    ensures var s := Run(events);
      && (Strikes(s, device) >= QUARANTINE_STRIKES ==> Closed(s, device))
      && Strikes(s, device) <= 3
  {
    RunBounded(events, device);
  }

  // ---------- nothing reaches a closed device ----------

  predicate StruckBy(entry: Entry, device: DeviceId) {
    entry.Struck? && entry.device == device
  }

  function StrikesIn(log: seq<Entry>, device: DeviceId): nat {
    if log == [] then 0
    else StrikesIn(log[..|log| - 1], device) + if StruckBy(log[|log| - 1], device) then 1 else 0
  }

  /** The state remembers what the log says, and an open query of a closed device is the sweep's. */
  predicate Remembers(s: State, device: DeviceId) {
    && (Quarantined(device) in s.log <==> device in s.quarantine)
    && (Refused in s.log <==> s.refused)
    && StrikesIn(s.log, device) == Strikes(s, device)
    && (Closed(s, device) && s.inFlight == Some(device) ==> s.lock.HeldBySweep?)
  }

  lemma StrikesInAppend(log: seq<Entry>, entry: Entry, device: DeviceId)
    ensures StrikesIn(log + [entry], device) == StrikesIn(log, device) + if StruckBy(entry, device) then 1 else 0
  {
    assert (log + [entry])[..|log|] == log;
  }

  lemma BlameRemembers(s: State, sku: string, device: DeviceId)
    requires Remembers(s, device)
    ensures Remembers(Blame(s, sku), device)
  {
    hide StrikesIn;
    if s.inFlight.Some? {
      var d := s.inFlight.value;
      StrikesInAppend(s.log, Struck(d, sku), device);
      StrikesInAppend(s.log + [Struck(d, sku)], Refused, device);
      StrikesInAppend(s.log + [Struck(d, sku)], Quarantined(d), device);
    }
  }

  lemma StepRemembers(s: State, e: Event, device: DeviceId)
    requires Serialised(s) && Remembers(s, device)
    ensures Remembers(Step(s, e), device)
  {
    hide Targets, Chargeable, Blame, StrikesIn;
    if e.Drop? {
      BlameRemembers(s.(connected := false), e.sku, device);
    } else if Step(s, e).log != s.log {
      StrikesInAppend(s.log, Step(s, e).log[|s.log|], device);
    }
  }

  lemma {:induction false} RunRemembers(events: seq<Event>, device: DeviceId)
    ensures Remembers(Run(events), device)
  {
    hide Step;
    if events != [] {
      RunRemembers(events[..|events| - 1], device);
      RunSerialised(events[..|events| - 1]);
      StepRemembers(Run(events[..|events| - 1]), events[|events| - 1], device);
    }
  }

  predicate ReachesFresh(entry: Entry, device: DeviceId) {
    match entry
    case QuerySent(d, bySweep, _) => d == device && !bySweep
    case SweepStarted(targets) => device in targets
    case _ => false
  }

  lemma StepReaches(s: State, e: Event, device: DeviceId)
    requires Closed(s, device) && Step(s, e).log != s.log
    ensures |s.log| < |Step(s, e).log| && !ReachesFresh(Step(s, e).log[|s.log|], device)
    ensures |Step(s, e).log| > |s.log| + 1 ==> !ReachesFresh(Step(s, e).log[|s.log| + 1], device)
  {
    if e.StartSweep? { TargetsAre(e.targets, s.quarantine); }
    hide Distinct, Targets;
  }

  /** Over every run: once a device is quarantined or the account refused, no on-demand query goes to
      the device and no sweep starts with it among its targets. */
  lemma {:induction false} ClosedIsLeftAlone(events: seq<Event>, device: DeviceId, i: nat, k: nat)
    ensures var log := Run(events).log;
      i < k < |log| && (log[i] == Quarantined(device) || log[i] == Refused) ==> !ReachesFresh(log[k], device)
  {
    hide Step, ReachesFresh;
    if events != [] {
      var s, e, log := Run(events[..|events| - 1]), events[|events| - 1], Run(events).log;
      ClosedIsLeftAlone(events[..|events| - 1], device, i, k);
      StepLogs(s, e);
      RunRemembers(events[..|events| - 1], device);
      if k >= |s.log| && i < |s.log| && i < k < |log| && (log[i] == Quarantined(device) || log[i] == Refused) {
        assert log[i] == s.log[i];
        assert Closed(s, device);
        StepReaches(s, e, device);
      }
    }
  }

  // ---------- sweep queries and their target lists ----------

  /** The place just after the last sweep's start. */
  function LastSweep(log: seq<Entry>): nat {
    if log == [] then 0
    else if log[|log| - 1].SweepStarted? then |log|
    else LastSweep(log[..|log| - 1])
  }

  lemma LastSweepAppend(log: seq<Entry>, entry: Entry)
    ensures LastSweep(log + [entry]) == if entry.SweepStarted? then |log| + 1 else LastSweep(log)
  {
    assert (log + [entry])[..|log|] == log;
  }

  /** The sweep that was the last to start before place j started at place k and lists the device. */
  predicate ListedBy(log: seq<Entry>, k: nat, j: nat, device: DeviceId) {
    && k < j <= |log|
    && log[k].SweepStarted? && device in log[k].targets
    && forall n | k < n < j :: !log[n].SweepStarted?
  }

  /** The devices the running sweep has still to query. */
  function Remaining(sweep: Sweep): seq<DeviceId> {
    match sweep
    case Idle => []
    case AtHead(rest) => rest
    case AwaitingLock(device, rest) => [device] + rest
    case InQuery(rest) => rest
  }

  lemma {:induction false} LastSweepIs(log: seq<Entry>)
    ensures LastSweep(log) <= |log|
    ensures LastSweep(log) > 0 ==> log[LastSweep(log) - 1].SweepStarted?
    ensures forall n | LastSweep(log) <= n < |log| :: !log[n].SweepStarted?
  {
    if log != [] && !log[|log| - 1].SweepStarted? { LastSweepIs(log[..|log| - 1]); }
  }

  /** What the running sweep has still to query is in the list of the sweep that started last. */
  predicate OnTheList(s: State, device: DeviceId) {
    device in Remaining(s.sweep) ==> LastSweep(s.log) > 0 && ListedBy(s.log, LastSweep(s.log) - 1, |s.log|, device)
  }

  lemma StartSweepLists(s: State, e: Event, device: DeviceId)
    requires e.StartSweep? && OnTheList(s, device)
    ensures OnTheList(Step(s, e), device)
  {
    var log := Step(s, e).log;
    if log != s.log { LastSweepAppend(s.log, log[|s.log|]); }
    hide Targets, LastSweep;
  }

  /** Any other step leaves no more to query and starts no sweep. */
  lemma StepRemaining(s: State, e: Event, device: DeviceId)
    requires !e.StartSweep?
    ensures device in Remaining(Step(s, e).sweep) ==> device in Remaining(s.sweep)
    ensures |s.log| <= |Step(s, e).log| && Step(s, e).log[..|s.log|] == s.log
    ensures forall n | |s.log| <= n < |Step(s, e).log| :: !Step(s, e).log[n].SweepStarted?
  {
  }

  lemma StepKeepsList(s: State, e: Event, device: DeviceId)
    requires OnTheList(s, device)
    ensures OnTheList(Step(s, e), device)
  {
    hide Step;
    if e.StartSweep? {
      StartSweepLists(s, e, device);
    } else {
      StepRemaining(s, e, device);
      if device in Remaining(s.sweep) { ListSurvives(s.log, Step(s, e).log, device); }
    }
  }

  /** More entries, none of them a sweep's start, leave the last sweep the last one. */
  lemma ListSurvives(log: seq<Entry>, more: seq<Entry>, device: DeviceId)
    requires LastSweep(log) > 0 && ListedBy(log, LastSweep(log) - 1, |log|, device)
    requires |log| <= |more| && more[..|log|] == log && forall n | |log| <= n < |more| :: !more[n].SweepStarted?
    ensures LastSweep(more) == LastSweep(log) && ListedBy(more, LastSweep(more) - 1, |more|, device)
  {
    LastSweepIs(log);
    LastSweepIs(more);
    var k := LastSweep(log) - 1;
    assert more[k] == log[k];
    assert forall n | k < n < |log| :: more[n] == log[n];
  }

  lemma {:induction false} RunKeepsList(events: seq<Event>, device: DeviceId)
    ensures OnTheList(Run(events), device)
  {
    hide Step, OnTheList;
    if events != [] {
      RunKeepsList(events[..|events| - 1], device);
      StepKeepsList(Run(events[..|events| - 1]), events[|events| - 1], device);
    } else {
      NothingListed(device);
    }
  }

  lemma NothingListed(device: DeviceId)
    ensures OnTheList(INIT, device)
  {
  }

  predicate SweepQuery(entry: Entry, device: DeviceId) {
    entry.QuerySent? && entry.bySweep && entry.device == device
  }

  /** A sweep's query goes to the device it waited for the lock with. */
  lemma StepSweepQuery(s: State, e: Event, device: DeviceId)
    requires |s.log| < |Step(s, e).log|
    ensures SweepQuery(Step(s, e).log[|s.log|], device) ==> device in Remaining(s.sweep)
    ensures |s.log| + 1 < |Step(s, e).log| ==> !SweepQuery(Step(s, e).log[|s.log| + 1], device)
  {
    hide Targets, Distinct;
  }

  /** Over every run: each query of a sweep goes to a device on the list of the sweep that started last. */
  lemma {:induction false} SweepQueriesAreListed(events: seq<Event>, device: DeviceId, j: nat) returns (start: nat)
    requires var log := Run(events).log; j < |log| && SweepQuery(log[j], device)
    ensures ListedBy(Run(events).log, start, j, device)
  {
    hide Step;
    var s, e, log := Run(events[..|events| - 1]), events[|events| - 1], Run(events).log;
    StepLogs(s, e);
    hide LastSweep;
    if j < |s.log| {
      assert log[j] == s.log[j];
      start := SweepQueriesAreListed(events[..|events| - 1], device, j);
      assert forall n | start <= n < j :: log[n] == s.log[n];
    } else {
      StepSweepQuery(s, e, device);
      RunKeepsList(events[..|events| - 1], device);
      start := LastSweep(s.log) - 1;
      assert forall n | start <= n < |s.log| :: log[n] == s.log[n];
    }
  }

  predicate Closes(entry: Entry, device: DeviceId) {
    entry == Quarantined(device) || entry == Refused
  }

  /** Over every run: a query a sweep still sends to a quarantined device, or on a refused account, belongs to
      a sweep that started before the closing; no later sweep reaches the device. */
  lemma OnlyOlderSweepsReachClosed(events: seq<Event>, device: DeviceId, i: nat, j: nat) returns (start: nat)
    requires var log := Run(events).log; i < j < |log| && Closes(log[i], device) && SweepQuery(log[j], device)
    ensures start < i && ListedBy(Run(events).log, start, j, device)
  {
    start := SweepQueriesAreListed(events, device, j);
    hide Run;
    if start > i { ClosedIsLeftAlone(events, device, i, start); }
  }

  // ---------- the third strike ----------

  /** The query a strike at place j is charged to: nothing but a sweep's start or passing over lies between. */
  predicate ChargedTo(log: seq<Entry>, q: nat, j: nat) {
    q < j <= |log| && log[q].QuerySent? && forall n | q < n < j :: log[n].SweepStarted? || log[n].Passed?
  }

  lemma {:induction false} FindChargeable(log: seq<Entry>) returns (q: nat)
    requires Chargeable(log).Some?
    ensures ChargedTo(log, q, |log|) && Chargeable(log) == Some(Query(log[q].device, log[q].bySweep))
  {
    if log[|log| - 1].QuerySent? {
      q := |log| - 1;
    } else {
      q := FindChargeable(log[..|log| - 1]);
    }
  }

  /** A strike past the second finds the device closed, and its query is a sweep's. */
  lemma {:induction false} LateStrikeIsASweeps(events: seq<Event>, device: DeviceId, j: nat) returns (closing: nat)
    requires var log := Run(events).log; j < |log| && StruckBy(log[j], device) && StrikesIn(log[..j], device) >= 2
    ensures Chargeable(Run(events).log[..j]) == Some(Query(device, true))
    ensures closing < j && Closes(Run(events).log[closing], device)
  {
    hide Step, Chargeable, StrikesIn;
    var s, e, log := Run(events[..|events| - 1]), events[|events| - 1], Run(events).log;
    StepLogs(s, e);
    if j < |s.log| {
      assert log[..j] == s.log[..j];
      closing := LateStrikeIsASweeps(events[..|events| - 1], device, j);
    } else {
      RunRemembers(events[..|events| - 1], device);
      RunSerialised(events[..|events| - 1]);
      RunBounded(events[..|events| - 1], device);
      assert j == |s.log| && log[..j] == s.log;
      if device in s.quarantine {
        closing :| closing < |s.log| && s.log[closing] == Quarantined(device);
      } else {
        closing :| closing < |s.log| && s.log[closing] == Refused;
      }
    }
  }

  /** Over every run: a third strike is charged to a query of a sweep, sent after the device was closed, whose
      target list is older than the closing. */
  lemma ThirdStrikeIsAnOlderSweeps(events: seq<Event>, device: DeviceId, j: nat)
    returns (start: nat, closing: nat, query: nat)
    requires var log := Run(events).log; j < |log| && StruckBy(log[j], device) && StrikesIn(log[..j], device) >= 2
    ensures start < closing < query < j
    ensures var log := Run(events).log;
      && Closes(log[closing], device)
      && SweepQuery(log[query], device) && ChargedTo(log, query, j)
      && ListedBy(log, start, query, device)
  {
    var log := Run(events).log;
    closing := LateStrikeIsASweeps(events, device, j);
    query := FindChargeable(log[..j]);
    hide Run, Chargeable, StrikesIn;
    assert log[..j][query] == log[query] && log[..j][closing] == log[closing];
    assert forall n | query < n < j :: log[n] == log[..j][n];
    start := OnlyOlderSweepsReachClosed(events, device, closing, query);
  }

  // ---------- the throttle ----------

  predicate Dated(s: State, j: nat) {
    j < |s.log| && s.log[j].QuerySent? && !s.log[j].bySweep ==>
      && s.log[j].device in s.requestLast
      && s.log[j].at <= s.requestLast[s.log[j].device] <= s.now
  }

  predicate RequestSent(s: State, s': State) {
    && |s'.log| == |s.log| + 1
    && s'.log[|s.log|].QuerySent? && !s'.log[|s.log|].bySweep && s'.log[|s.log|].at == s.now == s'.now
    && !Throttled(s, s'.log[|s.log|].device)
    && s'.requestLast == s.requestLast[s'.log[|s.log|].device := s.now]
  }

  predicate NoRequestSent(s: State, s': State) {
    && s.now <= s'.now && s'.requestLast == s.requestLast
    && (|s'.log| > |s.log| && s'.log[|s.log|].QuerySent? ==> s'.log[|s.log|].bySweep)
    && (|s'.log| > |s.log| + 1 ==> !s'.log[|s.log| + 1].QuerySent?)
  }

  lemma StepRequests(s: State, e: Event)
    ensures RequestSent(s, Step(s, e)) || NoRequestSent(s, Step(s, e))
  {
    hide Targets, Distinct;
  }

  lemma {:induction false} RunDated(events: seq<Event>, j: nat)
    ensures Dated(Run(events), j)
    ensures var s := Run(events); forall d <- s.requestLast :: s.requestLast[d] <= s.now
  {
    hide Step;
    if events != [] {
      RunDated(events[..|events| - 1], j);
      StepLogs(Run(events[..|events| - 1]), events[|events| - 1]);
      StepRequests(Run(events[..|events| - 1]), events[|events| - 1]);
    }
  }

  predicate OnDemand(entry: Entry, device: DeviceId) {
    entry.QuerySent? && !entry.bySweep && entry.device == device
  }

  /** Over every run, two queries sent to a device on demand are at least MIN_INTERVAL apart. */
  lemma {:induction false} QueriesAreSpaced(events: seq<Event>, device: DeviceId, i: nat, k: nat)
    ensures var log := Run(events).log;
      i < k < |log| && OnDemand(log[i], device) && OnDemand(log[k], device) ==> log[k].at >= log[i].at + MIN_INTERVAL
  {
    hide Step;
    if events != [] {
      QueriesAreSpaced(events[..|events| - 1], device, i, k);
      RunDated(events[..|events| - 1], i);
      StepLogs(Run(events[..|events| - 1]), events[|events| - 1]);
      StepRequests(Run(events[..|events| - 1]), events[|events| - 1]);
    }
  }

  // ---------- three strikes are possible ----------

  // One strike; then an on-demand query and a sweep queue up for the lock. The on-demand query's drop
  // quarantines the device, and the sweep, whose list is older, still queries it.
  const A := "plug"
  const SKU := "H5110"
  const L1 := [QuerySent(A, false, 0.0)]
  const L2 := L1 + [Struck(A, SKU)]
  const M2 := L2 + [WindowClosed(false)]
  const L3 := M2 + [QuerySent(A, false, 3.0)]
  const L4 := L3 + [SweepStarted([A])]
  const L5 := L4 + [Struck(A, SKU), Quarantined(A)]
  const M5 := L5 + [WindowClosed(false)]
  const L6 := M5 + [QuerySent(A, true, 3.0)]
  const L7 := L6 + [Struck(A, SKU), Quarantined(A)]

  const S0 := State(Idle, Free, None, true, map[], {}, {}, false, map[], 0.0, [])
  const S1 := S0.(lock := HeldByRequest(A), inFlight := Some(A), requestLast := map[A := 0.0], log := L1)
  const S2 := S1.(connected := false, inFlight := None, strikes := map[A := 1], unansweredSkus := {SKU}, log := L2)
  const S3 := S2.(connected := true, lock := Free, now := 3.0, log := M2)
  const S4 := S3.(lock := HeldByRequest(A), inFlight := Some(A), requestLast := map[A := 3.0], log := L3)
  const S5 := S4.(sweep := AwaitingLock(A, []), log := L4)
  const S6 := S5.(connected := false, inFlight := None, strikes := map[A := 2], quarantine := {A}, log := L5)
  const S7 := S6.(connected := true, lock := Free, log := M5)
  const S8 := S7.(sweep := InQuery([]), lock := HeldBySweep, inFlight := Some(A), log := L6)
  const S9 := S8.(connected := false, inFlight := None, strikes := map[A := 3], log := L7)

  lemma After(events: seq<Event>, e: Event) returns (more: seq<Event>)
    ensures more == events + [e] && Run(more) == Step(Run(events), e)
  {
    more := events + [e];
    assert more[..|events|] == events;
  }

  lemma RunNothing()
    ensures Run([]) == INIT
  {
  }

  lemma FirstDrop()
    ensures Step(S1, Drop(SKU)) == S2
  {
    assert S1.strikes[A := 1] == map[A := 1] && S1.unansweredSkus + {SKU} == {SKU};
  }

  lemma Recovers(s: State, next: State, seconds: real)
    requires s.lock.HeldByRequest? && s.inFlight.None? && seconds >= 0.0 && !s.connected
    requires next == s.(connected := true, lock := Free, now := s.now + seconds, log := s.log + [WindowClosed(false)])
    ensures Step(Step(Step(s, RequestDone(true)), Reconnect), Wait(seconds)) == next
  {
  }

  lemma SecondQuery()
    ensures Step(S3, RequestAcquire(A, true)) == S4
  {
    assert S3.requestLast[A := 3.0] == map[A := 3.0];
  }

  lemma SweepQueuesUp()
    ensures Step(Step(S4, StartSweep([A], true)), SweepHead(true)) == S5
  {
    assert [A][1..] == [];
    assert Targets([A], {}) == [A] + Targets([A][1..], {}) == [A];
    var started := Step(S4, StartSweep([A], true));
    assert started == S4.(sweep := AtHead([A]), log := L4);
  }

  lemma SecondDrop()
    ensures Step(S5, Drop(SKU)) == S6
  {
    assert S5.strikes[A := 2] == map[A := 2] && S5.unansweredSkus + {SKU} == {SKU} && S5.quarantine + {A} == {A};
    assert L4 + [Struck(A, SKU)] + [Quarantined(A)] == L5;
  }

  lemma ThirdDrop()
    ensures Step(S8, Drop(SKU)) == S9
  {
    assert S8.strikes[A := 3] == map[A := 3] && S8.unansweredSkus + {SKU} == {SKU} && S8.quarantine + {A} == {A};
    assert L6 + [Struck(A, SKU)] + [Quarantined(A)] == L7;
  }

  lemma FirstQuery()
    ensures Step(Step(INIT, Reconnect), RequestAcquire(A, true)) == S1
  {
    assert map[][A := 0.0] == map[A := 0.0];
    assert [] + [QuerySent(A, false, 0.0)] == L1;
  }

  lemma SweepsTurn()
    ensures Step(S7, SweepAcquire) == S8
  {
  }

  /** The bound is reached: a device can get three strikes, the third from a sweep older than its quarantine. */
  lemma ThreeStrikesReachable()
    ensures exists events :: Strikes(Run(events), A) == 3
  {
    hide Step, Run;
    RunNothing();
    FirstQuery();
    FirstDrop();
    Recovers(S2, S3, 3.0);
    SecondQuery();
    SweepQueuesUp();
    SecondDrop();
    Recovers(S6, S7, 0.0);
    SweepsTurn();
    ThirdDrop();
    var events := After([], Reconnect);
    events := After(events, RequestAcquire(A, true));
    events := After(events, Drop(SKU));
    events := After(events, RequestDone(true));
    events := After(events, Reconnect);
    events := After(events, Wait(3.0));
    events := After(events, RequestAcquire(A, true));
    events := After(events, StartSweep([A], true));
    events := After(events, SweepHead(true));
    events := After(events, Drop(SKU));
    events := After(events, RequestDone(true));
    events := After(events, Reconnect);
    events := After(events, Wait(0.0));
    events := After(events, SweepAcquire);
    events := After(events, Drop(SKU));
    assert Run(events) == S9;
    assert Strikes(Run(events), A) == 3;
  }
}
