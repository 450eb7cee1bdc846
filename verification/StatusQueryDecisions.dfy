/** When status queries strike, quarantine, stop for the account, go out and cover a sweep's list:
    each decision as an equivalence over the events and the log of any run. */
module StatusQueryDecisions {
  import opened StatusQueries

  // ---------- reading a run ----------

  /** The session is up: the last change was a reconnect. */
  predicate Up(events: seq<Event>) {
    events != []
    && (events[|events| - 1].Reconnect? || (!events[|events| - 1].Drop? && Up(events[..|events| - 1])))
  }

  /** The time that has passed. */
  function Clock(events: seq<Event>): real {
    if events == [] then 0.0
    else
      var last := events[|events| - 1];
      Clock(events[..|events| - 1]) + if last.Wait? && last.seconds >= 0.0 then last.seconds else 0.0
  }

  /** The models struck since a query was last answered. */
  function Suspects(log: seq<Entry>): set<string> {
    if log == [] then {} else SuspectsAfter(Suspects(log[..|log| - 1]), log[|log| - 1])
  }

  function SuspectsAfter(before: set<string>, entry: Entry): set<string> {
    match entry
    case Struck(_, sku) => before + {sku}
    case WindowClosed(answered) => if answered then {} else before
    case _ => before
  }

  /** At some moment three models had been struck with no answer in between. */
  ghost predicate AccountRefused(log: seq<Entry>) {
    exists n: nat :: n <= |log| && |Suspects(log[..n])| >= 3
  }

  /** A strike was the device's second or later and did not point at the account. */
  ghost predicate Condemned(log: seq<Entry>, device: DeviceId) {
    exists n: nat :: n <= |log| && Condemns(log[..n], device)
  }

  predicate Condemns(log: seq<Entry>, device: DeviceId) {
    log != [] && StruckBy(log[|log| - 1], device) && StrikesIn(log, device) >= 2 && |Suspects(log)| < 3
  }

  lemma RefusedAppend(log: seq<Entry>, entry: Entry)
    ensures AccountRefused(log + [entry]) <==> AccountRefused(log) || |Suspects(log + [entry])| >= 3
  {
    hide Suspects;
    var more := log + [entry];
    assert more[..|more|] == more;
    forall n: nat | n <= |log| ensures more[..n] == log[..n] {}
  }

  lemma CondemnedAppend(log: seq<Entry>, entry: Entry, device: DeviceId)
    ensures Condemned(log + [entry], device) <==> Condemned(log, device) || Condemns(log + [entry], device)
  {
    hide Condemns;
    var more := log + [entry];
    assert more[..|more|] == more;
    forall n: nat | n <= |log| ensures more[..n] == log[..n] {}
  }

  lemma SuspectsAppend(log: seq<Entry>, entry: Entry)
    ensures Suspects(log + [entry]) == SuspectsAfter(Suspects(log), entry)
  {
    assert (log + [entry])[..|log|] == log;
  }

  // ---------- the account and the quarantine ----------

  /** The state has judged the account and the device as the log says. */
  ghost predicate Judged(s: State, device: DeviceId) {
    && s.unansweredSkus == Suspects(s.log)
    && (s.refused <==> AccountRefused(s.log))
    && (device in s.quarantine <==> Condemned(s.log, device))
    && StrikesIn(s.log, device) == Strikes(s, device)
  }

  /** An entry that is no strike and no answer judges nobody. */
  lemma NeutralJudged(s: State, s': State, entry: Entry, device: DeviceId)
    requires Judged(s, device) && !entry.Struck?
    requires s'.unansweredSkus == (if entry == WindowClosed(true) then {} else s.unansweredSkus)
    requires s'.refused == s.refused && s'.quarantine == s.quarantine && s'.strikes == s.strikes
    requires s'.log == s.log + [entry]
    ensures Judged(s', device)
  {
    SuspectsAppend(s.log, entry);
    RefusedAppend(s.log, entry);
    CondemnedAppend(s.log, entry, device);
    StrikesInAppend(s.log, entry, device);
    hide Suspects, AccountRefused, Condemned, StrikesIn;
    assert s'.log[|s'.log| - 1] == entry;
    if |Suspects(s.log)| >= 3 { RefusedNow(s.log); }
  }

  lemma RefusedNow(log: seq<Entry>)
    requires |Suspects(log)| >= 3
    ensures AccountRefused(log)
  {
    assert log[..|log|] == log;
  }

  /** The strike itself, before its consequence. */
  function Strike(s: State, d: DeviceId, sku: string): State {
    s.(inFlight := None,
       strikes := s.strikes[d := Strikes(s, d) + 1],
       unansweredSkus := s.unansweredSkus + {sku},
       log := s.log + [Struck(d, sku)])
  }

  lemma StrikeCounts(s: State, d: DeviceId, sku: string, device: DeviceId)
    requires Judged(s, device)
    ensures var s1 := Strike(s, d, sku);
      && s1.unansweredSkus == Suspects(s1.log)
      && StrikesIn(s1.log, device) == Strikes(s1, device)
      && (AccountRefused(s1.log) <==> s.refused || |s1.unansweredSkus| >= 3)
      && (Condemned(s1.log, device) <==>
            device in s.quarantine || (d == device && Strikes(s1, d) >= 2 && |s1.unansweredSkus| < 3))
  {
    SuspectsAppend(s.log, Struck(d, sku));
    RefusedAppend(s.log, Struck(d, sku));
    CondemnedAppend(s.log, Struck(d, sku), device);
    StrikesInAppend(s.log, Struck(d, sku), device);
    hide Suspects, AccountRefused, Condemned, StrikesIn;
    assert Strike(s, d, sku).log[|s.log|] == Struck(d, sku);
  }

  lemma BlameJudged(s: State, sku: string, device: DeviceId)
    requires Judged(s, device)
    ensures Judged(Blame(s, sku), device)
  {
    if s.inFlight.Some? {
      var d := s.inFlight.value;
      var s1 := Strike(s, d, sku);
      StrikeCounts(s, d, sku, device);
      SettleLog(s1.log, Refused, device);
      SettleLog(s1.log, Quarantined(d), device);
      hide Suspects, AccountRefused, Condemned, StrikesIn;
    }
  }

  /** What follows a strike changes no judgement. */
  lemma SettleLog(log: seq<Entry>, entry: Entry, device: DeviceId)
    requires entry.Refused? || entry.Quarantined?
    ensures var more := log + [entry];
      && Suspects(more) == Suspects(log)
      && (AccountRefused(more) <==> AccountRefused(log))
      && (Condemned(more, device) <==> Condemned(log, device))
      && StrikesIn(more, device) == StrikesIn(log, device)
  {
    SuspectsAppend(log, entry);
    RefusedAppend(log, entry);
    CondemnedAppend(log, entry, device);
    StrikesInAppend(log, entry, device);
    hide Suspects, AccountRefused, Condemned, StrikesIn;
    if |Suspects(log)| >= 3 { RefusedNow(log); }
    assert (log + [entry])[|log|] == entry;
  }

  lemma StepJudged(s: State, e: Event, device: DeviceId)
    requires Judged(s, device)
    ensures Judged(Step(s, e), device)
  {
    hide Targets, Blame, Suspects, AccountRefused, Condemned, StrikesIn;
    if e.Drop? {
      BlameJudged(s.(connected := false), e.sku, device);
    } else if Step(s, e).log != s.log {
      NeutralJudged(s, Step(s, e), Step(s, e).log[|s.log|], device);
    }
  }

  lemma {:induction false} RunJudged(events: seq<Event>, device: DeviceId)
    ensures Judged(Run(events), device)
  {
    hide Step;
    if events != [] {
      RunJudged(events[..|events| - 1], device);
      StepJudged(Run(events[..|events| - 1]), events[|events| - 1], device);
    } else {
      NobodyJudged(device);
    }
  }

  lemma NobodyJudged(device: DeviceId)
    ensures Judged(INIT, device)
  {
  }

  /** Over every run: the account is refused exactly when at some moment three models had been struck since a
      query was last answered; a device is quarantined exactly when some strike was at least its second and found
      fewer than three such models, so a strike that points at the account quarantines nobody. */
  lemma ClosedIff(events: seq<Event>, device: DeviceId)
    ensures var s := Run(events);
      && (s.refused <==> AccountRefused(s.log))
      && (device in s.quarantine <==> Condemned(s.log, device))
      && StrikesIn(s.log, device) == Strikes(s, device)
  {
    RunJudged(events, device);
  }

  // ---------- strikes and answers ----------

  lemma {:induction false} RunSession(events: seq<Event>)
    ensures Run(events).connected <==> Up(events)
    ensures Run(events).now == Clock(events)
  {
    if events != [] {
      RunSession(events[..|events| - 1]);
      StepSession(Run(events[..|events| - 1]), events[|events| - 1]);
    }
  }

  lemma StepSession(s: State, e: Event)
    ensures Step(s, e).connected == (e.Reconnect? || (!e.Drop? && s.connected))
    ensures Step(s, e).now == s.now + if e.Wait? && e.seconds >= 0.0 then e.seconds else 0.0
  {
  }

  /** The new log is the old one and more, of which this entry is the first. */
  predicate Adds(log: seq<Entry>, more: seq<Entry>, entry: Entry) {
    |more| > |log| && more[..|log|] == log && more[|log|] == entry
  }

  /** Over every run: a drop strikes the device of the last query exactly when that query is still in its window
      and has not been struck; no other event strikes. */
  lemma StrikesIff(events: seq<Event>, e: Event)
    ensures var log, more := Run(events).log, Step(Run(events), e).log;
      var q := Chargeable(log);
      if e.Drop? && q.Some? then Adds(log, more, Struck(q.value.device, e.sku))
      else more == log || (|more| == |log| + 1 && more[..|log|] == log && !more[|log|].Struck?)
  {
    hide Run, Chargeable;
    RunSerialised(events);
    StepLogs(Run(events), e);
  }

  /** Over every run: the window of the query in flight closes answered exactly when nothing was raised and the
      session is up. */
  lemma WindowClosesIff(events: seq<Event>, raised: bool)
    ensures var s := Run(events);
      var e := if s.sweep.InQuery? then SweepQueryDone(raised) else RequestDone(raised);
      if WindowOpen(s.log) then Step(s, e).log == s.log + [WindowClosed(!raised && Up(events))] && Step(s, e).lock.Free?
      else Step(s, e) == s
  {
    hide Run, Chargeable, WindowOpen;
    RunSerialised(events);
    RunSession(events);
  }

  // ---------- on-demand queries ----------

  /** The device was queried on demand less than three seconds ago. */
  ghost predicate JustAsked(log: seq<Entry>, device: DeviceId, now: real) {
    exists j: nat :: j < |log| && OnDemand(log[j], device) && now - log[j].at < 3.0
  }

  /** The last on-demand query to a device. */
  function LastAsked(log: seq<Entry>, device: DeviceId): Option<real> {
    if log == [] then None
    else if OnDemand(log[|log| - 1], device) then Some(log[|log| - 1].at)
    else LastAsked(log[..|log| - 1], device)
  }

  lemma {:induction false} LastAskedIs(log: seq<Entry>, device: DeviceId) returns (j: nat)
    requires LastAsked(log, device).Some?
    ensures j < |log| && OnDemand(log[j], device) && log[j].at == LastAsked(log, device).value
  {
    j := |log| - 1;
    if !OnDemand(log[j], device) { j := LastAskedIs(log[..j], device); }
  }

  predicate Stamped(s: State, device: DeviceId) {
    LastAsked(s.log, device) == if device in s.requestLast then Some(s.requestLast[device]) else None
  }

  lemma AskedAppend(log: seq<Entry>, entry: Entry, device: DeviceId)
    ensures LastAsked(log + [entry], device) == if OnDemand(entry, device) then Some(entry.at) else LastAsked(log, device)
  {
    assert (log + [entry])[..|log|] == log;
  }

  lemma StepStamped(s: State, e: Event, device: DeviceId)
    requires Stamped(s, device)
    ensures Stamped(Step(s, e), device)
  {
    var log := Step(s, e).log;
    StepLogs(s, e);
    StepRequests(s, e);
    if |log| == |s.log| + 1 {
      assert log == s.log + [log[|s.log|]];
      AskedAppend(s.log, log[|s.log|], device);
    } else if |log| == |s.log| + 2 {
      assert log == s.log + [log[|s.log|]] + [log[|s.log| + 1]];
      AskedAppend(s.log, log[|s.log|], device);
      AskedAppend(s.log + [log[|s.log|]], log[|s.log| + 1], device);
    }
    hide Step, LastAsked;
  }

  lemma {:induction false} RunStamped(events: seq<Event>, device: DeviceId)
    ensures Stamped(Run(events), device)
  {
    hide Step;
    if events != [] {
      RunStamped(events[..|events| - 1], device);
      StepStamped(Run(events[..|events| - 1]), events[|events| - 1], device);
    }
  }

  lemma ThrottledIff(events: seq<Event>, device: DeviceId)
    ensures Throttled(Run(events), device) <==> JustAsked(Run(events).log, device, Clock(events))
  {
    hide Run;
    var s := Run(events);
    RunSession(events);
    RunStamped(events, device);
    if JustAsked(s.log, device, s.now) {
      var j: nat :| j < |s.log| && OnDemand(s.log[j], device) && s.now - s.log[j].at < 3.0;
      RunDated(events, j);
    }
    if Throttled(s, device) {
      var j := LastAskedIs(s.log, device);
    }
  }

  /** Over every run: an on-demand query goes out exactly when no query is in its window, the session is up, the
      device may be asked at all, neither it nor the account is closed, and it was not asked on demand within the
      last three seconds. */
  lemma RequestIff(events: seq<Event>, device: DeviceId, otherwise: bool)
    ensures var s := Run(events);
      var s' := Step(s, RequestAcquire(device, otherwise));
      if !WindowOpen(s.log) && Up(events) && otherwise && !Condemned(s.log, device) && !AccountRefused(s.log)
         && !JustAsked(s.log, device, Clock(events))
      then s'.log == s.log + [QuerySent(device, false, Clock(events))]
      else s' == s
  {
    hide Run, Chargeable, WindowOpen, AccountRefused, Condemned, JustAsked, Throttled;
    RunSerialised(events);
    RunSession(events);
    ClosedIff(events, device);
    ThrottledIff(events, device);
  }

  // ---------- a sweep's course ----------

  /** The list of the sweep that started last. */
  function ListOf(log: seq<Entry>): seq<DeviceId> {
    if log == [] then []
    else match log[|log| - 1]
      case SweepStarted(targets) => targets
      case _ => ListOf(log[..|log| - 1])
  }

  /** The devices that sweep has queried, or passed over for want of a topic, in order. */
  function Covered(log: seq<Entry>): seq<DeviceId> {
    if log == [] then []
    else if log[|log| - 1].SweepStarted? then []
    else Covered(log[..|log| - 1]) + Covers(log[|log| - 1])
  }

  function Covers(entry: Entry): seq<DeviceId> {
    match entry
    case QuerySent(device, bySweep, _) => if bySweep then [device] else []
    case Passed(device) => [device]
    case _ => []
  }

  predicate OnCourse(s: State) {
    !s.sweep.Idle? ==> Covered(s.log) + Remaining(s.sweep) == ListOf(s.log)
  }

  lemma CourseAppend(log: seq<Entry>, entry: Entry)
    requires !entry.SweepStarted?
    ensures ListOf(log + [entry]) == ListOf(log)
    ensures Covered(log + [entry]) == Covered(log) + Covers(entry)
  {
    assert (log + [entry])[..|log|] == log;
  }

  lemma StartsOnCourse(s: State, e: Event)
    requires e.StartSweep? && OnCourse(s)
    ensures OnCourse(Step(s, e))
  {
  }

  /** One entry more that covers what is taken from the rest keeps the course. */
  lemma EntryOnCourse(s: State, s': State, entry: Entry)
    requires OnCourse(s) && s'.log == s.log + [entry] && !entry.SweepStarted?
    requires !s'.sweep.Idle? ==> !s.sweep.Idle? && Covers(entry) + Remaining(s'.sweep) == Remaining(s.sweep)
    ensures OnCourse(s')
  {
    CourseAppend(s.log, entry);
    hide Covered, ListOf, Covers, Remaining;
    var a, b, c := Covered(s.log), Covers(entry), Remaining(s'.sweep);
    assert (a + b) + c == a + (b + c);
  }

  lemma DropOnCourse(s: State, sku: string)
    requires OnCourse(s)
    ensures OnCourse(Blame(s, sku))
  {
    hide OnCourse, Covered, ListOf, Remaining;
    var s' := Blame(s, sku);
    if s'.log != s.log {
      var d := s.inFlight.value;
      var s1 := s.(log := s.log + [Struck(d, sku)]);
      EntryOnCourse(s, s1, Struck(d, sku));
      EntryOnCourse(s1, s1.(log := s1.log + [Refused]), Refused);
      EntryOnCourse(s1, s1.(log := s1.log + [Quarantined(d)]), Quarantined(d));
      if s'.log == s1.log {
        SameCourse(s1, s');
      } else {
        SameCourse(s1.(log := s'.log), s');
      }
    } else {
      SameCourse(s, s');
    }
  }

  lemma SameCourse(s: State, s': State)
    requires OnCourse(s) && s'.log == s.log
    requires s'.sweep.Idle? || (!s.sweep.Idle? && Remaining(s'.sweep) == Remaining(s.sweep))
    ensures OnCourse(s')
  {
  }

  /** A step that is no start and no drop takes from what remains what it logs as covered, unless it stops. */
  lemma StepCovers(s: State, e: Event)
    requires !e.StartSweep? && !e.Drop?
    ensures var s' := Step(s, e);
      if s'.log == s.log then s'.sweep.Idle? || Remaining(s'.sweep) == Remaining(s.sweep)
      else
        && |s'.log| == |s.log| + 1 && s'.log == s.log + [s'.log[|s.log|]] && !s'.log[|s.log|].SweepStarted?
        && (!s'.sweep.Idle? ==> !s.sweep.Idle? && Covers(s'.log[|s.log|]) + Remaining(s'.sweep) == Remaining(s.sweep))
  {
  }

  lemma StepOnCourse(s: State, e: Event)
    requires OnCourse(s)
    ensures OnCourse(Step(s, e))
  {
    if e.StartSweep? {
      StartsOnCourse(s, e);
    } else {
      hide OnCourse, Remaining;
      if e.Drop? {
        SameCourse(s, s.(connected := false));
        DropOnCourse(s.(connected := false), e.sku);
      } else {
        StepCovers(s, e);
        if s.sweep.Idle? { IdleStays(s, e); }
        hide Step;
        var s' := Step(s, e);
        if s'.log != s.log { EntryOnCourse(s, s', s'.log[|s.log|]); } else { SameCourse(s, s'); }
      }
    }
  }

  lemma IdleStays(s: State, e: Event)
    requires !e.StartSweep? && s.sweep.Idle?
    ensures Step(s, e).sweep.Idle?
  {
  }

  lemma {:induction false} RunOnCourse(events: seq<Event>)
    ensures OnCourse(Run(events))
  {
    hide Step;
    if events != [] {
      RunOnCourse(events[..|events| - 1]);
      StepOnCourse(Run(events[..|events| - 1]), events[|events| - 1]);
    }
  }

  lemma StopsIff(s: State, e: Event)
    requires !s.sweep.Idle?
    ensures Step(s, e).sweep.Idle? <==>
      || (e.SweepHead? && s.sweep.AtHead? && (Remaining(s.sweep) == [] || !s.connected))
      || (e == SweepQueryDone(true) && s.sweep.InQuery?)
    ensures e.SweepHead? && s.sweep.AtHead? ==> Step(s, e).log == s.log || Step(s, e).log == s.log + [Passed(s.sweep.rest[0])]
    ensures Step(s, e).sweep.Idle? ==> Step(s, e).log == s.log || e.SweepQueryDone?
  {
  }

  /** Over every run: a sweep goes through its list in order, querying or passing over one device after the other,
      and stops at the head of its loop exactly when it is through the whole list or the session is gone, and
      otherwise only when a publish raises. */
  lemma SweepCoversItsList(events: seq<Event>, e: Event)
    requires !Run(events).sweep.Idle?
    ensures var s, s' := Run(events), Step(Run(events), e);
      && Covered(s.log) <= ListOf(s.log)
      && (e.SweepHead? && s.sweep.AtHead? ==> (s'.sweep.Idle? <==> Covered(s.log) == ListOf(s.log) || !Up(events)))
      && (s'.sweep.Idle? ==> (e.SweepHead? && s.sweep.AtHead?) || (e == SweepQueryDone(true) && s.sweep.InQuery?))
  {
    hide Run, Step, Covered, ListOf;
    var s := Run(events);
    RunOnCourse(events);
    RunSession(events);
    StopsIff(s, e);
    assert Covered(s.log) == ListOf(s.log)[..|Covered(s.log)|];
    if Covered(s.log) == ListOf(s.log) { assert |Remaining(s.sweep)| == 0; }
  }

  /** Over every run: at the head of its loop, with the session up, a sweep waits for the lock with the next device
      of its list that has a topic and passes over one that has none; and it queries the device it waits with
      exactly when no other query is in its window. */
  lemma SweepAsksIff(events: seq<Event>, hasTopic: bool)
    ensures var s := Run(events);
      var head, acquired := Step(s, SweepHead(hasTopic)), Step(s, SweepAcquire);
      var k := |Covered(s.log)|;
      && (s.sweep.AtHead? && Up(events) && k < |ListOf(s.log)| ==>
            if hasTopic then head.sweep.AwaitingLock? && head.sweep.device == ListOf(s.log)[k] && head.log == s.log
            else head.log == s.log + [Passed(ListOf(s.log)[k])])
      && (s.sweep.AwaitingLock? ==> k < |ListOf(s.log)| && s.sweep.device == ListOf(s.log)[k])
      && (s.sweep.AwaitingLock? && WindowOpen(s.log) ==> acquired == s)
      && (s.sweep.AwaitingLock? && !WindowOpen(s.log) ==>
            acquired.log == s.log + [QuerySent(s.sweep.device, true, Clock(events))])
  {
    hide Run, Covered, ListOf, WindowOpen, Chargeable;
    var s := Run(events);
    RunOnCourse(events);
    RunSession(events);
    RunSerialised(events);
    if !s.sweep.Idle? {
      assert ListOf(s.log) == Covered(s.log) + Remaining(s.sweep);
      assert Remaining(s.sweep) != [] ==> ListOf(s.log)[|Covered(s.log)|] == Remaining(s.sweep)[0];
    }
  }

  /** Over every run: a sweep over some distinct devices starts exactly when the re-query is on, the account not
      refused, the session up and no other sweep running; its list is those devices that are not quarantined. */
  lemma SweepStartsIff(events: seq<Event>, devices: seq<DeviceId>, pollEnabled: bool)
    requires Distinct(devices)
    ensures var s := Run(events);
      var s' := Step(s, StartSweep(devices, pollEnabled));
      if pollEnabled && !AccountRefused(s.log) && Up(events) && s.sweep.Idle?
      then s'.log == s.log + [SweepStarted(Targets(devices, s.quarantine))] && Remaining(s'.sweep) == Targets(devices, s.quarantine)
      else s' == s
    ensures var s := Run(events);
      forall d :: d in Targets(devices, s.quarantine) <==> d in devices && !Condemned(s.log, d)
  {
    hide Run, Targets, AccountRefused, Condemned;
    RunSession(events);
    ClosedIff(events, "");
    var s := Run(events);
    forall d ensures d in Targets(devices, s.quarantine) <==> d in devices && !Condemned(s.log, d) {
      ClosedIff(events, d);
      TargetsAre(devices, s.quarantine);
    }
  }

  /** The list keeps the devices' order. */
  lemma {:induction false} TargetsAppend(a: seq<DeviceId>, b: seq<DeviceId>, quarantine: set<DeviceId>)
    ensures Targets(a + b, quarantine) == Targets(a, quarantine) + Targets(b, quarantine)
  {
    if a == [] {
      assert a + b == b;
    } else {
      TargetsAppend(a[1..], b, quarantine);
      assert (a + b)[1..] == a[1..] + b;
    }
  }
}
