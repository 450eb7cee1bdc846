/** The LAN device map, its read misses and its write suppression (coordinator.py). */
module LanTier {

  datatype Option<+T> = None | Some(value: T)

  type DeviceId = string
  type Ip = string

  const CORRELATION_TTL := 600.0
  const READ_MISS_DEMOTE_THRESHOLD := 3
  const WRITE_SUPPRESS_THRESHOLD := 3
  const WRITE_SUPPRESS_SECONDS := 300.0

  datatype Info = Info(ip: Ip, correlated: real)

  datatype State = State(
    devices: map<DeviceId, Info>,
    readMisses: map<DeviceId, nat>,
    writeMisses: map<DeviceId, nat>,
    suppressedUntil: map<DeviceId, real>)

  datatype Event =
    | Merge(matched: map<DeviceId, Info>)
    | Refresh(polled: map<Ip, DeviceId>, writeOnly: set<DeviceId>, answered: set<Ip>)
    | WriteMiss(device: DeviceId, now: real)
    | WriteConfirmed(device: DeviceId)
    | CheckSuppressed(device: DeviceId, now: real)

  const INIT := State(map[], map[], map[], map[])

  function ReadMisses(s: State, d: DeviceId): nat {
    if d in s.readMisses then s.readMisses[d] else 0
  }

  function WriteMisses(s: State, d: DeviceId): nat {
    if d in s.writeMisses then s.writeMisses[d] else 0
  }

  /** No two devices share a (known) address. */
  predicate DistinctIps(devices: map<DeviceId, Info>) {
    forall d, e | d in devices && e in devices && d != e :: devices[d].ip != devices[e].ip || devices[d].ip == ""
  }

  // ---------- correlation ----------

  function ClaimedIps(matched: map<DeviceId, Info>): set<Ip> {
    set d | d in matched && matched[d].ip != "" :: matched[d].ip
  }

  predicate Displaced(s: State, matched: map<DeviceId, Info>, d: DeviceId)
    requires d in s.devices
  {
    d !in matched && s.devices[d].ip != "" && s.devices[d].ip in ClaimedIps(matched)
  }

  /** Devices of the old map that keep their old entry. */
  function Kept(s: State, matched: map<DeviceId, Info>): map<DeviceId, Info> {
    map d | d in s.devices && d !in matched && !Displaced(s, matched, d) :: s.devices[d]
  }

  function DisplacedBy(s: State, matched: map<DeviceId, Info>): set<DeviceId> {
    set d | d in s.devices && Displaced(s, matched, d)
  }

  /** Forget everything counted about some devices. */
  function Forget(s: State, gone: set<DeviceId>): State {
    s.(readMisses := s.readMisses - gone, writeMisses := s.writeMisses - gone, suppressedUntil := s.suppressedUntil - gone)
  }

  /** _merge_lan_correlation */
  function DoMerge(s: State, matched: map<DeviceId, Info>): State {
    var s1 := Forget(s, DisplacedBy(s, matched));
    s1.(devices := Kept(s, matched) + matched,
        readMisses := s1.readMisses + map d | d in matched :: 0)
  }

  // ---------- solicited reads ----------

  /** ip_to_device: one device per address; with two devices at one address it keeps either. */
  predicate PollOf(s: State, writeOnly: set<DeviceId>, polled: map<Ip, DeviceId>) {
    && (forall ip <- polled :: ip != "" && polled[ip] in s.devices && polled[ip] !in writeOnly && s.devices[polled[ip]].ip == ip)
    && (forall d <- s.devices :: s.devices[d].ip != "" && d !in writeOnly ==> s.devices[d].ip in polled)
  }

  predicate Polled(s: State, polled: map<Ip, DeviceId>, d: DeviceId) {
    d in s.devices && s.devices[d].ip in polled && polled[s.devices[d].ip] == d
  }

  predicate Unanswered(s: State, polled: map<Ip, DeviceId>, answered: set<Ip>, d: DeviceId) {
    Polled(s, polled, d) && s.devices[d].ip !in answered
  }

  function NewMisses(s: State, polled: map<Ip, DeviceId>, answered: set<Ip>, d: DeviceId): nat {
    if Unanswered(s, polled, answered, d) then ReadMisses(s, d) + 1
    else if Polled(s, polled, d) then 0
    else ReadMisses(s, d)
  }

  function Demoted(s: State, polled: map<Ip, DeviceId>, answered: set<Ip>): set<DeviceId> {
    set d | d in s.devices && Unanswered(s, polled, answered, d)
         && ReadMisses(s, d) + 1 >= READ_MISS_DEMOTE_THRESHOLD
  }

  /** _refresh_lan_reads */
  function DoRefresh(s: State, polled: map<Ip, DeviceId>, answered: set<Ip>): State {
    var counted := s.(readMisses := s.readMisses +
                        map d | d in s.devices && Polled(s, polled, d) :: NewMisses(s, polled, answered, d));
    var gone := Demoted(s, polled, answered);
    Forget(counted, gone).(devices := s.devices - gone)
  }

  // ---------- write suppression ----------

  /** _note_lan_write_miss */
  function NoteMiss(s: State, d: DeviceId, now: real): State {
    var misses := WriteMisses(s, d) + 1;
    var s1 := s.(writeMisses := s.writeMisses[d := misses]);
    if misses >= WRITE_SUPPRESS_THRESHOLD
    then s1.(suppressedUntil := s.suppressedUntil[d := now + WRITE_SUPPRESS_SECONDS])
    else s1
  }

  /** _clear_lan_write_misses */
  function ClearMisses(s: State, d: DeviceId): State {
    s.(writeMisses := s.writeMisses - {d}, suppressedUntil := s.suppressedUntil - {d})
  }

  predicate Suppressed(s: State, d: DeviceId, now: real) {
    d in s.suppressedUntil && now < s.suppressedUntil[d]
  }

  /** _lan_writes_suppressed: an expired cooldown re-arms the device. */
  function DoCheck(s: State, d: DeviceId, now: real): State {
    if d in s.suppressedUntil && now >= s.suppressedUntil[d] then ClearMisses(s, d) else s
  }

  function Step(s: State, e: Event): State {
    match e
    case Merge(matched) => DoMerge(s, matched)
    case Refresh(polled, writeOnly, answered) => if PollOf(s, writeOnly, polled) then DoRefresh(s, polled, answered) else s
    case WriteMiss(d, now) => NoteMiss(s, d, now)
    case WriteConfirmed(d) => ClearMisses(s, d)
    case CheckSuppressed(d, now) => DoCheck(s, d, now)
  }

  function Run(events: seq<Event>): State {
    if events == [] then INIT else Step(Run(events[..|events| - 1]), events[|events| - 1])
  }

  // ---------- routing ----------

  /** _lan_device_id_for_ip */
  ghost function DeviceForIp(devices: map<DeviceId, Info>, ip: Ip): Option<DeviceId> {
    if exists d :: d in devices && AloneAt(devices, d, ip)
    then var d :| d in devices && AloneAt(devices, d, ip); Some(d)
    else None
  }

  /** d is the one device mapped to the address. */
  predicate AloneAt(devices: map<DeviceId, Info>, d: DeviceId, ip: Ip) {
    d in devices && devices[d].ip == ip && forall e | e in devices && e != d :: devices[e].ip != ip
  }

  /** The device a push from an address is applied to, if any. */
  ghost function PushTarget(s: State, ip: Ip, now: real): Option<DeviceId> {
    match DeviceForIp(s.devices, ip)
    case None => None
    case Some(d) => if d in s.devices && now - s.devices[d].correlated < CORRELATION_TTL then Some(d) else None
  }

  lemma DeviceForIpIff(devices: map<DeviceId, Info>, ip: Ip, d: DeviceId)
    ensures DeviceForIp(devices, ip) == Some(d) <==> AloneAt(devices, d, ip)
  {
  }

  /** A push is applied to a device exactly when that device is the only one mapped to its source
      address and the mapping is still fresh. */
  lemma PushIsUnambiguous(s: State, ip: Ip, now: real, d: DeviceId)
    ensures PushTarget(s, ip, now) == Some(d) <==>
      AloneAt(s.devices, d, ip) && now - s.devices[d].correlated < 600.0
  {
    DeviceForIpIff(s.devices, ip, d);
    var found := DeviceForIp(s.devices, ip);
    if found.Some? { DeviceForIpIff(s.devices, ip, found.value); }
  }

  /** The merged map gives distinct addresses exactly when the fresh correlation does and the devices
      kept from the old map do among themselves. */
  lemma MergeDistinctIff(s: State, matched: map<DeviceId, Info>)
    ensures DistinctIps(DoMerge(s, matched).devices) <==> DistinctIps(matched) && DistinctIps(Kept(s, matched))
  {
    var kept, merged := Kept(s, matched), DoMerge(s, matched).devices;
    if DistinctIps(merged) {
      forall d, e | d in matched && e in matched && d != e ensures matched[d].ip != matched[e].ip || matched[d].ip == "" {
        assert merged[d] == matched[d] && merged[e] == matched[e];
      }
      forall d, e | d in kept && e in kept && d != e ensures kept[d].ip != kept[e].ip || kept[d].ip == "" {
        assert merged[d] == kept[d] && merged[e] == kept[e];
      }
    }
  }

  /** So distinct addresses survive every rescan and DHCP move. */
  lemma MergeKeepsDistinct(s: State, matched: map<DeviceId, Info>)
    requires DistinctIps(s.devices) && DistinctIps(matched)
    ensures DistinctIps(DoMerge(s, matched).devices)
  {
    MergeDistinctIff(s, matched);
    forall d, e | d in Kept(s, matched) && e in Kept(s, matched) && d != e
      ensures Kept(s, matched)[d].ip != Kept(s, matched)[e].ip || Kept(s, matched)[d].ip == ""
    {
      assert d in s.devices && e in s.devices;
    }
  }

  /** Every rescan of the run gave distinct addresses. */
  predicate CleanScans(events: seq<Event>) {
    forall e | e in events && e.Merge? :: DistinctIps(e.matched)
  }

  /** Over every run whose scans are clean, the map gives distinct addresses, so each address routes to
      the one device mapped to it and each poll asks every readable device at its own address. */
  lemma {:induction false} RoutingStaysUnambiguous(events: seq<Event>)
    requires CleanScans(events)
    ensures var s := Run(events);
      && DistinctIps(s.devices)
      && (forall d | d in s.devices && s.devices[d].ip != "" :: DeviceForIp(s.devices, s.devices[d].ip) == Some(d))
      && (forall polled, writeOnly, d | PollOf(s, writeOnly, polled) && d in s.devices && s.devices[d].ip != "" && d !in writeOnly ::
            Polled(s, polled, d))
  {
    if events != [] {
      var prefix, last := events[..|events| - 1], events[|events| - 1];
      assert last in events;
      RoutingStaysUnambiguous(prefix);
      var s := Run(prefix);
      match last {
        case Merge(matched) => MergeKeepsDistinct(s, matched);
        case _ => assert forall d <- Run(events).devices :: d in s.devices && Run(events).devices[d] == s.devices[d];
      }
    }
    var s := Run(events);
    assert DistinctIps(s.devices);
    forall d | d in s.devices && s.devices[d].ip != "" ensures DeviceForIp(s.devices, s.devices[d].ip) == Some(d) {
      assert AloneAt(s.devices, d, s.devices[d].ip);
      DeviceForIpIff(s.devices, s.devices[d].ip, d);
    }
  }

  /** Without a known address nothing is displaced: an old and a fresh entry can share "". */
  lemma UnknownAddressesCanCollide()
    ensures var old_, fresh_ := map["a" := Info("", 0.0)], map["b" := Info("", 1.0)];
      var merged := DoMerge(INIT.(devices := old_), fresh_).devices;
      "a" in merged && "b" in merged && merged["a"].ip == merged["b"].ip
  {
    assert ClaimedIps(map["b" := Info("", 1.0)]) == {};
  }

  // ---------- demotion ----------

  /** What one event does to a count of unanswered solicited reads of d: an answer or a fresh
      correlation ends the row, an unanswered read of d's address makes it longer. */
  function RowAfter(s: State, e: Event, d: DeviceId, row: nat): nat {
    match e
    case Merge(matched) => if d in matched then 0 else row
    case Refresh(polled, writeOnly, answered) =>
      if !PollOf(s, writeOnly, polled) || !Polled(s, polled, d) then row
      else if s.devices[d].ip in answered then 0
      else row + 1
    case _ => row
  }

  /** Solicited reads of d in a row that went unanswered, with no answer and no fresh correlation since. */
  function Streak(events: seq<Event>, d: DeviceId): nat {
    if events == [] then 0
    else RowAfter(Run(events[..|events| - 1]), events[|events| - 1], d, Streak(events[..|events| - 1], d))
  }

  predicate MissesBelow(s: State, d: DeviceId) {
    d in s.devices ==> ReadMisses(s, d) < READ_MISS_DEMOTE_THRESHOLD
  }

  lemma MergeMisses(s: State, matched: map<DeviceId, Info>, d: DeviceId)
    requires d in DoMerge(s, matched).devices
    ensures d !in matched ==> d in s.devices
    ensures ReadMisses(DoMerge(s, matched), d) == if d in matched then 0 else ReadMisses(s, d)
  {
    assert d !in matched ==> d !in DisplacedBy(s, matched);
  }

  lemma RefreshMisses(s: State, polled: map<Ip, DeviceId>, answered: set<Ip>, d: DeviceId)
    requires MissesBelow(s, d) && d in DoRefresh(s, polled, answered).devices
    ensures ReadMisses(DoRefresh(s, polled, answered), d) == NewMisses(s, polled, answered, d) < READ_MISS_DEMOTE_THRESHOLD
  {
    hide PollOf;
    assert d in s.devices && d !in Demoted(s, polled, answered);
  }

  /** One step carries a device's counter along with its row while the device stays mapped. */
  lemma MissesStep(s: State, e: Event, d: DeviceId)
    requires MissesBelow(s, d) && d in Step(s, e).devices
    ensures d !in s.devices ==> e.Merge? && d in e.matched
    ensures ReadMisses(Step(s, e), d) == RowAfter(s, e, d, ReadMisses(s, d)) < READ_MISS_DEMOTE_THRESHOLD
  {
    hide DoMerge, DoRefresh, PollOf;
    match e {
      case Merge(matched) => MergeMisses(s, matched, d);
      case Refresh(polled, writeOnly, answered) =>
        if PollOf(s, writeOnly, polled) {
          RefreshOnlyRemoves(s, polled, answered, d);
          RefreshMisses(s, polled, answered, d);
        }
      case _ =>
    }
  }

  lemma RefreshOnlyRemoves(s: State, polled: map<Ip, DeviceId>, answered: set<Ip>, d: DeviceId)
    ensures d in DoRefresh(s, polled, answered).devices <==> d in s.devices && d !in Demoted(s, polled, answered)
  {
  }

  /** Over every run, a mapped device's miss counter is its streak, and the streak is below three. */
  lemma {:induction false} MissesAreTheStreak(events: seq<Event>, d: DeviceId)
    requires d in Run(events).devices
    ensures ReadMisses(Run(events), d) == Streak(events, d) < READ_MISS_DEMOTE_THRESHOLD
  {
    hide Step, ReadMisses;
    var prefix, last := events[..|events| - 1], events[|events| - 1];
    if d in Run(prefix).devices { MissesAreTheStreak(prefix, d); }
    MissesStep(Run(prefix), last, d);
  }

  /** Over every run, a device leaves the map only by demotion, after exactly three unanswered reads in
      a row with no fresh correlation between, or because a rescan found another device at its address. */
  lemma LeavesOnlyWhenDue(events: seq<Event>, e: Event, d: DeviceId)
    requires d in Run(events).devices && d !in Run(events + [e]).devices
    ensures e.Refresh? ==> Streak(events + [e], d) == READ_MISS_DEMOTE_THRESHOLD
    ensures e.Merge? ==> d !in e.matched && exists o :: o in e.matched && o != d && e.matched[o].ip == Run(events).devices[d].ip
    ensures e.Refresh? || e.Merge?
  {
    assert (events + [e])[..|events|] == events;
    MissesAreTheStreak(events, d);
    if e.Merge? {
      assert Displaced(Run(events), e.matched, d);
    } else if e.Refresh? {
      RefreshOnlyRemoves(Run(events), e.polled, e.answered, d);
    }
  }

  // ---------- suppression ----------

  /** A device has a cooldown deadline exactly when its miss streak has reached three. */
  predicate DeadlineIffStreak(s: State, d: DeviceId) {
    d in s.suppressedUntil <==> WriteMisses(s, d) >= WRITE_SUPPRESS_THRESHOLD
  }

  lemma DeadlineStep(s: State, e: Event, d: DeviceId)
    requires DeadlineIffStreak(s, d)
    ensures DeadlineIffStreak(Step(s, e), d)
  {
    hide PollOf, ReadMisses, Demoted, NewMisses, DisplacedBy, Kept;
  }

  /** Over every run, through misses, confirmed writes, expiries, demotions and rescans, a deadline stands
      exactly while the streak is at three or more. */
  lemma {:induction false} SuppressedExactlyAtThree(events: seq<Event>, d: DeviceId)
    ensures DeadlineIffStreak(Run(events), d)
  {
    hide Step, DeadlineIffStreak;
    if events != [] {
      SuppressedExactlyAtThree(events[..|events| - 1], d);
      DeadlineStep(Run(events[..|events| - 1]), events[|events| - 1], d);
    } else {
      EmptyDeadline(d);
    }
  }

  lemma EmptyDeadline(d: DeviceId)
    ensures DeadlineIffStreak(INIT, d)
  {
  }
}
