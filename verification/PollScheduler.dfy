/** One cycle of the cloud poll: who is handed to the fetch, and who owns the interval (coordinator.py). */
module PollScheduler {
  import opened RequestBudget

  type DeviceId = string

  const MAX_LOCAL_FRESH_SKIPS := 5
  const IDLE_DIVISOR := 4
  const IDLE_AFTER := 1800.0
  const COMMAND_WINDOW := 300.0
  const FRESHNESS_FACTOR := 1.5
  const MAX_PACED_INTERVAL := 900
  const DEFAULT_BACKOFF := 120

  /** What the coordinator asks about a kettle: whether anything tells its unit, whether its temperatures say it
      heats while it is on, and whether the request budget is tight. */
  datatype Kettle = Kettle(unitKnown: bool, heats: bool, budgetTight: bool)

  /** What a cycle finds out about one enabled device; crc is the checksum of its id. */
  datatype Facts = Facts(
    crc: nat,
    hasState: bool,
    kettle: Option<Kettle>,
    localAge: Option<real>,
    isOff: bool,
    sinceChange: Option<real>,
    sinceCommand: Option<real>)

  /** A device's two counters, absent until first used. */
  datatype Track = Track(skips: Option<nat>, count: Option<nat>)

  const NO_TRACK := Track(None, None)

  // ---------- one device ----------

  function SkipsOf(t: Track, f: Facts): nat {
    if t.skips.Some? then t.skips.value else f.crc % MAX_LOCAL_FRESH_SKIPS
  }

  function CountOf(t: Track, f: Facts): nat {
    if t.count.Some? then t.count.value else f.crc % IDLE_DIVISOR
  }

  /** must_poll: the unit is still unknown, or the kettle heats and the budget can afford it. */
  predicate MustPoll(f: Facts) {
    f.kettle.Some? &&
    (!f.kettle.value.unitKnown || (f.hasState && !f.isOff && f.kettle.value.heats && !f.kettle.value.budgetTight))
  }

  /** Whether the freshness check passes over the device without looking at its counter. */
  predicate Passed(f: Facts) {
    !f.hasState || MustPoll(f)
  }

  /** Covered by a local reading this cycle. */
  predicate Fresh(t: Track, f: Facts, window: real) {
    !Passed(f) && LocalReadingIsFresh(f.localAge, window, SkipsOf(t, f), MAX_LOCAL_FRESH_SKIPS)
  }

  function AfterFresh(t: Track, f: Facts, window: real): Track {
    if Passed(f) then t
    else t.(skips := Some(if Fresh(t, f, window) then SkipsOf(t, f) + 1 else 0))
  }

  function Divisor(f: Facts): int {
    CloudPollDivisor(f.isOff, f.sinceChange, f.sinceCommand, IDLE_AFTER, COMMAND_WINDOW, IDLE_DIVISOR)
  }

  /** Sitting this cycle out for being idle. */
  predicate Idle(t: Track, f: Facts) {
    f.hasState && Divisor(f) > 1 && CountOf(t, f) % Divisor(f) != 0
  }

  /** Whether the device is a candidate for the fetch; idle devices are held back only over budget. */
  predicate Candidate(t: Track, f: Facts, window: real, over: bool) {
    !Fresh(t, f, window) && !(over && Idle(t, f))
  }

  function AfterCycle(t: Track, f: Facts, window: real, over: bool): Track {
    var t1 := AfterFresh(t, f, window);
    if !Fresh(t, f, window) && over then t1.(count := Some(CountOf(t, f) + 1)) else t1
  }

  // ---------- the scheduler ----------

  datatype Phase =
    | Between
    | Gathering(devices: nat, handed: set<DeviceId>, deferred: bool, readable: bool)

  datatype Entry =
    | Deferred(interval: int)
    | Polled(handed: set<DeviceId>)
    | BackedOff(interval: int)
    | Cleared

  datatype State = State(
    skips: map<DeviceId, nat>,
    counts: map<DeviceId, nat>,
    interval: int,
    rateLimited: bool,
    headerDeferred: bool,
    cycleLimited: bool,
    phase: Phase,
    log: seq<Entry>)

  /** The configuration: the poll interval the user chose and the daily request budget. */
  datatype Config = Config(base: int, budget: int) {
    predicate Valid() { 0 < base <= MAX_PACED_INTERVAL }
  }

  datatype Headers = Headers(remaining: int, resetIn: int)

  datatype Event =
    | StartCycle(facts: map<DeviceId, Facts>, readable: bool, headers: Option<Headers>)
    | Refused(retryAfter: Option<int>)
    | FinishCycle(successes: nat, spent: Option<int>, secondsLeft: int)
    | AbortCycle

  function Init(c: Config): State {
    State(map[], map[], c.base, false, false, false, Between, [])
  }

  function TrackIn(skips: map<DeviceId, nat>, counts: map<DeviceId, nat>, d: DeviceId): Track {
    Track(if d in skips then Some(skips[d]) else None, if d in counts then Some(counts[d]) else None)
  }

  function TrackOf(s: State, d: DeviceId): Track {
    TrackIn(s.skips, s.counts, d)
  }

  function Window(s: State): real {
    s.interval as real * FRESHNESS_FACTOR
  }

  predicate Over(c: Config, facts: map<DeviceId, Facts>) {
    PollExceedsBudget(|facts|, c.base, c.budget)
  }

  function Candidates(c: Config, s: State, facts: map<DeviceId, Facts>): set<DeviceId> {
    set d | d in facts && Candidate(TrackOf(s, d), facts[d], Window(s), Over(c, facts))
  }

  /** _locally_fresh_devices: the devices it covers, and its counters afterwards. */
  function FreshDevices(s: State, facts: map<DeviceId, Facts>): set<DeviceId> {
    set d | d in facts && Fresh(TrackOf(s, d), facts[d], Window(s))
  }

  function NextSkips(s: State, facts: map<DeviceId, Facts>): map<DeviceId, nat> {
    s.skips + map d | d in facts && !Passed(facts[d]) ::
      if Fresh(TrackOf(s, d), facts[d], Window(s)) then SkipsOf(TrackOf(s, d), facts[d]) + 1 else 0
  }

  /** _idle_devices_to_skip's counters: they advance for every device asked about, over budget only. */
  function NextCounts(c: Config, s: State, facts: map<DeviceId, Facts>): map<DeviceId, nat> {
    if !Over(c, facts) then s.counts
    else s.counts + map d | d in facts && d !in FreshDevices(s, facts) :: CountOf(TrackOf(s, d), facts[d]) + 1
  }

  /** What the headers ask for: None proceeds. */
  function HeaderBackoff(c: Config, headers: Option<Headers>, requests: nat): Option<int> {
    if headers.None? then None
    else HeaderBackoffInterval(headers.value.remaining, headers.value.resetIn, requests, c.base, MAX_PACED_INTERVAL)
  }

  /** Whether this cycle asks the headers at all. */
  predicate Consults(s: State, candidates: set<DeviceId>) {
    candidates != {} && !s.rateLimited
  }

  predicate Defers(c: Config, s: State, candidates: set<DeviceId>, headers: Option<Headers>) {
    Consults(s, candidates) && !s.headerDeferred && HeaderBackoff(c, headers, |candidates|).Some?
  }

  /** _async_poll_all up to the gather. */
  function DoStart(c: Config, s: State, facts: map<DeviceId, Facts>, readable: bool, headers: Option<Headers>): State {
    var candidates := Candidates(c, s, facts);
    var s1 := s.(skips := NextSkips(s, facts), counts := NextCounts(c, s, facts), cycleLimited := false);
    if Defers(c, s, candidates, headers) then
      var interval := HeaderBackoff(c, headers, |candidates|).value;
      s1.(interval := interval, headerDeferred := true, phase := Gathering(|facts|, {}, true, readable),
          log := s.log + [Deferred(interval)])
    else
      s1.(headerDeferred := s.headerDeferred && !Consults(s, candidates),
          phase := Gathering(|facts|, candidates, false, readable),
          log := s.log + [Polled(candidates)])
  }

  /** The 429 branch of _fetch_device_state; a follow-up read can take it outside a cycle too. */
  function DoRefused(s: State, retryAfter: Option<int>): State {
    var wait := if retryAfter.Some? && retryAfter.value != 0 then retryAfter.value else DEFAULT_BACKOFF;
    var s1 := s.(cycleLimited := true);
    if s.rateLimited then s1
    else s1.(rateLimited := true, interval := Max(wait, s.interval), log := s.log + [BackedOff(Max(wait, s.interval))])
  }

  predicate Clears(s: State, successes: nat) {
    s.phase.Gathering? && s.rateLimited && !s.cycleLimited && (successes > 0 || !s.phase.readable)
  }

  /** _apply_budget_pacing */
  function Paced(c: Config, s: State, devices: nat, spent: Option<int>, secondsLeft: int): State {
    if s.rateLimited || spent.None? then s
    else s.(interval := BudgetPacedInterval(c.base, spent.value, devices, secondsLeft, c.budget, MAX_PACED_INTERVAL))
  }

  /** _async_poll_all after the gather. */
  function DoFinish(c: Config, s: State, successes: nat, spent: Option<int>, secondsLeft: int): State
    requires s.phase.Gathering?
  {
    var s1 := if Clears(s, successes) then s.(rateLimited := false, interval := c.base, log := s.log + [Cleared]) else s;
    var s2 := if s.phase.deferred then s1 else Paced(c, s1, s.phase.devices, spent, secondsLeft);
    s2.(phase := Between)
  }

  function Step(c: Config, s: State, e: Event): State {
    match e
    case StartCycle(facts, readable, headers) => if s.phase.Between? then DoStart(c, s, facts, readable, headers) else s
    case Refused(retryAfter) => DoRefused(s, retryAfter)
    case FinishCycle(successes, spent, left) =>
      if s.phase.Gathering? && successes <= |s.phase.handed| then DoFinish(c, s, successes, spent, left) else s
    case AbortCycle => s.(phase := Between)
  }

  function Run(c: Config, events: seq<Event>): State {
    if events == [] then Init(c) else Step(c, Run(c, events[..|events| - 1]), events[|events| - 1])
  }
}
