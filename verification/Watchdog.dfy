/** The silent-session watchdog: reconnect once, then raise a repair (coordinator.py). */
module Watchdog {

  const SILENT_MIN_QUERIES := 3
  const SILENT_MIN_MISSED_PUSHES := 2

  /** What happened, in order. Evidence is the handling of a message that proves the session is heard. */
  datatype Entry = SessionUp | Message | Evidence | Query | Missed | Reconnected | Repaired | Aborted

  /** A call of the handler that has got past its guard. */
  datatype Body = Stopping | Starting | Ended

  datatype State = State(
    present: bool,
    connected: bool,
    inbound: nat,
    inboundAtConnect: nat,
    queries: nat,
    missed: nat,
    timer: bool,
    reconnected: bool,
    reported: bool,
    handling: bool,
    bodies: seq<Body>,
    log: seq<Entry>)

  datatype Event =
    | SessionStarts
    | SessionDrops
    | ClientRemoved
    | Inbound(handled: bool)
    | QuerySent
    | CloudReading
    | TimerFires
    | BffRefresh(longEnough: bool)
    | StopDone(body: nat)
    | StartDone(body: nat)
    | AbortBody(body: nat)

  const INIT := State(true, false, 0, 0, 0, 0, false, false, false, false, [], [])

  function Log(s: State, entry: Entry): State {
    s.(log := s.log + [entry])
  }

  /** _arm_mqtt_silence_check, when a session is up. */
  function DoArm(s: State): State {
    Log(s.(connected := true, queries := 0, missed := 0, inboundAtConnect := s.inbound, timer := true), SessionUp)
  }

  /** _note_mqtt_inbound */
  function DoNote(s: State): State {
    Log(s.(reconnected := false, reported := false), Evidence)
  }

  /** _async_handle_silent_session up to its first await, or to its end. */
  function DoHandle(s: State): State {
    if s.handling || !s.present then s
    else if !s.reconnected then
      Log(s.(handling := true, reconnected := true, bodies := s.bodies + [Stopping]), Reconnected)
    else if !s.reported then Log(s.(reported := true), Repaired)
    else s
  }

  predicate Live(s: State) {
    s.present && s.connected
  }

  /** _async_check_mqtt_silence */
  function DoTimer(s: State): State {
    var fired := s.(timer := false);
    if !Live(s) then fired
    else if s.inbound > s.inboundAtConnect then DoNote(fired)
    else if s.queries >= SILENT_MIN_QUERIES || s.missed >= SILENT_MIN_MISSED_PUSHES then DoHandle(fired)
    else fired
  }

  /** _async_check_missed_pushes */
  function DoBffRefresh(s: State, longEnough: bool): State {
    if s.missed < SILENT_MIN_MISSED_PUSHES || !Live(s) || s.inbound > s.inboundAtConnect || !longEnough then s
    else DoHandle(s)
  }

  predicate Running(s: State, id: nat) {
    id < |s.bodies| && !s.bodies[id].Ended?
  }

  function EndBody(s: State, id: nat): State
    requires id < |s.bodies|
  {
    s.(handling := false, bodies := s.bodies[id := Ended])
  }

  function Step(s: State, e: Event): State {
    match e
    case SessionStarts => if s.present then DoArm(s) else s
    case SessionDrops => s.(connected := false)
    case ClientRemoved => s.(present := false, connected := false)
    case Inbound(handled) =>
      var counted := Log(s.(inbound := s.inbound + 1), Message);
      if handled then DoNote(counted) else counted
    case QuerySent => Log(s.(queries := s.queries + 1), Query)
    case CloudReading =>
      if Live(s) && s.inbound <= s.inboundAtConnect then Log(s.(missed := s.missed + 1), Missed) else s
    case TimerFires => if s.timer then DoTimer(s) else s
    case BffRefresh(longEnough) => DoBffRefresh(s, longEnough)
    case StopDone(id) =>
      if Running(s, id) && s.bodies[id].Stopping? then s.(connected := false, bodies := s.bodies[id := Starting]) else s
    case StartDone(id) => if Running(s, id) && s.bodies[id].Starting? then EndBody(s, id) else s
    case AbortBody(id) => if Running(s, id) then Log(EndBody(s, id), Aborted) else s
  }

  function Run(events: seq<Event>): State {
    if events == [] then INIT else Step(Run(events[..|events| - 1]), events[|events| - 1])
  }

  // ---------- reading the log ----------

  /** What a log says about its end: since the last session came up, since the last evidence, and whether a
      session came up (or a handler was aborted) since the last reconnect. */
  datatype Reading = Reading(messages: nat, queries: nat, missed: nat, reconnects: nat, repairs: nat, renewed: bool)

  function Next(r: Reading, entry: Entry): Reading {
    match entry
    case SessionUp => r.(messages := 0, queries := 0, missed := 0, renewed := true)
    case Message => r.(messages := r.messages + 1)
    case Evidence => r.(reconnects := 0, repairs := 0)
    case Query => r.(queries := r.queries + 1)
    case Missed => r.(missed := r.missed + 1)
    case Reconnected => r.(reconnects := r.reconnects + 1, renewed := false)
    case Repaired => r.(repairs := r.repairs + 1)
    case Aborted => r.(renewed := true)
  }

  function Read(log: seq<Entry>): Reading {
    if log == [] then Reading(0, 0, 0, 0, 0, true) else Next(Read(log[..|log| - 1]), log[|log| - 1])
  }

  lemma ReadAdd(log: seq<Entry>, entry: Entry)
    ensures Read(log + [entry]) == Next(Read(log), entry)
  {
    assert (log + [entry])[..|log|] == log;
  }

  /** Nothing heard since the session came up, though queries went out or readings reached the cloud. */
  predicate Silent(r: Reading) {
    r.messages == 0 && (r.queries >= SILENT_MIN_QUERIES || r.missed >= SILENT_MIN_MISSED_PUSHES)
  }

  /** When the watchdog may act: a silent session, a reconnect at most once and first, a repair at most once
      and only in a session that came up after the reconnect. */
  predicate ActsInTurn(before: Reading, entry: Entry) {
    && (entry.Reconnected? ==> Silent(before) && before.reconnects == 0 && before.repairs == 0)
    && (entry.Repaired? ==> Silent(before) && before.reconnects == 1 && before.repairs == 0 && before.renewed)
  }

  predicate LogOk(log: seq<Entry>) {
    log != [] ==> LogOk(log[..|log| - 1]) && ActsInTurn(Read(log[..|log| - 1]), log[|log| - 1])
  }

  lemma LogAdd(log: seq<Entry>, entry: Entry)
    requires LogOk(log) && ActsInTurn(Read(log), entry)
    ensures LogOk(log + [entry])
  {
    assert (log + [entry])[..|log|] == log;
  }

  // ---------- invariants ----------

  function One(b: bool): nat {
    if b then 1 else 0
  }

  predicate Agrees(s: State) {
    var r := Read(s.log);
    && s.inboundAtConnect + r.messages == s.inbound && r.queries == s.queries && r.missed == s.missed
    && r.reconnects == One(s.reconnected) && r.repairs == One(s.reported)
    && (s.reported ==> s.reconnected)
    && LogOk(s.log)
  }

  /** One handler at most is past the guard, the flag says whether one is, and a reconnect whose session has
      not been renewed yet is either still stopping it or has taken it down. */
  ghost predicate OneBody(s: State) {
    && (forall i: nat, j: nat | Running(s, i) && Running(s, j) :: i == j)
    && (s.handling <==> exists i: nat :: Running(s, i))
    && (s.reconnected && s.connected && !Read(s.log).renewed ==> exists i: nat :: Running(s, i) && s.bodies[i].Stopping?)
  }

  lemma LogAgrees(s: State, changed: State, entry: Entry)
    requires Agrees(s) && changed.log == s.log && ActsInTurn(Read(s.log), entry)
    requires var r := Next(Read(s.log), entry);
      && changed.inboundAtConnect + r.messages == changed.inbound && r.queries == changed.queries && r.missed == changed.missed
      && r.reconnects == One(changed.reconnected) && r.repairs == One(changed.reported)
      && (changed.reported ==> changed.reconnected)
    ensures Agrees(Log(changed, entry)) && Read(Log(changed, entry).log) == Next(Read(s.log), entry)
  {
    hide Read, LogOk;
    ReadAdd(s.log, entry);
    LogAdd(s.log, entry);
  }

  /** The bodies and what the third part of OneBody reads are untouched. */
  lemma SameBodies(s: State, next: State)
    requires OneBody(s) && next.bodies == s.bodies && next.handling == s.handling
    requires next.reconnected && next.connected && !Read(next.log).renewed ==>
      s.reconnected && s.connected && !Read(s.log).renewed
    ensures OneBody(next)
  {
    hide Read;
    assert forall i :: Running(next, i) <==> Running(s, i);
  }

  lemma HandleOk(s: State)
    requires Agrees(s) && OneBody(s) && Silent(Read(s.log)) && Live(s)
    ensures Agrees(DoHandle(s)) && OneBody(DoHandle(s))
  {
    hide Read, LogOk;
    if !s.handling && !s.reconnected {
      var next := DoHandle(s);
      LogAgrees(s, s.(handling := true, reconnected := true, bodies := s.bodies + [Stopping]), Reconnected);
      assert Running(next, |s.bodies|) && next.bodies[|s.bodies|].Stopping?;
      forall i: nat | i < |s.bodies| ensures !Running(next, i) {
        assert Running(s, i) <==> Running(next, i);
      }
    } else if !s.handling && !s.reported {
      LogAgrees(s, s.(reported := true), Repaired);
      SameBodies(s, DoHandle(s));
    }
  }

  lemma BodyOk(s: State, e: Event)
    requires Agrees(s) && OneBody(s)
    requires e.StopDone? || e.StartDone? || e.AbortBody?
    ensures Agrees(Step(s, e)) && OneBody(Step(s, e))
  {
    hide Read, LogOk;
    var next := Step(s, e);
    var id := match e case StopDone(id) => id case StartDone(id) => id case AbortBody(id) => id case _ => 0;
    if next != s {
      if e.AbortBody? { LogAgrees(s, EndBody(s, id), Aborted); }
      forall i: nat | i != id ensures !Running(next, i) {
        assert Running(next, i) <==> Running(s, i);
      }
      assert e.StopDone? <==> Running(next, id);
    }
  }

  lemma NoteOk(s: State)
    requires Agrees(s) && OneBody(s)
    ensures Agrees(DoNote(s)) && OneBody(DoNote(s))
  {
    hide Read, LogOk;
    LogAgrees(s, s.(reconnected := false, reported := false), Evidence);
    SameBodies(s, DoNote(s));
  }

  lemma ArmOk(s: State)
    requires Agrees(s) && OneBody(s)
    ensures Agrees(DoArm(s)) && OneBody(DoArm(s))
  {
    hide Read, LogOk;
    LogAgrees(s, s.(connected := true, queries := 0, missed := 0, inboundAtConnect := s.inbound, timer := true), SessionUp);
    SameBodies(s, DoArm(s));
  }

  lemma CountOk(s: State, e: Event)
    requires Agrees(s) && OneBody(s) && (e.Inbound? || e.QuerySent? || e.CloudReading?)
    ensures Agrees(Step(s, e)) && OneBody(Step(s, e))
  {
    hide Read, LogOk, DoNote;
    if e.Inbound? {
      var counted := Log(s.(inbound := s.inbound + 1), Message);
      LogAgrees(s, s.(inbound := s.inbound + 1), Message);
      SameBodies(s, counted);
      if e.handled { NoteOk(counted); }
    } else if e.QuerySent? {
      LogAgrees(s, s.(queries := s.queries + 1), Query);
      SameBodies(s, Step(s, e));
    } else if Live(s) && s.inbound <= s.inboundAtConnect {
      LogAgrees(s, s.(missed := s.missed + 1), Missed);
      SameBodies(s, Step(s, e));
    }
  }

  lemma TimerOk(s: State)
    requires Agrees(s) && OneBody(s)
    ensures Agrees(DoTimer(s)) && OneBody(DoTimer(s))
  {
    hide Read, LogOk, DoHandle, DoNote;
    var fired := s.(timer := false);
    SameBodies(s, fired);
    if Live(s) {
      if s.inbound > s.inboundAtConnect { NoteOk(fired); }
      else if s.queries >= SILENT_MIN_QUERIES || s.missed >= SILENT_MIN_MISSED_PUSHES { HandleOk(fired); }
    }
  }

  lemma BffOk(s: State, longEnough: bool)
    requires Agrees(s) && OneBody(s)
    ensures Agrees(DoBffRefresh(s, longEnough)) && OneBody(DoBffRefresh(s, longEnough))
  {
    hide Read, LogOk, DoHandle, OneBody;
    if !(s.missed < SILENT_MIN_MISSED_PUSHES || !Live(s) || s.inbound > s.inboundAtConnect || !longEnough) { HandleOk(s); }
  }

  lemma DownOk(s: State, e: Event)
    requires Agrees(s) && OneBody(s) && (e.SessionDrops? || e.ClientRemoved?)
    ensures Agrees(Step(s, e)) && OneBody(Step(s, e))
  {
    hide Read, LogOk;
    SameBodies(s, Step(s, e));
  }

  lemma StepOk(s: State, e: Event)
    requires Agrees(s) && OneBody(s)
    ensures Agrees(Step(s, e)) && OneBody(Step(s, e))
  {
    hide Agrees, OneBody, DoTimer, DoBffRefresh, DoArm;
    match e
    case SessionStarts => ArmOk(s);
    case SessionDrops => DownOk(s, e);
    case ClientRemoved => DownOk(s, e);
    case Inbound(_) => CountOk(s, e);
    case QuerySent => CountOk(s, e);
    case CloudReading => CountOk(s, e);
    case TimerFires => TimerOk(s);
    case BffRefresh(longEnough) => BffOk(s, longEnough);
    case _ => BodyOk(s, e);
  }

  lemma {:induction false} RunOk(events: seq<Event>)
    ensures Agrees(Run(events)) && OneBody(Run(events))
  {
    hide Step, Agrees, OneBody;
    if events == [] {
      InitOk();
    } else {
      RunOk(events[..|events| - 1]);
      StepOk(Run(events[..|events| - 1]), events[|events| - 1]);
    }
  }

  lemma EmptyLog()
    ensures Read([]) == Reading(0, 0, 0, 0, 0, true) && LogOk([])
  {
  }

  lemma NoBodies(s: State)
    requires s.bodies == []
    ensures forall i: nat :: !Running(s, i)
  {
  }

  lemma InitOk()
    ensures Agrees(INIT) && OneBody(INIT)
  {
    EmptyLog();
    NoBodies(INIT);
    hide Running, Read, LogOk;
  }

  // ---------- theorems over whole runs ----------

  lemma {:induction false} LogOkAt(log: seq<Entry>, j: nat)
    requires LogOk(log) && j < |log|
    ensures ActsInTurn(Read(log[..j]), log[j])
    decreases |log|
  {
    var prefix := log[..|log| - 1];
    if j < |prefix| {
      LogOkAt(prefix, j);
      assert prefix[..j] == log[..j];
    } else {
      assert prefix == log[..j];
    }
  }

  /** Over every run: the watchdog acts on a session only when that session, since it came up, brought not one
      message although three queries went out or two readings reached the cloud; between two pieces of
      evidence it reconnects at most once and raises the repair at most once, after the reconnect. */
  lemma WatchdogActsInTurn(events: seq<Event>, j: nat)
    requires j < |Run(events).log|
    ensures ActsInTurn(Read(Run(events).log[..j]), Run(events).log[j])
  {
    RunOk(events);
    LogOkAt(Run(events).log, j);
  }

  predicate NoEvidence(log: seq<Entry>, i: nat, j: nat)
    requires i <= j <= |log|
  {
    forall k | i <= k < j :: !log[k].Evidence?
  }

  lemma {:induction false} CountsFrom(log: seq<Entry>, i: nat, j: nat)
    requires i < j <= |log| && NoEvidence(log, i, j)
    ensures log[i].Reconnected? ==> Read(log[..j]).reconnects >= 1
    ensures log[i].Repaired? ==> Read(log[..j]).repairs >= 1
    decreases j
  {
    assert log[..j][..j - 1] == log[..j - 1];
    if i < j - 1 { CountsFrom(log, i, j - 1); }
  }

  /** The same, in plain words: two reconnects, or two repairs, or a repair and a later reconnect, always have
      evidence between them. */
  lemma OneReconnectOneRepair(events: seq<Event>, i: nat, j: nat)
    requires var log := Run(events).log; i < j < |log| && NoEvidence(log, i, j)
    ensures var log := Run(events).log;
      && !(log[i].Reconnected? && log[j].Reconnected?)
      && !(log[i].Repaired? && log[j].Repaired?)
      && !(log[i].Repaired? && log[j].Reconnected?)
  {
    WatchdogActsInTurn(events, j);
    CountsFrom(Run(events).log, i, j);
  }

  lemma {:induction false} ReconnectedSince(log: seq<Entry>)
    requires Read(log).reconnects > 0
    ensures exists i | 0 <= i < |log| :: log[i].Reconnected? && NoEvidence(log, i, |log|) && (Read(log).renewed ==> RenewedAfter(log, i))
  {
    var prefix, last := log[..|log| - 1], log[|log| - 1];
    if last.Reconnected? {
      assert log[|log| - 1].Reconnected?;
    } else {
      ReconnectedSince(prefix);
      var i :| 0 <= i < |prefix| && prefix[i].Reconnected? && NoEvidence(prefix, i, |prefix|) && (Read(prefix).renewed ==> RenewedAfter(prefix, i));
      assert log[i].Reconnected? && NoEvidence(log, i, |log|) by {
        assert forall k | i <= k < |prefix| :: log[k] == prefix[k];
      }
      if Read(log).renewed {
        if last.SessionUp? || last.Aborted? {
          assert i < |log| - 1 && (log[|log| - 1].SessionUp? || log[|log| - 1].Aborted?);
        } else {
          var k :| i < k < |prefix| && (prefix[k].SessionUp? || prefix[k].Aborted?);
          assert log[k] == prefix[k];
        }
      }
    }
  }

  /** A session came up, or the handler was aborted, after position i. */
  ghost predicate RenewedAfter(log: seq<Entry>, i: nat) {
    exists k :: i < k < |log| && (log[k].SessionUp? || log[k].Aborted?)
  }

  /** A repair always has a reconnect before it with no evidence between, and a new session came up after
      that reconnect (unless its handler was aborted): two sessions in a row were silent. */
  lemma RepairFollowsReconnect(events: seq<Event>, j: nat)
    requires j < |Run(events).log| && Run(events).log[j].Repaired?
    ensures var before := Run(events).log[..j];
      exists i | 0 <= i < |before| :: before[i].Reconnected? && NoEvidence(before, i, |before|) && RenewedAfter(before, i)
  {
    WatchdogActsInTurn(events, j);
    ReconnectedSince(Run(events).log[..j]);
  }

  /** However its two triggers interleave, one handler at most is past the guard. */
  lemma HandlersExclude(events: seq<Event>, i: nat, j: nat)
    requires Running(Run(events), i) && Running(Run(events), j)
    ensures i == j && Run(events).handling
  {
    RunOk(events);
  }
}
