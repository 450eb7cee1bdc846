/** When the silent-session watchdog acts: its every entry as a function of what happened before. */
module WatchdogActs {
  import opened Watchdog

  // ---------- reading a run ----------

  predicate Removed(events: seq<Event>) {
    events != [] && (events[|events| - 1].ClientRemoved? || Removed(events[..|events| - 1]))
  }

  /** The last thing that happened to the session brought it up: it neither dropped nor was stopped since. */
  predicate SessionIsUp(events: seq<Event>) {
    events != [] &&
      var before := events[..|events| - 1];
      match events[|events| - 1]
      case SessionStarts => !Removed(before) || SessionIsUp(before)
      case SessionDrops => false
      case ClientRemoved => false
      case StopDone(id) => SessionIsUp(before) && !StopsClient(Run(before), id)
      case _ => SessionIsUp(before)
  }

  predicate StopsClient(s: State, id: nat) {
    id < |s.bodies| && s.bodies[id].Stopping?
  }

  /** The check is due: a session came up and the timer has not fired since. */
  predicate CheckArmed(events: seq<Event>) {
    events != [] &&
      var before := events[..|events| - 1];
      match events[|events| - 1]
      case SessionStarts => !Removed(before) || CheckArmed(before)
      case TimerFires => false
      case _ => CheckArmed(before)
  }

  predicate SessionLive(events: seq<Event>) {
    !Removed(events) && SessionIsUp(events)
  }

  ghost predicate HandlerRuns(events: seq<Event>) {
    exists i: nat :: Running(Run(events), i)
  }

  /** No message since the session came up, though three queries went out or two readings reached the cloud. */
  predicate LooksSilent(r: Reading) {
    r.messages == 0 && (r.queries >= 3 || r.missed >= 2)
  }

  /** What the handler does, past its guard: first reconnect, then raise the repair, then nothing. */
  function Action(r: Reading): seq<Entry> {
    if r.reconnects == 0 then [Reconnected] else if r.repairs == 0 then [Repaired] else []
  }

  /** What an event adds to the log, from what the log and the events say of the time before it. */
  ghost function Added(events: seq<Event>, e: Event): seq<Entry> {
    var r, live := Read(Run(events).log), SessionLive(events);
    match e
    case SessionStarts => if Removed(events) then [] else [SessionUp]
    case SessionDrops => []
    case ClientRemoved => []
    case Inbound(handled) => if handled then [Message, Evidence] else [Message]
    case QuerySent => [Query]
    case CloudReading => if live && r.messages == 0 then [Missed] else []
    case TimerFires =>
      if !CheckArmed(events) || !live then []
      else if r.messages > 0 then [Evidence]
      else if LooksSilent(r) && !HandlerRuns(events) then Action(r)
      else []
    case BffRefresh(longEnough) =>
      if live && longEnough && r.messages == 0 && r.missed >= 2 && !HandlerRuns(events) then Action(r) else []
    case StopDone(_) => []
    case StartDone(_) => []
    case AbortBody(id) => if Running(Run(events), id) then [Aborted] else []
  }

  // ---------- the state follows the events ----------

  /** The watchdog's two triggers leave the session alone; the check uses up its timer. */
  lemma TriggersFollow(s: State, longEnough: bool)
    ensures DoTimer(s).present == s.present && DoTimer(s).connected == s.connected && !DoTimer(s).timer
    ensures var next := DoBffRefresh(s, longEnough);
      next.present == s.present && next.connected == s.connected && next.timer == s.timer
  {
  }

  predicate ArmedAfter(s: State, e: Event) {
    match e
    case SessionStarts => s.present || s.timer
    case TimerFires => false
    case _ => s.timer
  }

  predicate UpAfter(s: State, e: Event) {
    match e
    case SessionStarts => s.present || s.connected
    case SessionDrops => false
    case ClientRemoved => false
    case StopDone(id) => s.connected && !StopsClient(s, id)
    case _ => s.connected
  }

  lemma PresentFollows(s: State, e: Event)
    ensures Step(s, e).present <==> s.present && !e.ClientRemoved?
  {
    if e.TimerFires? || e.BffRefresh? { TriggersFollow(s, e.BffRefresh? && e.longEnough); }
    hide DoTimer, DoBffRefresh;
  }

  lemma TimerFollows(s: State, e: Event)
    ensures Step(s, e).timer == ArmedAfter(s, e)
  {
    if e.TimerFires? || e.BffRefresh? { TriggersFollow(s, e.BffRefresh? && e.longEnough); }
    hide DoTimer, DoBffRefresh;
  }

  lemma SessionFollows(s: State, e: Event)
    ensures Step(s, e).connected == UpAfter(s, e)
  {
    if e.TimerFires? || e.BffRefresh? { TriggersFollow(s, e.BffRefresh? && e.longEnough); }
    hide DoTimer, DoBffRefresh;
  }

  lemma {:induction false} RunFollows(events: seq<Event>)
    ensures var s := Run(events);
      s.present == !Removed(events) && s.connected == SessionIsUp(events) && s.timer == CheckArmed(events)
  {
    hide Step;
    if events != [] {
      RunFollows(events[..|events| - 1]);
      PresentFollows(Run(events[..|events| - 1]), events[|events| - 1]);
      TimerFollows(Run(events[..|events| - 1]), events[|events| - 1]);
      SessionFollows(Run(events[..|events| - 1]), events[|events| - 1]);
    }
  }

  /** What a step logs, by the state. */
  lemma StepAdds(s: State, e: Event, r: Reading)
    requires s.inboundAtConnect + r.messages == s.inbound && r.queries == s.queries && r.missed == s.missed
    requires r.reconnects == One(s.reconnected) && r.repairs == One(s.reported)
    ensures var action := if s.handling then [] else Action(r);
      Step(s, e).log == s.log +
        match e
        case SessionStarts => if s.present then [SessionUp] else []
        case SessionDrops => []
        case ClientRemoved => []
        case Inbound(handled) => if handled then [Message] + [Evidence] else [Message]
        case QuerySent => [Query]
        case CloudReading => if Live(s) && r.messages == 0 then [Missed] else []
        case TimerFires =>
          if !s.timer || !Live(s) then []
          else if r.messages > 0 then [Evidence]
          else if LooksSilent(r) then action
          else []
        case BffRefresh(longEnough) => if Live(s) && longEnough && r.messages == 0 && r.missed >= 2 then action else []
        case StopDone(_) => []
        case StartDone(_) => []
        case AbortBody(id) => if Running(s, id) then [Aborted] else []
  {
    assert s.log + [] == s.log;
  }

  /** Over every run: the log grows by exactly what the table above says. In particular, when the check fires on
      a live session that looks silent while no handler runs, the client is reconnected if it was not since the
      last evidence, else the repair is raised if it was not since then; messages make the check clear both; and
      a refresh that has waited long enough does the same for a session with two missed pushes. */
  lemma ActsIff(events: seq<Event>, e: Event)
    ensures Step(Run(events), e).log == Run(events).log + Added(events, e)
  {
    var s := Run(events);
    RunOk(events);
    RunFollows(events);
    hide Run, Step, LogOk, Read, Removed, SessionIsUp, CheckArmed;
    StepAdds(s, e, Read(s.log));
    assert [Message] + [Evidence] == [Message, Evidence];
  }

  // ---------- a handler's course ----------

  /** How an event moves a handler past the guard: stopping, then starting, then over; an abort ends it early. */
  function Moved(b: Body, e: Event, id: nat): Body {
    if e == StopDone(id) && b.Stopping? then Starting
    else if e == StartDone(id) && b.Starting? then Ended
    else if e == AbortBody(id) then Ended
    else b
  }

  /** A trigger lets a handler past the guard when it reconnects. */
  lemma TriggersAdmit(s: State, longEnough: bool)
    ensures DoTimer(s).bodies == s.bodies + if DoTimer(s).log == s.log + [Reconnected] then [Stopping] else []
    ensures var next := DoBffRefresh(s, longEnough);
      next.bodies == s.bodies + if next.log == s.log + [Reconnected] then [Stopping] else []
  {
    assert s.bodies + [] == s.bodies;
    OtherEntry(s.log, Evidence);
    OtherEntry(s.log, Repaired);
  }

  lemma OtherEntry(log: seq<Entry>, entry: Entry)
    ensures entry != Reconnected ==> log + [entry] != log + [Reconnected]
    ensures log != log + [Reconnected]
  {
    assert (log + [entry])[|log|] == entry && (log + [Reconnected])[|log|] == Reconnected;
  }

  lemma BodiesStay(s: State, e: Event)
    requires !e.TimerFires? && !e.BffRefresh? && !e.StopDone? && !e.StartDone? && !e.AbortBody?
    ensures Step(s, e).bodies == s.bodies
  {
  }

  predicate Moves(s: State, bodies: seq<Body>, e: Event, id: nat) {
    |bodies| == |s.bodies| && (id < |s.bodies| ==> bodies[id] == Moved(s.bodies[id], e, id))
  }

  lemma StopMoves(s: State, k: nat, id: nat)
    ensures Moves(s, Step(s, StopDone(k)).bodies, StopDone(k), id)
  {
  }

  lemma StartMoves(s: State, k: nat, id: nat)
    ensures Moves(s, Step(s, StartDone(k)).bodies, StartDone(k), id)
  {
  }

  lemma AbortMoves(s: State, k: nat, id: nat)
    ensures Moves(s, Step(s, AbortBody(k)).bodies, AbortBody(k), id)
  {
  }

  lemma BodiesMove(s: State, e: Event, id: nat)
    requires !e.TimerFires? && !e.BffRefresh?
    ensures Moves(s, Step(s, e).bodies, e, id)
  {
    hide Step;
    match e
    case StopDone(k) => StopMoves(s, k, id);
    case StartDone(k) => StartMoves(s, k, id);
    case AbortBody(k) => AbortMoves(s, k, id);
    case _ => BodiesStay(s, e);
  }

  /** Over every run, every handler past the guard runs its course, and each reconnect lets a new one past it. */
  lemma HandlersMove(events: seq<Event>, e: Event, id: nat)
    ensures var s, next := Run(events), Step(Run(events), e);
      && |next.bodies| == |s.bodies| + (if Added(events, e) == [Reconnected] then 1 else 0)
      && (id < |s.bodies| ==> id < |next.bodies| && next.bodies[id] == Moved(s.bodies[id], e, id))
      && (|s.bodies| <= id < |next.bodies| ==> next.bodies[id] == Stopping)
  {
    var s := Run(events);
    ActsIff(events, e);
    hide Step, Run, Read, Action, Removed, SessionIsUp, CheckArmed;
    if e.TimerFires? || e.BffRefresh? {
      hide Added;
      TriggerBodies(s, e);
      SameEnd(s.log, Added(events, e), [Reconnected]);
    } else {
      BodiesMove(s, e, id);
    }
  }

  lemma SameEnd(log: seq<Entry>, a: seq<Entry>, b: seq<Entry>)
    ensures log + a == log + b <==> a == b
  {
    assert (log + a)[|log|..] == a && (log + b)[|log|..] == b;
  }

  lemma TriggerBodies(s: State, e: Event)
    requires e.TimerFires? || e.BffRefresh?
    ensures var next := Step(s, e);
      next.bodies == s.bodies + if next.log == s.log + [Reconnected] then [Stopping] else []
  {
    TriggersAdmit(s, e.BffRefresh? && e.longEnough);
    OtherEntry(s.log, Evidence);
    assert s.bodies + [] == s.bodies;
    hide DoTimer, DoBffRefresh;
  }

  // ---------- a run up to the repair ----------

  // Two sessions in a row come up, send three queries and hear nothing.
  const Q := [SessionUp, Query, Query, Query]
  const S0 := INIT.(connected := true, timer := true, log := [SessionUp])
  const S1 := S0.(queries := 3, log := Q)
  const S2 := S1.(timer := false, reconnected := true, handling := true, bodies := [Stopping], log := Q + [Reconnected])
  const S3 := S2.(connected := false, handling := false, bodies := [Ended])
  const S4 := S3.(connected := true, timer := true, queries := 0, log := S3.log + [SessionUp])
  const S5 := S4.(queries := 3, log := S3.log + Q)
  const S6 := S5.(timer := false, reported := true, log := S5.log + [Repaired])

  lemma After(events: seq<Event>, e: Event) returns (more: seq<Event>)
    ensures more == events + [e] && Run(more) == Step(Run(events), e)
  {
    more := events + [e];
    assert more[..|events|] == events;
  }

  lemma RunNothing()
    ensures Run([]) == INIT
  {
  }

  lemma ThreeQueries(s: State)
    ensures Step(Step(Step(s, QuerySent), QuerySent), QuerySent) ==
      s.(queries := s.queries + 3, log := s.log + [Query, Query, Query])
  {
    assert s.log + [Query] + [Query] + [Query] == s.log + [Query, Query, Query];
  }

  lemma QueryThrice(events: seq<Event>) returns (more: seq<Event>)
    ensures var s := Run(events); Run(more) == s.(queries := s.queries + 3, log := s.log + [Query, Query, Query])
  {
    ThreeQueries(Run(events));
    hide Step, Run;
    more := After(events, QuerySent);
    more := After(more, QuerySent);
    more := After(more, QuerySent);
  }

  lemma FirstSession()
    ensures Step(INIT, SessionStarts) == S0
    ensures S0.(queries := S0.queries + 3, log := S0.log + [Query, Query, Query]) == S1
    ensures Step(S1, TimerFires) == S2
  {
    assert [] + [SessionUp] == [SessionUp];
    assert [SessionUp] + [Query, Query, Query] == Q;
    assert [] + [Stopping] == [Stopping];
  }

  lemma Restart()
    ensures Step(Step(S2, StopDone(0)), StartDone(0)) == S3
  {
    assert [Stopping][0 := Starting] == [Starting] && [Starting][0 := Ended] == [Ended];
  }

  lemma SecondSession()
    ensures Step(S3, SessionStarts) == S4
    ensures S4.(queries := S4.queries + 3, log := S4.log + [Query, Query, Query]) == S5
    ensures Step(S5, TimerFires) == S6
  {
    assert S3.log + [SessionUp] + [Query, Query, Query] == S3.log + Q;
  }

  /** The watchdog gets as far as the repair: two silent sessions in a row. */
  lemma RepairRun() returns (events: seq<Event>)
    ensures Run(events).log == Q + [Reconnected] + Q + [Repaired]
  {
    FirstSession();
    Restart();
    SecondSession();
    RunNothing();
    hide Step, Run;
    events := After([], SessionStarts);
    events := QueryThrice(events);
    events := After(events, TimerFires);
    events := After(events, StopDone(0));
    events := After(events, StartDone(0));
    events := After(events, SessionStarts);
    events := QueryThrice(events);
    events := After(events, TimerFires);
  }
}
