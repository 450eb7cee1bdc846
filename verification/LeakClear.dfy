/** Poll ticks and leak clears of one standalone water detector, interleaved (coordinator.py). */
module LeakClear {

  datatype Option<+T> = None | Some(value: T)

  /** What happened, in order; asked, began and listed are positions in this log. */
  datatype Entry =
    | Listed
    | Began
    | Asked
    | Wrote(wet: bool, asked: nat)
    | Recorded(time: nat, listed: nat, began: nat)
    | Cleared

  /** One tick's work on the detector. */
  datatype Tick =
    | Fetched(listed: nat, time: nat)
    | Asking(listed: nat, time: nat, gen: nat, began: nat, asked: nat)
    | Done

  datatype State = State(leak: bool, lastTime: Option<nat>, gen: nat, ticks: seq<Tick>, log: seq<Entry>)

  datatype Event =
    | List(time: nat)
    | Begin(tick: nat)
    | Read(tick: nat, wet: Option<bool>)
    | Abort(tick: nat)
    | Clear

  const INIT := State(false, None, 0, [], [])

  function PrevTime(s: State): nat {
    if s.lastTime.Some? then s.lastTime.value else 0
  }

  /** The end of an iteration: remember the report time, unless a clear came in between. */
  function Remember(s: State, gen: nat, time: nat, listed: nat, began: nat): State {
    if time != 0 && s.gen == gen then s.(lastTime := Some(time), log := s.log + [Recorded(time, listed, began)]) else s
  }

  /** Up to the warnMessage request, or to the end when there is nothing new to learn. */
  function DoBegin(s: State, id: nat): State
    requires id < |s.ticks| && s.ticks[id].Fetched?
  {
    var t, began := s.ticks[id], |s.log|;
    if t.time > PrevTime(s) || s.leak then
      s.(log := s.log + [Began, Asked], ticks := s.ticks[id := Asking(t.listed, t.time, s.gen, began, began + 1)])
    else
      Remember(s.(log := s.log + [Began], ticks := s.ticks[id := Done]), s.gen, t.time, t.listed, began)
  }

  /** From the warnMessage reply (None: the request failed) to the end of the iteration. */
  function DoRead(s: State, id: nat, wet: Option<bool>): State
    requires id < |s.ticks| && s.ticks[id].Asking?
  {
    var t, isWet := s.ticks[id], if wet.Some? then wet.value else s.leak;
    var ended := s.(ticks := s.ticks[id := Done]);
    var written :=
      if s.gen == t.gen && s.leak != isWet then ended.(leak := isWet, log := s.log + [Wrote(isWet, t.asked)]) else ended;
    Remember(written, t.gen, t.time, t.listed, t.began)
  }

  /** async_clear_water_leak, once Govee has accepted it. */
  function DoClear(s: State): State {
    s.(leak := false, lastTime := None, gen := s.gen + 1, log := s.log + [Cleared])
  }

  function Step(s: State, e: Event): State {
    match e
    case List(time) => s.(ticks := s.ticks + [Fetched(|s.log|, time)], log := s.log + [Listed])
    case Begin(id) => if id < |s.ticks| && s.ticks[id].Fetched? then DoBegin(s, id) else s
    case Read(id, wet) => if id < |s.ticks| && s.ticks[id].Asking? then DoRead(s, id, wet) else s
    case Abort(id) => if id < |s.ticks| then s.(ticks := s.ticks[id := Done]) else s
    case Clear => DoClear(s)
  }

  function Run(events: seq<Event>): State {
    if events == [] then INIT else Step(Run(events[..|events| - 1]), events[|events| - 1])
  }

  // ---------- invariants ----------

  /** The position just after the last clear. */
  function ClearedUpTo(log: seq<Entry>): nat {
    if log == [] then 0
    else if log[|log| - 1].Cleared? then |log|
    else ClearedUpTo(log[..|log| - 1])
  }

  lemma ClearedAdd(log: seq<Entry>, entry: Entry)
    ensures ClearedUpTo(log + [entry]) == if entry.Cleared? then |log| + 1 else ClearedUpTo(log)
  {
    assert (log + [entry])[..|log|] == log;
  }

  lemma {:induction false} ClearedIsLast(log: seq<Entry>, i: nat)
    requires i < |log| && log[i].Cleared?
    ensures i < ClearedUpTo(log)
  {
    if !log[|log| - 1].Cleared? { ClearedIsLast(log[..|log| - 1], i); }
  }

  lemma {:induction false} ClearedAtMost(log: seq<Entry>)
    ensures ClearedUpTo(log) <= |log|
  {
    if log != [] { ClearedAtMost(log[..|log| - 1]); }
  }

  predicate TickOk(s: State, id: nat)
    requires id < |s.ticks|
  {
    var t := s.ticks[id];
    t.Asking? ==>
      && t.gen <= s.gen
      && t.began < t.asked < |s.log| && s.log[t.asked].Asked?
      && (t.gen == s.gen <==> ClearedUpTo(s.log) <= t.began)
  }

  /** A remembered report time was checked against warnMessage since the last clear. */
  ghost predicate AskedSince(log: seq<Entry>, from: nat) {
    exists k :: from <= k < |log| && log[k].Asked?
  }

  ghost predicate MemoryOk(s: State) {
    && (forall id | 0 <= id < |s.ticks| :: TickOk(s, id))
    && (s.lastTime.Some? ==> s.lastTime.value > 0 && AskedSince(s.log, ClearedUpTo(s.log)))
  }

  /** An entry stands after every clear that its request, or its iteration, came before. */
  ghost predicate EntryOk(log: seq<Entry>, j: nat)
    requires j < |log|
  {
    && (log[j].Wrote? ==> log[j].asked < j && log[log[j].asked].Asked? && ClearedUpTo(log[..j]) <= log[j].asked)
    && (log[j].Recorded? ==> ClearedUpTo(log[..j]) <= log[j].began < j && AskedSince(log[..j], ClearedUpTo(log[..j])))
  }

  ghost predicate LogOk(log: seq<Entry>) {
    forall j | 0 <= j < |log| :: EntryOk(log, j)
  }

  lemma LogAdd(log: seq<Entry>, entry: Entry)
    requires LogOk(log) && EntryOk(log + [entry], |log|)
    ensures LogOk(log + [entry])
  {
    var next := log + [entry];
    forall j | 0 <= j < |next| ensures EntryOk(next, j) {
      if j < |log| {
        assert EntryOk(log, j) && next[..j] == log[..j];
      }
    }
  }

  lemma AskedAdd(log: seq<Entry>, entry: Entry, from: nat)
    ensures AskedSince(log, from) ==> AskedSince(log + [entry], from)
    ensures entry.Asked? && from <= |log| ==> AskedSince(log + [entry], from)
  {
    if AskedSince(log, from) {
      var k :| from <= k < |log| && log[k].Asked?;
      assert (log + [entry])[k].Asked?;
    }
    assert (log + [entry])[|log|] == entry;
  }

  /** Appending an entry that is no clear keeps what is known about ticks and memory. */
  lemma Quiet(s: State, entry: Entry)
    requires MemoryOk(s) && !entry.Cleared?
    ensures MemoryOk(s.(log := s.log + [entry]))
  {
    ClearedAdd(s.log, entry);
    AskedAdd(s.log, entry, ClearedUpTo(s.log));
    hide AskedSince, ClearedUpTo;
    forall id | 0 <= id < |s.ticks| ensures TickOk(s.(log := s.log + [entry]), id) {
      assert TickOk(s, id);
    }
  }

  lemma SetTick(s: State, id: nat, t: Tick)
    requires MemoryOk(s) && id < |s.ticks|
    requires TickOk(s.(ticks := s.ticks[id := t]), id)
    ensures MemoryOk(s.(ticks := s.ticks[id := t]))
  {
    hide AskedSince, ClearedUpTo;
    var next := s.(ticks := s.ticks[id := t]);
    forall other | 0 <= other < |next.ticks| ensures TickOk(next, other) {
      assert TickOk(s, other);
    }
  }

  lemma AddTick(s: State, t: Tick)
    requires MemoryOk(s) && t.Fetched?
    ensures MemoryOk(s.(ticks := s.ticks + [t]))
  {
    hide AskedSince, ClearedUpTo;
    var next := s.(ticks := s.ticks + [t]);
    forall other | 0 <= other < |next.ticks| ensures TickOk(next, other) {
      if other < |s.ticks| { assert TickOk(s, other); }
    }
  }

  lemma Plain(log: seq<Entry>, entry: Entry)
    requires LogOk(log) && !entry.Wrote? && !entry.Recorded?
    ensures LogOk(log + [entry])
  {
    LogAdd(log, entry);
  }

  lemma RememberOk(s: State, gen: nat, time: nat, listed: nat, began: nat)
    requires MemoryOk(s) && LogOk(s.log)
    requires time != 0 && s.gen == gen ==>
      ClearedUpTo(s.log) <= began < |s.log| && AskedSince(s.log, ClearedUpTo(s.log))
    ensures MemoryOk(Remember(s, gen, time, listed, began)) && LogOk(Remember(s, gen, time, listed, began).log)
  {
    if time != 0 && s.gen == gen {
      var entry := Recorded(time, listed, began);
      assert (s.log + [entry])[..|s.log|] == s.log;
      LogAdd(s.log, entry);
      Quiet(s, entry);
      AskedAdd(s.log, entry, ClearedUpTo(s.log));
      ClearedAdd(s.log, entry);
      var next := Remember(s, gen, time, listed, began);
      hide ClearedUpTo, AskedSince, LogOk;
      forall id | 0 <= id < |next.ticks| ensures TickOk(next, id) {
        assert TickOk(s.(log := s.log + [entry]), id);
      }
    }
  }

  /** The mark that an iteration began. */
  lemma BeganOk(s: State)
    requires MemoryOk(s) && LogOk(s.log)
    ensures var next := s.(log := s.log + [Began]); MemoryOk(next) && LogOk(next.log)
    ensures ClearedUpTo(s.log + [Began]) == ClearedUpTo(s.log) <= |s.log|
    ensures AskedSince(s.log, ClearedUpTo(s.log)) ==> AskedSince(s.log + [Began], ClearedUpTo(s.log))
  {
    ClearedAtMost(s.log);
    ClearedAdd(s.log, Began);
    AskedAdd(s.log, Began, ClearedUpTo(s.log));
    Plain(s.log, Began);
    hide ClearedUpTo, AskedSince, LogOk, MemoryOk;
    Quiet(s, Began);
  }

  lemma AskingOk(s: State, id: nat)
    requires MemoryOk(s) && LogOk(s.log) && id < |s.ticks| && s.ticks[id].Fetched?
    requires s.ticks[id].time > PrevTime(s) || s.leak
    ensures MemoryOk(DoBegin(s, id)) && LogOk(DoBegin(s, id).log)
  {
    var t, began := s.ticks[id], |s.log|;
    BeganOk(s);
    var s1 := s.(log := s.log + [Began]);
    ClearedAdd(s1.log, Asked);
    Plain(s1.log, Asked);
    assert s.log + [Began, Asked] == s1.log + [Asked];
    hide ClearedUpTo, AskedSince, LogOk, MemoryOk;
    Quiet(s1, Asked);
    SetTick(s1.(log := s1.log + [Asked]), id, Asking(t.listed, t.time, s.gen, began, began + 1));
  }

  lemma NotAskingOk(s: State, id: nat)
    requires MemoryOk(s) && LogOk(s.log) && id < |s.ticks| && s.ticks[id].Fetched?
    requires !(s.ticks[id].time > PrevTime(s) || s.leak)
    ensures MemoryOk(DoBegin(s, id)) && LogOk(DoBegin(s, id).log)
  {
    var t, began := s.ticks[id], |s.log|;
    assert s.lastTime.Some? ==> AskedSince(s.log, ClearedUpTo(s.log));
    BeganOk(s);
    var s1 := s.(log := s.log + [Began]);
    hide ClearedUpTo, AskedSince, LogOk, MemoryOk;
    SetTick(s1, id, Done);
    RememberOk(s1.(ticks := s.ticks[id := Done]), s.gen, t.time, t.listed, began);
  }

  lemma BeginOk(s: State, id: nat)
    requires MemoryOk(s) && LogOk(s.log) && id < |s.ticks| && s.ticks[id].Fetched?
    ensures MemoryOk(DoBegin(s, id)) && LogOk(DoBegin(s, id).log)
  {
    hide MemoryOk, LogOk, DoBegin;
    if s.ticks[id].time > PrevTime(s) || s.leak { AskingOk(s, id); } else { NotAskingOk(s, id); }
  }

  lemma ReadOk(s: State, id: nat, wet: Option<bool>)
    requires MemoryOk(s) && LogOk(s.log) && id < |s.ticks| && s.ticks[id].Asking?
    ensures MemoryOk(DoRead(s, id, wet)) && LogOk(DoRead(s, id, wet).log)
  {
    var t, isWet := s.ticks[id], if wet.Some? then wet.value else s.leak;
    assert TickOk(s, id);
    SetTick(s, id, Done);
    var ended := s.(ticks := s.ticks[id := Done]);
    assert s.gen == t.gen ==> AskedSince(s.log, ClearedUpTo(s.log));
    if s.gen == t.gen && s.leak != isWet {
      var entry := Wrote(isWet, t.asked);
      assert (s.log + [entry])[..|s.log|] == s.log;
      assert (s.log + [entry])[t.asked] == s.log[t.asked];
      LogAdd(s.log, entry);
      Quiet(ended, entry);
      ClearedAdd(s.log, entry);
      AskedAdd(s.log, entry, ClearedUpTo(s.log));
      hide ClearedUpTo, AskedSince, LogOk;
      var written := ended.(leak := isWet, log := s.log + [entry]);
      LeakIsNoMemory(ended.(log := s.log + [entry]), isWet);
      RememberOk(written, t.gen, t.time, t.listed, t.began);
    } else {
      RememberOk(ended, t.gen, t.time, t.listed, t.began);
    }
  }

  lemma LeakIsNoMemory(s: State, leak: bool)
    requires MemoryOk(s)
    ensures MemoryOk(s.(leak := leak))
  {
    hide ClearedUpTo, AskedSince;
    forall id | 0 <= id < |s.ticks| ensures TickOk(s.(leak := leak), id) {
      assert TickOk(s, id);
    }
  }

  lemma ClearOk(s: State)
    requires MemoryOk(s) && LogOk(s.log)
    ensures MemoryOk(DoClear(s)) && LogOk(DoClear(s).log)
  {
    Plain(s.log, Cleared);
    hide ClearedUpTo, AskedSince, LogOk;
    var next := DoClear(s);
    forall id | 0 <= id < |next.ticks| ensures TickOk(next, id) {
      assert TickOk(s, id);
    }
  }

  lemma StepOk(s: State, e: Event)
    requires MemoryOk(s) && LogOk(s.log)
    ensures MemoryOk(Step(s, e)) && LogOk(Step(s, e).log)
  {
    hide MemoryOk, LogOk, DoBegin, DoRead, DoClear, ClearedUpTo;
    match e
    case List(time) =>
      AddTick(s, Fetched(|s.log|, time));
      Quiet(s.(ticks := s.ticks + [Fetched(|s.log|, time)]), Listed);
      Plain(s.log, Listed);
    case Begin(id) => if id < |s.ticks| && s.ticks[id].Fetched? { BeginOk(s, id); }
    case Read(id, wet) => if id < |s.ticks| && s.ticks[id].Asking? { ReadOk(s, id, wet); }
    case Abort(id) => if id < |s.ticks| { SetTick(s, id, Done); }
    case Clear => ClearOk(s);
  }

  lemma {:induction false} RunOk(events: seq<Event>)
    ensures MemoryOk(Run(events)) && LogOk(Run(events).log)
  {
    hide Step;
    if events != [] {
      RunOk(events[..|events| - 1]);
      StepOk(Run(events[..|events| - 1]), events[|events| - 1]);
    }
  }

  // ---------- the clear wins ----------

  /** Over every interleaving of ticks and clears: a value written from a warnMessage reading after a clear
      comes from a request issued after that clear. */
  lemma ClearWins(events: seq<Event>, i: nat, j: nat)
    requires var log := Run(events).log; i < j < |log| && log[i].Cleared? && log[j].Wrote?
    ensures var log := Run(events).log; i < log[j].asked < j && log[log[j].asked].Asked?
  {
    var log := Run(events).log;
    RunOk(events);
    hide Run, MemoryOk;
    assert EntryOk(log, j);
    ClearedIsLast(log[..j], i);
  }

  /** A report time recorded after a clear comes from an iteration that began after it, and not before
      warnMessage was asked again: the forgotten time stays forgotten until the alert is re-read. */
  lemma ForgottenUntilAskedAgain(events: seq<Event>, i: nat, j: nat)
    requires var log := Run(events).log; i < j < |log| && log[i].Cleared? && log[j].Recorded?
    ensures var log := Run(events).log;
      i < log[j].began < j && exists k :: i < k < j && log[k].Asked?
  {
    var log := Run(events).log;
    RunOk(events);
    hide Run, MemoryOk;
    assert EntryOk(log, j);
    ClearedIsLast(log[..j], i);
    var k :| ClearedUpTo(log[..j]) <= k < j && log[..j][k].Asked?;
    assert i < k && log[k].Asked?;
  }

  /** An iteration under way at a clear changes nothing any more. */
  lemma OvertakenTickIsInert(s: State, id: nat, wet: Option<bool>)
    requires id < |s.ticks| && s.ticks[id].Asking?
    ensures var next := DoRead(s, id, wet);
      (next.leak == s.leak && next.lastTime == s.lastTime && next.log == s.log) <==>
      (s.ticks[id].gen == s.gen ==> s.ticks[id].time == 0 && (wet.None? || wet.value == s.leak))
  {
    var t, next := s.ticks[id], DoRead(s, id, wet);
    if s.gen == t.gen && (t.time != 0 || (wet.Some? && wet.value != s.leak)) {
      assert |next.log| > |s.log|;
    }
  }

  // ---------- what a tick in flight can still do ----------

  lemma After(events: seq<Event>, e: Event) returns (more: seq<Event>)
    ensures more == events + [e] && Run(more) == Step(Run(events), e)
  {
    more := events + [e];
    assert more[..|events|] == events;
  }

  /** A tick whose device list was fetched before the clear, but whose iteration begins after it, restores the
      very report time the clear forgot. */
  lemma FetchedTickRestoresTime() returns (events: seq<Event>)
    ensures var log := Run(events).log;
      exists i, j :: 0 <= i < j < |log| && log[i].Cleared? && log[j].Recorded? && log[j].listed < i
    ensures Run(events).lastTime == Some(7)
  {
    hide Run;
    events := After([], List(7));
    assert Run([]) == INIT by { RunEmpty(); }
    events := After(events, Clear);
    events := After(events, Begin(0));
    events := After(events, Read(0, Some(false)));
    var log := Run(events).log;
    assert log == [Listed, Cleared, Began, Asked, Recorded(7, 0, 2)];
    assert log[1].Cleared? && log[4].Recorded? && log[4].listed < 1;
  }

  lemma RunEmpty()
    ensures Run([]) == INIT
  {
  }

  /** Over every run: a finishing iteration records its report time exactly when it has one and it began after
      the last clear. */
  lemma RecordsIff(events: seq<Event>, id: nat, wet: Option<bool>)
    requires var s := Run(events); id < |s.ticks| && s.ticks[id].Asking?
    ensures var s := Run(events);
      var t, next := s.ticks[id], DoRead(s, id, wet);
      if t.time != 0 && ClearedUpTo(s.log) <= t.began
      then next.lastTime == Some(t.time) && next.log != [] && next.log[|next.log| - 1] == Recorded(t.time, t.listed, t.began)
      else next.lastTime == s.lastTime && forall n | |s.log| <= n < |next.log| :: !next.log[n].Recorded?
  {
    RunOk(events);
    assert TickOk(Run(events), id);
    hide Run, MemoryOk, ClearedUpTo;
  }

  // ---------- a failed reading ----------

  /** When warnMessage fails on a dry sensor's fresh report, the time is recorded all the same, and a later
      tick asks exactly if it brings a newer one. */
  lemma FailedReadingIsNotRetried(s: State, id: nat, later: nat)
    requires id < |s.ticks| && s.ticks[id].Asking? && s.ticks[id].gen == s.gen && s.ticks[id].time != 0 && !s.leak
    requires later < |s.ticks| && later != id && s.ticks[later].Fetched?
    ensures var failed := DoRead(s, id, None);
      !failed.leak && (DoBegin(failed, later).ticks[later].Asking? <==> s.ticks[later].time > s.ticks[id].time)
  {
  }

  predicate OldReport(t: Tick, time: nat) {
    !t.Asking? && (t.Fetched? ==> t.time == 0 || t.time == time)
  }

  /** Dry, the report of a time remembered, and no tick in flight that brings another. */
  predicate Settled(s: State, time: nat) {
    !s.leak && s.lastTime == Some(time) && forall id | 0 <= id < |s.ticks| :: OldReport(s.ticks[id], time)
  }

  predicate NothingNew(e: Event, time: nat) {
    !e.Clear? && (e.List? ==> e.time == 0 || e.time == time)
  }

  lemma SettledStep(s: State, e: Event, time: nat)
    requires Settled(s, time) && NothingNew(e, time)
    ensures Settled(Step(s, e), time)
    ensures |s.log| <= |Step(s, e).log| && forall n | |s.log| <= n < |Step(s, e).log| :: !Step(s, e).log[n].Asked?
    ensures Step(s, e).log[..|s.log|] == s.log
  {
  }

  /** Until the detector reports a new time, or its alert is cleared, no tick of any run asks again. */
  lemma {:induction false} NothingNewNothingAsked(events: seq<Event>, more: seq<Event>, time: nat)
    requires Settled(Run(events), time) && forall e <- more :: NothingNew(e, time)
    ensures var before, log := |Run(events).log|, Run(events + more).log;
      before <= |log| && forall n | before <= n < |log| :: !log[n].Asked?
    ensures Settled(Run(events + more), time)
  {
    hide Step, Settled;
    if more == [] {
      assert events + more == events;
    } else {
      var rest := more[..|more| - 1];
      NothingNewNothingAsked(events, rest, time);
      assert (events + more)[..|events + more| - 1] == events + rest;
      SettledStep(Run(events + rest), more[|more| - 1], time);
    }
  }

  /** A detector that was dry reports at time 7, and the one request about it fails: from there on whatever
      happens without a new report, the report of time 7 is never asked about again. */
  lemma FailedReadingRun() returns (events: seq<Event>)
    ensures Run(events).log == [Listed, Began, Asked, Recorded(7, 0, 1)] && Settled(Run(events), 7)
  {
    RunEmpty();
    hide Run;
    events := After([], List(7));
    events := After(events, Begin(0));
    events := After(events, Read(0, None));
  }
}
