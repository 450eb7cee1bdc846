/** What a water detector shows and asks, read off the log of any interleaving of ticks and clears. */
module LeakReadings {
  import opened LeakClear

  // ---------- reading the log ----------

  /** The leak state as last written by a reading or a clear. */
  predicate Shown(log: seq<Entry>) {
    log != [] &&
      match log[|log| - 1]
      case Wrote(wet, _) => wet
      case Cleared => false
      case _ => Shown(log[..|log| - 1])
  }

  /** The report time last recorded since the last clear. */
  function KnownTime(log: seq<Entry>): Option<nat> {
    if log == [] then None
    else match log[|log| - 1]
      case Recorded(time, _, _) => Some(time)
      case Cleared => None
      case _ => KnownTime(log[..|log| - 1])
  }

  predicate ShownAfter(before: bool, entry: Entry) {
    match entry
    case Wrote(wet, _) => wet
    case Cleared => false
    case _ => before
  }

  function KnownAfter(before: Option<nat>, entry: Entry): Option<nat> {
    match entry
    case Recorded(time, _, _) => Some(time)
    case Cleared => None
    case _ => before
  }

  lemma ReadAppend(log: seq<Entry>, entry: Entry)
    ensures Shown(log + [entry]) == ShownAfter(Shown(log), entry)
    ensures KnownTime(log + [entry]) == KnownAfter(KnownTime(log), entry)
  {
    assert (log + [entry])[..|log|] == log;
  }

  /** The detector's fields are what the log says. */
  predicate Faithful(s: State) {
    s.leak == Shown(s.log) && s.lastTime == KnownTime(s.log)
  }

  lemma RememberFaithful(s: State, gen: nat, time: nat, listed: nat, began: nat)
    requires Faithful(s)
    ensures Faithful(Remember(s, gen, time, listed, began))
  {
    ReadAppend(s.log, Recorded(time, listed, began));
  }

  lemma BeginFaithful(s: State, id: nat)
    requires Faithful(s) && id < |s.ticks| && s.ticks[id].Fetched?
    ensures Faithful(DoBegin(s, id))
  {
    var t := s.ticks[id];
    ReadAppend(s.log, Began);
    ReadAppend(s.log + [Began], Asked);
    assert s.log + [Began, Asked] == s.log + [Began] + [Asked];
    hide Shown, KnownTime, Remember;
    RememberFaithful(s.(log := s.log + [Began], ticks := s.ticks[id := Done]), s.gen, t.time, t.listed, |s.log|);
  }

  lemma ReadFaithful(s: State, id: nat, wet: Option<bool>)
    requires Faithful(s) && id < |s.ticks| && s.ticks[id].Asking?
    ensures Faithful(DoRead(s, id, wet))
  {
    var t, isWet := s.ticks[id], if wet.Some? then wet.value else s.leak;
    ReadAppend(s.log, Wrote(isWet, t.asked));
    hide Shown, KnownTime, Remember;
    var ended := s.(ticks := s.ticks[id := Done]);
    RememberFaithful(ended, t.gen, t.time, t.listed, t.began);
    RememberFaithful(ended.(leak := isWet, log := s.log + [Wrote(isWet, t.asked)]), t.gen, t.time, t.listed, t.began);
  }

  lemma StepFaithful(s: State, e: Event)
    requires Faithful(s)
    ensures Faithful(Step(s, e))
  {
    ReadAppend(s.log, Listed);
    ReadAppend(s.log, Cleared);
    hide DoBegin, DoRead, Shown, KnownTime;
    match e
    case Begin(id) => if id < |s.ticks| && s.ticks[id].Fetched? { BeginFaithful(s, id); }
    case Read(id, wet) => if id < |s.ticks| && s.ticks[id].Asking? { ReadFaithful(s, id, wet); }
    case _ =>
  }

  /** Over every run: the detector shows the value of the last reading or clear that was logged, dry before the
      first, and remembers the report time last recorded since the last clear. */
  lemma {:induction false} ShowsTheLog(events: seq<Event>)
    ensures Run(events).leak == Shown(Run(events).log)
    ensures Run(events).lastTime == KnownTime(Run(events).log)
  {
    hide Step;
    if events != [] {
      ShowsTheLog(events[..|events| - 1]);
      StepFaithful(Run(events[..|events| - 1]), events[|events| - 1]);
    }
  }

  // ---------- a reading takes effect ----------

  /** Over every run: a reading that finishes an iteration begun after the last clear is what the detector shows
      from then on; a failed one, or one of an iteration begun before the clear, leaves what it shows. */
  lemma ReadingIff(events: seq<Event>, id: nat, wet: Option<bool>)
    requires var s := Run(events); id < |s.ticks| && s.ticks[id].Asking?
    ensures var s := Run(events);
      var next := Step(s, Read(id, wet));
      && next.leak == (if wet.Some? && ClearedUpTo(s.log) <= s.ticks[id].began then wet.value else Shown(s.log))
      && next.leak == Shown(next.log)
      && next.ticks[id].Done?
  {
    RunOk(events);
    ShowsTheLog(events);
    StepFaithful(Run(events), Read(id, wet));
    assert TickOk(Run(events), id);
    hide Run, MemoryOk, ClearedUpTo, Shown, KnownTime;
  }

  /** Over every run: an iteration asks warnMessage exactly when its listing brings a report later than the one
      remembered since the last clear, or the detector shows wet; one that does not ask remembers its report
      time at once, if it has one. */
  lemma AsksIff(events: seq<Event>, id: nat)
    requires var s := Run(events); id < |s.ticks| && s.ticks[id].Fetched?
    ensures var s := Run(events);
      var t, known := s.ticks[id], KnownTime(s.log);
      var next := Step(s, Begin(id));
      var asks := Shown(s.log) || t.time > if known.Some? then known.value else 0;
      && (asks ==> next.log == s.log + [Began, Asked])
      && (asks ==> next.ticks[id] == Asking(t.listed, t.time, s.gen, |s.log|, |s.log| + 1))
      && (!asks ==> next.ticks[id].Done?)
      && (!asks && t.time == 0 ==> next.log == s.log + [Began])
      && (!asks && t.time != 0 ==> next.log == s.log + [Began] + [Recorded(t.time, t.listed, |s.log|)])
  {
    ShowsTheLog(events);
    hide Run, Shown, KnownTime;
  }
}
