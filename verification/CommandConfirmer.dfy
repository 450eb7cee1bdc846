/** CommandConfirmer with its fields, updated in place; each method is one step of the machine. */
module CommandConfirmerClass {
  import opened ConfirmValues
  import opened CommandConfirm

  /** The confirms after only the fields in `names` of a report were passed on. */
  function Hearing(s: State, device: DeviceId, values: map<Field, Value>, names: seq<Field>): seq<Pending>
    requires WellFormed(s)
  {
    seq(|s.confirms|, p requires 0 <= p < |s.confirms| =>
      var c := s.confirms[p];
      if c.device == device && c.field in values && c.field in names && Listening(s, p)
      then c.(reported := values[c.field], hasReport := true, eventSet := true)
      else c)
  }

  lemma HearOne(s: State, device: DeviceId, values: map<Field, Value>, names: seq<Field>, f: Field)
    requires WellFormed(s) && f !in names
    ensures var before, after := Hearing(s, device, values, names), Hearing(s, device, values, names + [f]);
      if f in values && (device, f) in s.table then
        var p := s.tasks[s.table[(device, f)]].confirm;
        after == before[p := before[p].(reported := values[f], hasReport := true, eventSet := true)]
      else after == before
  {
  }

  lemma HearAll(s: State, device: DeviceId, values: map<Field, Value>)
    requires WellFormed(s)
    ensures Hearing(s, device, values, [Power, Brightness, Color, ColorTemp]) == DoReport(s, device, values).confirms
    ensures Hearing(s, device, values, []) == s.confirms
  {
    var names := [Power, Brightness, Color, ColorTemp];
    assert names[0] == Power && names[1] == Brightness && names[2] == Color && names[3] == ColorTemp;
    forall f: Field ensures f in names {
      match f case Power => case Brightness => case Color => case ColorTemp =>
    }
  }

  lemma DropNone(s: State)
    requires WellFormed(s)
    ensures DropKeys(s, {}) == s
  {
    assert DropKeys(s, {}).tasks == s.tasks;
  }

  lemma DropOneMore(s: State, keys: set<Key>, key: Key)
    requires WellFormed(s) && key in s.table && key !in keys
    ensures CancelKey(DropKeys(s, keys), key, false) == DropKeys(s, keys + {key})
  {
    assert CancelKey(DropKeys(s, keys), key, false).tasks == DropKeys(s, keys + {key}).tasks;
    assert s.table - keys - {key} == s.table - (keys + {key});
  }

  class CommandConfirmer {
    const config: Config
    var pending: map<Key, nat>
    var confirms: seq<Pending>
    var tasks: seq<Task>
    var counters: map<(DeviceId, Counter), nat>
    ghost var log: seq<Entry>

    ghost function View(): State
      reads this
    {
      State(pending, confirms, tasks, counters, log)
    }

    ghost predicate Valid()
      reads this
    {
      WellFormed(View())
    }

    constructor (window: real, queryWait: real)
      ensures Valid() && View() == INIT && config == Config(window, queryWait)
    {
      config := Config(window, queryWait);
      pending, confirms, tasks, counters, log := map[], [], [], map[], [];
    }

    method CountOne(device: DeviceId, c: Counter)
      modifies this`counters
      ensures View() == Count(old(View()), device, c)
    {
      var before := if (device, c) in counters then counters[(device, c)] else 0;
      counters := counters[(device, c) := before + 1];
    }

    /** _cancel */
    method Cancel(key: Key, count: bool)
      requires Valid()
      modifies this
      ensures View() == CancelKey(old(View()), key, count)
      ensures Valid()
    {
      if key !in pending {
        return;
      }
      var t := pending[key];
      pending := pending - {key};
      tasks := tasks[t := tasks[t].(phase := CancelledPhase(tasks[t].phase),
                                    outcome := if count then Counted(Superseded) else Dropped)];
      if count {
        CountOne(key.0, Superseded);
      }
    }

    /** prepare: the number of the new PendingConfirm, or None. */
    method Prepare(device: DeviceId, command: Command, view: CommandConfirm.View) returns (p: Option<nat>)
      requires Valid()
      modifies this
      ensures View() == DoPrepare(old(View()), device, command, view)
      ensures Valid()
      ensures p.Some? <==> Snapshot(device, command, view).Some?
      ensures p.Some? ==> p.value == |old(confirms)| < |confirms| && Snapshot(device, command, view) == Some(confirms[p.value])
    {
      p := None;
      var found := CommandField(command);
      if found.None? {
        return;
      }
      var fields := SupersedesInOrder(found.value.0);
      var i := 0;
      while i < |fields|
        invariant 0 <= i <= |fields|
        invariant Valid() && confirms == old(confirms)
        invariant CancelFields(View(), device, fields[i..]) == CancelFields(old(View()), device, fields)
      {
        Cancel((device, fields[i]), true);
        i := i + 1;
      }
      var snapshot := Snapshot(device, command, view);
      if snapshot.Some? {
        p := Some(|confirms|);
        confirms := confirms + [snapshot.value];
      }
      log := log + [Prepared(device, found.value.0, p)];
    }

    /** start */
    method Start(p: Option<nat>)
      requires Valid() && (p.Some? ==> p.value < |confirms|)
      modifies this
      ensures View() == if p.Some? then DoStart(old(View()), p.value) else old(View())
      ensures Valid()
    {
      if p.None? {
        return;
      }
      hide CancelKey;
      var key := confirms[p.value].Key();
      Cancel(key, true);
      log := log + [Started(|tasks|)];
      pending := pending[key := |tasks|];
      tasks := tasks + [Task(p.value, key, Created, Open)];
    }

    /** on_report: each reported field reaches the PendingConfirm in the table under it, if any. */
    method OnReport(device: DeviceId, data: Push)
      requires Valid()
      modifies this
      ensures View() == DoReport(old(View()), device, ReportValues(data))
      ensures Valid()
    {
      var values := ReportValues(data);
      HearAll(View(), device, values);
      var names := [Power, Brightness, Color, ColorTemp];
      var i := 0;
      while i < |names|
        invariant 0 <= i <= |names|
        invariant pending == old(pending) && tasks == old(tasks) && counters == old(counters) && log == old(log)
        invariant confirms == Hearing(old(View()), device, values, names[..i])
      {
        var key := (device, names[i]);
        HearOne(old(View()), device, values, names[..i], names[i]);
        assert names[..i + 1] == names[..i] + [names[i]];
        if names[i] in values && key in pending {
          var p := tasks[pending[key]].confirm;
          confirms := confirms[p := confirms[p].(reported := values[names[i]], hasReport := true, eventSet := true)];
        }
        i := i + 1;
      }
      HearAll(old(View()), device, values);
      log := log + [Reported(device, values)];
    }

    /** cancel_all */
    method CancelAll()
      requires Valid()
      modifies this
      ensures View() == DropAll(old(View()))
      ensures Valid()
    {
      var keys := pending.Keys;
      DropNone(View());
      while keys != {}
        invariant Valid() && keys <= old(pending).Keys
        invariant View() == DropKeys(old(View()), old(pending).Keys - keys)
        decreases keys
      {
        hide CancelKey;
        var key :| key in keys;
        DropOneMore(old(View()), old(pending).Keys - keys, key);
        assert old(pending).Keys - keys + {key} == old(pending).Keys - (keys - {key});
        Cancel(key, false);
        keys := keys - {key};
      }
    }

    // ---------- _async_confirm and _settle, from one await to the next ----------

    /** The finally block. */
    method Cleanup(t: nat)
      requires Valid() && t < |tasks|
      modifies this
      ensures View() == Release(old(View()), t)
      ensures Valid()
    {
      var key := tasks[t].key;
      if key in pending && tasks[pending[key]].confirm == tasks[t].confirm {
        var u := pending[key];
        pending := pending - {key};
        if tasks[u].phase.Finished? && tasks[u].outcome.Open? {
          tasks := tasks[u := tasks[u].(outcome := Dropped)];
        }
      }
    }

    method Conclude(t: nat, outcome: Outcome)
      requires Valid() && t < |tasks|
      modifies this
      ensures View() == Finish(old(View()), t, outcome)
      ensures Valid()
    {
      hide Release;
      var device := tasks[t].key.0;
      tasks := tasks[t := tasks[t].(phase := Finished, outcome := outcome)];
      if outcome.Counted? {
        CountOne(device, outcome.counter);
      }
      Cleanup(t);
    }

    method Settle(t: nat, budget: Answer)
      requires Valid() && t < |tasks|
      modifies this
      ensures View() == CommandConfirm.Settle(old(View()), t, budget)
      ensures Valid()
    {
      hide Finish;
      var c := confirms[tasks[t].confirm];
      if !c.hasReport {
        Conclude(t, Counted(Unverified));
        return;
      }
      if Matches(c.reported, c.wanted) {
        Conclude(t, Counted(Confirmed));
        return;
      }
      if !Matches(c.reported, c.previous) {
        Conclude(t, Counted(Unverified));
        return;
      }
      if budget.Raised? {
        Conclude(t, Dropped);
        return;
      }
      if budget.No? {
        Conclude(t, Counted(SkippedBudget));
        return;
      }
      tasks := tasks[t := tasks[t].(phase := Resending)];
      log := log + [SentAgain(t, c.reported)];
    }

    /** A new task runs until its first await. */
    method BeginTask(t: nat, budget: Answer)
      requires Valid() && t < |tasks| && tasks[t].phase.Created?
      modifies this
      ensures View() == Step(config, old(View()), Begin(t, budget))
      ensures Valid()
    {
      hide CommandConfirm.AfterFirstWait;
      if config.FirstWaitSeconds() <= 0.0 || confirms[tasks[t].confirm].eventSet {
        AfterFirstWait(t, budget);
      } else {
        tasks := tasks[t := tasks[t].(phase := FirstWait)];
      }
    }

    method AfterFirstWait(t: nat, budget: Answer)
      requires Valid() && t < |tasks|
      modifies this
      ensures View() == CommandConfirm.AfterFirstWait(config, old(View()), t, budget)
      ensures Valid()
    {
      hide CommandConfirm.AfterQuery, CommandConfirm.Settle;
      var c := confirms[tasks[t].confirm];
      if c.hasReport && Matches(c.reported, c.wanted) {
        Settle(t, budget);
      } else if !c.hasReport {
        tasks := tasks[t := tasks[t].(phase := Querying)];
        log := log + [Queried(t)];
      } else {
        AfterQuery(t, budget);
      }
    }

    method AfterQuery(t: nat, budget: Answer)
      requires Valid() && t < |tasks|
      modifies this
      ensures View() == CommandConfirm.AfterQuery(config, old(View()), t, budget)
      ensures Valid()
    {
      hide CommandConfirm.Settle;
      var p := tasks[t].confirm;
      confirms := confirms[p := confirms[p].(eventSet := false)];
      if config.window - config.FirstWaitSeconds() <= 0.0 {
        Settle(t, budget);
      } else {
        tasks := tasks[t := tasks[t].(phase := SecondWait)];
      }
    }
  }
}
