/** Who owns the power-off-pending flag, over every overlap of calls and deferred confirms (coordinator.py). */
module PowerOffFlag {
  import opened DeferredConfirm

  predicate LiveCallOf(s: State, d: DeviceId, id: nat) {
    LiveCall(s, id) && s.calls[id].command.device == d
  }

  predicate LiveTaskOf(s: State, d: DeviceId, id: nat) {
    LiveTask(s, id) && s.tasks[id].command.device == d
  }

  predicate OffCall(s: State, d: DeviceId, id: nat) {
    LiveCallOf(s, d, id) && s.calls[id].command.powerOff
  }

  predicate OffTask(s: State, d: DeviceId, id: nat) {
    LiveTaskOf(s, d, id) && s.tasks[id].command.powerOff
  }

  ghost predicate OffCallRuns(s: State, d: DeviceId) {
    exists id :: OffCall(s, d, id)
  }

  ghost predicate OffTaskRuns(s: State, d: DeviceId) {
    exists id :: OffTask(s, d, id)
  }

  /** A pending flag has a live power-off call or a deferred owner; a deferred owner is a live power-off task. */
  ghost predicate FlagOk(s: State, d: DeviceId) {
    && (d in s.pending ==> OffCallRuns(s, d) || d in s.deferred)
    && (d in s.deferred ==> OffTaskRuns(s, d))
  }

  // ---------- the primitive changes ----------

  lemma SetCallFlag(s: State, id: nat, phase: CallPhase, d: DeviceId)
    requires FlagOk(s, d) && LiveCall(s, id) && !phase.Returned?
    ensures FlagOk(SetCall(s, id, phase), d)
  {
    var next := SetCall(s, id, phase);
    assert forall n: nat :: OffCall(s, d, n) ==> OffCall(next, d, n);
    assert forall n: nat :: OffTask(s, d, n) ==> OffTask(next, d, n);
  }

  lemma EndCallFlag(s: State, id: nat, d: DeviceId)
    requires FlagOk(s, d) && LiveCall(s, id)
    ensures FlagOk(EndCall(s, id), d)
  {
    var next := EndCall(s, id);
    assert forall n: nat | n != id :: OffCall(s, d, n) ==> OffCall(next, d, n);
    assert forall n: nat :: OffTask(s, d, n) ==> OffTask(next, d, n);
    if d in next.pending && !OffCallRuns(next, d) {
      var n :| OffCall(s, d, n) || d in s.deferred;
      assert OffCall(s, d, n) ==> n == id;
    }
  }

  lemma CreateFlag(s: State, id: nat, d: DeviceId)
    requires FlagOk(s, d) && LiveCall(s, id)
    ensures FlagOk(CreateTask(s, id), d)
  {
    hide Generation;
    var next := CreateTask(s, id);
    assert forall n: nat :: OffCall(s, d, n) ==> OffCall(next, d, n);
    assert forall n: nat :: OffTask(s, d, n) ==> OffTask(next, d, n);
    assert s.calls[id].command.powerOff && s.calls[id].command.device == d ==> OffTask(next, d, |s.tasks|);
  }

  lemma LogFlag(s: State, entry: Entry, d: DeviceId)
    requires FlagOk(s, d)
    ensures FlagOk(s.(log := s.log + [entry]), d)
  {
    var next := s.(log := s.log + [entry]);
    assert forall n: nat :: OffCall(s, d, n) ==> OffCall(next, d, n);
    assert forall n: nat :: OffTask(s, d, n) ==> OffTask(next, d, n);
  }

  lemma DispatchFlag(s: State, id: nat, lan: LanOutcome, d: DeviceId)
    requires FlagOk(s, d) && LiveCall(s, id)
    ensures FlagOk(Dispatch(s, id, lan), d)
  {
    hide FlagOk, CreateTask, EndCall, SetCall;
    if lan.NotSent? {
      SetCallFlag(s, id, AwaitsCloud, d);
    } else {
      var sent := s.(log := s.log + [LanSend(id)]);
      LogFlag(s, LanSend(id), d);
      if lan.SentWriteOnly? {
        EndCallFlag(sent, id, d);
      } else if s.calls[id].defer {
        CreateFlag(sent, id, d);
        CreateKeepsCalls(sent, id);
        EndCallFlag(CreateTask(sent, id), id, d);
      } else {
        SetCallFlag(sent, id, AwaitsConfirm, d);
      }
    }
  }

  lemma IssueFlag(s: State, command: Command, defer: bool, d: DeviceId)
    requires FlagOk(s, d)
    ensures FlagOk(DoIssue(s, command, defer, true, NotSent), d)
  {
    hide Generation;
    var next := DoIssue(s, command, defer, true, NotSent);
    assert forall n: nat :: OffCall(s, d, n) ==> OffCall(next, d, n);
    assert forall n: nat :: OffTask(s, d, n) ==> OffTask(next, d, n);
    assert command.powerOff && command.device == d ==> OffCall(next, d, |s.calls|);
  }

  lemma TaskFlag(s: State, e: Event, d: DeviceId)
    requires FlagOk(s, d) && (e.TaskConfirmDone? || e.TaskCloudDone? || e.AbortTask?)
    ensures FlagOk(Step(s, e), d)
  {
    hide Generation;
    var next := Step(s, e);
    var id := e.task;
    assert forall n: nat :: OffCall(s, d, n) ==> OffCall(next, d, n);
    assert forall n: nat | n != id :: OffTask(s, d, n) ==> OffTask(next, d, n);
    assert d in next.deferred && OffTask(s, d, id) ==> OffTask(next, d, id);
  }

  lemma StepFlag(s: State, e: Event, d: DeviceId)
    requires FlagOk(s, d)
    ensures FlagOk(Step(s, e), d)
  {
    hide FlagOk, Dispatch, DoTaskConfirm, EndCall, SetCall, EndTask;
    match e
    case Issue(command, defer, ble, lan) =>
      IssueFlag(s, command, defer, d);
      if !ble { DispatchFlag(DoIssue(s, command, defer, true, lan), |s.calls|, lan, d); }
    case BleDone(id, sent, lan) =>
      if LiveCall(s, id) && s.calls[id].phase.AwaitsBle? {
        if sent { EndCallFlag(s, id, d); } else { DispatchFlag(s, id, lan, d); }
      }
    case InlineConfirmDone(id, confirmed) =>
      if LiveCall(s, id) && s.calls[id].phase.AwaitsConfirm? {
        if confirmed { EndCallFlag(s, id, d); } else { SetCallFlag(s, id, AwaitsCloud, d); }
      }
    case CallCloudDone(id) => if LiveCall(s, id) && s.calls[id].phase.AwaitsCloud? { EndCallFlag(s, id, d); }
    case AbortCall(id) => if LiveCall(s, id) { EndCallFlag(s, id, d); }
    case _ => TaskFlag(s, e, d);
  }

  lemma {:induction false} FlagNeverLeaks(events: seq<Event>, d: DeviceId)
    ensures FlagOk(Run(events), d)
  {
    hide Step;
    if events != [] {
      FlagNeverLeaks(events[..|events| - 1], d);
      StepFlag(Run(events[..|events| - 1]), events[|events| - 1], d);
    }
  }

  /** Over every run and overlap: when no power-off of a device runs any more, as a call or as a deferred
      confirm, both sets are clear of the device. */
  lemma ClearWhenAllEnded(events: seq<Event>, d: DeviceId)
    requires !OffCallRuns(Run(events), d) && !OffTaskRuns(Run(events), d)
    ensures d !in Run(events).pending && d !in Run(events).deferred
  {
    FlagNeverLeaks(events, d);
  }

  // ---------- when the flag goes ----------

  /** A power-off call of d returns in this step. */
  predicate OffCallEnds(s: State, next: State, d: DeviceId, id: nat) {
    && id < |next.calls| && next.calls[id].phase.Returned? && (id < |s.calls| ==> LiveCall(s, id))
    && next.calls[id].command.device == d && next.calls[id].command.powerOff
  }

  /** A deferred confirm of d, of whatever kind, ends in this step. */
  predicate TaskEnds(s: State, next: State, d: DeviceId, id: nat) {
    LiveTaskOf(s, d, id) && id < |next.tasks| && next.tasks[id].phase.Ended?
  }

  ghost predicate Drops(s: State, next: State, d: DeviceId) {
    || (d !in next.deferred && exists id :: OffCallEnds(s, next, d, id))
    || (d in s.deferred && exists id :: TaskEnds(s, next, d, id))
  }

  predicate FlagGoes(s: State, next: State, d: DeviceId) {
    d in s.pending && d !in next.pending
  }

  lemma EndCallDrops(s: State, base: State, id: nat, d: DeviceId)
    requires LiveCall(base, id) && (id < |s.calls| ==> LiveCall(s, id))
    requires |s.tasks| <= |base.tasks|
    requires |base.calls| == |s.calls| || (|base.calls| == |s.calls| + 1 && id == |s.calls|)
    requires forall n | 0 <= n < |s.calls| && n != id :: base.calls[n] == s.calls[n]
    requires forall n | 0 <= n < |s.tasks| :: base.tasks[n] == s.tasks[n]
    requires d in s.pending ==> d in base.pending
    requires base.calls[id].command.powerOff && base.calls[id].command.device == d ==> d in base.pending
    ensures d in s.pending ==> (FlagGoes(s, EndCall(base, id), d) <==> Drops(s, EndCall(base, id), d))
  {
    var next := EndCall(base, id);
    assert OffCallEnds(s, next, d, id) <==> base.calls[id].command.powerOff && base.calls[id].command.device == d;
    forall n: nat | n != id ensures !OffCallEnds(s, next, d, n) {
      if n < |s.calls| { assert next.calls[n] == base.calls[n] == s.calls[n]; }
    }
    assert forall n: nat :: !TaskEnds(s, next, d, n);
  }

  lemma NoCallEnds(s: State, next: State, d: DeviceId)
    requires |s.calls| <= |next.calls| && |s.tasks| <= |next.tasks| && next.pending >= s.pending
    requires forall n | 0 <= n < |next.calls| :: next.calls[n].phase.Returned? ==> n < |s.calls| && s.calls[n].phase.Returned?
    requires forall n | 0 <= n < |s.tasks| :: next.tasks[n] == s.tasks[n]
    ensures !FlagGoes(s, next, d) && !Drops(s, next, d)
  {
    assert forall n: nat :: !OffCallEnds(s, next, d, n);
    assert forall n: nat :: !TaskEnds(s, next, d, n);
  }

  /** A dispatch started in this very step, from a state that already holds the call. */
  lemma DispatchDrops(s: State, base: State, id: nat, lan: LanOutcome, d: DeviceId)
    requires LiveCall(base, id) && base.tasks == s.tasks
    requires base == s || (id == |s.calls| && |base.calls| == id + 1 && (forall n | 0 <= n < id :: base.calls[n] == s.calls[n]) && base.pending >= s.pending
                           && base.deferred == s.deferred)
    requires base.calls[id].command.powerOff ==> base.calls[id].command.device in base.pending || base == s
    requires d in s.pending
    ensures FlagGoes(s, Dispatch(base, id, lan), d) <==> Drops(s, Dispatch(base, id, lan), d)
  {
    hide Generation, Drops, FlagGoes;
    if lan.NotSent? {
      NoCallEnds(s, Dispatch(base, id, lan), d);
    } else {
      var sent := base.(log := base.log + [LanSend(id)]);
      if lan.SentWriteOnly? {
        EndCallDrops(s, sent, id, d);
      } else if base.calls[id].defer {
        EndCallDrops(s, CreateTask(sent, id), id, d);
      } else {
        NoCallEnds(s, Dispatch(base, id, lan), d);
      }
    }
  }

  lemma TaskStepDrops(s: State, e: Event, d: DeviceId)
    requires e.TaskConfirmDone? || e.TaskCloudDone? || e.AbortTask?
    requires d in s.pending
    ensures FlagGoes(s, Step(s, e), d) <==> Drops(s, Step(s, e), d)
  {
    hide Generation;
    var next, id := Step(s, e), e.task;
    assert forall n: nat :: !OffCallEnds(s, next, d, n);
    assert forall n: nat | n != id :: !TaskEnds(s, next, d, n);
    assert TaskEnds(s, next, d, id) || next == s || next.pending == s.pending || s.tasks[id].command.device != d;
  }

  /** A pending flag goes in a step exactly when a power-off call of the device returns with no deferred owner,
      or any deferred confirm of the device ends while it is marked deferred. */
  lemma FlagGoesExactly(s: State, e: Event, d: DeviceId)
    requires d in s.pending
    ensures FlagGoes(s, Step(s, e), d) <==> Drops(s, Step(s, e), d)
  {
    hide Dispatch, DoTaskConfirm, EndCall, EndTask, Drops, FlagGoes, Generation;
    match e
    case Issue(command, defer, ble, lan) =>
      var issued := DoIssue(s, command, defer, true, lan);
      if ble { NoCallEnds(s, issued, d); } else { DispatchDrops(s, issued, |s.calls|, lan, d); }
    case BleDone(id, sent, lan) =>
      if LiveCall(s, id) && s.calls[id].phase.AwaitsBle? {
        if sent { EndCallDrops(s, s, id, d); } else { DispatchDrops(s, s, id, lan, d); }
      } else { NoCallEnds(s, s, d); }
    case InlineConfirmDone(id, confirmed) =>
      if LiveCall(s, id) && s.calls[id].phase.AwaitsConfirm? && confirmed { EndCallDrops(s, s, id, d); }
      else { NoCallEnds(s, Step(s, e), d); }
    case CallCloudDone(id) =>
      if LiveCall(s, id) && s.calls[id].phase.AwaitsCloud? { EndCallDrops(s, s, id, d); } else { NoCallEnds(s, s, d); }
    case AbortCall(id) => if LiveCall(s, id) { EndCallDrops(s, s, id, d); } else { NoCallEnds(s, s, d); }
    case _ => TaskStepDrops(s, e, d);
  }

  // ---------- one command at a time ----------

  ghost predicate Busy(s: State, d: DeviceId) {
    (exists id :: LiveCallOf(s, d, id)) || (exists id :: LiveTaskOf(s, d, id))
  }

  /** At most one call or deferred confirm of d runs, and a power-off among them has the flag up. */
  ghost predicate Solo(s: State, d: DeviceId) {
    && (forall i, j | LiveCallOf(s, d, i) && LiveCallOf(s, d, j) :: i == j)
    && (forall i, j | LiveTaskOf(s, d, i) && LiveTaskOf(s, d, j) :: i == j)
    && (forall i, j | LiveCallOf(s, d, i) && LiveTaskOf(s, d, j) :: false)
    && (forall i | OffCall(s, d, i) :: d in s.pending)
    && (forall i | OffTask(s, d, i) :: d in s.pending && d in s.deferred)
  }

  /** Whether a command for d is issued only when nothing of d runs. */
  ghost predicate WaitsItsTurn(s: State, e: Event, d: DeviceId) {
    e.Issue? && e.command.device == d ==> !Busy(s, d)
  }

  lemma IdleIsSolo(s: State, d: DeviceId)
    requires !Busy(s, d)
    ensures Solo(s, d)
  {
  }

  /** Nothing about d changes, except perhaps how far its one call or task has got. */
  lemma SoloAside(s: State, next: State, d: DeviceId)
    requires Solo(s, d)
    requires forall n: nat :: LiveCallOf(next, d, n) ==> LiveCallOf(s, d, n) && next.calls[n].command == s.calls[n].command
    requires forall n: nat :: LiveTaskOf(next, d, n) ==> LiveTaskOf(s, d, n) && next.tasks[n].command == s.tasks[n].command
    requires (d in next.pending <==> d in s.pending) && (d in next.deferred <==> d in s.deferred)
    ensures Solo(next, d)
  {
    assert forall n: nat :: OffCall(next, d, n) ==> OffCall(s, d, n);
    assert forall n: nat :: OffTask(next, d, n) ==> OffTask(s, d, n);
  }

  lemma EndCallSolo(s: State, id: nat, d: DeviceId)
    requires Solo(s, d) && LiveCall(s, id)
    ensures Solo(EndCall(s, id), d)
    ensures s.calls[id].command.device == d ==> !Busy(EndCall(s, id), d)
  {
    var next := EndCall(s, id);
    forall n: nat ensures LiveCallOf(next, d, n) <==> LiveCallOf(s, d, n) && n != id {
    }
    forall n: nat ensures LiveTaskOf(next, d, n) <==> LiveTaskOf(s, d, n) {
    }
    if s.calls[id].command.device == d {
      assert LiveCallOf(s, d, id);
      IdleIsSolo(next, d);
    } else {
      SoloAside(s, next, d);
    }
  }

  lemma HandOverSolo(s: State, id: nat, d: DeviceId)
    requires Solo(s, d) && LiveCall(s, id)
    ensures Solo(EndCall(CreateTask(s, id), id), d)
  {
    hide Generation;
    var next := EndCall(CreateTask(s, id), id);
    forall n: nat ensures LiveCallOf(next, d, n) <==> LiveCallOf(s, d, n) && n != id {
    }
    forall n: nat | n != |s.tasks| ensures LiveTaskOf(next, d, n) <==> LiveTaskOf(s, d, n) {
    }
    if s.calls[id].command.device == d {
      assert LiveCallOf(s, d, id);
      assert OffCall(s, d, id) <==> s.calls[id].command.powerOff;
    } else {
      SoloAside(s, next, d);
    }
  }

  lemma SetCallSolo(s: State, id: nat, phase: CallPhase, d: DeviceId)
    requires Solo(s, d) && LiveCall(s, id)
    ensures Solo(SetCall(s, id, phase), d)
  {
    var next := SetCall(s, id, phase);
    forall n: nat | LiveCallOf(next, d, n) ensures LiveCallOf(s, d, n) && next.calls[n].command == s.calls[n].command {
    }
    forall n: nat ensures LiveTaskOf(next, d, n) <==> LiveTaskOf(s, d, n) {
    }
    SoloAside(s, next, d);
  }

  lemma LogSolo(s: State, entry: Entry, d: DeviceId)
    requires Solo(s, d)
    ensures Solo(s.(log := s.log + [entry]), d)
  {
    var next := s.(log := s.log + [entry]);
    assert forall n: nat :: LiveCallOf(next, d, n) ==> LiveCallOf(s, d, n);
    assert forall n: nat :: LiveTaskOf(next, d, n) ==> LiveTaskOf(s, d, n);
    SoloAside(s, next, d);
  }

  lemma DispatchSolo(s: State, id: nat, lan: LanOutcome, d: DeviceId)
    requires Solo(s, d) && LiveCall(s, id)
    ensures Solo(Dispatch(s, id, lan), d)
  {
    hide Solo, CreateTask, EndCall, SetCall;
    if lan.NotSent? {
      SetCallSolo(s, id, AwaitsCloud, d);
    } else {
      var sent := s.(log := s.log + [LanSend(id)]);
      LogSolo(s, LanSend(id), d);
      if lan.SentWriteOnly? { EndCallSolo(sent, id, d); }
      else if s.calls[id].defer { HandOverSolo(sent, id, d); }
      else { SetCallSolo(sent, id, AwaitsConfirm, d); }
    }
  }

  lemma IssueSolo(s: State, command: Command, defer: bool, d: DeviceId)
    requires Solo(s, d) && (command.device == d ==> !Busy(s, d))
    ensures Solo(DoIssue(s, command, defer, true, NotSent), d)
  {
    hide Generation;
    var next := DoIssue(s, command, defer, true, NotSent);
    forall n: nat | n != |s.calls| ensures LiveCallOf(next, d, n) <==> LiveCallOf(s, d, n) {
    }
    forall n: nat ensures LiveTaskOf(next, d, n) <==> LiveTaskOf(s, d, n) {
    }
    if command.device != d { SoloAside(s, next, d); }
  }

  lemma EndTaskSolo(s: State, id: nat, outcome: Outcome, d: DeviceId)
    requires Solo(s, d) && LiveTask(s, id)
    ensures Solo(EndTask(s, id, outcome), d)
  {
    var next := EndTask(s, id, outcome);
    forall n: nat ensures LiveCallOf(next, d, n) <==> LiveCallOf(s, d, n) {
    }
    forall n: nat ensures LiveTaskOf(next, d, n) <==> LiveTaskOf(s, d, n) && n != id {
    }
    if s.tasks[id].command.device == d {
      assert LiveTaskOf(s, d, id);
      hide Solo;
      IdleIsSolo(next, d);
    } else {
      hide Solo, EndTask;
      EndTaskAside(s, id, outcome, d);
      SoloAside(s, next, d);
    }
  }

  lemma EndTaskAside(s: State, id: nat, outcome: Outcome, d: DeviceId)
    requires LiveTask(s, id) && s.tasks[id].command.device != d
    ensures var next := EndTask(s, id, outcome);
      && next.calls == s.calls && |next.tasks| == |s.tasks|
      && (forall n | 0 <= n < |s.tasks| :: next.tasks[n].command == s.tasks[n].command)
      && (d in next.pending <==> d in s.pending) && (d in next.deferred <==> d in s.deferred)
  {
  }

  lemma SetTaskSolo(s: State, id: nat, phase: TaskPhase, d: DeviceId)
    requires Solo(s, d) && LiveTask(s, id)
    ensures Solo(SetTask(s, id, phase), d)
  {
    var next := SetTask(s, id, phase);
    forall n: nat ensures LiveCallOf(next, d, n) <==> LiveCallOf(s, d, n) {
    }
    forall n: nat | LiveTaskOf(next, d, n) ensures LiveTaskOf(s, d, n) && next.tasks[n].command == s.tasks[n].command {
    }
    hide Solo;
    SoloAside(s, next, d);
  }

  lemma TaskSolo(s: State, e: Event, d: DeviceId)
    requires Solo(s, d) && (e.TaskConfirmDone? || e.TaskCloudDone? || e.AbortTask?)
    ensures Solo(Step(s, e), d)
  {
    hide Generation, Solo, EndTask, SetTask;
    var id := e.task;
    if LiveTask(s, id) {
      if e.TaskConfirmDone? {
        EndTaskSolo(s, id, Confirmed, d);
        LogSolo(s, Superseded(id), d);
        LogSolo(s, EntersCloud(id), d);
        EndTaskSolo(s.(log := s.log + [Superseded(id)]), id, Overtaken, d);
        SetTaskSolo(s.(log := s.log + [EntersCloud(id)]), id, InCloud, d);
      } else {
        EndTaskSolo(s, id, FellBack, d);
        EndTaskSolo(s, id, Cut, d);
      }
    }
  }

  lemma StepSolo(s: State, e: Event, d: DeviceId)
    requires Solo(s, d) && WaitsItsTurn(s, e, d)
    ensures Solo(Step(s, e), d)
  {
    hide Solo, Busy, Dispatch, DoTaskConfirm, EndCall, SetCall, EndTask;
    match e
    case Issue(command, defer, ble, lan) =>
      IssueSolo(s, command, defer, d);
      if !ble { DispatchSolo(DoIssue(s, command, defer, true, lan), |s.calls|, lan, d); }
    case BleDone(id, sent, lan) =>
      if LiveCall(s, id) && s.calls[id].phase.AwaitsBle? {
        if sent { EndCallSolo(s, id, d); } else { DispatchSolo(s, id, lan, d); }
      }
    case InlineConfirmDone(id, confirmed) =>
      if LiveCall(s, id) && s.calls[id].phase.AwaitsConfirm? {
        if confirmed { EndCallSolo(s, id, d); } else { SetCallSolo(s, id, AwaitsCloud, d); }
      }
    case CallCloudDone(id) => if LiveCall(s, id) && s.calls[id].phase.AwaitsCloud? { EndCallSolo(s, id, d); }
    case AbortCall(id) => if LiveCall(s, id) { EndCallSolo(s, id, d); }
    case _ => TaskSolo(s, e, d);
  }

  ghost predicate OneAtATime(events: seq<Event>, d: DeviceId) {
    events != [] ==>
      && OneAtATime(events[..|events| - 1], d)
      && WaitsItsTurn(Run(events[..|events| - 1]), events[|events| - 1], d)
  }

  /** If commands for a device are issued one at a time, each after the last and its deferred confirm have
      ended, the flag is up exactly while a power-off of the device runs. */
  lemma {:induction false} FlagIsExactWhenAlone(events: seq<Event>, d: DeviceId)
    requires OneAtATime(events, d)
    ensures Solo(Run(events), d)
    ensures d in Run(events).pending <==> OffCallRuns(Run(events), d) || OffTaskRuns(Run(events), d)
  {
    hide Step, Busy;
    FlagNeverLeaks(events, d);
    if events != [] {
      hide Solo, FlagOk;
      FlagIsExactWhenAlone(events[..|events| - 1], d);
      StepSolo(Run(events[..|events| - 1]), events[|events| - 1], d);
    }
    SoloFlag(Run(events), d);
  }

  lemma SoloFlag(s: State, d: DeviceId)
    requires Solo(s, d) && FlagOk(s, d)
    ensures d in s.pending <==> OffCallRuns(s, d) || OffTaskRuns(s, d)
  {
  }
}
