/** How each control call and each deferred confirm goes on and ends, whatever else runs beside it. */
module CallCourse {
  import opened DeferredConfirm

  // ---------- a call by itself ----------

  /** Where a call stands, and whether its datagram went out. */
  datatype Course = Course(phase: CallPhase, defer: bool, sent: bool)

  /** After the LAN tier: unsent goes to the cloud; a send to a write-only device, or one whose confirm is
      deferred, ends the call; any other waits for its confirm. */
  function PastLan(c: Course, lan: LanOutcome): Course {
    match lan
    case NotSent => c.(phase := AwaitsCloud)
    case SentWriteOnly => c.(phase := Returned, sent := true)
    case Sent => c.(phase := if c.defer then Returned else AwaitsConfirm, sent := true)
  }

  function FirstCourse(defer: bool, ble: bool, lan: LanOutcome): Course {
    var c := Course(AwaitsBle, defer, false);
    if ble then c else PastLan(c, lan)
  }

  /** What an event does to call id: only its own events do anything. A BLE success and a successful inline
      confirm end it; a failed BLE attempt goes to the LAN tier, and a failed confirm to the cloud. */
  function Next(c: Course, e: Event, id: nat): Course {
    match e
    case BleDone(i, sent, lan) =>
      if i != id || !c.phase.AwaitsBle? then c
      else if sent then c.(phase := Returned)
      else PastLan(c, lan)
    case InlineConfirmDone(i, confirmed) =>
      if i != id || !c.phase.AwaitsConfirm? then c else c.(phase := if confirmed then Returned else AwaitsCloud)
    case CallCloudDone(i) => if i == id && c.phase.AwaitsCloud? then c.(phase := Returned) else c
    case AbortCall(i) => if i == id then c.(phase := Returned) else c
    case _ => c
  }

  function Courses(events: seq<Event>): seq<Course> {
    if events == [] then []
    else
      var before, e := Courses(events[..|events| - 1]), events[|events| - 1];
      if e.Issue? then before + [FirstCourse(e.defer, e.ble, e.lan)]
      else seq(|before|, id requires 0 <= id < |before| => Next(before[id], e, id))
  }

  predicate Follows(s: State, id: nat, c: Course) {
    && id < |s.calls|
    && s.calls[id].phase == c.phase && s.calls[id].defer == c.defer
    && LanSends(s.log, id) == (if c.sent then 1 else 0)
    && (c.phase.AwaitsBle? ==> !c.sent)
  }

  /** What the LAN tier does to the calls and the log. */
  lemma DispatchEffect(s: State, call: nat, lan: LanOutcome)
    requires call < |s.calls| && s.calls[call].phase.AwaitsBle?
    ensures var next, c := Dispatch(s, call, lan), Course(AwaitsBle, s.calls[call].defer, false);
      && next.calls == s.calls[call := s.calls[call].(phase := PastLan(c, lan).phase)]
      && next.log == s.log + SentBy(call, |s.tasks|, lan, c.defer)
  {
    hide Generation;
    assert s.log + [] == s.log;
    assert s.log + [LanSend(call)] + [Created(|s.tasks|)] == s.log + [LanSend(call), Created(|s.tasks|)];
  }

  function SentBy(call: nat, task: nat, lan: LanOutcome, defer: bool): seq<Entry> {
    if lan.NotSent? then []
    else if lan.Sent? && defer then [LanSend(call), Created(task)]
    else [LanSend(call)]
  }

  lemma SentByAdds(log: seq<Entry>, call: nat, task: nat, lan: LanOutcome, defer: bool, id: nat)
    ensures LanSends(log + SentBy(call, task, lan, defer), id) == LanSends(log, id) + if lan.NotSent? || call != id then 0 else 1
  {
    LanSendsAdd(log, LanSend(call), id);
    LanSendsAdd(log + [LanSend(call)], Created(task), id);
    hide LanSends;
    assert log + [] == log;
    assert log + [LanSend(call)] + [Created(task)] == log + [LanSend(call), Created(task)];
  }

  lemma PastLanSends(c: Course, lan: LanOutcome)
    requires !c.sent
    ensures var past := PastLan(c, lan);
      past.defer == c.defer && past.sent == !lan.NotSent? && !past.phase.AwaitsBle?
  {
  }

  lemma DispatchFollows(s: State, call: nat, lan: LanOutcome, id: nat, c: Course)
    requires Follows(s, id, c) && call < |s.calls| && s.calls[call].phase.AwaitsBle?
    ensures Follows(Dispatch(s, call, lan), id, if call == id then PastLan(c, lan) else c)
    ensures |Dispatch(s, call, lan).calls| == |s.calls|
  {
    DispatchEffect(s, call, lan);
    SentByAdds(s.log, call, |s.tasks|, lan, s.calls[call].defer, id);
    var next := Dispatch(s, call, lan);
    hide Dispatch, LanSends, SentBy;
    if call == id {
      assert c == Course(AwaitsBle, s.calls[id].defer, false);
      hide PastLan;
      PastLanSends(c, lan);
    } else {
      hide PastLan;
      assert next.calls[id] == s.calls[id];
    }
  }

  /** A deferred confirm's step leaves the calls alone and logs its verdict at most. */
  lemma TaskEffect(s: State, e: Event)
    requires e.TaskConfirmDone? || e.TaskCloudDone? || e.AbortTask?
    ensures Step(s, e).calls == s.calls
    ensures Step(s, e).log in {s.log, s.log + [EntersCloud(e.task)], s.log + [Superseded(e.task)]}
  {
    hide Generation;
  }

  lemma TaskFollows(s: State, e: Event, id: nat, c: Course)
    requires Follows(s, id, c) && (e.TaskConfirmDone? || e.TaskCloudDone? || e.AbortTask?)
    ensures Follows(Step(s, e), id, c) && |Step(s, e).calls| == |s.calls|
  {
    TaskEffect(s, e);
    LanSendsAdd(s.log, EntersCloud(e.task), id);
    LanSendsAdd(s.log, Superseded(e.task), id);
    hide Step, LanSends;
  }

  lemma CallFollows(s: State, e: Event, id: nat, c: Course)
    requires Follows(s, id, c) && (e.InlineConfirmDone? || e.CallCloudDone? || e.AbortCall?)
    ensures Follows(Step(s, e), id, Next(c, e, id)) && |Step(s, e).calls| == |s.calls|
  {
    hide LanSends, Generation;
  }

  lemma StepFollows(s: State, e: Event, id: nat, c: Course)
    requires Follows(s, id, c)
    ensures Follows(Step(s, e), id, Next(c, e, id))
    ensures |Step(s, e).calls| == |s.calls| + if e.Issue? then 1 else 0
  {
    hide Dispatch, DoTaskConfirm, LanSends, Generation;
    match e
    case Issue(command, defer, ble, lan) =>
      LanSendsAdd(s.log, Issued(command.device, command.kind), id);
      var issued := DoIssue(s, command, defer, true, lan);
      assert Follows(issued, id, c);
      if !ble { DispatchFollows(issued, |s.calls|, lan, id, c); }
    case BleDone(call, sent, lan) =>
      if LiveCall(s, call) && s.calls[call].phase.AwaitsBle? && !sent { DispatchFollows(s, call, lan, id, c); }
    case InlineConfirmDone(_, _) => CallFollows(s, e, id, c);
    case CallCloudDone(_) => CallFollows(s, e, id, c);
    case AbortCall(_) => CallFollows(s, e, id, c);
    case _ => TaskFollows(s, e, id, c);
  }

  lemma IssueFollows(s: State, e: Event)
    requires e.Issue? && LanSends(s.log, |s.calls|) == 0
    ensures Follows(Step(s, e), |s.calls|, FirstCourse(e.defer, e.ble, e.lan))
    ensures |Step(s, e).calls| == |s.calls| + 1
  {
    LanSendsAdd(s.log, Issued(e.command.device, e.command.kind), |s.calls|);
    hide Dispatch, LanSends, Generation;
    var issued := DoIssue(s, e.command, e.defer, true, e.lan);
    var c := Course(AwaitsBle, e.defer, false);
    assert Follows(issued, |s.calls|, c);
    if !e.ble { DispatchFollows(issued, |s.calls|, e.lan, |s.calls|, c); }
  }

  lemma CountFollows(s: State, e: Event)
    ensures |Step(s, e).calls| == |s.calls| + if e.Issue? then 1 else 0
  {
    hide Generation;
  }

  /** Over every run, each call goes its own course: how far it got, whether it sent its datagram, whether it went
      to the cloud and when it returned follow from its own events alone, however calls, deferred confirms and
      other devices' commands interleave. */
  lemma {:induction false} CallsGoTheirCourse(events: seq<Event>, id: nat)
    ensures |Run(events).calls| == |Courses(events)|
    ensures id < |Courses(events)| ==> Follows(Run(events), id, Courses(events)[id])
  {
    hide Step, Follows;
    if events != [] {
      var before, e := events[..|events| - 1], events[|events| - 1];
      CallsGoTheirCourse(before, id);
      CountFollows(Run(before), e);
      if id < |Courses(before)| {
        StepFollows(Run(before), e, id, Courses(before)[id]);
      } else if e.Issue? && id == |Courses(before)| {
        OverLanOnce(before, id);
        IssueFollows(Run(before), e);
      }
    }
  }

  // ---------- a deferred confirm ----------

  /** Over every run: a confirm over LAN that is deferred becomes one task, for the command of the call that sent
      it; nothing else makes a task. */
  lemma DefersIff(events: seq<Event>, e: Event)
    ensures var s, s', n := Run(events), Step(Run(events), e), |Run(events).tasks|;
      if e.Issue? && !e.ble && e.lan.Sent? && e.defer then |s'.tasks| == n + 1 && OfCommand(s'.tasks[n], e.command)
      else if e.BleDone? && e.call < |Courses(events)| && Courses(events)[e.call].phase.AwaitsBle?
              && !e.sent && e.lan.Sent? && Courses(events)[e.call].defer
      then e.call < |s.calls| && |s'.tasks| == n + 1 && OfCommand(s'.tasks[n], s.calls[e.call].command)
      else |s'.tasks| == n
  {
    hide Run, Generation, LanSends, Courses;
    if e.BleDone? { CallsGoTheirCourse(events, e.call); }
  }

  predicate OfCommand(t: Task, command: Command) {
    t.command == command && t.phase.Confirming?
  }

  /** What an event makes of task id, when a newer command of its kind was, or was not, issued since its
      generation was captured. */
  function NextPhase(phase: TaskPhase, e: Event, id: nat, newer: bool): TaskPhase {
    match e
    case TaskConfirmDone(i, confirmed) =>
      if i != id || !phase.Confirming? then phase
      else if confirmed then Ended(Confirmed)
      else if newer then Ended(Overtaken)
      else InCloud
    case TaskCloudDone(i) => if i == id && phase.InCloud? then Ended(FellBack) else phase
    case AbortTask(i) => if i == id && !phase.Ended? then Ended(Cut) else phase
    case _ => phase
  }

  /** Over every run: a task ends confirmed exactly when its confirm succeeds; when that fails, it ends overtaken if
      a command of its device and kind was issued since its generation was captured, and otherwise goes to the
      cloud; and only its own events move it. */
  lemma TaskGoesIff(events: seq<Event>, e: Event, id: nat)
    requires id < |Run(events).tasks|
    ensures var s, s' := Run(events), Step(Run(events), e);
      var t := s.tasks[id];
      && t.created <= |s.log| && id < |s'.tasks|
      && var newer := IssuedBetween(s.log, t.command.device, t.command.kind, t.created, |s.log|);
      s'.tasks[id] == t.(phase := NextPhase(t.phase, e, id, newer))
  {
    hide Run, Issues, IssuedBetween;
    var s := Run(events);
    var t := s.tasks[id];
    RunSound(events);
    assert TaskOk(s.log, id, t);
    assert Generation(s, t.command.device, t.command.kind) == Issues(s.log, t.command.device, t.command.kind);
    CountMoves(s.log, t.command.device, t.command.kind, t.created, |s.log|);
    assert s.log[..|s.log|] == s.log;
    hide Sound, TaskOk, Generation;
    TaskStep(s, e, id);
  }

  lemma TaskStep(s: State, e: Event, id: nat)
    requires id < |s.tasks|
    ensures var s' := Step(s, e);
      var t := s.tasks[id];
      && id < |s'.tasks|
      && s'.tasks[id] == t.(phase := NextPhase(t.phase, e, id, Generation(s, t.command.device, t.command.kind) != t.captured))
  {
    hide Dispatch, Generation;
    match e
    case Issue(command, defer, ble, lan) =>
      var issued := DoIssue(s, command, defer, true, lan);
      DispatchKeepsPhase(issued, |s.calls|, lan, id);
    case BleDone(call, sent, lan) => if call < |s.calls| { DispatchKeepsPhase(s, call, lan, id); }
    case _ =>
  }
}
