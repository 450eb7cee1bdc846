/** Overlaps that lose the power-off flag early, and a fallback over a newer command. */
module DeferredConfirmExamples {
  import opened DeferredConfirm
  import opened PowerOffFlag

  const LAMP := "lamp"
  const OFF := Command(LAMP, "power", true)
  const ON := Command(LAMP, "power", false)
  const DIM := Command(LAMP, "brightness", false)

  lemma After(events: seq<Event>, e: Event) returns (more: seq<Event>)
    ensures more == events + [e] && Run(more) == Step(Run(events), e)
  {
    more := events + [e];
    assert more[..|events|] == events;
  }

  lemma Nothing()
    ensures Run([]) == INIT
  {
  }

  /** A deferred brightness write that ends takes the flag of a power-off whose confirm is still running. */
  lemma OtherKindDropsFlag() returns (events: seq<Event>)
    ensures LAMP !in Run(events).pending && OffTaskRuns(Run(events), LAMP)
  {
    Nothing();
    hide Run;
    events := After([], Issue(OFF, true, false, Sent));
    events := After(events, Issue(DIM, true, false, Sent));
    var before := Run(events);
    events := After(events, TaskConfirmDone(1, true));
    assert before.tasks[0].command == OFF && before.tasks[1].command == DIM && before.deferred == {LAMP};
    assert OffTask(Run(events), LAMP, 0);
  }

  /** Of two overlapping power-off calls the first to return takes the flag of the other. */
  lemma FirstReturnDropsFlag() returns (events: seq<Event>)
    ensures LAMP !in Run(events).pending && OffCallRuns(Run(events), LAMP)
  {
    Nothing();
    hide Run;
    events := After([], Issue(OFF, false, false, NotSent));
    events := After(events, Issue(OFF, false, false, NotSent));
    events := After(events, CallCloudDone(0));
    assert OffCall(Run(events), LAMP, 1);
  }

  /** A power-on is issued, and finished, while a deferred power-off waits out a failing BLE attempt: the
      power-off's generation is captured after it, and its fallback turns the lamp off again. */
  lemma FallbackOverNewerCommand() returns (events: seq<Event>)
    ensures var log := Run(events).log;
      && |log| == 5
      && log[0] == Issued(LAMP, "power") && log[1] == Issued(LAMP, "power") && log[4] == EntersCloud(0)
      && |Run(events).tasks| == 1 && Run(events).tasks[0].command == OFF && CapturedLate(Run(events).tasks[0])
  {
    Nothing();
    hide Run;
    events := After([], Issue(OFF, true, true, NotSent));
    events := After(events, Issue(ON, false, false, NotSent));
    events := After(events, CallCloudDone(1));
    events := After(events, BleDone(0, false, Sent));
    var before := Run(events);
    assert before.log == [Issued(LAMP, "power"), Issued(LAMP, "power"), LanSend(0), Created(0)];
    assert before.tasks[0].captured == 2 == Generation(before, LAMP, "power");
    events := After(events, TaskConfirmDone(0, false));
  }
}
