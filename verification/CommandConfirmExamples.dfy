/** Runs of the confirm-and-resend machine that show where its promises stop. */
module CommandConfirmExamples {
  import opened ConfirmValues
  import opened CommandConfirm
  import opened CommandConfirmResend
  import opened CommandConfirmOrder

  const CFG := Config(6.0, 1.5)
  const BRIGHT := View(Some(Device(false, true, false)), true, Some(DeviceState(true, 100, None, None)))
  const KEY := ("lamp", Brightness)
  const TEN := Pending("lamp", BrightnessCommand(10), Brightness, Level(10), Level(100), Missing, false, false)
  const FIFTY := Pending("lamp", BrightnessCommand(50), Brightness, Level(50), Level(100), Missing, false, false)
  const HEARD := TEN.(reported := Level(100), hasReport := true)
  const HUNDRED := Push(Absent, Number(100), Absent, Absent)

  // Brightness 10 is prepared, then brightness 50. The second is sent first; when the first is sent
  // too, its confirm replaces the newer one, and 10 is sent again over 50.

  const L2 := [Prepared("lamp", Brightness, Some(0)), Prepared("lamp", Brightness, Some(1))]
  const L4 := L2 + [Started(0), Started(1)]
  const L6 := L4 + [Reported("lamp", map[Brightness := Level(100)])]

  const OLD_TASK := Task(1, KEY, Finished, Counted(Superseded))
  const COUNTS := map[("lamp", Superseded) := 1]

  const S1 := State(map[], [TEN], [], map[], L2[..1])
  const S2 := State(map[], [TEN, FIFTY], [], map[], L2)
  const S3 := State(map[KEY := 0], [TEN, FIFTY], [Task(1, KEY, Created, Open)], map[], L4[..3])
  const S4 := State(map[KEY := 1], [TEN, FIFTY], [OLD_TASK, Task(0, KEY, Created, Open)], COUNTS, L4)
  const S5 := S4.(tasks := [OLD_TASK, Task(0, KEY, FirstWait, Open)])
  const S6 := S5.(confirms := [HEARD.(eventSet := true), FIFTY], log := L6)
  const S7 := S6.(confirms := [HEARD, FIFTY], tasks := [OLD_TASK, Task(0, KEY, SecondWait, Open)])
  const S8 := S7.(tasks := [OLD_TASK, Task(0, KEY, Resending, Open)], log := L6 + [SentAgain(1, Level(100))])

  const EVENTS := [
    Prepare("lamp", BrightnessCommand(10), BRIGHT), Prepare("lamp", BrightnessCommand(50), BRIGHT),
    Start(1), Start(0), Begin(1, Yes), Report("lamp", HUNDRED), Wake(1, Yes), Wake(1, Yes)]

  lemma NothingToCancel(s: State)
    requires WellFormed(s) && s.table == map[]
    ensures CancelFields(s, "lamp", [Brightness]) == s
  {
  }

  lemma PreparesOlder()
    ensures Step(CFG, INIT, EVENTS[0]) == S1
  {
    hide CancelFields;
    NothingToCancel(INIT);
  }

  lemma PreparesNewer()
    ensures Step(CFG, S1, EVENTS[1]) == S2
  {
    hide CancelFields;
    NothingToCancel(S1);
    assert L2[..1] + [L2[1]] == L2;
  }

  lemma StartsNewer()
    ensures Step(CFG, S2, EVENTS[2]) == S3
  {
    assert L2 + [Started(0)] == L4[..3];
  }

  lemma StartsOlder()
    ensures Step(CFG, S3, EVENTS[3]) == S4
  {
    assert S4.table == (S3.table - {KEY})[KEY := 1];
    assert L4[..3] + [Started(1)] == L4;
  }

  lemma Waits()
    ensures Step(CFG, S4, EVENTS[4]) == S5
  {
  }

  lemma HearsOldValue()
    ensures Step(CFG, S5, EVENTS[5]) == S6
  {
    assert ReportValues(HUNDRED) == map[Brightness := Level(100)];
  }

  lemma WaitsAgain()
    ensures Step(CFG, S6, EVENTS[6]) == S7
  {
  }

  lemma Resends()
    ensures Step(CFG, S7, EVENTS[7]) == S8
  {
  }

  lemma RunNext(events: seq<Event>, n: nat)
    requires n < |events|
    ensures Run(CFG, events[..n + 1]) == Step(CFG, Run(CFG, events[..n]), events[n])
    ensures StartsOnce(CFG, events[..n]) && (events[n].Start? ==> Unstarted(Run(CFG, events[..n]), events[n].confirm))
      ==> StartsOnce(CFG, events[..n + 1])
  {
    assert events[..n + 1][..n] == events[..n];
  }

  lemma RunToS4()
    ensures Run(CFG, EVENTS[..4]) == S4 && StartsOnce(CFG, EVENTS[..4])
  {
    hide Step;
    PreparesOlder();
    PreparesNewer();
    StartsNewer();
    StartsOlder();
    RunNext(EVENTS, 0);
    RunNext(EVENTS, 1);
    RunNext(EVENTS, 2);
    RunNext(EVENTS, 3);
  }

  lemma RunToS8()
    ensures Run(CFG, EVENTS) == S8 && StartsOnce(CFG, EVENTS)
  {
    hide Step, Run, StartsOnce;
    RunToS4();
    Waits();
    HearsOldValue();
    WaitsAgain();
    Resends();
    RunNext(EVENTS, 4);
    RunNext(EVENTS, 5);
    RunNext(EVENTS, 6);
    RunNext(EVENTS, 7);
    assert EVENTS[..8] == EVENTS;
  }

  /** A stale resend is reachable: the older command goes out again although the newer one was
      prepared after it. */
  lemma StaleResendExample()
    ensures StartsOnce(CFG, EVENTS)
    ensures var s := Run(CFG, EVENTS);
      && s.log == L6 + [SentAgain(1, Level(100))]
      && |s.tasks| == 2 && s.tasks[1].confirm == 0 && |s.confirms| == 2 && s.confirms[0].command == BrightnessCommand(10)
      && Outdated(L6, 0, KEY)
  {
    hide Step, Run, StartsOnce;
    RunToS8();
    assert L6[..4] == L4 && L4[..3][..2] == L2 && L4[..3] == L2 + [Started(0)];
    assert Outdated(L2, 0, KEY);
    assert Outdated(L4[..3], 0, KEY);
    assert Outdated(L4, 0, KEY);
  }

  /** The finally block of task t removes the entry of another task exactly when that task confirms
      the same PendingConfirm, started a second time. */
  lemma CleanupEvictsIff(s: State, t: nat, u: nat)
    requires WellFormed(s) && t < |s.tasks| && u < |s.tasks| && t != u && InTable(s, u)
    ensures InTable(Release(s, t), u) <==> s.tasks[t].confirm != s.tasks[u].confirm
  {
    assert s.tasks[t].confirm == s.tasks[u].confirm ==> s.tasks[t].key == s.tasks[u].key;
  }
}
