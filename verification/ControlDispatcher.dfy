/** The coordinator's generations and power-off sets, updated in place by a control call and its deferred confirm (coordinator.py). */
module ControlDispatcherClass {
  import opened DeferredConfirm

  class ControlDispatcher {
    var commandGeneration: map<(DeviceId, Kind), nat>
    var pendingPowerOff: set<DeviceId>
    var deferredPowerOff: set<DeviceId>
    ghost var calls: seq<Call>
    ghost var tasks: seq<Task>
    ghost var log: seq<Entry>

    ghost function View(): State
      reads this
    {
      State.State(commandGeneration, pendingPowerOff, deferredPowerOff, calls, tasks, log)
    }

    constructor ()
      ensures View() == INIT
    {
      commandGeneration, pendingPowerOff, deferredPowerOff := map[], {}, {};
      calls, tasks, log := [], [], [];
    }

    function GenerationOf(d: DeviceId, k: Kind): nat
      reads this
    {
      if (d, k) in commandGeneration then commandGeneration[(d, k)] else 0
    }

    /** _async_control_device up to its first tier: mark a power-off, then stamp the generation. */
    method BeginControl(command: Command, ghost defer: bool)
      modifies this
      ensures View() == DoIssue(old(View()), command, defer, true, NotSent)
    {
      if command.powerOff {
        pendingPowerOff := pendingPowerOff + {command.device};
      }
      var stamp := GenerationOf(command.device, command.kind) + 1;
      commandGeneration := commandGeneration[(command.device, command.kind) := stamp];
      calls := calls + [Call(command, defer, stamp, |log|, AwaitsBle)];
      log := log + [Issued(command.device, command.kind)];
    }

    /** The finally of _async_control_device. */
    method EndControl(command: Command, ghost id: nat)
      requires id < |calls| && calls[id].command == command
      modifies this
      ensures View() == EndCall(old(View()), id)
    {
      calls := calls[id := calls[id].(phase := Returned)];
      if command.powerOff && command.device !in deferredPowerOff {
        pendingPowerOff := pendingPowerOff - {command.device};
      }
    }

    /** The end of _try_lan_command when the caller deferred the confirm: hand the flag over, capture the
        generation, start the background confirm. */
    method StartDeferredConfirm(command: Command, ghost id: nat) returns (captured: nat)
      requires id < |calls| && calls[id].command == command
      modifies this
      ensures View() == CreateTask(old(View()), id)
      ensures captured == tasks[|tasks| - 1].captured
    {
      if command.powerOff {
        deferredPowerOff := deferredPowerOff + {command.device};
      }
      captured := GenerationOf(command.device, command.kind);
      tasks := tasks + [Task(command, calls[id].stamp, calls[id].issued, captured, |log|, Confirming)];
      log := log + [Created(|tasks| - 1)];
    }

    /** The LAN tier's outcome and what the call does next; done says the call has returned. */
    method AfterLan(command: Command, defer: bool, lan: LanOutcome, ghost id: nat) returns (done: bool)
      requires id < |calls| && calls[id].command == command && calls[id].defer == defer
      modifies this
      ensures View() == Dispatch(old(View()), id, lan)
      ensures done <==> calls[id].phase.Returned?
    {
      if lan.NotSent? {
        calls := calls[id := calls[id].(phase := AwaitsCloud)];
        return false;
      }
      log := log + [LanSend(id)];
      if lan.SentWriteOnly? {
        EndControl(command, id);
        return true;
      }
      if defer {
        var captured := StartDeferredConfirm(command, id);
        EndControl(command, id);
        return true;
      }
      calls := calls[id := calls[id].(phase := AwaitsConfirm)];
      return false;
    }

    /** The finally of _async_confirm_lan_write_deferred. */
    method EndDeferred(device: DeviceId, ghost id: nat, ghost outcome: Outcome)
      requires id < |tasks| && tasks[id].command.device == device
      modifies this
      ensures View() == EndTask(old(View()), id, outcome)
    {
      tasks := tasks[id := tasks[id].(phase := Ended(outcome))];
      if device in deferredPowerOff {
        deferredPowerOff := deferredPowerOff - {device};
        pendingPowerOff := pendingPowerOff - {device};
      }
    }

    /** _async_confirm_lan_write_deferred after its confirm; fallsBack says the cloud tier is next. */
    method AfterConfirm(command: Command, captured: nat, confirmed: bool, ghost id: nat) returns (fallsBack: bool)
      requires id < |tasks| && tasks[id].command == command && tasks[id].captured == captured
      modifies this
      ensures View() == DoTaskConfirm(old(View()), id, confirmed)
      ensures fallsBack <==> tasks[id].phase.InCloud?
    {
      if confirmed {
        EndDeferred(command.device, id, Confirmed);
        return false;
      }
      if GenerationOf(command.device, command.kind) != captured {
        log := log + [Superseded(id)];
        EndDeferred(command.device, id, Overtaken);
        return false;
      }
      log := log + [EntersCloud(id)];
      tasks := tasks[id := tasks[id].(phase := InCloud)];
      return true;
    }
  }
}
