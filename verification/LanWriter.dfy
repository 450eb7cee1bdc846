/** The LAN write path of the coordinator, working on its LAN fields in place (coordinator.py, lan_confirm.py). */
module LanWriterClass {
  import opened LanWrites
  import T = LanTier
  import M = LanDeviceMapClass
  import R = LanReadback

  function ReplyOf(command: R.Command, reply: T.Option<R.DevStatus>, range: R.Range): Reply {
    if reply.None? then NoReply
    else if R.Confirmed(command, reply.value, range) then Match
    else Mismatch
  }

  datatype Attempted = NotSent | Delivered | AwaitsConfirm(sentAt: real)

  class LanWriter {
    const lan: M.LanDeviceMap
    var writeOnly: set<T.DeviceId>
    ghost var tasks: seq<Task>
    ghost var log: seq<Entry>

    ghost function View(now: real): State
      reads this, lan
    {
      State.State(lan.View(), writeOnly, now, tasks, log)
    }

    constructor (lan: M.LanDeviceMap, writeOnly: set<T.DeviceId>)
      ensures this.lan == lan
      ensures View(0.0) == State.State(lan.View(), writeOnly, 0.0, [], [])
    {
      this.lan, this.writeOnly := lan, writeOnly;
      tasks, log := [], [];
    }

    /** _try_lan_command up to the confirm: the gates in their order, then the datagram. */
    method TryLanCommand(a: Attempt, now: real) returns (result: Attempted)
      modifies this, lan
      ensures View(now) == DoTry(old(View(now)), a)
      ensures result.AwaitsConfirm? <==> |tasks| == old(|tasks|) + 1
      ensures result.AwaitsConfirm? ==> result.sentAt == now == tasks[|tasks| - 1].sentAt
      ensures result.Delivered? ==> a.device in writeOnly
    {
      if !a.clientUp {
        return NotSent;
      }
      if a.isGroup {
        return NotSent;
      }
      if a.device !in lan.lanDevices {
        return NotSent;
      }
      if a.device !in writeOnly {
        if !a.healthy {
          return NotSent;
        }
      }
      var suppressed := lan.LanWritesSuppressed(a.device, now);
      if suppressed {
        return NotSent;
      }
      if !a.mapped {
        return NotSent;
      }
      if !a.sendOk {
        log := log + [TransportFailure(a.device)];
        return NotSent;
      }
      log := log + [Sent(a.device, now)];
      if a.device in writeOnly {
        log := log + [TransportSend(a.device)];
        log := log + [TransportSuccess(a.device)];
        return Delivered;
      }
      tasks := tasks + [Task(a.device, a.lag, now, NotStarted)];
      return AwaitsConfirm(now);
    }

    /** async_settle: how long the confirm waits before it reads. */
    method AsyncSettle(lag: Seconds, sentAt: real, now: real) returns (delay: real)
      ensures delay == Settle(lag, T.Some(sentAt), now)
    {
      delay := lag;
      delay := delay - (now - sentAt);
      if delay <= 0.0 {
        return 0.0;
      }
    }

    /** _async_confirm_lan_write up to its settle; goesOn is false when the client is gone. */
    method BeginConfirm(ghost id: nat, clientUp: bool, lag: Seconds, sentAt: real, now: real)
      returns (goesOn: bool, delay: real)
      requires id < |tasks| && tasks[id].lag == lag && tasks[id].sentAt == sentAt
      modifies `tasks
      ensures View(now) == DoStart(old(View(now)), id, clientUp)
      ensures goesOn == clientUp && (goesOn ==> delay == Settle(lag, T.Some(sentAt), now))
    {
      if !clientUp {
        tasks := tasks[id := tasks[id].(phase := Ended)];
        return false, 0.0;
      }
      delay := AsyncSettle(lag, sentAt, now);
      tasks := tasks[id := tasks[id].(phase := if delay == 0.0 then Reading else Settling(now + delay))];
      return true, delay;
    }

    /** _async_confirm_lan_write, from the reply on. */
    method ConfirmLanWrite(ghost id: nat, d: T.DeviceId, lag: Seconds, sentAt: real, now: real,
                           command: R.Command, reply: T.Option<R.DevStatus>, range: R.Range)
      returns (confirmed: bool)
      requires id < |tasks| && tasks[id].device == d && tasks[id].lag == lag && tasks[id].sentAt == sentAt
      modifies this, lan
      ensures View(now) == DoReadBack(old(View(now)), id, ReplyOf(command, reply, range))
      ensures confirmed <==> ReplyOf(command, reply, range).Match?
    {
      tasks := tasks[id := tasks[id].(phase := Ended)];
      if reply.None? {
        if CountsAsMiss(lag, now - sentAt) {
          lan.NoteLanWriteMiss(d, now);
        }
        return false;
      }
      if !R.Confirmed(command, reply.value, range) {
        log := log + [TransportSuccess(d)];
        if CountsAsMiss(lag, now - sentAt) {
          lan.NoteLanWriteMiss(d, now);
        }
        return false;
      }
      log := log + [TransportSend(d)];
      log := log + [TransportSuccess(d)];
      lan.ClearLanWriteMisses(d);
      return true;
    }
  }
}
