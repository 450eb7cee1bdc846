/** The coordinator's status-query fields, updated in place; each method is one step of the machine. */
module StatusQueryCoordinator {
  import opened StatusQueries

  class Coordinator {
    var sweep: Sweep
    var lock: Lock
    var inFlight: Option<DeviceId>
    var connected: bool
    var strikes: map<DeviceId, nat>
    var quarantine: set<DeviceId>
    var unansweredSkus: set<string>
    var refused: bool
    var requestLast: map<DeviceId, real>
    ghost var log: seq<Entry>

    /** The state at a moment of the monotonic clock. */
    ghost function View(now: real): State
      reads this
    {
      State(sweep, lock, inFlight, connected, strikes, quarantine, unansweredSkus, refused, requestLast, now, log)
    }

    constructor ()
      ensures View(0.0) == INIT
    {
      sweep, lock, inFlight, connected := Idle, Free, None, false;
      strikes, quarantine, unansweredSkus, refused, requestLast, log := map[], {}, {}, false, map[], [];
    }

    /** _mqtt_status_poll_targets over the devices that have a topic and an allowed SKU. */
    method PollTargets(devices: seq<DeviceId>) returns (targets: seq<DeviceId>)
      ensures targets == Targets(devices, quarantine)
    {
      targets := [];
      var i := |devices|;
      while i > 0
        invariant 0 <= i <= |devices|
        invariant targets == Targets(devices[i..], quarantine)
      {
        i := i - 1;
        if devices[i] !in quarantine {
          targets := [devices[i]] + targets;
        }
      }
    }

    /** _poll_mqtt_status up to its loop. */
    method StartSweepTask(devices: seq<DeviceId>, pollEnabled: bool, ghost now: real)
      requires Distinct(devices)
      modifies this`sweep, this`log
      ensures View(now) == Step(old(View(now)), StartSweep(devices, pollEnabled))
    {
      if !pollEnabled || refused || !connected || !sweep.Idle? {
        return;
      }
      var targets := PollTargets(devices);
      sweep := AtHead(targets);
      log := log + [SweepStarted(targets)];
    }

    /** The head of the sweep's loop, up to the wait for the lock. */
    method NextTarget(hasTopic: bool, ghost now: real)
      requires sweep.AtHead?
      modifies this`sweep, this`log
      ensures View(now) == Step(old(View(now)), SweepHead(hasTopic))
    {
      if sweep.rest == [] || !connected {
        sweep := Idle;
      } else if !hasTopic {
        log := log + [Passed(sweep.rest[0])];
        sweep := AtHead(sweep.rest[1..]);
      } else {
        sweep := AwaitingLock(sweep.rest[0], sweep.rest[1..]);
      }
    }

    /** The sweep gets the lock and publishes. */
    method SweepPublish(ghost now: real)
      requires sweep.AwaitingLock? && lock.Free?
      modifies this
      ensures View(now) == Step(old(View(now)), SweepAcquire)
    {
      lock := HeldBySweep;
      inFlight := Some(sweep.device);
      log := log + [QuerySent(sweep.device, true, now)];
      sweep := InQuery(sweep.rest);
    }

    method CloseWindow(raised: bool, ghost now: real)
      modifies this
      ensures View(now) == Release(old(View(now)), raised)
    {
      if !raised && connected {
        unansweredSkus := {};
      }
      log := log + [WindowClosed(!raised && connected)];
      inFlight := None;
      lock := Free;
    }

    method SweepFinishQuery(raised: bool, ghost now: real)
      requires sweep.InQuery?
      modifies this
      ensures View(now) == Step(old(View(now)), SweepQueryDone(raised))
    {
      CloseWindow(raised, now);
      sweep := if raised then Idle else AtHead(sweep.rest);
    }

    /** async_request_status once it holds the lock: whether a query is sent. */
    method RequestStatus(device: DeviceId, otherwisePossible: bool, now: real) returns (sent: bool)
      requires lock.Free?
      modifies this
      ensures View(now) == Step(old(View(now)), RequestAcquire(device, otherwisePossible))
      ensures sent <==> old(Possible(View(now), device, otherwisePossible) && !Throttled(View(now), device))
    {
      if !(connected && otherwisePossible && device !in quarantine && !refused) {
        return false;
      }
      if device in requestLast && now - requestLast[device] < MIN_INTERVAL {
        return false;
      }
      requestLast := requestLast[device := now];
      lock, inFlight := HeldByRequest(device), Some(device);
      log := log + [QuerySent(device, false, now)];
      return true;
    }

    /** _on_mqtt_disconnected */
    method OnDisconnected(sku: string, ghost now: real)
      modifies this
      ensures View(now) == Step(old(View(now)), Drop(sku))
    {
      connected := false;
      Blame(sku, now);
    }

    /** _blame_status_query_for_drop */
    method Blame(sku: string, ghost now: real)
      modifies this
      ensures View(now) == StatusQueries.Blame(old(View(now)), sku)
    {
      if inFlight.None? {
        return;
      }
      var device := inFlight.value;
      inFlight := None;
      var count := (if device in strikes then strikes[device] else 0) + 1;
      strikes := strikes[device := count];
      unansweredSkus := unansweredSkus + {sku};
      log := log + [Struck(device, sku)];
      if |unansweredSkus| >= ACCOUNT_REFUSAL_SKUS {
        if !refused {
          refused := true;
          log := log + [Refused];
        }
        return;
      }
      if count < QUARANTINE_STRIKES {
        return;
      }
      quarantine := quarantine + {device};
      log := log + [Quarantined(device)];
    }
  }
}
