/** The coordinator's watchdog fields, updated in place; each method is a step between awaits (coordinator.py). */
module SilentSessionWatchdogClass {
  import opened Watchdog

  class SilentSessionWatchdog {
    // The MQTT client, as far as the watchdog looks at it.
    var present: bool
    var connected: bool
    var inboundTotal: nat

    var inboundAtConnect: nat
    var queriesSinceConnect: nat
    var missedPushesSinceConnect: nat
    var silenceTimer: bool
    var silentReconnected: bool
    var silentReported: bool
    var silenceHandling: bool
    ghost var bodies: seq<Body>
    ghost var log: seq<Entry>

    ghost function View(): State
      reads this
    {
      State(present, connected, inboundTotal, inboundAtConnect, queriesSinceConnect, missedPushesSinceConnect,
            silenceTimer, silentReconnected, silentReported, silenceHandling, bodies, log)
    }

    constructor ()
      ensures View() == INIT
    {
      present, connected, inboundTotal, inboundAtConnect := true, false, 0, 0;
      queriesSinceConnect, missedPushesSinceConnect, silenceTimer := 0, 0, false;
      silentReconnected, silentReported, silenceHandling := false, false, false;
      bodies, log := [], [];
    }

    /** _arm_mqtt_silence_check, from the client's connected callback. */
    method ArmSilenceCheck()
      requires present
      modifies this
      ensures View() == Step(old(View()), SessionStarts)
    {
      connected := true;
      queriesSinceConnect := 0;
      missedPushesSinceConnect := 0;
      inboundAtConnect := inboundTotal;
      silenceTimer := true;
      log := log + [SessionUp];
    }

    /** _note_mqtt_inbound */
    method NoteInbound()
      modifies this
      ensures View() == DoNote(old(View()))
    {
      silentReconnected := false;
      if silentReported {
        silentReported := false;
      }
      log := log + [Evidence];
    }

    /** A message on the account topic; some are filtered before the coordinator hears of them. */
    method OnMessage(handled: bool)
      modifies this
      ensures View() == Step(old(View()), Inbound(handled))
    {
      inboundTotal := inboundTotal + 1;
      log := log + [Message];
      if handled {
        NoteInbound();
      }
    }

    /** _async_handle_silent_session up to its first await; stops says whether it goes on to stop the client. */
    method HandleSilentSession() returns (stops: bool)
      modifies this
      ensures View() == DoHandle(old(View()))
      ensures stops <==> |bodies| > old(|bodies|)
    {
      if silenceHandling {
        return false;
      }
      silenceHandling := true;
      if !present {
        silenceHandling := false;
        return false;
      }
      if !silentReconnected {
        silentReconnected := true;
        bodies := bodies + [Stopping];
        log := log + [Reconnected];
        return true;
      }
      if !silentReported {
        silentReported := true;
        log := log + [Repaired];
      }
      silenceHandling := false;
      return false;
    }

    /** _async_check_mqtt_silence */
    method CheckSilence() returns (stops: bool)
      requires silenceTimer
      modifies this
      ensures View() == Step(old(View()), TimerFires)
      ensures stops <==> |bodies| > old(|bodies|)
    {
      silenceTimer := false;
      stops := false;
      if !present || !connected {
        return;
      }
      if inboundTotal > inboundAtConnect {
        NoteInbound();
        return;
      }
      if queriesSinceConnect >= SILENT_MIN_QUERIES {
        stops := HandleSilentSession();
      } else if missedPushesSinceConnect >= SILENT_MIN_MISSED_PUSHES {
        stops := HandleSilentSession();
      }
    }

    /** _async_check_missed_pushes; longEnough: the session is at least as old as the check's delay. */
    method CheckMissedPushes(longEnough: bool) returns (stops: bool)
      modifies this
      ensures View() == Step(old(View()), BffRefresh(longEnough))
      ensures stops <==> |bodies| > old(|bodies|)
    {
      stops := false;
      if missedPushesSinceConnect < SILENT_MIN_MISSED_PUSHES {
        return;
      }
      if !present || !connected || inboundTotal > inboundAtConnect {
        return;
      }
      if !longEnough {
        return;
      }
      stops := HandleSilentSession();
    }

    /** _note_bff_push_evidence, for a reading newer than the last one seen and than the session. */
    method NotePushEvidence()
      modifies this
      ensures View() == Step(old(View()), CloudReading)
    {
      if !present || !connected || inboundTotal > inboundAtConnect {
        return;
      }
      missedPushesSinceConnect := missedPushesSinceConnect + 1;
      log := log + [Missed];
    }

    /** The handler's end, after the client has been started again. */
    method HandlingDone(ghost id: nat)
      requires Running(View(), id) && bodies[id].Starting?
      modifies this
      ensures View() == Step(old(View()), StartDone(id))
    {
      silenceHandling := false;
      bodies := bodies[id := Ended];
    }
  }
}
