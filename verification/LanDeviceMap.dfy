/** The coordinator's LAN fields and the methods that update them in place (coordinator.py). */
module LanDeviceMapClass {
  import opened LanTier

  class LanDeviceMap {
    var lanDevices: map<DeviceId, Info>
    var lanReadMisses: map<DeviceId, nat>
    var lanWriteMisses: map<DeviceId, nat>
    var lanWriteSuppressedUntil: map<DeviceId, real>
    var rescanRequested: bool

    function View(): State
      reads this
    {
      State(lanDevices, lanReadMisses, lanWriteMisses, lanWriteSuppressedUntil)
    }

    constructor ()
      ensures View() == INIT && !rescanRequested
    {
      lanDevices, lanReadMisses, lanWriteMisses, lanWriteSuppressedUntil := map[], map[], map[], map[];
      rescanRequested := false;
    }

    // ---------- write suppression ----------

    /** _note_lan_write_miss */
    method NoteLanWriteMiss(d: DeviceId, now: real)
      modifies `lanWriteMisses, `lanWriteSuppressedUntil
      ensures View() == NoteMiss(old(View()), d, now)
    {
      var misses := (if d in lanWriteMisses then lanWriteMisses[d] else 0) + 1;
      lanWriteMisses := lanWriteMisses[d := misses];
      if misses >= WRITE_SUPPRESS_THRESHOLD {
        lanWriteSuppressedUntil := lanWriteSuppressedUntil[d := now + WRITE_SUPPRESS_SECONDS];
      }
    }

    /** _clear_lan_write_misses */
    method ClearLanWriteMisses(d: DeviceId)
      modifies `lanWriteMisses, `lanWriteSuppressedUntil
      ensures View() == ClearMisses(old(View()), d)
    {
      lanWriteMisses := lanWriteMisses - {d};
      lanWriteSuppressedUntil := lanWriteSuppressedUntil - {d};
    }

    /** _lan_writes_suppressed */
    method LanWritesSuppressed(d: DeviceId, now: real) returns (suppressed: bool)
      modifies `lanWriteMisses, `lanWriteSuppressedUntil
      ensures View() == DoCheck(old(View()), d, now)
      ensures suppressed <==> Suppressed(old(View()), d, now)
    {
      if d !in lanWriteSuppressedUntil {
        return false;
      }
      if now >= lanWriteSuppressedUntil[d] {
        ClearLanWriteMisses(d);
        return false;
      }
      return true;
    }

    // ---------- correlation ----------

    /** Pop everything counted about a device. */
    method PopCounters(d: DeviceId)
      modifies `lanReadMisses, `lanWriteMisses, `lanWriteSuppressedUntil
      ensures lanReadMisses == old(lanReadMisses) - {d}
      ensures lanWriteMisses == old(lanWriteMisses) - {d}
      ensures lanWriteSuppressedUntil == old(lanWriteSuppressedUntil) - {d}
    {
      lanReadMisses := lanReadMisses - {d};
      lanWriteMisses := lanWriteMisses - {d};
      lanWriteSuppressedUntil := lanWriteSuppressedUntil - {d};
    }

    /** _merge_lan_correlation: walk the old map, then lay the fresh correlation over what is kept. */
    method MergeLanCorrelation(matched: map<DeviceId, Info>)
      modifies `lanDevices, `lanReadMisses, `lanWriteMisses, `lanWriteSuppressedUntil
      ensures View() == DoMerge(old(View()), matched)
    {
      ghost var s := View();
      var rebuilt := WalkOldMap(matched);
      KeptAll(s, matched);
      LayOver(rebuilt, matched);
    }

    /** The second half: the fresh correlation is authoritative and resets the read misses. */
    method LayOver(kept: map<DeviceId, Info>, matched: map<DeviceId, Info>)
      modifies `lanDevices, `lanReadMisses
      ensures lanDevices == kept + matched
      ensures lanReadMisses == old(lanReadMisses) + map d | d in matched :: 0
    {
      hide Laid, Zeroed;
      var rebuilt := kept;
      ghost var misses := lanReadMisses;
      var left := matched.Keys;
      LaidNone(kept, misses, matched);
      while left != {}
        invariant left <= matched.Keys
        invariant rebuilt == Laid(kept, matched, left)
        invariant lanReadMisses == Zeroed(misses, matched, left)
        decreases |left|
      {
        var d :| d in left;
        LaidOneMore(kept, misses, matched, left, d);
        left := left - {d};
        rebuilt := rebuilt[d := matched[d]];
        lanReadMisses := lanReadMisses[d := 0];
      }
      LaidAll(kept, misses, matched);
      lanDevices := rebuilt;
    }

    /** The first half: keep what was correlated before, unless a different device now holds its address. */
    method WalkOldMap(matched: map<DeviceId, Info>) returns (rebuilt: map<DeviceId, Info>)
      modifies `lanReadMisses, `lanWriteMisses, `lanWriteSuppressedUntil
      ensures rebuilt == KeptOf(old(View()), matched, lanDevices.Keys)
      ensures lanReadMisses == old(lanReadMisses) - GoneOf(old(View()), matched, lanDevices.Keys)
      ensures lanWriteMisses == old(lanWriteMisses) - GoneOf(old(View()), matched, lanDevices.Keys)
      ensures lanWriteSuppressedUntil == old(lanWriteSuppressedUntil) - GoneOf(old(View()), matched, lanDevices.Keys)
    {
      hide KeptOf, GoneOf, ClaimedIps;
      ghost var s := View();
      var claimed := ClaimedIps(matched);
      rebuilt := map[];
      var left := lanDevices.Keys;
      ghost var done: set<DeviceId> := {};
      ghost var gone: set<DeviceId> := {};
      KeptNone(s, matched);
      while left != {}
        invariant left + done == lanDevices.Keys
        invariant rebuilt == KeptOf(s, matched, done) && gone == GoneOf(s, matched, done)
        invariant lanReadMisses == s.readMisses - gone
        invariant lanWriteMisses == s.writeMisses - gone
        invariant lanWriteSuppressedUntil == s.suppressedUntil - gone
        decreases |left|
      {
        var d :| d in left;
        left := left - {d};
        KeptOneMore(s, matched, done, d);
        done := done + {d};
        if d !in matched {
          var info := lanDevices[d];
          if info.ip != "" && info.ip in claimed {
            PopCounters(d);
            MinusOneMore(s.readMisses, gone, d);
            MinusOneMore(s.writeMisses, gone, d);
            MinusOneMore(s.suppressedUntil, gone, d);
            gone := gone + {d};
          } else {
            rebuilt := rebuilt[d := info];
          }
        }
      }
      assert done == lanDevices.Keys;
    }

    // ---------- solicited reads ----------

    /** The address table a refresh builds before it awaits the replies. */
    method IpToDevice(writeOnly: set<DeviceId>) returns (polled: map<Ip, DeviceId>)
      ensures PollOf(View(), writeOnly, polled)
    {
      polled := map[];
      var left := lanDevices.Keys;
      while left != {}
        invariant left <= lanDevices.Keys
        invariant forall ip <- polled :: ip != "" && polled[ip] in lanDevices && polled[ip] !in writeOnly && lanDevices[polled[ip]].ip == ip
        invariant forall d <- lanDevices :: d !in left && lanDevices[d].ip != "" && d !in writeOnly ==> lanDevices[d].ip in polled
        decreases |left|
      {
        var d :| d in left;
        left := left - {d};
        if lanDevices[d].ip != "" && d !in writeOnly {
          polled := polled[lanDevices[d].ip := d];
        }
      }
    }

    /** _refresh_lan_reads, from the replies on: count every polled device, then demote. */
    method ApplyReplies(writeOnly: set<DeviceId>, polled: map<Ip, DeviceId>, answered: set<Ip>)
      requires PollOf(View(), writeOnly, polled)
      modifies `lanDevices, `lanReadMisses, `lanWriteMisses, `lanWriteSuppressedUntil
      ensures View() == DoRefresh(old(View()), polled, answered)
    {
      ghost var s := View();
      var demoted := CountReplies(writeOnly, polled, answered);
      DropDemoted(demoted);
      CountedAll(s, polled, answered);
    }

    /** Count every polled device: an answer resets its misses, silence adds one. */
    method CountReplies(writeOnly: set<DeviceId>, polled: map<Ip, DeviceId>, answered: set<Ip>) returns (demoted: seq<DeviceId>)
      requires PollOf(View(), writeOnly, polled)
      modifies `lanReadMisses
      ensures lanReadMisses == CountedOf(old(View()), polled, answered, polled.Keys)
      ensures Elements(demoted) == DemotedOf(old(View()), polled, answered, polled.Keys)
    {
      hide CountedOf, DemotedOf, PollOf, Elements;
      ghost var s := View();
      demoted := [];
      var left := polled.Keys;
      ghost var done: set<Ip> := {};
      CountedNone(s, polled, answered);
      ElementsNone();
      while left != {}
        invariant left <= polled.Keys && done == polled.Keys - left
        invariant lanReadMisses == CountedOf(s, polled, answered, done)
        invariant Elements(demoted) == DemotedOf(s, polled, answered, done)
        decreases |left|
      {
        var ip :| ip in left;
        left := left - {ip};
        var d := polled[ip];
        assert ip !in done;
        CountedOneMore(s, polled, answered, done, ip, writeOnly);
        DemotedOneMore(s, polled, answered, done, ip, writeOnly);
        done := done + {ip};
        if ip in answered {
          lanReadMisses := lanReadMisses[d := 0];
        } else {
          var misses := (if d in lanReadMisses then lanReadMisses[d] else 0) + 1;
          lanReadMisses := lanReadMisses[d := misses];
          if misses >= READ_MISS_DEMOTE_THRESHOLD {
            ElementsAdd(demoted, d);
            demoted := demoted + [d];
          }
        }
      }
      assert done == polled.Keys;
    }

    /** Drop the demoted devices and everything counted about them. */
    method DropDemoted(demoted: seq<DeviceId>)
      modifies `lanDevices, `lanReadMisses, `lanWriteMisses, `lanWriteSuppressedUntil
      ensures View() == Forget(old(View()), Elements(demoted)).(devices := old(lanDevices) - Elements(demoted))
    {
      hide Elements;
      ghost var s := View();
      ghost var gone: set<DeviceId> := {};
      ElementsNone();
      assert demoted[..0] == [];
      for i := 0 to |demoted|
        invariant gone == Elements(demoted[..i])
        invariant lanDevices == s.devices - gone
        invariant lanReadMisses == s.readMisses - gone
        invariant lanWriteMisses == s.writeMisses - gone
        invariant lanWriteSuppressedUntil == s.suppressedUntil - gone
      {
        var d := demoted[i];
        lanDevices := lanDevices - {d};
        PopCounters(d);
        MinusOneMore(s.devices, gone, d);
        MinusOneMore(s.readMisses, gone, d);
        MinusOneMore(s.writeMisses, gone, d);
        MinusOneMore(s.suppressedUntil, gone, d);
        ElementsAdd(demoted[..i], d);
        assert demoted[..i] + [d] == demoted[..i + 1];
        gone := gone + {d};
      }
      assert demoted[..|demoted|] == demoted;
    }

    // ---------- unsolicited pushes ----------

    /** _lan_device_id_for_ip */
    method LanDeviceIdForIp(src: Ip) returns (found: Option<DeviceId>)
      ensures found == DeviceForIp(lanDevices, src)
    {
      var matches: seq<DeviceId> := [];
      var left := lanDevices.Keys;
      while left != {}
        invariant left <= lanDevices.Keys
        invariant forall d :: d in matches <==> d in lanDevices && d !in left && lanDevices[d].ip == src
        invariant forall i, j | 0 <= i < j < |matches| :: matches[i] != matches[j]
        decreases |left|
      {
        var d :| d in left;
        left := left - {d};
        if lanDevices[d].ip == src {
          matches := matches + [d];
        }
      }
      if |matches| == 1 {
        found := Some(matches[0]);
        assert AloneAt(lanDevices, matches[0], src);
        DeviceForIpIff(lanDevices, src, matches[0]);
      } else {
        found := None;
        NotOneMatch(lanDevices, matches, src);
      }
    }

    /** _on_lan_dev_status: apply the push to the one device it can only have come from, or ask for a rescan. */
    method OnLanDevStatus(src: Ip, now: real) returns (applied: Option<DeviceId>)
      modifies `rescanRequested
      ensures applied == PushTarget(View(), src, now)
      ensures rescanRequested <==> old(rescanRequested) || applied.None?
    {
      var found := LanDeviceIdForIp(src);
      if found.Some? { DeviceForIpIff(lanDevices, src, found.value); }
      if found.None? {
        rescanRequested := true;
        return None;
      }
      if now - lanDevices[found.value].correlated >= CORRELATION_TTL {
        rescanRequested := true;
        return None;
      }
      return found;
    }
  }

  function Elements(list: seq<DeviceId>): set<DeviceId> {
    set d | d in list
  }

  lemma ElementsNone()
    ensures Elements([]) == {}
  {
  }

  lemma ElementsAdd(list: seq<DeviceId>, d: DeviceId)
    ensures Elements(list + [d]) == Elements(list) + {d}
  {
  }

  lemma MinusOneMore<V>(m: map<DeviceId, V>, gone: set<DeviceId>, d: DeviceId)
    ensures m - gone - {d} == m - (gone + {d})
  {
  }

  /** The list of a device scan has none or several matches, so no device is alone at the address. */
  lemma NotOneMatch(devices: map<DeviceId, Info>, matches: seq<DeviceId>, src: Ip)
    requires forall d :: d in matches <==> d in devices && devices[d].ip == src
    requires forall i, j | 0 <= i < j < |matches| :: matches[i] != matches[j]
    requires |matches| != 1
    ensures forall d :: !AloneAt(devices, d, src)
  {
    forall d ensures !AloneAt(devices, d, src) {
      if d in matches {
        assert matches[0] in matches && matches[1] in matches;
      }
    }
  }

  // The walks, part way.

  function Laid(kept: map<DeviceId, Info>, matched: map<DeviceId, Info>, left: set<DeviceId>): map<DeviceId, Info> {
    kept + (matched - left)
  }

  function Zeroed(misses: map<DeviceId, nat>, matched: map<DeviceId, Info>, left: set<DeviceId>): map<DeviceId, nat> {
    misses + map d | d in matched && d !in left :: 0
  }

  lemma LaidNone(kept: map<DeviceId, Info>, misses: map<DeviceId, nat>, matched: map<DeviceId, Info>)
    ensures Laid(kept, matched, matched.Keys) == kept && Zeroed(misses, matched, matched.Keys) == misses
  {
  }

  lemma LaidOneMore(kept: map<DeviceId, Info>, misses: map<DeviceId, nat>, matched: map<DeviceId, Info>,
                    left: set<DeviceId>, d: DeviceId)
    requires d in left && left <= matched.Keys
    ensures Laid(kept, matched, left - {d}) == Laid(kept, matched, left)[d := matched[d]]
    ensures Zeroed(misses, matched, left - {d}) == Zeroed(misses, matched, left)[d := 0]
  {
  }

  lemma LaidAll(kept: map<DeviceId, Info>, misses: map<DeviceId, nat>, matched: map<DeviceId, Info>)
    ensures Laid(kept, matched, {}) == kept + matched
    ensures Zeroed(misses, matched, {}) == misses + map d | d in matched :: 0
  {
    assert matched - {} == matched;
  }


  function KeptOf(s: State, matched: map<DeviceId, Info>, done: set<DeviceId>): map<DeviceId, Info> {
    map d | d in s.devices && d in done && d !in matched && !Displaced(s, matched, d) :: s.devices[d]
  }

  function GoneOf(s: State, matched: map<DeviceId, Info>, done: set<DeviceId>): set<DeviceId> {
    DisplacedBy(s, matched) * done
  }

  lemma KeptNone(s: State, matched: map<DeviceId, Info>)
    ensures KeptOf(s, matched, {}) == map[] && GoneOf(s, matched, {}) == {}
  {
  }

  lemma KeptOneMore(s: State, matched: map<DeviceId, Info>, done: set<DeviceId>, d: DeviceId)
    requires d in s.devices
    ensures KeptOf(s, matched, done + {d}) ==
      if d in matched || Displaced(s, matched, d) then KeptOf(s, matched, done) else KeptOf(s, matched, done)[d := s.devices[d]]
    ensures GoneOf(s, matched, done + {d}) ==
      if Displaced(s, matched, d) then GoneOf(s, matched, done) + {d} else GoneOf(s, matched, done)
  {
  }

  lemma KeptAll(s: State, matched: map<DeviceId, Info>)
    ensures KeptOf(s, matched, s.devices.Keys) == Kept(s, matched)
    ensures GoneOf(s, matched, s.devices.Keys) == DisplacedBy(s, matched)
  {
  }

  function CountedOf(s: State, polled: map<Ip, DeviceId>, answered: set<Ip>, done: set<Ip>): map<DeviceId, nat> {
    s.readMisses +
    map d | d in s.devices && Polled(s, polled, d) && s.devices[d].ip in done :: NewMisses(s, polled, answered, d)
  }

  function DemotedOf(s: State, polled: map<Ip, DeviceId>, answered: set<Ip>, done: set<Ip>): set<DeviceId> {
    set d | d in s.devices && d in Demoted(s, polled, answered) && s.devices[d].ip in done
  }

  lemma CountedNone(s: State, polled: map<Ip, DeviceId>, answered: set<Ip>)
    ensures CountedOf(s, polled, answered, {}) == s.readMisses && DemotedOf(s, polled, answered, {}) == {}
  {
  }

  /** A polled address stands for its one device. */
  lemma PolledAt(s: State, polled: map<Ip, DeviceId>, ip: Ip, writeOnly: set<DeviceId>)
    requires PollOf(s, writeOnly, polled) && ip in polled
    ensures polled[ip] in s.devices && s.devices[polled[ip]].ip == ip && Polled(s, polled, polled[ip])
  {
  }

  lemma CountedOneMore(s: State, polled: map<Ip, DeviceId>, answered: set<Ip>, done: set<Ip>, ip: Ip, writeOnly: set<DeviceId>)
    requires PollOf(s, writeOnly, polled) && ip in polled && ip !in done
    ensures var d, part := polled[ip], CountedOf(s, polled, answered, done);
      && (if d in part then part[d] else 0) == ReadMisses(s, d)
      && CountedOf(s, polled, answered, done + {ip}) == part[d := if ip in answered then 0 else ReadMisses(s, d) + 1]
  {
    PolledAt(s, polled, ip, writeOnly);
    hide PollOf;
  }

  lemma DemotedOneMore(s: State, polled: map<Ip, DeviceId>, answered: set<Ip>, done: set<Ip>, ip: Ip, writeOnly: set<DeviceId>)
    requires PollOf(s, writeOnly, polled) && ip in polled
    ensures DemotedOf(s, polled, answered, done + {ip}) ==
      DemotedOf(s, polled, answered, done)
      + (if ip !in answered && ReadMisses(s, polled[ip]) + 1 >= READ_MISS_DEMOTE_THRESHOLD then {polled[ip]} else {})
  {
    PolledAt(s, polled, ip, writeOnly);
    hide PollOf, ReadMisses;
  }

  lemma CountedAll(s: State, polled: map<Ip, DeviceId>, answered: set<Ip>)
    ensures var gone := DemotedOf(s, polled, answered, polled.Keys);
      Forget(s.(readMisses := CountedOf(s, polled, answered, polled.Keys)), gone).(devices := s.devices - gone)
      == DoRefresh(s, polled, answered)
  {
    assert DemotedOf(s, polled, answered, polled.Keys) == Demoted(s, polled, answered);
    assert CountedOf(s, polled, answered, polled.Keys) ==
           s.readMisses + map d | d in s.devices && Polled(s, polled, d) :: NewMisses(s, polled, answered, d) by {
      hide NewMisses, ReadMisses;
    }
    hide Demoted, NewMisses, CountedOf, DemotedOf;
  }
}
