/** The coordinator's leak fields, updated in place by a tick's steps and by a clear (coordinator.py). */
module WaterDetectorPollerClass {
  import opened LeakClear

  type DeviceId = string

  class WaterDetectorPoller {
    var waterLeak: map<DeviceId, bool>
    var lastTime: map<DeviceId, nat>
    var clearGen: map<DeviceId, nat>

    /** One detector's state, beside the ticks and the log of its history. */
    ghost function View(d: DeviceId, ticks: seq<Tick>, log: seq<Entry>): State
      requires d in waterLeak
      reads this
    {
      State(waterLeak[d], if d in lastTime then Some(lastTime[d]) else None, if d in clearGen then clearGen[d] else 0, ticks, log)
    }

    constructor (detectors: set<DeviceId>)
      ensures waterLeak.Keys == detectors
      ensures forall d | d in detectors :: View(d, [], []) == INIT
    {
      waterLeak := map d | d in detectors :: false;
      lastTime, clearGen := map[], map[];
    }

    twostate predicate OthersUnchanged(d: DeviceId)
      reads this
    {
      && waterLeak.Keys == old(waterLeak.Keys)
      && waterLeak - {d} == old(waterLeak) - {d}
      && lastTime - {d} == old(lastTime) - {d}
      && clearGen - {d} == old(clearGen) - {d}
    }

    /** The body of _poll_water_detectors' loop up to its await; asks says whether warnMessage is called. */
    method BeginIteration(d: DeviceId, time: nat, ghost id: nat, ghost ticks: seq<Tick>, ghost log: seq<Entry>)
      returns (asks: bool, gen: nat)
      requires d in waterLeak && id < |ticks| && ticks[id].Fetched? && ticks[id].time == time
      modifies `lastTime
      ensures var next := DoBegin(old(View(d, ticks, log)), id);
        && d in waterLeak && View(d, next.ticks, next.log) == next
        && (asks <==> next.ticks[id].Asking?)
        && (asks ==> gen == next.ticks[id].gen)
      ensures OthersUnchanged(d)
    {
      gen := if d in clearGen then clearGen[d] else 0;
      var prevTime := if d in lastTime then lastTime[d] else 0;
      asks := time > prevTime || waterLeak[d];
      if !asks {
        if time != 0 && gen == (if d in clearGen then clearGen[d] else 0) {
          lastTime := lastTime[d := time];
        }
      }
    }

    /** The rest of the iteration, from warnMessage's reply on; None stands for a request that raised. */
    method FinishIteration(d: DeviceId, time: nat, gen: nat, reply: Option<bool>, ghost id: nat, ghost ticks: seq<Tick>, ghost log: seq<Entry>)
      returns (changed: bool)
      requires d in waterLeak && id < |ticks| && ticks[id].Asking? && ticks[id].time == time && ticks[id].gen == gen
      modifies `waterLeak, `lastTime
      ensures var next := DoRead(old(View(d, ticks, log)), id, reply);
        d in waterLeak && View(d, next.ticks, next.log) == next
      ensures changed <==> waterLeak[d] != old(waterLeak[d])
      ensures OthersUnchanged(d)
    {
      changed := false;
      var isWet := if reply.Some? then reply.value else waterLeak[d];
      var current := if d in clearGen then clearGen[d] else 0;
      if current == gen && waterLeak[d] != isWet {
        waterLeak := waterLeak[d := isWet];
        changed := true;
      }
      if time != 0 && current == gen {
        lastTime := lastTime[d := time];
      }
    }

    /** async_clear_water_leak from Govee's answer on. */
    method ClearWaterLeak(d: DeviceId, lifted: bool, ghost ticks: seq<Tick>, ghost log: seq<Entry>) returns (accepted: bool)
      requires d in waterLeak
      modifies this
      ensures accepted == lifted
      ensures var was := old(View(d, ticks, log));
        var next := if lifted then DoClear(was) else was;
        d in waterLeak && View(d, next.ticks, next.log) == next
      ensures OthersUnchanged(d)
    {
      if !lifted {
        return false;
      }
      clearGen := clearGen[d := (if d in clearGen then clearGen[d] else 0) + 1];
      lastTime := lastTime - {d};
      if waterLeak[d] {
        waterLeak := waterLeak[d := false];
      }
      return true;
    }
  }
}
