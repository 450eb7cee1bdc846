/** Replaying a ring's tracked segment colours, grouped by colour (coordinator.py, async_reassert_segments). */
module SegmentReplay {

  type Index = nat

  datatype Rgb = Rgb(r: int, g: int, b: int)

  const BLACK := Rgb(0, 0, 0)
  const REASSERT_RATE_LIMIT_RESERVE := 20

  /** A segment colour command: its segments in ascending order. */
  datatype Command = Command(indices: seq<Index>, rgb: Rgb)

  function Elements(indices: seq<Index>): set<Index> {
    set i | i in indices
  }

  /** The segments tracked with a colour. */
  function Group(tracked: map<Index, Rgb>, rgb: Rgb): set<Index> {
    set i | i in tracked && tracked[i] == rgb
  }

  predicate Ascending(indices: seq<Index>) {
    forall i, j | 0 <= i < j < |indices| :: indices[i] < indices[j]
  }

  /** One command per tracked colour, holding exactly the segments of that colour. */
  predicate IsReplay(tracked: map<Index, Rgb>, commands: seq<Command>) {
    && (forall c <- commands :: Ascending(c.indices) && Elements(c.indices) == Group(tracked, c.rgb) && c.indices != [])
    && (forall i, j | 0 <= i < j < |commands| :: commands[i].rgb != commands[j].rgb)
    && (forall i <- tracked :: exists c :: c in commands && c.rgb == tracked[i])
  }

  // ---------- what commands do to a ring ----------

  /** A device that accepts a command shows its colour on its segments and leaves the others alone. */
  function Apply(ring: map<Index, Rgb>, c: Command): map<Index, Rgb> {
    ring + map i | i in c.indices :: c.rgb
  }

  /** The commands in order, each one accepted or refused. */
  function ApplyAll(ring: map<Index, Rgb>, commands: seq<Command>, accepted: set<Rgb>): map<Index, Rgb> {
    if commands == [] then ring
    else
      var before, last := ApplyAll(ring, commands[..|commands| - 1], accepted), commands[|commands| - 1];
      if last.rgb in accepted then Apply(before, last) else before
  }

  /** One command per segment, in any order: what the grouped replay stands for. */
  function PerSegment(ring: map<Index, Rgb>, tracked: map<Index, Rgb>, order: seq<Index>): map<Index, Rgb>
    requires forall i <- order :: i in tracked
  {
    if order == [] then ring
    else
      var last := order[|order| - 1];
      PerSegment(ring, tracked, order[..|order| - 1])[last := tracked[last]]
  }

  /** The tracked segments whose colour is among some colours. */
  function Of(tracked: map<Index, Rgb>, colours: set<Rgb>): map<Index, Rgb> {
    map i | i in tracked && tracked[i] in colours :: tracked[i]
  }

  function Colours(commands: seq<Command>): set<Rgb> {
    set c | c in commands :: c.rgb
  }

  /** Commands that are each one colour's group. */
  predicate Grouped(tracked: map<Index, Rgb>, commands: seq<Command>) {
    forall c <- commands :: Elements(c.indices) == Group(tracked, c.rgb)
  }

  lemma {:induction false} ApplyAllIs(ring: map<Index, Rgb>, tracked: map<Index, Rgb>, commands: seq<Command>, accepted: set<Rgb>)
    requires Grouped(tracked, commands)
    ensures ApplyAll(ring, commands, accepted) == ring + Of(tracked, Colours(commands) * accepted)
  {
    if commands == [] {
      assert Colours(commands) == {};
    } else {
      var prefix, last := commands[..|commands| - 1], commands[|commands| - 1];
      ApplyAllIs(ring, tracked, prefix, accepted);
      assert last in commands;
      assert Colours(commands) == Colours(prefix) + {last.rgb} by {
        forall rgb | rgb in Colours(commands) ensures rgb in Colours(prefix) + {last.rgb} {
          var c :| c in commands && c.rgb == rgb;
        }
      }
      if last.rgb in accepted {
        ApplyGroup(ring, tracked, Colours(prefix) * accepted, last);
        assert (Colours(prefix) * accepted) + {last.rgb} == Colours(commands) * accepted;
      } else {
        assert Colours(prefix) * accepted == Colours(commands) * accepted;
      }
    }
  }

  lemma ApplyGroup(ring: map<Index, Rgb>, tracked: map<Index, Rgb>, colours: set<Rgb>, c: Command)
    requires Elements(c.indices) == Group(tracked, c.rgb)
    ensures Apply(ring + Of(tracked, colours), c) == ring + Of(tracked, colours + {c.rgb})
  {
    assert forall i :: i in c.indices <==> i in Group(tracked, c.rgb);
  }

  /** However the grouped commands are ordered and whichever of them are accepted, exactly the segments of
      the accepted colours show their tracked colour and no other segment changes. */
  lemma ReplayEffect(ring: map<Index, Rgb>, tracked: map<Index, Rgb>, commands: seq<Command>, accepted: set<Rgb>)
    requires IsReplay(tracked, commands)
    ensures ApplyAll(ring, commands, accepted) == ring + Of(tracked, accepted)
  {
    ApplyAllIs(ring, tracked, commands, accepted);
    assert Of(tracked, Colours(commands) * accepted) == Of(tracked, accepted) by {
      forall i | i in tracked ensures tracked[i] in Colours(commands) {
        var c :| c in commands && c.rgb == tracked[i];
      }
    }
  }

  lemma {:induction false} PerSegmentIs(ring: map<Index, Rgb>, tracked: map<Index, Rgb>, order: seq<Index>)
    requires forall i <- order :: i in tracked
    ensures PerSegment(ring, tracked, order) == ring + map i | i in order :: tracked[i]
  {
    if order != [] {
      PerSegmentIs(ring, tracked, order[..|order| - 1]);
    }
  }

  /** All accepted, the grouped replay is the replay of each tracked segment by itself, in any order. */
  lemma GroupedRefinesPerSegment(ring: map<Index, Rgb>, tracked: map<Index, Rgb>, commands: seq<Command>, order: seq<Index>)
    requires IsReplay(tracked, commands) && Elements(order) == tracked.Keys
    requires forall i <- order :: i in tracked
    ensures ApplyAll(ring, commands, Colours(commands)) == PerSegment(ring, tracked, order) == ring + tracked
  {
    ApplyAllIs(ring, tracked, commands, Colours(commands));
    PerSegmentIs(ring, tracked, order);
    AllColours(tracked, commands);
    assert Colours(commands) * Colours(commands) == Colours(commands);
    hide IsReplay, Of, ApplyAll, PerSegment, Colours;
    assert (map i | i in order :: tracked[i]) == tracked by {
      assert forall i :: i in order <==> i in Elements(order);
    }
  }

  lemma AllColours(tracked: map<Index, Rgb>, commands: seq<Command>)
    requires IsReplay(tracked, commands)
    ensures Of(tracked, Colours(commands)) == tracked
  {
    forall i | i in tracked ensures tracked[i] in Colours(commands) {
      var c :| c in commands && c.rgb == tracked[i];
    }
  }

  /** Each command records its segments as it is sent; a whole replay leaves what is tracked as it was. */
  lemma TrackingUnchanged(tracked: map<Index, Rgb>, commands: seq<Command>, sent: set<Rgb>)
    requires IsReplay(tracked, commands)
    ensures ApplyAll(tracked, commands, sent) == tracked
  {
    ReplayEffect(tracked, tracked, commands, sent);
  }

  /** The replay costs one call per distinct tracked colour. */
  lemma CallsAreColours(tracked: map<Index, Rgb>, commands: seq<Command>)
    requires IsReplay(tracked, commands)
    ensures |commands| == |tracked.Values|
  {
    DistinctColours(commands);
    assert Colours(commands) == tracked.Values by {
      forall rgb | rgb in Colours(commands) ensures rgb in tracked.Values {
        var c :| c in commands && c.rgb == rgb;
        assert c.indices[0] in Elements(c.indices);
      }
      forall rgb | rgb in tracked.Values ensures rgb in Colours(commands) {
        var i :| i in tracked && tracked[i] == rgb;
        var c :| c in commands && c.rgb == tracked[i];
      }
    }
  }

  lemma {:induction false} DistinctColours(commands: seq<Command>)
    requires forall i, j | 0 <= i < j < |commands| :: commands[i].rgb != commands[j].rgb
    ensures |Colours(commands)| == |commands|
  {
    if commands != [] {
      var prefix, last := commands[..|commands| - 1], commands[|commands| - 1];
      DistinctColours(prefix);
      assert last.rgb !in Colours(prefix);
      assert Colours(commands) == Colours(prefix) + {last.rgb} by {
        assert last in commands;
        forall c | c in commands ensures c in prefix || c == last {
        }
      }
    }
  }

  // ---------- the replay itself ----------

  predicate AllBlack(tracked: map<Index, Rgb>) {
    forall i <- tracked :: tracked[i] == BLACK
  }

  predicate Skips(powerOffPending: bool, tracked: map<Index, Rgb>, wroteBlack: bool, remaining: int) {
    || powerOffPending
    || tracked == map[]
    || (wroteBlack && AllBlack(tracked))
    || remaining - |tracked.Values| < REASSERT_RATE_LIMIT_RESERVE
  }

  /** What the guards leave of the replay: nothing, or all of it, within the budget. */
  predicate Reasserts(powerOffPending: bool, tracked: map<Index, Rgb>, wroteBlack: bool, remaining: int, commands: seq<Command>) {
    if Skips(powerOffPending, tracked, wroteBlack, remaining) then commands == []
    else IsReplay(tracked, commands) && |commands| > 0 && remaining - |commands| >= REASSERT_RATE_LIMIT_RESERVE
  }

  /** by_color: the tracked segments under their colour. */
  method GroupByColor(tracked: map<Index, Rgb>) returns (byColor: map<Rgb, set<Index>>)
    ensures byColor.Keys == tracked.Values
    ensures forall rgb <- byColor :: byColor[rgb] == Group(tracked, rgb)
  {
    byColor := map[];
    var left := tracked.Keys;
    while left != {}
      invariant left <= tracked.Keys
      invariant forall rgb <- byColor :: byColor[rgb] == Group(tracked, rgb) - left && byColor[rgb] != {}
      invariant forall i <- tracked :: i !in left ==> tracked[i] in byColor
      decreases |left|
    {
      var i :| i in left;
      left := left - {i};
      var rgb := tracked[i];
      var group := if rgb in byColor then byColor[rgb] else {};
      assert group == Group(tracked, rgb) - (left + {i});
      byColor := byColor[rgb := group + {i}];
    }
    assert byColor.Keys == tracked.Values;
  }

  /** sorted(indices) */
  method Sorted(group: set<Index>) returns (indices: seq<Index>)
    ensures Ascending(indices) && Elements(indices) == group
  {
    indices := [];
    var left := group;
    while left != {}
      invariant left <= group && Ascending(indices) && Elements(indices) == group - left
      invariant forall i, j | i in indices && j in left :: i < j
      decreases |left|
    {
      var least := Least(left);
      AscendingAdd(indices, least);
      left := left - {least};
      indices := indices + [least];
    }
  }

  lemma AscendingAdd(indices: seq<Index>, i: Index)
    requires Ascending(indices) && forall j <- indices :: j < i
    ensures Ascending(indices + [i]) && Elements(indices + [i]) == Elements(indices) + {i}
  {
    forall j | 0 <= j < |indices| ensures (indices + [i])[j] < i {
      assert indices[j] in indices;
    }
  }

  method Least(group: set<Index>) returns (least: Index)
    requires group != {}
    ensures least in group && forall i <- group :: least <= i
  {
    least :| least in group;
    var left := group - {least};
    while left != {}
      invariant left <= group && least in group
      invariant forall i <- group :: i in left || least <= i
      decreases |left|
    {
      var i :| i in left;
      left := left - {i};
      if i < least {
        least := i;
      }
    }
  }

  /** async_reassert_segments: nothing when it should skip, otherwise the whole replay, within the budget. */
  method ReassertSegments(powerOffPending: bool, tracked: map<Index, Rgb>, wroteBlack: bool, remaining: int)
    returns (commands: seq<Command>)
    ensures Reasserts(powerOffPending, tracked, wroteBlack, remaining, commands)
  {
    if powerOffPending || tracked == map[] || (wroteBlack && AllBlack(tracked)) {
      return [];
    }
    var byColor := GroupByColor(tracked);
    assert |byColor.Keys| == |tracked.Values|;
    if remaining - |byColor| < REASSERT_RATE_LIMIT_RESERVE {
      return [];
    }
    commands := CommandsFor(tracked, byColor);
    CallsAreColours(tracked, commands);
    var i :| i in tracked;
    assert tracked[i] in tracked.Values;
  }

  method CommandsFor(tracked: map<Index, Rgb>, byColor: map<Rgb, set<Index>>) returns (commands: seq<Command>)
    requires byColor.Keys == tracked.Values
    requires forall rgb <- byColor :: byColor[rgb] == Group(tracked, rgb)
    ensures IsReplay(tracked, commands)
  {
    commands := [];
    var left := byColor.Keys;
    while left != {}
      invariant left <= byColor.Keys
      invariant Grouped(tracked, commands) && forall c <- commands :: Ascending(c.indices) && c.indices != []
      invariant forall c <- commands :: c.rgb !in left
      invariant forall i, j | 0 <= i < j < |commands| :: commands[i].rgb != commands[j].rgb
      invariant forall rgb <- byColor :: rgb in left || exists c :: c in commands && c.rgb == rgb
      decreases |left|
    {
      var rgb :| rgb in left;
      var indices := Sorted(byColor[rgb]);
      assert indices != [] by {
        var i :| i in tracked && tracked[i] == rgb;
        assert i in Group(tracked, rgb);
        assert i in Elements(indices);
      }
      var was := commands;
      commands := commands + [Command(indices, rgb)];
      assert commands[|was|].rgb == rgb;
      forall other <- byColor ensures other in left - {rgb} || exists c :: c in commands && c.rgb == other {
        if other != rgb && other !in left {
          var c :| c in was && c.rgb == other;
          assert c in commands;
        }
      }
      left := left - {rgb};
    }
    forall i <- tracked ensures exists c :: c in commands && c.rgb == tracked[i] {
      assert tracked[i] in byColor;
    }
  }

  // ---------- what a whole-device write and its replay leave on the ring ----------

  /** A whole-device write drives the whole fixture: every segment takes its colour. */
  function Written(ring: map<Index, Rgb>, colour: Rgb): map<Index, Rgb> {
    map i | i in ring :: colour
  }

  /** The ring shows what was tracked, and the written colour elsewhere. */
  predicate Restored(shown: map<Index, Rgb>, ring: map<Index, Rgb>, tracked: map<Index, Rgb>, colour: Rgb) {
    shown == Written(ring, colour) + tracked
  }

  /** A map laid over a ring of one colour changes nothing exactly when it has that colour throughout. */
  lemma OverlayIsNothingIff(ring: map<Index, Rgb>, tracked: map<Index, Rgb>, colour: Rgb)
    requires tracked.Keys <= ring.Keys
    ensures Restored(Written(ring, colour), ring, tracked, colour) <==> forall i <- tracked :: tracked[i] == colour
  {
    if Written(ring, colour) + tracked == Written(ring, colour) {
      forall i <- tracked ensures tracked[i] == colour {
        assert (Written(ring, colour) + tracked)[i] == tracked[i];
      }
    }
  }

  /** Over all rings, tracked segments and written colours: after the write and what the guards leave of the
      replay, all accepted, the ring is restored exactly when no power-off is pending and the budget allows the
      replay, or every tracked segment already has the written colour. The black guard never costs a segment. */
  lemma RestoredIff(ring: map<Index, Rgb>, tracked: map<Index, Rgb>, colour: Rgb, powerOffPending: bool, remaining: int,
                    commands: seq<Command>)
    requires tracked.Keys <= ring.Keys
    requires Reasserts(powerOffPending, tracked, colour == BLACK, remaining, commands)
    ensures Restored(ApplyAll(Written(ring, colour), commands, Colours(commands)), ring, tracked, colour) <==>
      || (!powerOffPending && remaining - |tracked.Values| >= 20)
      || forall i <- tracked :: tracked[i] == colour
  {
    var written := Written(ring, colour);
    OverlayIsNothingIff(ring, tracked, colour);
    if Skips(powerOffPending, tracked, colour == BLACK, remaining) {
      hide Colours, Written;
      assert ApplyAll(written, commands, Colours(commands)) == written;
    } else {
      ApplyAllIs(written, tracked, commands, Colours(commands));
      AllColours(tracked, commands);
      assert Colours(commands) * Colours(commands) == Colours(commands);
      hide Colours, ApplyAll, Written, IsReplay;
    }
  }

  /** The replay spends calls exactly when something is tracked, no power-off is pending, twenty calls stay in reserve
      after one for each tracked colour, and it is not just black over black. */
  lemma SpendsIff(tracked: map<Index, Rgb>, colour: Rgb, powerOffPending: bool, remaining: int, commands: seq<Command>)
    requires Reasserts(powerOffPending, tracked, colour == BLACK, remaining, commands)
    ensures commands != [] <==>
      && !powerOffPending && tracked != map[] && remaining - |tracked.Values| >= 20
      && !(colour == BLACK && forall i <- tracked :: tracked[i] == BLACK)
    ensures commands != [] ==> |commands| == |tracked.Values|
  {
    if commands != [] { CallsAreColours(tracked, commands); }
    hide IsReplay;
  }

  /** A guard that looked at the tracked colours alone, whatever was written. */
  predicate ColourOnlyReasserts(tracked: map<Index, Rgb>, commands: seq<Command>) {
    if tracked == map[] || AllBlack(tracked) then commands == [] else IsReplay(tracked, commands)
  }

  /** Such a guard would restore the ring exactly when the write was black or some tracked segment is not: an
      all-black ring after any other write would be left lit. */
  lemma ColourOnlyRestoresIff(ring: map<Index, Rgb>, tracked: map<Index, Rgb>, colour: Rgb, commands: seq<Command>)
    requires tracked.Keys <= ring.Keys && tracked != map[]
    requires ColourOnlyReasserts(tracked, commands)
    ensures Restored(ApplyAll(Written(ring, colour), commands, Colours(commands)), ring, tracked, colour) <==>
      colour == BLACK || exists i <- tracked :: tracked[i] != BLACK
  {
    var written := Written(ring, colour);
    OverlayIsNothingIff(ring, tracked, colour);
    if AllBlack(tracked) {
      hide Colours, Written;
      assert ApplyAll(written, commands, Colours(commands)) == written;
      var i :| i in tracked;
      assert tracked[i] == BLACK;
    } else {
      ApplyAllIs(written, tracked, commands, Colours(commands));
      AllColours(tracked, commands);
      assert Colours(commands) * Colours(commands) == Colours(commands);
      hide Colours, ApplyAll, Written, IsReplay;
    }
  }
}
