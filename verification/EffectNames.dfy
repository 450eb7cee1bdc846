/** Names for a light's scenes, made unique by a counter (light.py, _build_effect_mapping). */
module EffectNames {

  datatype Option<+T> = None | Some(value: T)

  /** A scene as the API lists it; a missing id counts as 0, a missing name as "Scene <id>". */
  datatype SceneData = SceneData(maybeId: Option<int>, maybeName: Option<string>) {
    function Id(): int {
      if maybeId.Some? then maybeId.value else 0
    }

    function Name(): string {
      if maybeName.Some? then maybeName.value else "Scene " + Str(Id())
    }
  }

  datatype Scene = Scene(id: int, name: string)

  // ---------- decimal numbers ----------

  function Digit(n: nat): char
    requires n < 10
  {
    ('0' as int + n) as char
  }

  function Decimal(n: nat): string {
    if n < 10 then [Digit(n)] else Decimal(n / 10) + [Digit(n % 10)]
  }

  /** str() of an integer. */
  function Str(n: int): string {
    if n < 0 then "-" + Decimal(-n) else Decimal(n)
  }

  function ValueOf(s: string): int {
    if s == "" then 0 else ValueOf(s[..|s| - 1]) * 10 + (s[|s| - 1] as int - '0' as int)
  }

  lemma {:induction false} DecimalValue(n: nat)
    ensures |Decimal(n)| > 0 && '0' <= Decimal(n)[0] <= '9'
    ensures ValueOf(Decimal(n)) == n
  {
    if n >= 10 {
      DecimalValue(n / 10);
      assert Decimal(n)[..|Decimal(n)| - 1] == Decimal(n / 10);
    } else {
      assert Decimal(n)[..0] == "";
    }
  }

  /** Different ids have different keys. */
  lemma StrInjective(a: int, b: int)
    ensures Str(a) == Str(b) <==> a == b
  {
    DecimalValue(if a < 0 then -a else a);
    DecimalValue(if b < 0 then -b else b);
    if a < 0 && b < 0 {
      assert Str(a)[1..] == Decimal(-a) && Str(b)[1..] == Decimal(-b);
    } else if a < 0 || b < 0 {
      assert Str(a)[0] == '-' <==> a < 0;
      assert Str(b)[0] == '-' <==> b < 0;
    }
  }

  // ---------- candidates ----------

  /** The k-th name tried for a scene. */
  function Candidate(name: string, k: nat): string {
    if k == 0 then name else name + " (" + Decimal(k) + ")"
  }

  /** The counter can be read back from a counted name. */
  lemma CandidateNumber(name: string, k: nat)
    requires k > 0
    ensures var c := Candidate(name, k); |c| > |name| + 3 && ValueOf(c[|name| + 2..|c| - 1]) == k
  {
    DecimalValue(k);
    var c := Candidate(name, k);
    assert c[|name| + 2..|c| - 1] == Decimal(k);
  }

  lemma CandidatesDiffer(name: string, i: nat, j: nat)
    requires i != j
    ensures Candidate(name, i) != Candidate(name, j)
  {
    if i > 0 { CandidateNumber(name, i); }
    if j > 0 { CandidateNumber(name, j); }
  }

  /** The first k names tried. */
  function Tried(name: string, k: nat): set<string> {
    if k == 0 then {} else Tried(name, k - 1) + {Candidate(name, k - 1)}
  }

  lemma {:induction false} NotTriedBefore(name: string, k: nat, later: nat)
    requires k <= later
    ensures Candidate(name, later) !in Tried(name, k)
  {
    if k > 0 {
      NotTriedBefore(name, k - 1, later);
      CandidatesDiffer(name, k - 1, later);
      hide Candidate;
    }
  }

  lemma {:induction false} TriedCount(name: string, k: nat)
    ensures |Tried(name, k)| == k
  {
    hide Candidate;
    if k > 0 {
      TriedCount(name, k - 1);
      NotTriedBefore(name, k - 1, k - 1);
    }
  }

  lemma {:induction false} TriedAreTaken(name: string, taken: set<string>, k: nat)
    requires AllTaken(name, taken, k)
    ensures Tried(name, k) <= taken
  {
    hide Candidate;
    if k > 0 {
      TriedAreTaken(name, taken, k - 1);
      assert Candidate(name, k - 1) in taken;
    }
  }

  lemma SubsetCount(a: set<string>, b: set<string>)
    requires a <= b
    ensures |a| <= |b|
  {
    if a != {} {
      var x :| x in a;
      SubsetCount(a - {x}, b - {x});
    }
  }

  predicate AllTaken(name: string, taken: set<string>, k: nat) {
    forall i | 0 <= i < k :: Candidate(name, i) in taken
  }

  /** At most as many candidates are taken as there are names, so the loop that skips them ends. */
  lemma Pigeonhole(name: string, taken: set<string>, k: nat)
    requires AllTaken(name, taken, k)
    ensures k <= |taken|
  {
    TriedCount(name, k);
    TriedAreTaken(name, taken, k);
    SubsetCount(Tried(name, k), taken);
  }

  /** The first candidate from the k-th on that no scene has yet. */
  function FirstFree(name: string, taken: set<string>, k: nat): string
    requires AllTaken(name, taken, k)
    decreases |taken| - k
  {
    if Candidate(name, k) in taken then
      Pigeonhole(name, taken, k + 1);
      FirstFree(name, taken, k + 1)
    else Candidate(name, k)
  }

  /** It is free, and it is the earliest free one. */
  lemma {:induction false} FirstFreeIsFirst(name: string, taken: set<string>, k: nat) returns (found: nat)
    requires AllTaken(name, taken, k)
    ensures FirstFree(name, taken, k) == Candidate(name, found) && found >= k
    ensures Candidate(name, found) !in taken && AllTaken(name, taken, found)
    decreases |taken| - k
  {
    if Candidate(name, k) in taken {
      Pigeonhole(name, taken, k + 1);
      found := FirstFreeIsFirst(name, taken, k + 1);
    } else {
      found := k;
    }
  }

  // ---------- the mapping ----------

  function Elements(names: seq<string>): set<string> {
    set n | n in names
  }

  function NamesOf(scenes: seq<SceneData>): seq<string> {
    if scenes == [] then []
    else
      var before, last := NamesOf(scenes[..|scenes| - 1]), scenes[|scenes| - 1];
      before + [FirstFree(last.Name(), Elements(before), 0)]
  }

  lemma NamesStep(scenes: seq<SceneData>, last: SceneData)
    ensures NamesOf(scenes + [last]) == NamesOf(scenes) + [FirstFree(last.Name(), Elements(NamesOf(scenes)), 0)]
  {
    assert (scenes + [last])[..|scenes|] == scenes;
  }

  /** One name per scene, no two alike. */
  lemma {:induction false} NamesAreUnique(scenes: seq<SceneData>)
    ensures |NamesOf(scenes)| == |scenes|
    ensures forall i, j | 0 <= i < j < |scenes| :: NamesOf(scenes)[i] != NamesOf(scenes)[j]
  {
    if scenes != [] {
      var prefix, last := scenes[..|scenes| - 1], scenes[|scenes| - 1];
      NamesAreUnique(prefix);
      var found := FirstFreeIsFirst(last.Name(), Elements(NamesOf(prefix)), 0);
      assert forall i | 0 <= i < |prefix| :: NamesOf(prefix)[i] in Elements(NamesOf(prefix));
    }
  }

  /** A scene keeps its own name exactly when no scene before it got that name. */
  lemma OwnNameIff(scenes: seq<SceneData>, last: SceneData)
    ensures NamesOf(scenes + [last])[|NamesOf(scenes)|..] == [last.Name()] <==> last.Name() !in NamesOf(scenes)
  {
    NamesStep(scenes, last);
    var found := FirstFreeIsFirst(last.Name(), Elements(NamesOf(scenes)), 0);
    assert Candidate(last.Name(), 0) == last.Name();
    if found > 0 { CandidatesDiffer(last.Name(), found, 0); }
  }

  /** The name a scene id stands for: that of the last scene with the id. */
  predicate LastWith(scenes: seq<SceneData>, i: nat) {
    i < |scenes| && forall j | i < j < |scenes| :: scenes[j].Id() != scenes[i].Id()
  }

  predicate BuiltEffects(scenes: seq<SceneData>, effects: map<string, Scene>, names: seq<string>) {
    && |names| == |scenes|
    && effects.Keys == Elements(names)
    && (forall i | 0 <= i < |scenes| :: names[i] in effects && effects[names[i]] == Scene(scenes[i].Id(), scenes[i].Name()))
  }

  predicate BuiltIds(scenes: seq<SceneData>, ids: map<string, string>, names: seq<string>) {
    && |names| == |scenes|
    && (forall key <- ids :: exists i :: 0 <= i < |scenes| && key == Str(scenes[i].Id()))
    && (forall i | 0 <= i < |scenes| :: Str(scenes[i].Id()) in ids)
    && (forall i | 0 <= i < |scenes| && LastWith(scenes, i) :: ids[Str(scenes[i].Id())] == names[i])
  }

  predicate Built(scenes: seq<SceneData>, effects: map<string, Scene>, ids: map<string, string>, names: seq<string>) {
    names == NamesOf(scenes) && BuiltEffects(scenes, effects, names) && BuiltIds(scenes, ids, names)
  }

  /** The loop that appends a counter until the name is free. */
  method UniqueName(name: string, effects: map<string, Scene>) returns (unique: string)
    ensures unique !in effects && unique == FirstFree(name, effects.Keys, 0)
  {
    unique := name;
    var counter := 1;
    while unique in effects
      invariant counter >= 1 && unique == Candidate(name, counter - 1)
      invariant AllTaken(name, effects.Keys, counter - 1)
      invariant FirstFree(name, effects.Keys, counter - 1) == FirstFree(name, effects.Keys, 0)
      decreases |effects| - counter
    {
      Pigeonhole(name, effects.Keys, counter);
      unique := name + " (" + Str(counter) + ")";
      counter := counter + 1;
    }
  }

  /** _build_effect_mapping */
  method BuildEffectMapping(scenes: seq<SceneData>)
    returns (effects: map<string, Scene>, ids: map<string, string>, names: seq<string>)
    ensures Built(scenes, effects, ids, names)
  {
    hide Built, FirstFree, Str, SceneData.Name, SceneData.Id;
    effects, ids, names := map[], map[], [];
    assert scenes[..0] == [];
    NothingBuilt();
    for n := 0 to |scenes|
      invariant Built(scenes[..n], effects, ids, names)
    {
      var id, name := scenes[n].Id(), scenes[n].Name();
      var unique := UniqueName(name, effects);
      BuiltStep(scenes[..n], scenes[n], effects, ids, names, unique);
      assert scenes[..n + 1] == scenes[..n] + [scenes[n]];
      effects := effects[unique := Scene(id, name)];
      ids := ids[Str(id) := unique];
      names := names + [unique];
    }
    assert scenes[..|scenes|] == scenes;
  }

  lemma NothingBuilt()
    ensures Built([], map[], map[], [])
  {
  }

  lemma BuiltStep(before: seq<SceneData>, last: SceneData, effects: map<string, Scene>, ids: map<string, string>, names: seq<string>, unique: string)
    requires Built(before, effects, ids, names)
    requires unique !in effects && unique == FirstFree(last.Name(), effects.Keys, 0)
    ensures Built(before + [last], effects[unique := Scene(last.Id(), last.Name())], ids[Str(last.Id()) := unique], names + [unique])
  {
    KeysAreNames(before, effects, names);
    hide BuiltEffects, BuiltIds, FirstFree, NamesOf, Str, SceneData.Name, SceneData.Id, Elements;
    NamesStep(before, last);
    EffectsStep(before, last, effects, names, unique);
    IdsStep(before, last, ids, names, unique);
  }

  lemma KeysAreNames(scenes: seq<SceneData>, effects: map<string, Scene>, names: seq<string>)
    requires BuiltEffects(scenes, effects, names)
    ensures effects.Keys == Elements(names)
  {
  }

  lemma EffectsStep(before: seq<SceneData>, last: SceneData, effects: map<string, Scene>, names: seq<string>, unique: string)
    requires BuiltEffects(before, effects, names) && unique !in effects
    ensures BuiltEffects(before + [last], effects[unique := Scene(last.Id(), last.Name())], names + [unique])
  {
    var names' := names + [unique];
    assert Elements(names') == Elements(names) + {unique};
    assert forall i | 0 <= i < |before| :: names'[i] == names[i] && names[i] != unique && (before + [last])[i] == before[i];
  }

  lemma IdsStep(before: seq<SceneData>, last: SceneData, ids: map<string, string>, names: seq<string>, unique: string)
    requires BuiltIds(before, ids, names)
    ensures BuiltIds(before + [last], ids[Str(last.Id()) := unique], names + [unique])
  {
    hide Str, Elements;
    var after, ids', names' := before + [last], ids[Str(last.Id()) := unique], names + [unique];
    assert after[|before|] == last;
    assert forall i | 0 <= i < |before| :: after[i] == before[i];
    forall key | key in ids' ensures exists i :: 0 <= i < |after| && key == Str(after[i].Id()) {
      if key in ids {
        var i :| 0 <= i < |before| && key == Str(before[i].Id());
        assert key == Str(after[i].Id());
      }
    }
    forall i | 0 <= i < |after| && LastWith(after, i) ensures ids'[Str(after[i].Id())] == names'[i] {
      if i < |before| {
        assert after[|before|].Id() != after[i].Id();
        StrInjective(after[i].Id(), last.Id());
        assert LastWith(before, i);
      }
    }
  }

  /** In the built mapping every name leads to its own scene; the id of a scene leads back to its name
      exactly when no later scene has the same id, and always to a scene with that id. */
  lemma IdInvertsNameIff(scenes: seq<SceneData>, effects: map<string, Scene>, ids: map<string, string>, names: seq<string>, i: nat)
    requires Built(scenes, effects, ids, names) && i < |scenes|
    ensures effects[names[i]] == Scene(scenes[i].Id(), scenes[i].Name())
    ensures ids[Str(scenes[i].Id())] == names[i] <==> LastWith(scenes, i)
    ensures ids[Str(scenes[i].Id())] in effects && effects[ids[Str(scenes[i].Id())]].id == scenes[i].Id()
  {
    var last := LastOf(scenes, i);
    NamesAreUnique(scenes);
  }

  lemma {:induction false} LastOf(scenes: seq<SceneData>, i: nat) returns (last: nat)
    requires i < |scenes|
    ensures i <= last && LastWith(scenes, last) && scenes[last].Id() == scenes[i].Id()
    ensures last == i <==> LastWith(scenes, i)
    decreases |scenes| - i
  {
    if LastWith(scenes, i) {
      last := i;
    } else {
      var j :| i < j < |scenes| && scenes[j].Id() == scenes[i].Id();
      last := LastOf(scenes, j);
    }
  }
}
