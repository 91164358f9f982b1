/**
 * The race screen (`RaceSimulation`): progress through the race, the team radio
 * panel, other teams' chatter, the periodic strategy updates from the language
 * model, random race events and the whole-field strategy templates. The car
 * strategies live in the insertion-ordered table of `Strategies`.
 */
module RaceSimulation {
  import opened Wrappers
  import opened Text
  import opened Lists
  import opened Teams
  import opened Strategies

  // ---------------------------------------------------------------- laps and phases

  /** `race.laps || 57`. */
  function TotalLaps(laps: Option<int>): (n: int)
    ensures TruthyNum(laps) ==> n == laps.value
    ensures !TruthyNum(laps) ==> n == 57
  {
    if TruthyNum(laps) then laps.value else 57
  }

  /**
   * `Math.floor(raceProgress * (race.laps || 57) / 100)`. Dafny's `/` on `int` is
   * Euclidean, which is the floor for the positive divisor 100.
   */
  function DisplayedLap(progress: int, laps: Option<int>): int
  {
    (progress * TotalLaps(laps)) / 100
  }

  /** Over a race of positive length the displayed lap runs from 0 to the last lap, reached at 100 %. */
  lemma LapRange(progress: int, laps: Option<int>)
    requires 0 <= progress <= 100 && TotalLaps(laps) > 0
    ensures 0 <= DisplayedLap(progress, laps) <= TotalLaps(laps)
    ensures progress == 100 ==> DisplayedLap(100, laps) == TotalLaps(laps)
    ensures progress == 0 ==> DisplayedLap(0, laps) == 0
  {
    var n := TotalLaps(laps);
    MulMono(progress, 100, n);
    assert progress * n <= 100 * n;
    assert (100 * n) / 100 == n;
    DivMono(progress * n, 100 * n, 100);
  }

  /** The displayed lap never goes backwards as progress grows. */
  lemma LapMonotone(p: int, q: int, laps: Option<int>)
    requires p <= q && TotalLaps(laps) >= 0
    ensures DisplayedLap(p, laps) <= DisplayedLap(q, laps)
  {
    var n := TotalLaps(laps);
    MulMono(p, q, n);
    DivMono(p * n, q * n, 100);
  }

  lemma MulMono(a: int, b: int, n: int)
    requires a <= b && n >= 0
    ensures a * n <= b * n
  {
    assert b * n - a * n == (b - a) * n;
  }

  lemma DivMono(x: int, y: int, d: int)
    requires x <= y && d > 0
    ensures x / d <= y / d
  {
    var qx, qy := x / d, y / d;
    assert d * qx <= x && y < d * qy + d;
    if qx > qy {
      MulMono(qy + 1, qx, d);
      assert false;
    }
  }

  /** The strategy model is asked every fifth lap, from lap 5 on (`currentLap % 5 === 0 && currentLap > 0`). */
  predicate AskModel(lap: int)
  {
    lap > 0 && lap % 5 == 0
  }

  datatype RacePhase = PreRace | RaceStart | MidRace | FinalPhase

  function Rank(p: RacePhase): nat
  {
    match p
    case PreRace => 0
    case RaceStart => 1
    case MidRace => 2
    case FinalPhase => 3
  }

  /** The phase shown for a progress value below 100: under 20, under 70, then the final phase. */
  function PhaseFor(progress: int): (p: RacePhase)
    ensures p != PreRace
    ensures p == RaceStart <==> progress < 20
    ensures p == FinalPhase <==> progress >= 70
  {
    if progress < 20 then RaceStart else if progress < 70 then MidRace else FinalPhase
  }

  /** Phases only move forward as progress grows. */
  lemma PhaseMonotone(p: int, q: int)
    requires p <= q
    ensures Rank(PhaseFor(p)) <= Rank(PhaseFor(q))
  {
  }

  // ---------------------------------------------------------------- default strategies

  /** `{ plannedPitLaps: [15, 38], pitSeconds: 2.5, paceK: 1.0 }`: every car's default, a two-stop race. */
  const TwoStopDefault := NoFields.(plannedPitLaps := Some([15, 38]), pitSeconds := Some(2.5), paceK := Some(1.0))

  function Repeat(v: Strategy, n: nat): (vs: seq<Strategy>)
    ensures |vs| == n && forall j :: 0 <= j < n ==> vs[j] == v
  {
    seq(n, _ => v)
  }

  lemma RepeatAppend(v: Strategy, a: nat, b: nat)
    ensures Repeat(v, a + b) == Repeat(v, a) + Repeat(v, b)
  {
  }

  /** Writing `v` under the ids `a`, then under `b`, is writing it under `a + b`. */
  lemma PutAllRepeat<K(!new)>(acc: Table<K>, a: seq<K>, b: seq<K>, v: Strategy)
    ensures PutAll(acc, a + b, Repeat(v, |a + b|)) == PutAll(PutAll(acc, a, Repeat(v, |a|)), b, Repeat(v, |b|))
  {
    var va, vb := Repeat(v, |a|), Repeat(v, |b|);
    RepeatAppend(v, |a|, |b|);
    PutAllAppend(acc, a, va, b, vb);
    SamePutAll(acc, a + b, Repeat(v, |a + b|), va + vb);
  }

  lemma SamePutAll<K(!new)>(acc: Table<K>, ids: seq<K>, vs: seq<Strategy>, ws: seq<Strategy>)
    requires |ids| == |vs| && vs == ws
    ensures PutAll(acc, ids, vs) == PutAll(acc, ids, ws)
  {
  }

  /** The inner loop: one team's drivers get the default, in driver order. */
  method TeamDefaults(acc: CarTable, ti: nat, team: Team) returns (r: CarTable)
    ensures r == PutAll(acc, GridIds(TeamSlots(ti, team)), Repeat(TwoStopDefault, |team.drivers|))
  {
    r := PutEach(acc, GridIds(TeamSlots(ti, team)), TwoStopDefault);
  }

  /** Writes `v` under each of `ids` in turn. */
  method PutEach<K(==,!new)>(acc: Table<K>, ids: seq<K>, v: Strategy) returns (r: Table<K>)
    ensures r == PutAll(acc, ids, Repeat(v, |ids|))
  {
    r := acc;
    var idx := 0;
    while idx < |ids|
      invariant 0 <= idx <= |ids|
      invariant r == PutAll(acc, ids[..idx], Repeat(v, idx))
    {
      PutAllSnoc(acc, ids[..idx], Repeat(v, idx), ids[idx], v);
      TakeNext(ids, idx);
      RepeatSnoc(v, idx);
      r := Put(r, ids[idx], v);
      idx := idx + 1;
    }
    assert ids[..idx] == ids;
  }

  lemma RepeatSnoc(v: Strategy, n: nat)
    ensures Repeat(v, n) + [v] == Repeat(v, n + 1)
  {
  }

  lemma TakeNext<T>(xs: seq<T>, i: nat)
    requires i < |xs|
    ensures xs[..i + 1] == xs[..i] + [xs[i]]
  {
  }

  /** The table every car starts with: each grid id, in grid order, holding the two-stop default. */
  method DefaultStrategies(teams: seq<Team>) returns (defaults: CarTable)
    ensures defaults == PutAll(EmptyTable(), GridIds(Slots(teams)), Repeat(TwoStopDefault, |Slots(teams)|))
    ensures Valid(defaults)
  {
    defaults := EmptyTable();
    var ti := 0;
    while ti < |teams|
      invariant 0 <= ti <= |teams|
      invariant defaults == PutAll(EmptyTable(), GridIds(Slots(teams[..ti])), Repeat(TwoStopDefault, |Slots(teams[..ti])|))
    {
      var before := Slots(teams[..ti]);
      var mine := TeamSlots(ti, teams[ti]);
      defaults := TeamDefaults(defaults, ti, teams[ti]);
      SlotsStep(teams, ti);
      GridIdsAppend(before, mine);
      PutAllRepeat(EmptyTable(), GridIds(before), GridIds(mine), TwoStopDefault);
      ti := ti + 1;
    }
    assert teams[..ti] == teams;
  }

  /**
   * Every grid id has an entry and nothing else does, every entry is the two-stop
   * default, and with distinct ids the table's key order is the grid order.
   */
  lemma DefaultsShape(teams: seq<Team>)
    ensures var d := PutAll(EmptyTable(), GridIds(Slots(teams)), Repeat(TwoStopDefault, |Slots(teams)|));
      Valid(d)
      && (forall k :: k in d.entries <==> k in GridIds(Slots(teams)))
      && (forall k :: k in d.entries ==> d.entries[k] == TwoStopDefault)
      && (Distinct(GridIds(Slots(teams))) ==> d.keys == GridIds(Slots(teams)))
  {
    var ids, vals := GridIds(Slots(teams)), Repeat(TwoStopDefault, |Slots(teams)|);
    PutAllFrom(EmptyTable(), ids, vals, TwoStopDefault);
    if Distinct(ids) {
      PutAllKeys(ids, vals);
    }
  }

  // ---------------------------------------------------------------- whole-field templates

  /** The three template buttons of the control panel. */
  datatype GridTemplate = SingleStop | DoubleStop | NoStop

  /** The fields a template button writes into every car: pit laps and pit-stop seconds. */
  function TemplatePatch(t: GridTemplate): (p: Strategy)
    ensures p.plannedPitLaps.Some? && p.pitSeconds.Some?
    ensures p == NoFields.(plannedPitLaps := p.plannedPitLaps, pitSeconds := p.pitSeconds)
    ensures t == SingleStop ==> p.plannedPitLaps.value == [20] && p.pitSeconds.value == 2.3
    ensures t == DoubleStop ==> p.plannedPitLaps.value == [15, 38] && p.pitSeconds.value == 2.5
    ensures t == NoStop ==> p.plannedPitLaps.value == [] && p.pitSeconds.value == 0.0
  {
    match t
    case SingleStop => NoFields.(plannedPitLaps := Some([20]), pitSeconds := Some(2.3))
    case DoubleStop => NoFields.(plannedPitLaps := Some([15, 38]), pitSeconds := Some(2.5))
    case NoStop => NoFields.(plannedPitLaps := Some([]), pitSeconds := Some(0.0))
  }

  /** A template button: every existing car gets the template's pit laps and seconds, in place. */
  method ApplyTemplate<K(==,!new)>(prev: Table<K>, t: GridTemplate) returns (copy: Table<K>)
    requires Valid(prev)
    ensures copy == MergeAll(prev, TemplatePatch(t))
  {
    var p := TemplatePatch(t);
    copy := prev;
    var i := 0;
    while i < |prev.keys|
      invariant 0 <= i <= |prev.keys|
      invariant copy.keys == prev.keys && copy.entries.Keys == prev.entries.Keys
      invariant forall k :: k in prev.entries ==>
        copy.entries[k] == if k in prev.keys[..i] then Merge(prev.entries[k], p) else prev.entries[k]
    {
      var id := prev.keys[i];
      assert id !in prev.keys[..i];
      TakeNext(prev.keys, i);
      copy := Put(copy, id, Merge(copy.entries[id], p));
      i := i + 1;
    }
    assert prev.keys[..i] == prev.keys;
    assert copy.entries == MergeAll(prev, p).entries;
  }

  /**
   * After a template button every car has the template's pit laps and seconds and
   * keeps its pace, tyres, fuel and template name; the cars and their order stay.
   */
  lemma TemplateFields(prev: CarTable, t: GridTemplate, id: string)
    requires id in prev.entries
    ensures var s := MergeAll(prev, TemplatePatch(t)).entries[id];
      s.plannedPitLaps == TemplatePatch(t).plannedPitLaps && s.pitSeconds == TemplatePatch(t).pitSeconds
      && s.paceK == prev.entries[id].paceK && s.tyreSequence == prev.entries[id].tyreSequence
      && s.currentTyre == prev.entries[id].currentTyre && s.fuelLoad == prev.entries[id].fuelLoad
      && s.template == prev.entries[id].template
  {
  }

  /** Pressing two template buttons in a row leaves the table as the second one alone would. */
  lemma TemplateLastWins(prev: CarTable, a: GridTemplate, b: GridTemplate)
    ensures MergeAll(MergeAll(prev, TemplatePatch(a)), TemplatePatch(b)) == MergeAll(prev, TemplatePatch(b))
  {
    MergeAllShadow(prev, TemplatePatch(a), TemplatePatch(b));
  }

  /** The two-stop button on the default table changes nothing. */
  lemma DoubleStopOnDefaults(teams: seq<Team>)
    ensures var d := PutAll(EmptyTable(), GridIds(Slots(teams)), Repeat(TwoStopDefault, |Slots(teams)|));
      MergeAll(d, TemplatePatch(DoubleStop)) == d
  {
    DefaultsShape(teams);
    DoubleStopKeeps(PutAll(EmptyTable(), GridIds(Slots(teams)), Repeat(TwoStopDefault, |Slots(teams)|)));
  }

  lemma DoubleStopKeeps<K(!new)>(d: Table<K>)
    requires forall k :: k in d.entries ==> d.entries[k] == TwoStopDefault
    ensures MergeAll(d, TemplatePatch(DoubleStop)) == d
  {
    assert Merge(TwoStopDefault, TemplatePatch(DoubleStop)) == TwoStopDefault;
    assert MergeAll(d, TemplatePatch(DoubleStop)).entries == d.entries;
  }

  // ---------------------------------------------------------------- strategy updates from the model

  /** One entry of `strategyUpdates`: a car id and the fields to spread over its strategy. */
  datatype StrategyUpdate = StrategyUpdate(carId: string, changes: Strategy)

  /** The updates applied one after the other; an update for a car without an entry is skipped. */
  function MergeUpdates<K(!new)>(t: Table<K>, carIds: seq<K>, changes: seq<Strategy>): (r: Table<K>)
    requires |carIds| == |changes|
    ensures r.keys == t.keys && r.entries.Keys == t.entries.Keys
    ensures Valid(t) ==> Valid(r)
    decreases |carIds|
  {
    if carIds == [] then t
    else
      var n := |carIds| - 1;
      var prev := MergeUpdates(t, carIds[..n], changes[..n]);
      if carIds[n] in prev.entries then Put(prev, carIds[n], Merge(prev.entries[carIds[n]], changes[n]))
      else prev
  }

  /** The changes addressed to one car, spread over its strategy in order. */
  function MergeFor<K(==)>(s: Strategy, k: K, carIds: seq<K>, changes: seq<Strategy>): Strategy
    requires |carIds| == |changes|
    decreases |carIds|
  {
    if carIds == [] then s
    else
      var n := |carIds| - 1;
      var prev := MergeFor(s, k, carIds[..n], changes[..n]);
      if carIds[n] == k then Merge(prev, changes[n]) else prev
  }

  /** Each car ends up with exactly its own changes applied, in order: the updates do not interfere. */
  lemma {:induction false} MergeUpdatesAt<K(!new)>(t: Table<K>, carIds: seq<K>, changes: seq<Strategy>, k: K)
    requires |carIds| == |changes| && k in t.entries
    ensures MergeUpdates(t, carIds, changes).entries[k] == MergeFor(t.entries[k], k, carIds, changes)
    decreases |carIds|
  {
    if carIds != [] {
      var n := |carIds| - 1;
      MergeUpdatesAt(t, carIds[..n], changes[..n], k);
    }
  }

  /** A car no update mentions keeps its strategy. */
  lemma {:induction false} MergeForUntouched<K>(s: Strategy, k: K, carIds: seq<K>, changes: seq<Strategy>)
    requires |carIds| == |changes| && k !in carIds
    ensures MergeFor(s, k, carIds, changes) == s
    decreases |carIds|
  {
    if carIds != [] {
      var n := |carIds| - 1;
      assert k !in carIds[..n];
      MergeForUntouched(s, k, carIds[..n], changes[..n]);
    }
  }

  function CarIds(ups: seq<StrategyUpdate>): (ids: seq<string>)
    ensures |ids| == |ups| && forall j :: 0 <= j < |ups| ==> ids[j] == ups[j].carId
  {
    seq(|ups|, j requires 0 <= j < |ups| => ups[j].carId)
  }

  function Changes(ups: seq<StrategyUpdate>): (cs: seq<Strategy>)
    ensures |cs| == |ups| && forall j :: 0 <= j < |ups| ==> cs[j] == ups[j].changes
  {
    seq(|ups|, j requires 0 <= j < |ups| => ups[j].changes)
  }

  /** The `forEach` over the model's updates, on a copy of the table. */
  method ApplyUpdates(prev: CarTable, ups: seq<StrategyUpdate>) returns (updated: CarTable)
    ensures updated == MergeUpdates(prev, CarIds(ups), Changes(ups))
  {
    updated := prev;
    var i := 0;
    while i < |ups|
      invariant 0 <= i <= |ups|
      invariant updated == MergeUpdates(prev, CarIds(ups)[..i], Changes(ups)[..i])
    {
      TakeNext(CarIds(ups), i);
      TakeNext(Changes(ups), i);
      assert CarIds(ups)[..i + 1][..i] == CarIds(ups)[..i];
      assert Changes(ups)[..i + 1][..i] == Changes(ups)[..i];
      var u := ups[i];
      if u.carId in updated.entries {
        updated := Put(updated, u.carId, Merge(updated.entries[u.carId], u.changes));
      }
      i := i + 1;
    }
    assert CarIds(ups)[..i] == CarIds(ups) && Changes(ups)[..i] == Changes(ups);
  }

  // ---------------------------------------------------------------- the safety car

  /** `[...(plannedPitLaps || []), lap + 1]`: one more stop, on the next lap. */
  function WithPit(s: Strategy, lap: int): (r: Strategy)
    ensures r.plannedPitLaps.Some? && r == s.(plannedPitLaps := r.plannedPitLaps)
    ensures s.plannedPitLaps.Some? ==> r.plannedPitLaps.value == s.plannedPitLaps.value + [lap + 1]
    ensures s.plannedPitLaps.None? ==> r.plannedPitLaps.value == [lap + 1]
  {
    s.(plannedPitLaps := Some(s.plannedPitLaps.GetOr([]) + [lap + 1]))
  }

  /** `Object.keys(strategyByCarId).slice(0, 6)`: the first six cars of the table. */
  function Affected<K>(t: Table<K>): (ids: seq<K>)
    ensures |ids| == Min(6, |t.keys|) && ids == t.keys[..|ids|]
  {
    t.keys[..Min(6, |t.keys|)]
  }

  function PitValues<K>(t: Table<K>, lap: int): (vs: seq<Strategy>)
    requires Valid(t)
    ensures |vs| == |Affected(t)|
    ensures forall j :: 0 <= j < |vs| ==> t.keys[j] in t.entries && vs[j] == WithPit(t.entries[t.keys[j]], lap)
  {
    seq(|Affected(t)|, j requires 0 <= j < |Affected(t)| => WithPit(t.entries[t.keys[j]], lap))
  }

  /** The `updates` object the safety car builds from the table it saw. */
  method SafetyUpdates<K(==,!new)>(snapshot: Table<K>, lap: int) returns (updates: Table<K>)
    requires Valid(snapshot)
    ensures updates == PutAll(EmptyTable(), Affected(snapshot), PitValues(snapshot, lap))
  {
    var ids, vals := Affected(snapshot), PitValues(snapshot, lap);
    updates := EmptyTable();
    var i := 0;
    while i < |ids|
      invariant 0 <= i <= |ids|
      invariant updates == PutAll(EmptyTable(), ids[..i], vals[..i])
    {
      SafetyStep(snapshot, lap, i);
      var carId := ids[i];
      updates := Put(updates, carId, WithPit(snapshot.entries[carId], lap));
      i := i + 1;
    }
    assert ids[..i] == ids && vals[..i] == vals;
  }

  /** One more car of the snapshot in the updates object. */
  lemma SafetyStep<K(!new)>(snapshot: Table<K>, lap: int, i: nat)
    requires Valid(snapshot) && i < |Affected(snapshot)|
    ensures var ids, vals := Affected(snapshot), PitValues(snapshot, lap);
      ids[i] in snapshot.entries
      && PutAll(EmptyTable(), ids[..i + 1], vals[..i + 1])
         == Put(PutAll(EmptyTable(), ids[..i], vals[..i]), ids[i], WithPit(snapshot.entries[ids[i]], lap))
  {
    var ids, vals := Affected(snapshot), PitValues(snapshot, lap);
    PutAllSnoc(EmptyTable(), ids[..i], vals[..i], ids[i], vals[i]);
    TakeNext(ids, i);
    TakeNext(vals, i);
  }

  /** The updates hold exactly the first six cars, in order, each with its extra stop. */
  lemma SafetyUpdatesShape<K(!new)>(t: Table<K>, lap: int)
    requires Valid(t)
    ensures var u := PutAll(EmptyTable(), Affected(t), PitValues(t, lap));
      Valid(u) && u.keys == Affected(t) && u.entries.Keys <= t.entries.Keys
      && forall j :: 0 <= j < |Affected(t)| ==> u.entries[t.keys[j]] == WithPit(t.entries[t.keys[j]], lap)
  {
    var ids, vals := Affected(t), PitValues(t, lap);
    assert Distinct(ids);
    PutAllKeys(ids, vals);
    PutAllDistinct(EmptyTable(), ids, vals);
  }

  /** `{...prev, ...updates}`: the table after a safety car on `lap`. */
  function AfterSafetyCar<K(==,!new)>(t: Table<K>, lap: int): (r: Table<K>)
    requires Valid(t)
    ensures Valid(r)
  {
    SafetyUpdatesShape(t, lap);
    Spread(t, PutAll(EmptyTable(), Affected(t), PitValues(t, lap)))
  }

  /** The safety car's two steps: build the updates from the table, then spread them over it. */
  method SafetyCarTable<K(==,!new)>(t: Table<K>, lap: int) returns (r: Table<K>)
    requires Valid(t)
    ensures r == AfterSafetyCar(t, lap)
  {
    var updates := SafetyUpdates(t, lap);
    SafetyUpdatesShape(t, lap);
    r := Spread(t, updates);
  }

  /**
   * After `{...prev, ...updates}` the first six cars have one more stop on the next
   * lap, every other car is unchanged, and the table keeps its cars and their order.
   */
  lemma SafetyCarEffect<K(!new)>(t: Table<K>, lap: int)
    requires Valid(t)
    ensures var r := AfterSafetyCar(t, lap);
      r.keys == t.keys && r.entries.Keys == t.entries.Keys
      && (forall j :: 0 <= j < Min(6, |t.keys|) ==> r.entries[t.keys[j]] == WithPit(t.entries[t.keys[j]], lap))
      && (forall j :: 6 <= j < |t.keys| ==> r.entries[t.keys[j]] == t.entries[t.keys[j]])
  {
    var u := PutAll(EmptyTable(), Affected(t), PitValues(t, lap));
    SafetyUpdatesShape(t, lap);
    SpreadOver(t, u);
    var r := Spread(t, u);
    forall j | 0 <= j < Min(6, |t.keys|) ensures r.entries[t.keys[j]] == WithPit(t.entries[t.keys[j]], lap) {
      assert t.keys[j] in u.entries;
    }
    forall j | 6 <= j < |t.keys| ensures r.entries[t.keys[j]] == t.entries[t.keys[j]] {
      assert t.keys[j] !in Affected(t);
      assert t.keys[j] !in u.entries;
    }
  }

  // ---------------------------------------------------------------- radio and chatter

  /** A line in the other-teams panel. */
  datatype Chatter = Chatter(team: string, driver: string, message: string, teamColor: string, generated: bool)

  /** One entry of the model's `teamRadio`. */
  datatype Radio = Radio(teamName: string, driverName: string, message: string, teamColor: string)

  function RadioLine(r: Radio): Chatter
  {
    Chatter(r.teamName, r.driverName, r.message, r.teamColor, true)
  }

  /** Each line keeps the ten newest lines of the panel and adds itself. */
  function AddLines<T>(ch: seq<T>, lines: seq<T>): seq<T>
    decreases |lines|
  {
    if lines == [] then ch
    else Last(AddLines(ch, lines[..|lines| - 1]), 10) + [lines[|lines| - 1]]
  }

  /** The panel after the model's radio messages, one update per message. */
  function AddRadios(ch: seq<Chatter>, radios: seq<Radio>): seq<Chatter>
  {
    AddLines(ch, Map(RadioLine, radios))
  }

  /**
   * From a panel of at most eleven lines, the panel shows the eleven newest lines of
   * the old panel followed by one line per radio message.
   */
  lemma AddRadiosWindow(ch: seq<Chatter>, radios: seq<Radio>)
    requires |ch| <= 11
    ensures AddRadios(ch, radios) == Last(ch + Map(RadioLine, radios), 11)
  {
    AddLinesNewest(ch, Map(RadioLine, radios));
  }

  lemma {:induction false} AddLinesNewest<T>(ch: seq<T>, lines: seq<T>)
    requires |ch| <= 11
    ensures AddLines(ch, lines) == Last(ch + lines, 11)
    decreases |lines|
  {
    if lines == [] {
      assert ch + lines == ch;
    } else {
      var n := |lines| - 1;
      AddLinesNewest(ch, lines[..n]);
      LastOfLast(ch + lines[..n], 11, 10);
      LastSnoc(ch + lines[..n], lines[n], 10);
      assert ch + lines[..n] + [lines[n]] == ch + lines;
    }
  }

  /** The `teamRadio.forEach`, one state update per message. */
  method RadioLoop(ch: seq<Chatter>, radios: seq<Radio>) returns (r: seq<Chatter>)
    ensures r == AddRadios(ch, radios)
  {
    r := ch;
    var i := 0;
    while i < |radios|
      invariant 0 <= i <= |radios|
      invariant r == AddLines(ch, Map(RadioLine, radios[..i]))
    {
      MapSnoc(RadioLine, radios, i);
      r := Last(r, 10) + [RadioLine(radios[i])];
      i := i + 1;
    }
    assert radios[..i] == radios;
  }

  /** The four lines a team or driver may say in a phase. */
  function PhaseMessages(p: RacePhase, team: string, driver: string): (ms: seq<string>)
    ensures |ms| == 4
  {
    match p
    case PreRace => [driver + ": 车感很好，准备就绪", team + "车队: 天气状况良好，按计划执行",
                     driver + ": 轮胎温度正常", team + "车队: 燃油加载完成"]
    case RaceStart => [driver + ": 起步很好！", team + "车队: 保持位置，注意T1",
                       driver + ": 有超车机会", team + "车队: DRS已激活"]
    case MidRace => [driver + ": 轮胎开始衰退", team + "车队: 准备进站窗口",
                     driver + ": 前面的车在防守", team + "车队: 燃油状况良好"]
    case FinalPhase => [driver + ": 全力推进！", team + "车队: 最后5圈，给我全部！",
                        driver + ": 轮胎还能坚持", team + "车队: 保持专注，胜利在望"]
  }

  /** `t.id !== selectedTeam`: the teams that may chatter, in their order. */
  function OtherTeams(teams: seq<Team>, selected: Option<string>): (others: seq<Team>)
    ensures IsSubseq(others, teams)
    ensures forall t :: t in others <==> t in teams && t.id != selected
  {
    var p := (t: Team) => t.id != selected;
    FilterIff(p, teams);
    FilterIsSubseq(p, teams);
    Filter(p, teams)
  }

  /** The draws of one chatter tick are indices into their pools. */
  predicate ChatterPicks(others: seq<Team>, teamPick: nat, driverPick: nat, msgPick: nat)
  {
    msgPick < 4
    && (|others| > 0 ==>
          teamPick < |others| && (|others[teamPick].drivers| > 0 ==> driverPick < |others[teamPick].drivers|))
  }

  /** The line one chatter tick adds, if any: none when no other team, or the picked team has no driver. */
  function ChatterLine(others: seq<Team>, p: RacePhase, teamPick: nat, driverPick: nat, msgPick: nat): (c: Option<Chatter>)
    requires ChatterPicks(others, teamPick, driverPick, msgPick)
    ensures c.Some? <==> |others| > 0 && |others[teamPick].drivers| > 0
    ensures c.Some? ==>
              c.value.team == others[teamPick].name && c.value.driver == others[teamPick].drivers[driverPick].name
              && c.value.message in PhaseMessages(p, c.value.team, c.value.driver) && !c.value.generated
  {
    if |others| == 0 then None
    else
      var t := others[teamPick];
      if |t.drivers| == 0 then None
      else
        var d := t.drivers[driverPick];
        Some(Chatter(t.name, d.name, PhaseMessages(p, t.name, d.name)[msgPick], t.color, false))
  }

  // ---------------------------------------------------------------- team radio with the selected driver

  datatype CommKind = Instruction | Response | AiResponse
  datatype Comm = Comm(sender: string, message: string, kind: CommKind)

  const ResponseKeys: seq<string> := ["进站", "推进", "防守", "超车", "燃油"]

  /** The three canned answers to each kind of instruction. */
  function Responses(key: string): (rs: seq<string>)
    ensures |rs| == 3
  {
    if key == "进站" then ["收到，准备进站", "轮胎确实需要更换了", "明白，进站"]
    else if key == "防守" then ["明白，保持位置", "我会守住内线", "收到，防守模式"]
    else if key == "超车" then ["看到机会了", "DRS已准备", "我要试试"]
    else if key == "燃油" then ["收到，节省燃油", "明白，调整驾驶", "燃油模式激活"]
    else ["收到，全力推进", "轮胎感觉还不错", "我会尽力的"]
  }

  /** The first key the instruction contains, `推进` when it contains none. */
  function ResponseKey(instruction: string): (key: string)
    ensures key in ResponseKeys
    ensures Contains(instruction, key) || forall k :: k in ResponseKeys ==> !Contains(instruction, k)
    ensures forall j :: 0 <= j < |ResponseKeys| && Contains(instruction, ResponseKeys[j]) ==>
      exists i :: 0 <= i <= j && ResponseKeys[i] == key
  {
    FindFirst(k => Contains(instruction, k), ResponseKeys).GetOr("推进")
  }

  /** Each quick-instruction button gets an answer of its own kind. */
  lemma QuickInstructionKeys()
    ensures ResponseKey("进站") == "进站" && ResponseKey("推进") == "推进" && ResponseKey("防守") == "防守"
    ensures ResponseKey("超车") == "超车"
  {
    SameLength("进站", "进站");
    SameLength("推进", "进站");
    SameLength("推进", "推进");
    SameLength("防守", "进站");
    SameLength("防守", "推进");
    SameLength("防守", "防守");
    SameLength("超车", "进站");
    SameLength("超车", "推进");
    SameLength("超车", "防守");
    SameLength("超车", "超车");
  }

  /** The "节省燃油" (save fuel) button is answered as a fuel instruction. */
  lemma SaveFuelKey()
    ensures ResponseKey("节省燃油") == "燃油"
  {
    var s := "节省燃油";
    assert OccursAt(s, "燃油", 2) by { assert s[2..4] == "燃油"; }
    ContainsIff(s, "燃油");
    NoFirstChar(s, "进站");
    NoFirstChar(s, "推进");
    NoFirstChar(s, "防守");
    NoFirstChar(s, "超车");
  }

  /** Two strings of the same length contain each other only when equal. */
  lemma SameLength(s: string, sub: string)
    requires |s| == |sub|
    ensures Contains(s, sub) <==> s == sub
  {
    if |s| > 0 {
      ShorterNot(s[1..], sub);
    }
  }

  lemma {:induction false} ShorterNot(s: string, sub: string)
    requires |s| < |sub|
    ensures !Contains(s, sub)
    decreases |s|
  {
    if |s| > 0 {
      ShorterNot(s[1..], sub);
    }
  }

  /** A string that lacks the first character of `sub` does not contain `sub`. */
  lemma {:induction false} NoFirstChar(s: string, sub: string)
    requires |sub| > 0 && sub[0] !in s
    ensures !Contains(s, sub)
    decreases |s|
  {
    if |s| > 0 {
      assert s[0] != sub[0];
      assert sub[0] !in s[1..];
      NoFirstChar(s[1..], sub);
    } else {
      assert !IsPrefix(sub, s);
    }
  }

  /** `${team.id}_${team.drivers[0].id}`: the car the selected driver's chat impact is applied to. */
  function DriverCarId(team: Team): string
    requires |team.drivers| > 0
  {
    Show(team.id) + "_" + Show(team.drivers[0].id)
  }

  /** When the team and its first driver have ids, the impact lands on that driver's grid entry. */
  lemma DriverCarIdOnGrid(ti: nat, team: Team)
    requires |team.drivers| > 0 && TruthyStr(team.id) && TruthyStr(team.drivers[0].id)
    ensures DriverCarId(team) == GridId(TeamSlots(ti, team)[0])
  {
  }

  /** Without a driver id the impact goes to a car id no grid entry has. */
  lemma DriverCarIdOffGrid()
    ensures var team := Team(Some("ferrari"), "Ferrari", "#DC0000", [Driver(None, Some(16), "Leclerc")]);
      DriverCarId(team) == "ferrari_undefined" && GridId(TeamSlots(0, team)[0]) == "ferrari_16"
  {
    var team := Team(Some("ferrari"), "Ferrari", "#DC0000", [Driver(None, Some(16), "Leclerc")]);
    assert Dec(16) == "16" by { assert NatStr(16) == "16"; }
  }

  // ---------------------------------------------------------------- race events

  datatype EventKind = YellowFlag | SafetyCar | Incident | WeatherChange

  /** The four events a race may draw, in the order the draw indexes them. */
  const EventKinds: seq<EventKind> := [YellowFlag, SafetyCar, Incident, WeatherChange]

  /** The flag an event shows, and for how many milliseconds. */
  function EventFlag(k: EventKind): (flag: Flag)
    ensures flag == Green <==> k == WeatherChange
  {
    match k
    case YellowFlag => Yellow
    case SafetyCar => Safety
    case Incident => Yellow
    case WeatherChange => Green
  }

  function EventDuration(k: EventKind): (ms: int)
    ensures ms == 0 <==> k == WeatherChange
  {
    match k
    case YellowFlag => 3000
    case SafetyCar => 8000
    case Incident => 5000
    case WeatherChange => 0
  }

  function EventMessage(k: EventKind): string
  {
    match k
    case YellowFlag => "黄旗！赛道上有碎片"
    case SafetyCar => "安全车出动！"
    case Incident => "发生碰撞事故！"
    case WeatherChange => "开始下雨！"
  }

  /** An entry of the race-event log: the lap it happened on and the event. */
  datatype RaceEvent = RaceEvent(lap: int, kind: EventKind)

  // ---------------------------------------------------------------- the screen's state

  /** The track animation's phase, set by the phase buttons: `formation`, `start`, `race`. */
  datatype TrackPhase = Formation | Start | Race

  /** `raceFlag`: `green`, `yellow` or `safety`. */
  datatype Flag = Green | Yellow | Safety

  /** `weatherData`: empty until the strategy screen hands over its weather. */
  datatype Weather = Weather(condition: Option<string>, trackTemp: Option<real>, fuelLoad: Option<real>)

  /** The strategy model's answer: updates per car and radio lines, each possibly missing. */
  datatype LlmResult = LlmResult(strategyUpdates: Option<seq<StrategyUpdate>>, teamRadio: Option<seq<Radio>>)

  /** The driver model's answer; `paceMultiplier` is present when the answer carries a strategy impact. */
  datatype DriverReply = DriverReply(response: string, mood: string, paceMultiplier: Option<real>)

  /** Every state variable of the screen but the strategy table, at once. */
  datatype SessionView = SessionView(
    phase: RacePhase, progress: int, active: bool, comms: seq<Comm>, chatter: seq<Chatter>,
    trackPhase: TrackPhase, gridOrder: seq<string>, showPrep: bool,
    events: seq<RaceEvent>, flag: Flag, weather: Weather, thinking: bool)

  /** The greeting the race engineer sends when the race starts. */
  function Greeting(driver: Driver): Comm
  {
    Comm("车队", driver.name + "，比赛即将开始！保持专注！", Instruction)
  }

  /** The race screen for one selected team and one race. */
  class RaceSession {
    const teams: seq<Team>
    const team: Team
    const selectedTeam: Option<string>
    const laps: Option<int>

    var currentPhase: RacePhase
    var raceProgress: int
    var isRaceActive: bool
    var comms: seq<Comm>
    var chatter: seq<Chatter>
    var trackPhase: TrackPhase
    var gridOrder: seq<string>
    var strategies: CarTable
    var showStrategyPrep: bool
    var raceEvents: seq<RaceEvent>
    var raceFlag: Flag
    var weather: Weather
    var thinking: bool

    function View(): SessionView
      reads this
    {
      SessionView(currentPhase, raceProgress, isRaceActive, comms, chatter, trackPhase, gridOrder,
                  showStrategyPrep, raceEvents, raceFlag, weather, thinking)
    }

    /** Progress is a percentage, the table is well formed, the panel holds at most eleven lines, and the team has a driver. */
    predicate Valid()
      reads this
    {
      0 <= raceProgress <= 100 && Strategies.Valid(strategies) && |chatter| <= 11 && |team.drivers| > 0
    }

    /** The track animates only while the race runs and the strategy screen is closed. */
    predicate TrackActive()
      reads this
    {
      isRaceActive && !showStrategyPrep
    }

    function Lap(): int
      reads this
    {
      DisplayedLap(raceProgress, laps)
    }

    /** The screen's first render: every state variable holds its initial value. */
    constructor (teams: seq<Team>, team: Team, selectedTeam: Option<string>, laps: Option<int>)
      requires |team.drivers| > 0
      ensures Valid()
      ensures this.teams == teams && this.team == team && this.selectedTeam == selectedTeam && this.laps == laps
      ensures strategies == EmptyTable()
      ensures View() == SessionView(PreRace, 0, false, [], [], Start, [], true, [], Green, Weather(None, None, None), false)
    {
      this.teams, this.team, this.selectedTeam, this.laps := teams, team, selectedTeam, laps;
      currentPhase, raceProgress, isRaceActive, comms, chatter, trackPhase := PreRace, 0, false, [], [], Start;
      gridOrder, strategies, showStrategyPrep, raceEvents, raceFlag := [], EmptyTable(), true, [], Green;
      weather, thinking := Weather(None, None, None), false;
    }

    /** The first mount effect: the grid order, every driver of every team, teams first. */
    method GridEffect()
      requires Valid()
      modifies this
      ensures Valid()
      ensures strategies == old(strategies)
      ensures View() == old(View()).(gridOrder := GridIds(Slots(teams)))
    {
      gridOrder := GridOrder(teams);
    }

    /** The second mount effect: the two-stop default for every car of the grid. */
    method DefaultsEffect()
      requires Valid()
      modifies this
      ensures Valid()
      ensures strategies == PutAll(EmptyTable(), GridIds(Slots(teams)), Repeat(TwoStopDefault, |Slots(teams)|))
      ensures View() == old(View())
    {
      strategies := DefaultStrategies(teams);
    }

    /** One second of race: one percent more, the race stops at 100 %. */
    method ProgressTick()
      requires Valid()
      modifies this
      ensures Valid()
      ensures strategies == old(strategies)
      ensures !old(isRaceActive) ==> View() == old(View())
      ensures old(isRaceActive) && old(raceProgress) + 1 >= 100 ==>
                View() == old(View()).(progress := 100, active := false, phase := FinalPhase)
      ensures old(isRaceActive) && old(raceProgress) + 1 < 100 ==>
                View() == old(View()).(progress := old(raceProgress) + 1, phase := PhaseFor(old(raceProgress) + 1))
    {
      if isRaceActive {
        var next := raceProgress + 1;
        if next >= 100 {
          isRaceActive, currentPhase, raceProgress := false, FinalPhase, 100;
        } else {
          currentPhase, raceProgress := PhaseFor(next), next;
        }
      }
    }

    /** Another team says something, every four seconds while the race runs. */
    method ChatterTick(teamPick: nat, driverPick: nat, msgPick: nat)
      requires Valid()
      requires ChatterPicks(OtherTeams(teams, selectedTeam), teamPick, driverPick, msgPick)
      modifies this
      ensures Valid()
      ensures strategies == old(strategies)
      ensures var c := ChatterLine(OtherTeams(teams, selectedTeam), old(currentPhase), teamPick, driverPick, msgPick);
        View() == if old(isRaceActive) && c.Some? then old(View()).(chatter := Last(old(chatter), 8) + [c.value])
                  else old(View())
    {
      if isRaceActive {
        var c := ChatterLine(OtherTeams(teams, selectedTeam), currentPhase, teamPick, driverPick, msgPick);
        if c.Some? {
          chatter := Last(chatter, 8) + [c.value];
        }
      }
    }

    /** The eight-second strategy tick: on every fifth lap the model's updates and radio lines are applied. */
    method LlmTick(result: Option<LlmResult>)
      requires Valid()
      modifies this
      ensures Valid()
      ensures var asked := old(isRaceActive) && !old(showStrategyPrep) && AskModel(DisplayedLap(old(raceProgress), laps))
                           && result.Some?;
        strategies == (if asked && result.value.strategyUpdates.Some?
                          then MergeUpdates(old(strategies), CarIds(result.value.strategyUpdates.value),
                                            Changes(result.value.strategyUpdates.value))
                          else old(strategies))
        && View() == old(View()).(chatter := if asked && result.value.teamRadio.Some?
                                             then AddRadios(old(chatter), result.value.teamRadio.value)
                                             else old(chatter))
    {
      if isRaceActive && !showStrategyPrep && AskModel(Lap()) && result.Some? {
        if result.value.strategyUpdates.Some? {
          strategies := ApplyUpdates(strategies, result.value.strategyUpdates.value);
        }
        if result.value.teamRadio.Some? {
          AddRadiosWindow(chatter, result.value.teamRadio.value);
          chatter := RadioLoop(chatter, result.value.teamRadio.value);
        }
      }
    }

    /**
     * The twelve-second event tick: with a draw below 0.05 an event is logged, its
     * flag shown, and a safety car adds a stop to the first six cars.
     */
    method EventTick(draw: real, pick: nat)
      requires Valid() && pick < 4
      modifies this
      ensures Valid()
      ensures !(old(isRaceActive) && !old(showStrategyPrep) && draw < 0.05) ==>
                View() == old(View()) && strategies == old(strategies)
      ensures old(isRaceActive) && !old(showStrategyPrep) && draw < 0.05 ==>
                var kind, lap := EventKinds[pick], DisplayedLap(old(raceProgress), laps);
                View() == old(View()).(events := old(raceEvents) + [RaceEvent(lap, kind)],
                                       flag := if kind != WeatherChange then EventFlag(kind) else old(raceFlag))
                && strategies == if kind == SafetyCar then AfterSafetyCar(old(strategies), lap) else old(strategies)
    {
      if isRaceActive && !showStrategyPrep && draw < 0.05 {
        var lap := Lap();
        var kind := EventKinds[pick];
        raceEvents := raceEvents + [RaceEvent(lap, kind)];
        if EventFlag(kind) != Green {
          raceFlag := EventFlag(kind);
        }
        if kind == SafetyCar {
          strategies := SafetyCarTable(strategies, lap);
        }
      }
    }

    /** The timer an event with a flag starts: the flag goes back to green. */
    method FlagTimeout()
      requires Valid()
      modifies this
      ensures Valid()
      ensures strategies == old(strategies)
      ensures View() == old(View()).(flag := Green)
    {
      raceFlag := Green;
    }

    method StartRace()
      requires Valid()
      modifies this
      ensures Valid()
      ensures strategies == old(strategies)
      ensures View() == old(View()).(active := true, progress := 0, phase := PreRace, trackPhase := Formation,
                                     comms := [Greeting(team.drivers[0])])
    {
      isRaceActive, raceProgress, currentPhase, trackPhase, comms := true, 0, PreRace, Formation, [Greeting(team.drivers[0])];
    }

    method PauseRace()
      requires Valid()
      modifies this
      ensures Valid()
      ensures strategies == old(strategies)
      ensures View() == old(View()).(active := false)
    {
      isRaceActive := false;
    }

    /** The play/pause button. */
    method PlayPause()
      requires Valid()
      modifies this
      ensures Valid()
      ensures strategies == old(strategies)
      ensures old(isRaceActive) ==> View() == old(View()).(active := false)
      ensures !old(isRaceActive) ==>
        View() == old(View()).(active := true, progress := 0, phase := PreRace, trackPhase := Formation,
                               comms := [Greeting(team.drivers[0])])
    {
      if isRaceActive {
        PauseRace();
      } else {
        StartRace();
      }
    }

    /** Back to the start with the strategy screen open; the grid, strategies and weather stay. */
    method ResetRace()
      requires Valid()
      modifies this
      ensures Valid()
      ensures unchanged(`strategies, `gridOrder, `weather, `thinking)
      ensures !isRaceActive && raceProgress == 0 && currentPhase == PreRace && trackPhase == Formation
      ensures comms == [] && chatter == [] && showStrategyPrep && raceEvents == [] && raceFlag == Green
    {
      isRaceActive, raceProgress, currentPhase, trackPhase := false, 0, PreRace, Formation;
      comms, chatter, showStrategyPrep, raceEvents, raceFlag := [], [], true, [], Green;
    }

    /** The strategy screen's hand-over: its table, grid and weather replace the screen's own. */
    method HandleStrategyComplete(prep: PrepResult)
      requires Valid() && Strategies.Valid(prep.strategies)
      modifies this
      ensures Valid()
      ensures strategies == prep.strategies
      ensures View() == old(View()).(gridOrder := prep.gridOrder,
                                     weather := Weather(Some(prep.weatherCondition), Some(prep.trackTemp), Some(prep.fuelLoad)),
                                     showPrep := false, trackPhase := Formation)
    {
      strategies, gridOrder := prep.strategies, prep.gridOrder;
      weather := Weather(Some(prep.weatherCondition), Some(prep.trackTemp), Some(prep.fuelLoad));
      showStrategyPrep, trackPhase := false, Formation;
    }

    /** The phase buttons of the control panel. */
    method SetTrackPhase(p: TrackPhase)
      requires Valid()
      modifies this
      ensures Valid()
      ensures strategies == old(strategies)
      ensures View() == old(View()).(trackPhase := p)
    {
      trackPhase := p;
    }

    /** A template button applied to every car of the table. */
    method ApplyGridTemplate(tpl: GridTemplate)
      requires Valid()
      modifies this
      ensures Valid()
      ensures View() == old(View()) && strategies == MergeAll(old(strategies), TemplatePatch(tpl))
    {
      strategies := ApplyTemplate(strategies, tpl);
    }

    method SendTeamInstruction(instruction: string)
      requires Valid()
      modifies this
      ensures Valid()
      ensures strategies == old(strategies)
      ensures View() == old(View()).(comms := old(comms) + [Comm("车队", instruction, Instruction)])
    {
      comms := comms + [Comm("车队", instruction, Instruction)];
    }

    /** A quick-instruction button: the instruction goes out with the "指令: " prefix. */
    method QuickInstruction(button: string)
      requires Valid()
      modifies this
      ensures Valid()
      ensures strategies == old(strategies)
      ensures View() == old(View()).(comms := old(comms) + [Comm("车队", "指令: " + button, Instruction)])
    {
      SendTeamInstruction("指令: " + button);
    }

    /** The canned answer that arrives 1.5 s after a quick instruction; `pick` is the random choice. */
    method DriverResponds(instruction: string, pick: nat)
      requires Valid() && pick < 3
      modifies this
      ensures Valid()
      ensures strategies == old(strategies)
      ensures View() == old(View()).(comms := old(comms) +
                [Comm(team.drivers[0].name, Responses(ResponseKey(instruction))[pick], Response)])
    {
      comms := comms + [Comm(team.drivers[0].name, Responses(ResponseKey(instruction))[pick], Response)];
    }

    /** A message to the driver model is on its way. */
    method BeginUserInput()
      requires Valid()
      modifies this
      ensures Valid()
      ensures strategies == old(strategies)
      ensures View() == old(View()).(thinking := true)
    {
      thinking := true;
    }

    /**
     * The driver model answered (`Some`) or the request failed (`None`): the answer is
     * shown, and a strategy impact scales the pace of the car keyed `${team.id}_${driver.id}`.
     */
    method FinishUserInput(reply: Option<DriverReply>)
      requires Valid()
      modifies this
      ensures Valid()
      ensures reply.None? ==> View() == old(View()).(thinking := false) && strategies == old(strategies)
      ensures reply.Some? ==>
        View() == old(View()).(thinking := false,
                               comms := old(comms) + [Comm(team.drivers[0].name, reply.value.response, AiResponse)])
        && strategies == if reply.value.paceMultiplier.Some?
                         then ScalePace(old(strategies), DriverCarId(team), reply.value.paceMultiplier.value)
                         else old(strategies)
    {
      if reply.Some? {
        comms := comms + [Comm(team.drivers[0].name, reply.value.response, AiResponse)];
        if reply.value.paceMultiplier.Some? {
          strategies := ScalePace(strategies, DriverCarId(team), reply.value.paceMultiplier.value);
        }
      }
      thinking := false;
    }
  }
}
