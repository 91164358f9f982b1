/**
 * The strategy-preparation screen: it lists every car of the field, shuffles them
 * into a starting grid, gives each car a default strategy by its grid position,
 * lets the user edit one car or re-template all of them, and on "start" hands the
 * race screens a six-field strategy per car and the grid order.
 * The random numbers the screen draws (the shuffle, pit-stop seconds, pace and
 * fuel jitter) are parameters.
 */
module StrategyPrep {
  import opened Wrappers
  import opened Teams
  import opened Strategies

  // ---------------------------------------------------------------- templates

  /** What a template prescribes: the pit laps, one tyre per stint, and the pace factor. */
  datatype TemplateSpec = TemplateSpec(pitLaps: seq<int>, tyres: seq<Tyre>, paceK: real)

  /** The four strategy templates of the screen. */
  function TemplateOf(k: TemplateKey): (t: TemplateSpec)
    ensures |t.tyres| == |t.pitLaps| + 1
    ensures forall i :: 0 <= i < |t.pitLaps| ==> 0 < t.pitLaps[i] < 57
    ensures forall i, j :: 0 <= i < j < |t.pitLaps| ==> t.pitLaps[i] < t.pitLaps[j]
    ensures 0.9 < t.paceK < 1.1
  {
    match k
    case Aggressive => TemplateSpec([12, 35], [Soft, Soft, Medium], 1.08)
    case Conservative => TemplateSpec([18, 42], [Medium, Medium, Hard], 0.98)
    case OneStop => TemplateSpec([28], [Medium, Hard], 1.02)
    case Undercut => TemplateSpec([14, 32], [Soft, Medium, Hard], 1.06)
  }

  /** The template a car starts with, by its grid index: the first six attack, the next six defend, the rest stop once. */
  function DefaultTemplate(index: nat): (k: TemplateKey)
    ensures k == Aggressive <==> index < 6
    ensures k == Conservative <==> 6 <= index < 12
    ensures k == OneStop <==> 12 <= index
  {
    if index < 6 then Aggressive else if index < 12 then Conservative else OneStop
  }

  // ---------------------------------------------------------------- the car list

  /** One entry of the grid list. */
  datatype PrepCar = PrepCar(
    id: string,
    driverId: Option<string>,
    number: Option<int>,
    name: string,
    teamName: string,
    teamColor: string,
    isSelectedTeam: bool)

  /** The list entry of one driver: the shared car id, and whether the team is the user's (`team.id === selectedTeamKey`). */
  function CarOf(s: Slot, selected: Option<string>): (c: PrepCar)
    ensures c.id == TeamIdOrName(s.team) + "_" + DriverKey(s.driver, s.idx)
    ensures c.isSelectedTeam <==> s.team.id == selected
    ensures c.driverId == s.driver.id && c.number == s.driver.number && c.name == s.driver.name
    ensures c.teamName == s.team.name && c.teamColor == s.team.color
  {
    PrepCar(GridId(s), s.driver.id, s.driver.number, s.driver.name, s.team.name, s.team.color, s.team.id == selected)
  }

  function PrepCars(slots: seq<Slot>, selected: Option<string>): (cars: seq<PrepCar>)
    ensures |cars| == |slots|
    ensures forall k :: 0 <= k < |slots| ==> cars[k] == CarOf(slots[k], selected)
  {
    seq(|slots|, k requires 0 <= k < |slots| => CarOf(slots[k], selected))
  }

  lemma PrepCarsAppend(a: seq<Slot>, b: seq<Slot>, selected: Option<string>)
    ensures PrepCars(a + b, selected) == PrepCars(a, selected) + PrepCars(b, selected)
  {
    var l, r := PrepCars(a + b, selected), PrepCars(a, selected) + PrepCars(b, selected);
    forall k | 0 <= k < |l| ensures l[k] == r[k] {
      if k < |a| {
        assert (a + b)[k] == a[k];
      } else {
        assert (a + b)[k] == b[k - |a|];
      }
    }
  }

  /** The car ids of a list of cars, in order (`cars.map(car => car.id)`). */
  function Ids(cars: seq<PrepCar>): (ids: seq<string>)
    ensures |ids| == |cars|
    ensures forall k :: 0 <= k < |cars| ==> ids[k] == cars[k].id
  {
    seq(|cars|, k requires 0 <= k < |cars| => cars[k].id)
  }

  /** The screen's car ids are the ids the race screens build for the same drivers. */
  lemma CarIdsAreGridIds(slots: seq<Slot>, selected: Option<string>)
    ensures Ids(PrepCars(slots, selected)) == GridIds(slots)
  {
  }

  /** The inner loop: one team's drivers, in order. */
  method TeamCars(ti: nat, team: Team, selected: Option<string>) returns (cars: seq<PrepCar>)
    ensures cars == PrepCars(TeamSlots(ti, team), selected)
  {
    cars := [];
    var idx := 0;
    while idx < |team.drivers|
      invariant 0 <= idx <= |team.drivers|
      invariant |cars| == idx
      invariant forall k :: 0 <= k < idx ==> cars[k] == CarOf(Slot(ti, team, team.drivers[k], k), selected)
    {
      cars := cars + [CarOf(Slot(ti, team, team.drivers[idx], idx), selected)];
      idx := idx + 1;
    }
  }

  /** Every team's drivers, teams in order: the list before it is shuffled. */
  method BuildCars(teams: seq<Team>, selected: Option<string>) returns (cars: seq<PrepCar>)
    ensures cars == PrepCars(Slots(teams), selected)
  {
    cars := [];
    var ti := 0;
    while ti < |teams|
      invariant 0 <= ti <= |teams|
      invariant cars == PrepCars(Slots(teams[..ti]), selected)
    {
      var more := TeamCars(ti, teams[ti], selected);
      SlotsStep(teams, ti);
      PrepCarsAppend(Slots(teams[..ti]), TeamSlots(ti, teams[ti]), selected);
      cars := cars + more;
      ti := ti + 1;
    }
    assert teams[..ti] == teams;
  }

  // ---------------------------------------------------------------- shuffling

  /** `order` lists every index of an `n`-element list exactly once: what a shuffle draws. */
  predicate IsPermutation(order: seq<nat>, n: nat)
  {
    |order| == n && (forall i :: 0 <= i < n ==> order[i] < n) && (forall j :: 0 <= j < n ==> j in order)
  }

  /** The list rearranged so that its `i`-th element becomes the `order[i]`-th of the input. */
  function Permute<T>(xs: seq<T>, order: seq<nat>): (r: seq<T>)
    requires forall i :: 0 <= i < |order| ==> order[i] < |xs|
    ensures |r| == |order|
    ensures forall i :: 0 <= i < |order| ==> r[i] == xs[order[i]]
  {
    seq(|order|, i requires 0 <= i < |order| => xs[order[i]])
  }

  /** A shuffle keeps the length and exactly the same elements. */
  lemma PermuteSame<T>(xs: seq<T>, order: seq<nat>)
    requires IsPermutation(order, |xs|)
    ensures |Permute(xs, order)| == |xs|
    ensures forall x :: x in Permute(xs, order) <==> x in xs
  {
    var r := Permute(xs, order);
    forall x | x in xs ensures x in r {
      var j :| 0 <= j < |xs| && xs[j] == x;
      assert j in order;
      var i :| 0 <= i < |order| && order[i] == j;
      assert r[i] == x;
    }
  }

  // ---------------------------------------------------------------- default strategies

  /** The three random numbers drawn for one car: pit-stop seconds, pace jitter, fuel jitter. */
  datatype Draw = Draw(pit: real, pace: real, fuel: real)

  /** A `Math.random()` value. */
  predicate InUnit(x: real) { 0.0 <= x < 1.0 }

  /**
   * The default strategy of the car at grid index `index` for the current fuel load:
   * the template's pit laps and tyres, starting on its first tyre, with a pit stop of
   * 2.3 to 2.7 s, the template's pace give or take 0.025, and the fuel load give or take 2.5.
   */
  function DefaultStrategy(index: nat, d: Draw, fuelLoad: real): (s: Strategy)
    ensures s.template == Some(DefaultTemplate(index))
    ensures s.plannedPitLaps == Some(TemplateOf(DefaultTemplate(index)).pitLaps)
    ensures s.tyreSequence == Some(TemplateOf(DefaultTemplate(index)).tyres)
    ensures s.currentTyre == Some(TemplateOf(DefaultTemplate(index)).tyres[0])
    ensures s.pitSeconds.Some? && s.paceK.Some? && s.fuelLoad.Some?
    ensures InUnit(d.pit) ==> 2.3 <= s.pitSeconds.value < 2.7
    ensures InUnit(d.pace) ==>
      TemplateOf(DefaultTemplate(index)).paceK - 0.025 <= s.paceK.value < TemplateOf(DefaultTemplate(index)).paceK + 0.025
    ensures InUnit(d.fuel) ==> fuelLoad - 2.5 <= s.fuelLoad.value < fuelLoad + 2.5
  {
    var k := DefaultTemplate(index);
    var t := TemplateOf(k);
    Strategy(Some(k), Some(t.pitLaps), Some(2.3 + d.pit * 0.4), Some(t.paceK + (d.pace - 0.5) * 0.05),
      Some(t.tyres), Some(t.tyres[0]), Some(fuelLoad + (d.fuel - 0.5) * 5.0))
  }

  function DefaultValues(draws: seq<Draw>, fuelLoad: real): (vs: seq<Strategy>)
    ensures |vs| == |draws|
    ensures forall i :: 0 <= i < |draws| ==> vs[i] == DefaultStrategy(i, draws[i], fuelLoad)
  {
    seq(|draws|, i requires 0 <= i < |draws| => DefaultStrategy(i, draws[i], fuelLoad))
  }

  /** `defaultStrategies[car.id] = …` for each car of the shuffled grid, in grid order. */
  function DefaultTable(grid: seq<PrepCar>, draws: seq<Draw>, fuelLoad: real): CarTable
    requires |draws| == |grid|
  {
    PutAll(EmptyTable(), Ids(grid), DefaultValues(draws, fuelLoad))
  }

  /** The loop that fills the default table. */
  method InitialStrategies(grid: seq<PrepCar>, draws: seq<Draw>, fuelLoad: real) returns (t: CarTable)
    requires |draws| == |grid|
    ensures t == DefaultTable(grid, draws, fuelLoad)
  {
    t := EmptyTable();
    var i := 0;
    while i < |grid|
      invariant 0 <= i <= |grid|
      invariant t == PutAll(EmptyTable(), Ids(grid)[..i], DefaultValues(draws, fuelLoad)[..i])
    {
      PutAllSnoc(EmptyTable(), Ids(grid)[..i], DefaultValues(draws, fuelLoad)[..i], grid[i].id, DefaultStrategy(i, draws[i], fuelLoad));
      TakeNext(Ids(grid), i);
      TakeNext(DefaultValues(draws, fuelLoad), i);
      t := Put(t, grid[i].id, DefaultStrategy(i, draws[i], fuelLoad));
      i := i + 1;
    }
    assert Ids(grid)[..i] == Ids(grid) && DefaultValues(draws, fuelLoad)[..i] == DefaultValues(draws, fuelLoad);
  }

  lemma TakeNext<T>(xs: seq<T>, i: nat)
    requires i < |xs|
    ensures xs[..i + 1] == xs[..i] + [xs[i]]
  {
  }

  /**
   * Every car of the grid has a default and nothing else does; with distinct car ids
   * the table lists the cars in grid order and the car at grid index `i` holds the
   * default for index `i`, so the first six cars are aggressive.
   */
  lemma DefaultsEffect(grid: seq<PrepCar>, draws: seq<Draw>, fuelLoad: real)
    requires |draws| == |grid|
    ensures Valid(DefaultTable(grid, draws, fuelLoad))
    ensures forall k :: k in DefaultTable(grid, draws, fuelLoad).entries <==> k in Ids(grid)
    ensures Distinct(Ids(grid)) ==> DefaultTable(grid, draws, fuelLoad).keys == Ids(grid)
    ensures Distinct(Ids(grid)) ==> forall i :: 0 <= i < |grid| ==>
      DefaultTable(grid, draws, fuelLoad).entries[grid[i].id] == DefaultStrategy(i, draws[i], fuelLoad)
  {
    if Distinct(Ids(grid)) {
      PutAllKeys(Ids(grid), DefaultValues(draws, fuelLoad));
      PutAllDistinct(EmptyTable(), Ids(grid), DefaultValues(draws, fuelLoad));
    }
  }

  // ---------------------------------------------------------------- editing one car

  /** `{...prev, [carId]: {...prev[carId], ...updates}}`: patches one car, creating its entry if it had none. */
  function UpdateCar(t: CarTable, carId: string, updates: Strategy): (r: CarTable)
    ensures Valid(t) ==> Valid(r)
    ensures r.keys == if carId in t.entries then t.keys else t.keys + [carId]
    ensures r.entries.Keys == t.entries.Keys + {carId}
    ensures forall k :: k in t.entries && k != carId ==> r.entries[k] == t.entries[k]
  {
    Put(t, carId, Merge(EntryOr(t, carId), updates))
  }

  /** The edited car takes exactly the fields the patch sets and keeps every other one it had. */
  lemma UpdateCarFields(t: CarTable, carId: string, p: Strategy)
    ensures var s, e := UpdateCar(t, carId, p).entries[carId], EntryOr(t, carId);
      s.template == Override(e.template, p.template)
      && s.plannedPitLaps == Override(e.plannedPitLaps, p.plannedPitLaps)
      && s.pitSeconds == Override(e.pitSeconds, p.pitSeconds)
      && s.paceK == Override(e.paceK, p.paceK)
      && s.tyreSequence == Override(e.tyreSequence, p.tyreSequence)
      && s.currentTyre == Override(e.currentTyre, p.currentTyre)
      && s.fuelLoad == Override(e.fuelLoad, p.fuelLoad)
  {
  }

  /** Two edits of the same car are one edit with the second patch spread over the first. */
  lemma UpdateCarTwice(t: CarTable, carId: string, p: Strategy, q: Strategy)
    ensures UpdateCar(UpdateCar(t, carId, p), carId, q) == UpdateCar(t, carId, Merge(p, q))
  {
    var e := EntryOr(t, carId);
    assert EntryOr(UpdateCar(t, carId, p), carId) == Merge(e, p);
    assert Merge(Merge(e, p), q) == Merge(e, Merge(p, q));
    PutTwice(t, carId, Merge(e, p), Merge(e, Merge(p, q)));
  }

  /** Picking a template for one car: its name, pit laps, tyres and the template's exact pace. */
  function ChoicePatch(k: TemplateKey): (p: Strategy)
    ensures p.template == Some(k) && p.plannedPitLaps == Some(TemplateOf(k).pitLaps)
    ensures p.paceK == Some(TemplateOf(k).paceK) && p.tyreSequence == Some(TemplateOf(k).tyres)
    ensures p.pitSeconds.None? && p.currentTyre.None? && p.fuelLoad.None?
  {
    var t := TemplateOf(k);
    NoFields.(template := Some(k), plannedPitLaps := Some(t.pitLaps), paceK := Some(t.paceK), tyreSequence := Some(t.tyres))
  }

  /**
   * Choosing a template for one car leaves its current tyre, pit-stop time and fuel as
   * they were; so a car that started on softs keeps them after switching to a template
   * whose first tyre is the medium.
   */
  lemma ChoiceKeepsTyre(t: CarTable, carId: string, k: TemplateKey)
    ensures UpdateCar(t, carId, ChoicePatch(k)).entries[carId].currentTyre == EntryOr(t, carId).currentTyre
    ensures UpdateCar(t, carId, ChoicePatch(k)).entries[carId].pitSeconds == EntryOr(t, carId).pitSeconds
    ensures UpdateCar(t, carId, ChoicePatch(k)).entries[carId].fuelLoad == EntryOr(t, carId).fuelLoad
  {
    UpdateCarFields(t, carId, ChoicePatch(k));
  }

  /** An aggressive default switched to the conservative template starts on a tyre that is not its sequence's first. */
  lemma ChoiceTyreMismatch(carId: string, d: Draw, fuelLoad: real)
    ensures var t := UpdateCar(Put(EmptyTable(), carId, DefaultStrategy(0, d, fuelLoad)), carId, ChoicePatch(Conservative));
      t.entries[carId].currentTyre == Some(Soft) && t.entries[carId].tyreSequence.value[0] == Medium
  {
    var t0 := Put(EmptyTable(), carId, DefaultStrategy(0, d, fuelLoad));
    assert EntryOr(t0, carId) == DefaultStrategy(0, d, fuelLoad);
    UpdateCarFields(t0, carId, ChoicePatch(Conservative));
  }

  // ---------------------------------------------------------------- one template for every car

  /** The fields a template button writes into a car, with its own pace jitter `r`. */
  function TemplatePatch(k: TemplateKey, r: real): (p: Strategy)
    ensures p.template == Some(k) && p.plannedPitLaps == Some(TemplateOf(k).pitLaps)
    ensures p.tyreSequence == Some(TemplateOf(k).tyres) && p.currentTyre == Some(TemplateOf(k).tyres[0])
    ensures p.pitSeconds.None? && p.fuelLoad.None? && p.paceK.Some?
    ensures InUnit(r) ==> TemplateOf(k).paceK - 0.015 <= p.paceK.value < TemplateOf(k).paceK + 0.015
  {
    var t := TemplateOf(k);
    Strategy(Some(k), Some(t.pitLaps), None, Some(t.paceK + (r - 0.5) * 0.03), Some(t.tyres), Some(t.tyres[0]), None)
  }

  function RetemplateValues<K>(t: Table<K>, k: TemplateKey, jitter: seq<real>): (vs: seq<Strategy>)
    requires Valid(t) && |jitter| == |t.keys|
    ensures |vs| == |t.keys|
    ensures forall j :: 0 <= j < |t.keys| ==> vs[j] == Merge(t.entries[t.keys[j]], TemplatePatch(k, jitter[j]))
  {
    seq(|t.keys|, j requires 0 <= j < |t.keys| => Merge(t.entries[t.keys[j]], TemplatePatch(k, jitter[j])))
  }

  /** The new table a template button builds: each existing car, in key order, patched by the template. */
  function Retemplated<K(==,!new)>(t: Table<K>, k: TemplateKey, jitter: seq<real>): Table<K>
    requires Valid(t) && |jitter| == |t.keys|
  {
    PutAll(EmptyTable(), t.keys, RetemplateValues(t, k, jitter))
  }

  /** A table rebuilt key by key onto `{}` has the same keys in the same order, each with its new value. */
  lemma Rebuilt<K(!new)>(t: Table<K>, vals: seq<Strategy>)
    requires Valid(t) && |vals| == |t.keys|
    ensures PutAll(EmptyTable(), t.keys, vals).keys == t.keys
    ensures PutAll(EmptyTable(), t.keys, vals).entries.Keys == t.entries.Keys
    ensures forall j :: 0 <= j < |t.keys| ==> PutAll(EmptyTable(), t.keys, vals).entries[t.keys[j]] == vals[j]
  {
    PutAllKeys(t.keys, vals);
    PutAllDistinct(EmptyTable(), t.keys, vals);
  }

  /**
   * What a template button makes of one car: the template's name, pit laps and tyres,
   * its first tyre, the template's pace give or take 0.015, and the car's own pit-stop
   * time and fuel load.
   */
  predicate Retemplate(s: Strategy, before: Strategy, k: TemplateKey, r: real)
  {
    s.template == Some(k) && s.plannedPitLaps == Some(TemplateOf(k).pitLaps)
    && s.tyreSequence == Some(TemplateOf(k).tyres) && s.currentTyre == Some(TemplateOf(k).tyres[0])
    && s.pitSeconds == before.pitSeconds && s.fuelLoad == before.fuelLoad && s.paceK.Some?
    && (InUnit(r) ==> TemplateOf(k).paceK - 0.015 <= s.paceK.value < TemplateOf(k).paceK + 0.015)
  }

  lemma MergeTemplate(before: Strategy, k: TemplateKey, r: real)
    ensures Retemplate(Merge(before, TemplatePatch(k, r)), before, k, r)
  {
  }

  /** After a template button the cars and their order are the same, and every car is re-templated. */
  lemma RetemplateEffect<K(!new)>(t: Table<K>, k: TemplateKey, jitter: seq<real>)
    requires Valid(t) && |jitter| == |t.keys|
    ensures Retemplated(t, k, jitter).keys == t.keys
    ensures Retemplated(t, k, jitter).entries.Keys == t.entries.Keys
    ensures forall j :: 0 <= j < |t.keys| ==>
      Retemplate(Retemplated(t, k, jitter).entries[t.keys[j]], t.entries[t.keys[j]], k, jitter[j])
  {
    var vals := RetemplateValues(t, k, jitter);
    Rebuilt(t, vals);
    forall j | 0 <= j < |t.keys|
      ensures Retemplate(Retemplated(t, k, jitter).entries[t.keys[j]], t.entries[t.keys[j]], k, jitter[j])
    {
      MergeTemplate(t.entries[t.keys[j]], k, jitter[j]);
    }
  }

  /** `acc` holds the first `i` keys and values rebuilt onto `{}`. */
  predicate Rebuilding<K(==,!new)>(keys: seq<K>, vals: seq<Strategy>, i: nat, acc: Table<K>)
  {
    i <= |keys| == |vals| && acc == PutAll(EmptyTable(), keys[..i], vals[..i])
  }

  lemma RebuildDone<K(!new)>(keys: seq<K>, vals: seq<Strategy>, acc: Table<K>)
    requires Rebuilding(keys, vals, |keys|, acc)
    ensures acc == PutAll(EmptyTable(), keys, vals)
  {
    assert keys[..|keys|] == keys && vals[..|keys|] == vals;
  }

  /** One step of a rebuild onto `{}`: `acc[keys[i]] = v`. */
  method PutStep<K(==,!new)>(keys: seq<K>, vals: seq<Strategy>, i: nat, acc: Table<K>, v: Strategy) returns (next: Table<K>)
    requires i < |keys| == |vals| && v == vals[i]
    requires Rebuilding(keys, vals, i, acc)
    ensures Rebuilding(keys, vals, i + 1, next)
  {
    PutAllSnoc(EmptyTable(), keys[..i], vals[..i], keys[i], v);
    TakeNext(keys, i);
    TakeNext(vals, i);
    next := Put(acc, keys[i], v);
  }

  /** One step of the template button: `updated[id] = {...strategies[id], ...template}`. */
  method RetemplateStep<K(==,!new)>(t: Table<K>, k: TemplateKey, jitter: seq<real>, vals: seq<Strategy>, i: nat, acc: Table<K>)
    returns (next: Table<K>)
    requires Valid(t) && |jitter| == |t.keys| && i < |t.keys|
    requires vals == RetemplateValues(t, k, jitter)
    requires Rebuilding(t.keys, vals, i, acc)
    ensures Rebuilding(t.keys, vals, i + 1, next)
  {
    var id := t.keys[i];
    next := PutStep(t.keys, vals, i, acc, Merge(t.entries[id], TemplatePatch(k, jitter[i])));
  }

  /** The loop of the template button. */
  method ApplyTemplate<K(==,!new)>(t: Table<K>, k: TemplateKey, jitter: seq<real>) returns (updated: Table<K>)
    requires Valid(t) && |jitter| == |t.keys|
    ensures updated == Retemplated(t, k, jitter)
  {
    var vals := RetemplateValues(t, k, jitter);
    updated := EmptyTable();
    for i := 0 to |t.keys|
      invariant Rebuilding(t.keys, vals, i, updated)
    {
      updated := RetemplateStep(t, k, jitter, vals, i, updated);
    }
    RebuildDone(t.keys, vals, updated);
  }

  // ---------------------------------------------------------------- hand-over to the race

  /** The six fields a car takes into the race: everything but the template's name. */
  function Project(s: Strategy): (p: Strategy)
    ensures p.template.None?
    ensures p.(template := s.template) == s
  {
    Strategy(None, s.plannedPitLaps, s.pitSeconds, s.paceK, s.tyreSequence, s.currentTyre, s.fuelLoad)
  }

  function ProjectValues<K>(t: Table<K>): (vs: seq<Strategy>)
    requires Valid(t)
    ensures |vs| == |t.keys|
    ensures forall j :: 0 <= j < |t.keys| ==> vs[j] == Project(t.entries[t.keys[j]])
  {
    seq(|t.keys|, j requires 0 <= j < |t.keys| => Project(t.entries[t.keys[j]]))
  }

  /** `finalStrategies`, built key by key onto `{}`. */
  function Finalized<K(==,!new)>(t: Table<K>): Table<K>
    requires Valid(t)
  {
    PutAll(EmptyTable(), t.keys, ProjectValues(t))
  }

  /** The race receives the same cars in the same order, each with its strategy minus the template name. */
  lemma FinalizedEffect<K(!new)>(t: Table<K>)
    requires Valid(t)
    ensures Finalized(t).keys == t.keys && Finalized(t).entries.Keys == t.entries.Keys
    ensures forall k :: k in t.entries ==> Finalized(t).entries[k] == t.entries[k].(template := None)
  {
    Rebuilt(t, ProjectValues(t));
    forall k | k in t.entries ensures Finalized(t).entries[k] == t.entries[k].(template := None) {
      var j :| 0 <= j < |t.keys| && t.keys[j] == k;
    }
  }

  /** The loop of the start button. */
  method FinalStrategies<K(==,!new)>(t: Table<K>) returns (r: Table<K>)
    requires Valid(t)
    ensures r == Finalized(t)
  {
    var vals := ProjectValues(t);
    r := EmptyTable();
    for i := 0 to |t.keys|
      invariant Rebuilding(t.keys, vals, i, r)
    {
      r := PutStep(t.keys, vals, i, r, Project(t.entries[t.keys[i]]));
    }
    RebuildDone(t.keys, vals, r);
  }

  // ---------------------------------------------------------------- the screen

  datatype PrepView = PrepView(
    strategies: CarTable,
    gridOrder: seq<PrepCar>,
    weatherCondition: string,
    trackTemp: real,
    fuelLoad: real,
    selectedCarForEdit: Option<string>)

  class PrepScreen {
    /** The roster (`None` when the screen gets no teams) and the user's team id. */
    const teams: Option<seq<Team>>
    const selectedTeamKey: Option<string>

    var strategies: CarTable
    var gridOrder: seq<PrepCar>
    var weatherCondition: string
    var trackTemp: real
    var fuelLoad: real
    var selectedCarForEdit: Option<string>

    function View(): PrepView
      reads this
    {
      PrepView(strategies, gridOrder, weatherCondition, trackTemp, fuelLoad, selectedCarForEdit)
    }

    predicate Valid()
      reads this
    {
      Strategies.Valid(strategies)
    }

    /** The car being edited, when the edit panel is shown: a truthy id with an entry. */
    predicate Editing()
      reads this
    {
      selectedCarForEdit.Some? && selectedCarForEdit.value != "" && selectedCarForEdit.value in strategies.entries
    }

    /** The initial state: no strategies, no grid, dry, 42 degrees, 110 kg, nothing selected. */
    constructor (teams: Option<seq<Team>>, selectedTeamKey: Option<string>)
      ensures Valid()
      ensures this.teams == teams && this.selectedTeamKey == selectedTeamKey
      ensures View() == PrepView(EmptyTable(), [], "dry", 42.0, 110.0, None)
    {
      this.teams := teams;
      this.selectedTeamKey := selectedTeamKey;
      strategies, gridOrder := EmptyTable(), [];
      weatherCondition, trackTemp, fuelLoad := "dry", 42.0, 110.0;
      selectedCarForEdit := None;
    }

    /**
     * The effect that runs on mount and whenever the fuel load changes: with no teams
     * nothing happens; otherwise the field's cars, shuffled by `order`, become the grid,
     * and each gets the default strategy of its grid index, drawn with `draws`.
     */
    method InitEffect(order: seq<nat>, draws: seq<Draw>)
      requires Valid()
      requires teams.Some? ==> IsPermutation(order, |Slots(teams.value)|) && |draws| == |order|
      modifies this
      ensures teams.None? ==> View() == old(View())
      ensures teams.Some? ==>
        gridOrder == Permute(PrepCars(Slots(teams.value), selectedTeamKey), order)
        && strategies == DefaultTable(gridOrder, draws, fuelLoad)
      ensures Valid()
      ensures weatherCondition == old(weatherCondition) && trackTemp == old(trackTemp)
      ensures fuelLoad == old(fuelLoad) && selectedCarForEdit == old(selectedCarForEdit)
    {
      if teams.None? {
        return;
      }
      var cars := BuildCars(teams.value, selectedTeamKey);
      var shuffled := Permute(cars, order);
      var defaults := InitialStrategies(shuffled, draws, fuelLoad);
      gridOrder, strategies := shuffled, defaults;
    }

    method SetWeather(w: string)
      modifies this
      ensures View() == old(View()).(weatherCondition := w)
    {
      weatherCondition := w;
    }

    method SetTrackTemp(v: real)
      modifies this
      ensures View() == old(View()).(trackTemp := v)
    {
      trackTemp := v;
    }

    /** Changes the fuel load; the mount effect (`InitEffect`) then runs again. */
    method SetFuelLoad(v: real)
      modifies this
      ensures View() == old(View()).(fuelLoad := v)
    {
      fuelLoad := v;
    }

    method SelectCarForEdit(carId: string)
      modifies this
      ensures View() == old(View()).(selectedCarForEdit := Some(carId))
    {
      selectedCarForEdit := Some(carId);
    }

    /** `updateCarStrategy(carId, updates)`. */
    method UpdateCarStrategy(carId: string, updates: Strategy)
      requires Valid()
      modifies this
      ensures Valid()
      ensures View() == old(View()).(strategies := UpdateCar(old(strategies), carId, updates))
    {
      strategies := UpdateCar(strategies, carId, updates);
    }

    /** The edit panel's template selector; the panel exists only while a car is being edited. */
    method ChooseTemplate(k: TemplateKey)
      requires Valid()
      modifies this
      ensures Valid()
      ensures old(Editing()) ==>
        View() == old(View()).(strategies := UpdateCar(old(strategies), old(selectedCarForEdit.value), ChoicePatch(k)))
      ensures !old(Editing()) ==> View() == old(View())
    {
      if Editing() {
        strategies := UpdateCar(strategies, selectedCarForEdit.value, ChoicePatch(k));
      }
    }

    /** The pit-stop seconds slider of the edit panel. */
    method SetPitSeconds(v: real)
      requires Valid()
      modifies this
      ensures Valid()
      ensures old(Editing()) ==>
        View() == old(View()).(strategies := UpdateCar(old(strategies), old(selectedCarForEdit.value), NoFields.(pitSeconds := Some(v))))
      ensures !old(Editing()) ==> View() == old(View())
    {
      if Editing() {
        strategies := UpdateCar(strategies, selectedCarForEdit.value, NoFields.(pitSeconds := Some(v)));
      }
    }

    /** The pace slider of the edit panel. */
    method SetPaceK(v: real)
      requires Valid()
      modifies this
      ensures Valid()
      ensures old(Editing()) ==>
        View() == old(View()).(strategies := UpdateCar(old(strategies), old(selectedCarForEdit.value), NoFields.(paceK := Some(v))))
      ensures !old(Editing()) ==> View() == old(View())
    {
      if Editing() {
        strategies := UpdateCar(strategies, selectedCarForEdit.value, NoFields.(paceK := Some(v)));
      }
    }

    /** `applyTemplateToAll(k)`, one pace jitter per car. */
    method ApplyTemplateToAll(k: TemplateKey, jitter: seq<real>)
      requires Valid() && |jitter| == |strategies.keys|
      modifies this
      ensures Valid()
      ensures View() == old(View()).(strategies := Retemplated(old(strategies), k, jitter))
    {
      var updated := ApplyTemplate(strategies, k, jitter);
      RetemplateEffect(strategies, k, jitter);
      strategies := updated;
    }

    /** The random-grid button: the grid is reshuffled, the strategies stay with their cars. */
    method RandomizeGrid(order: seq<nat>)
      requires IsPermutation(order, |gridOrder|)
      modifies this
      ensures View() == old(View()).(gridOrder := Permute(old(gridOrder), order))
    {
      gridOrder := Permute(gridOrder, order);
    }

    /** The start button: what the race screens receive. */
    method StartRace() returns (result: PrepResult)
      requires Valid()
      ensures result == PrepResult(Finalized(strategies), Ids(gridOrder), weatherCondition, trackTemp, fuelLoad)
    {
      var finalStrategies := FinalStrategies(strategies);
      result := PrepResult(finalStrategies, Ids(gridOrder), weatherCondition, trackTemp, fuelLoad);
    }
  }
}
