/**
 * Teams and drivers as the roster data supplies them, and the order in which every
 * component walks them: teams in insertion order, then each team's drivers.
 * JavaScript falsiness is explicit: an absent id is `None`, an empty id `Some("")`,
 * an absent or zero number `None` / `Some(0)`; an empty name stands for a missing one.
 */
module Teams {
  import opened Wrappers
  import opened Text

  datatype Driver = Driver(id: Option<string>, number: Option<int>, name: string)
  datatype Team = Team(id: Option<string>, name: string, color: string, drivers: seq<Driver>)

  /** The `idx`-th driver of the team at position `teamIndex`. */
  datatype Slot = Slot(teamIndex: nat, team: Team, driver: Driver, idx: nat)

  predicate TruthyStr(o: Option<string>) { o.Some? && o.value != "" }
  predicate TruthyNum(o: Option<int>) { o.Some? && o.value != 0 }

  /** `${x}` of an optional string: an absent value prints as `undefined`. */
  function Show(o: Option<string>): (r: string)
    ensures o.Some? ==> r == o.value
  {
    if o.Some? then o.value else "undefined"
  }

  /** `${x}` of an optional number. */
  function ShowNum(o: Option<int>): (r: string)
    ensures o.Some? ==> r == Dec(o.value)
  {
    if o.Some? then Dec(o.value) else "undefined"
  }

  /** `driver.id || driver.number || idx`, rendered in a template literal. */
  function DriverKey(d: Driver, idx: nat): (r: string)
    ensures TruthyStr(d.id) ==> r == d.id.value
    ensures !TruthyStr(d.id) && TruthyNum(d.number) ==> r == Dec(d.number.value)
    ensures !TruthyStr(d.id) && !TruthyNum(d.number) ==> r == NatStr(idx)
  {
    if TruthyStr(d.id) then d.id.value
    else if TruthyNum(d.number) then Dec(d.number.value)
    else Dec(idx)
  }

  /** The drivers of one team, in order. */
  function TeamSlots(teamIndex: nat, team: Team): (r: seq<Slot>)
    ensures |r| == |team.drivers|
    ensures forall j :: 0 <= j < |r| ==> r[j] == Slot(teamIndex, team, team.drivers[j], j)
  {
    seq(|team.drivers|, j requires 0 <= j < |team.drivers| => Slot(teamIndex, team, team.drivers[j], j))
  }

  /** Every driver of every team, teams first. */
  function Slots(teams: seq<Team>): seq<Slot>
  {
    if teams == [] then []
    else Slots(teams[..|teams| - 1]) + TeamSlots(|teams| - 1, teams[|teams| - 1])
  }

  function DriverCount(teams: seq<Team>): nat
  {
    if teams == [] then 0 else DriverCount(teams[..|teams| - 1]) + |teams[|teams| - 1].drivers|
  }

  /** Walking one more team appends its drivers. */
  lemma SlotsStep(teams: seq<Team>, ti: nat)
    requires ti < |teams|
    ensures Slots(teams[..ti + 1]) == Slots(teams[..ti]) + TeamSlots(ti, teams[ti])
  {
    assert teams[..ti + 1][..ti] == teams[..ti];
  }

  /** One slot per driver, and each slot is a real (team, driver) pair of the input. */
  lemma {:induction false} SlotsShape(teams: seq<Team>)
    ensures |Slots(teams)| == DriverCount(teams)
    ensures forall k :: 0 <= k < |Slots(teams)| ==>
      var s := Slots(teams)[k];
      s.teamIndex < |teams| && s.team == teams[s.teamIndex]
      && s.idx < |s.team.drivers| && s.driver == s.team.drivers[s.idx]
  {
    if teams != [] {
      var init := teams[..|teams| - 1];
      SlotsShape(init);
      forall k | 0 <= k < |Slots(init)|
        ensures Slots(init)[k].teamIndex < |teams| && Slots(init)[k].team == teams[Slots(init)[k].teamIndex]
      {
        assert teams[Slots(init)[k].teamIndex] == init[Slots(init)[k].teamIndex];
      }
    }
  }

  /** `team.id || team.name`. */
  function TeamIdOrName(t: Team): (r: string)
    ensures TruthyStr(t.id) ==> r == t.id.value
    ensures !TruthyStr(t.id) ==> r == t.name
  {
    if TruthyStr(t.id) then t.id.value else t.name
  }

  /** `${teamId}_${driver.id || driver.number || idx}`: the car id used by the grid and the strategy table. */
  function GridId(s: Slot): string
  {
    TeamIdOrName(s.team) + "_" + DriverKey(s.driver, s.idx)
  }

  /** The car ids of a run of slots, in order. */
  function GridIds(slots: seq<Slot>): (ids: seq<string>)
    ensures |ids| == |slots|
    ensures forall k :: 0 <= k < |slots| ==> ids[k] == GridId(slots[k])
  {
    seq(|slots|, k requires 0 <= k < |slots| => GridId(slots[k]))
  }

  lemma GridIdsAppend(a: seq<Slot>, b: seq<Slot>)
    ensures GridIds(a + b) == GridIds(a) + GridIds(b)
  {
    var l, r := GridIds(a + b), GridIds(a) + GridIds(b);
    forall k | 0 <= k < |l| ensures l[k] == r[k] {
      if k < |a| {
        assert (a + b)[k] == a[k];
      } else {
        assert (a + b)[k] == b[k - |a|];
      }
    }
  }

  /** The inner loop of the grid: the car ids of one team's drivers. */
  method TeamGridIds(ti: nat, team: Team) returns (ids: seq<string>)
    ensures ids == GridIds(TeamSlots(ti, team))
  {
    ids := [];
    var idx := 0;
    while idx < |team.drivers|
      invariant 0 <= idx <= |team.drivers|
      invariant |ids| == idx
      invariant forall k :: 0 <= k < idx ==> ids[k] == GridId(Slot(ti, team, team.drivers[k], k))
    {
      ids := ids + [GridId(Slot(ti, team, team.drivers[idx], idx))];
      idx := idx + 1;
    }
  }

  /** Every driver's car id, teams in order and each team's drivers in order. */
  method GridOrder(teams: seq<Team>) returns (ids: seq<string>)
    ensures ids == GridIds(Slots(teams))
  {
    ids := [];
    var ti := 0;
    while ti < |teams|
      invariant 0 <= ti <= |teams|
      invariant ids == GridIds(Slots(teams[..ti]))
    {
      var more := TeamGridIds(ti, teams[ti]);
      SlotsStep(teams, ti);
      GridIdsAppend(Slots(teams[..ti]), TeamSlots(ti, teams[ti]));
      ids := ids + more;
      ti := ti + 1;
    }
    assert teams[..ti] == teams;
  }

  /** The grid holds one id per driver, made of its team's id (or name) and its driver key. */
  lemma GridCovers(teams: seq<Team>)
    ensures |GridIds(Slots(teams))| == DriverCount(teams)
    ensures forall k :: 0 <= k < |Slots(teams)| ==>
      var s := Slots(teams)[k];
      s.teamIndex < |teams| && s.idx < |teams[s.teamIndex].drivers|
      && GridIds(Slots(teams))[k] == TeamIdOrName(teams[s.teamIndex]) + "_" + DriverKey(teams[s.teamIndex].drivers[s.idx], s.idx)
  {
    SlotsShape(teams);
  }
}
