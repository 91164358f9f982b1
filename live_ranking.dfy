/**
 * The live ranking panel: it keeps a short history of the classifications it is
 * shown, works out who gained or lost places since the previous one, and derives
 * each row's labels (status, tyre percentage, name, gap) and the race progress bar.
 * The three-second timer that clears the change badges is an explicit method.
 */
module LiveRanking {
  import opened Wrappers
  import opened Text
  import opened Lists
  import Teams
  import JsMath

  /** One row of a classification, as far as the panel reads it. */
  datatype Entry = Entry(
    id: string,
    position: int,
    number: Option<int>,
    name: Option<string>,
    lap: Option<int>,
    gapSeconds: Option<real>,
    tyreWear: Option<real>,
    fuelLevel: Option<real>)

  predicate DistinctIds(s: seq<Entry>)
  {
    forall i, j :: 0 <= i < j < |s| ==> s[i].id != s[j].id
  }

  // ---------------------------------------------------------------- position changes

  /** `previous.find(p => p.id === id)`. */
  function FindEntry(prev: seq<Entry>, id: string): (r: Option<Entry>)
    ensures r.None? <==> forall i :: 0 <= i < |prev| ==> prev[i].id != id
    ensures r.Some? ==> r.value.id == id
    ensures r.Some? ==> exists k :: 0 <= k < |prev| && prev[k] == r.value && forall j :: 0 <= j < k ==> prev[j].id != id
  {
    FindFirst((e: Entry) => e.id == id, prev)
  }

  /** The change recorded for one driver: places gained since the previous snapshot, when non-zero. */
  function Changed(prev: seq<Entry>, d: Entry): (c: Option<int>)
    ensures c.Some? <==> FindEntry(prev, d.id).Some? && FindEntry(prev, d.id).value.position != d.position
    ensures c.Some? ==> c.value == FindEntry(prev, d.id).value.position - d.position && c.value != 0
  {
    var p := FindEntry(prev, d.id);
    if p.Some? && p.value.position - d.position != 0 then Some(p.value.position - d.position) else None
  }

  /** The `changes` object after walking the current snapshot in order. */
  function Changes(prev: seq<Entry>, cur: seq<Entry>): (m: map<string, int>)
    ensures forall k :: k in m ==> m[k] != 0
    decreases |cur|
  {
    if cur == [] then map[]
    else
      var n := |cur| - 1;
      var c := Changed(prev, cur[n]);
      if c.Some? then Changes(prev, cur[..n])[cur[n].id := c.value] else Changes(prev, cur[..n])
  }

  /** Only drivers present in both snapshots are recorded. */
  lemma {:induction false} ChangesPresent(prev: seq<Entry>, cur: seq<Entry>, k: string)
    requires k in Changes(prev, cur)
    ensures FindEntry(prev, k).Some?
    ensures exists i :: 0 <= i < |cur| && cur[i].id == k
    decreases |cur|
  {
    var n := |cur| - 1;
    if !(cur[n].id == k && Changed(prev, cur[n]).Some?) {
      ChangesPresent(prev, cur[..n], k);
      var i :| 0 <= i < n && cur[..n][i].id == k;
      assert cur[i].id == k;
    }
  }

  /** A driver missing from the current snapshot is not recorded. */
  lemma {:induction false} ChangesAbsent(prev: seq<Entry>, cur: seq<Entry>, k: string)
    requires forall i :: 0 <= i < |cur| ==> cur[i].id != k
    ensures k !in Changes(prev, cur)
    decreases |cur|
  {
    if cur != [] {
      var n := |cur| - 1;
      assert forall i :: 0 <= i < n ==> cur[..n][i].id != k;
      ChangesAbsent(prev, cur[..n], k);
    }
  }

  /**
   * With distinct ids, a driver of the current snapshot has an entry exactly when it
   * was also in the previous one at another position, and the entry is the number of
   * places it gained (negative when it lost places).
   */
  lemma {:induction false} ChangesAt(prev: seq<Entry>, cur: seq<Entry>, i: nat)
    requires DistinctIds(cur) && i < |cur|
    ensures cur[i].id in Changes(prev, cur) <==> Changed(prev, cur[i]).Some?
    ensures cur[i].id in Changes(prev, cur) ==> Changes(prev, cur)[cur[i].id] == Changed(prev, cur[i]).value
    decreases |cur|
  {
    var n := |cur| - 1;
    if i < n {
      assert DistinctIds(cur[..n]);
      ChangesAt(prev, cur[..n], i);
      assert cur[..n][i] == cur[i];
    } else {
      assert forall j :: 0 <= j < n ==> cur[..n][j].id != cur[i].id;
      ChangesAbsent(prev, cur[..n], cur[i].id);
    }
  }

  /** When no driver has a change, nothing is recorded. */
  lemma {:induction false} ChangesNone(prev: seq<Entry>, cur: seq<Entry>)
    requires forall i :: 0 <= i < |cur| ==> Changed(prev, cur[i]).None?
    ensures Changes(prev, cur) == map[]
    decreases |cur|
  {
    if cur != [] {
      var n := |cur| - 1;
      assert forall i :: 0 <= i < n ==> cur[..n][i] == cur[i];
      ChangesNone(prev, cur[..n]);
    }
  }

  /** A classification compared with itself records no change. */
  lemma NoChangeWhenSame(s: seq<Entry>)
    requires DistinctIds(s)
    ensures Changes(s, s) == map[]
  {
    forall i | 0 <= i < |s| ensures Changed(s, s[i]).None? {
      var f := FindEntry(s, s[i].id);
      var k :| 0 <= k < |s| && s[k] == f.value && forall j :: 0 <= j < k ==> s[j].id != s[i].id;
      assert s[k].id == s[i].id;
      assert !(i < k);
      assert k == i;
    }
    ChangesNone(s, s);
  }

  /** The `forEach` that fills `changes`. */
  method Diff(previous: seq<Entry>, current: seq<Entry>) returns (changes: map<string, int>)
    ensures changes == Changes(previous, current)
  {
    changes := map[];
    var i := 0;
    while i < |current|
      invariant 0 <= i <= |current|
      invariant changes == Changes(previous, current[..i])
    {
      var driver := current[i];
      assert current[..i + 1][..i] == current[..i];
      var prevDriver := FindEntry(previous, driver.id);
      if prevDriver.Some? {
        var change := prevDriver.value.position - driver.position;
        if change != 0 {
          changes := changes[driver.id := change];
        }
      }
      i := i + 1;
    }
    assert current[..i] == current;
  }

  // ---------------------------------------------------------------- change badges

  datatype Badge = Badge(text: string, color: string)

  /** `getPositionChangeIcon`: nothing for a missing or zero change, a green `+n` for places gained, a red `-n` for places lost. */
  function ChangeBadge(changes: map<string, int>, id: string): (b: Option<Badge>)
    ensures b.None? <==> id !in changes || changes[id] == 0
    ensures b.Some? && changes[id] > 0 ==> b.value == Badge("+" + NatStr(changes[id]), "#4CAF50")
    ensures b.Some? && changes[id] < 0 ==> b.value == Badge("-" + NatStr(-changes[id]), "#F44336")
  {
    if id !in changes || changes[id] == 0 then None
    else if changes[id] > 0 then Some(Badge("+" + Dec(changes[id]), "#4CAF50"))
    else Some(Badge(Dec(changes[id]), "#F44336"))
  }

  /** Every recorded change shows a badge, and its sign says whether the driver gained or lost places. */
  lemma EveryChangeShows(prev: seq<Entry>, cur: seq<Entry>, id: string)
    requires id in Changes(prev, cur)
    ensures ChangeBadge(Changes(prev, cur), id).Some?
    ensures ChangeBadge(Changes(prev, cur), id).value.text[0] == if Changes(prev, cur)[id] > 0 then '+' else '-'
  {
  }

  // ---------------------------------------------------------------- the panel state

  class RankingPanel {
    var rankingHistory: seq<seq<Entry>>
    var positionChanges: map<string, int>

    /** The history never holds more than eleven snapshots. */
    predicate Valid()
      reads this
    {
      |rankingHistory| <= 11
    }

    constructor ()
      ensures Valid()
      ensures rankingHistory == [] && positionChanges == map[]
    {
      rankingHistory, positionChanges := [], map[];
    }

    /**
     * The effect on a new classification. An empty one changes nothing. Otherwise the
     * history becomes its last ten snapshots plus the new one; when there was a previous
     * snapshot the badges are replaced by the changes since it, and those changes are
     * returned for the timer that clears them three seconds later.
     */
    method OnClassification(classification: seq<Entry>) returns (toClear: Option<map<string, int>>)
      requires Valid()
      modifies this
      ensures Valid()
      ensures classification == [] ==>
        rankingHistory == old(rankingHistory) && positionChanges == old(positionChanges) && toClear.None?
      ensures classification != [] ==> rankingHistory == Last(old(rankingHistory), 10) + [classification]
      ensures classification != [] && old(rankingHistory) != [] ==>
        var previous := old(rankingHistory)[|old(rankingHistory)| - 1];
        positionChanges == Changes(previous, classification) && toClear == Some(positionChanges)
      ensures classification != [] && old(rankingHistory) == [] ==>
        positionChanges == old(positionChanges) && toClear.None?
    {
      toClear := None;
      if |classification| == 0 {
        return;
      }
      var newHistory := Last(rankingHistory, 10) + [classification];
      if |newHistory| >= 2 {
        // the snapshot before the new one is the last of the old history
        var changes := Diff(rankingHistory[|rankingHistory| - 1], classification);
        positionChanges := changes;
        toClear := Some(changes);
      }
      rankingHistory := newHistory;
    }

    /** The timer three seconds after a diff: the ids it recorded lose their badge, whatever their value now. */
    method ClearChanges(changes: map<string, int>)
      modifies this
      ensures rankingHistory == old(rankingHistory)
      ensures positionChanges == old(positionChanges) - changes.Keys
    {
      positionChanges := positionChanges - changes.Keys;
    }
  }

  // ---------------------------------------------------------------- driver status

  /** One race event as the panel reads it. */
  datatype RaceEvent = RaceEvent(id: int, eventType: string, affectedDrivers: Option<seq<string>>, lap: int, message: string)

  /** `e.affectedDrivers && e.affectedDrivers.includes(id)`: an empty list is truthy but names nobody. */
  predicate Names(e: RaceEvent, id: string)
  {
    e.affectedDrivers.Some? && id in e.affectedDrivers.value
  }

  datatype Status = Status(status: string, color: string)

  predicate TyreWorn(d: Entry) { d.tyreWear.Some? && d.tyreWear.value > 0.8 }
  predicate FuelLow(d: Entry) { d.fuelLevel.Some? && d.fuelLevel.value < 0.2 }

  /**
   * `getDriverStatus`: the earliest of the last five events that names the driver wins
   * (red for an incident, orange otherwise); then worn tyres (orange), then low fuel
   * (red); otherwise the driver is normal (green).
   */
  function DriverStatus(events: seq<RaceEvent>, d: Entry): (s: Status)
    ensures var recent := Last(events, 5);
      (exists i :: 0 <= i < |recent| && Names(recent[i], d.id)) ==>
        exists i :: 0 <= i < |recent| && Names(recent[i], d.id) && (forall j :: 0 <= j < i ==> !Names(recent[j], d.id))
          && s == Status(recent[i].eventType, if recent[i].eventType == "incident" then "#F44336" else "#FF9800")
    ensures var recent := Last(events, 5);
      (forall i :: 0 <= i < |recent| ==> !Names(recent[i], d.id)) ==>
        s == if TyreWorn(d) then Status("轮胎衰减", "#FF9800")
             else if FuelLow(d) then Status("燃油紧张", "#F44336")
             else Status("正常", "#4CAF50")
  {
    var e := FindFirst((e: RaceEvent) => Names(e, d.id), Last(events, 5));
    if e.Some? then Status(e.value.eventType, if e.value.eventType == "incident" then "#F44336" else "#FF9800")
    else if TyreWorn(d) then Status("轮胎衰减", "#FF9800")
    else if FuelLow(d) then Status("燃油紧张", "#F44336")
    else Status("正常", "#4CAF50")
  }

  /** An event older than the last five never decides the status. */
  lemma OldEventsIgnored(events: seq<RaceEvent>, e: RaceEvent, d: Entry)
    requires |events| >= 5
    ensures DriverStatus([e] + events, d) == DriverStatus(events, d)
  {
    assert Last([e] + events, 5) == Last(events, 5);
  }

  /** Only the last three events are listed. */
  function ShownEvents(events: seq<RaceEvent>): (r: seq<RaceEvent>)
    ensures |r| == Min(3, |events|)
    ensures events == events[..|events| - |r|] + r
  {
    Last(events, 3)
  }

  // ---------------------------------------------------------------- row labels

  /** The tyre percentage, `Math.round((1 - (tyreWear || 0)) * 100)`. */
  function TyreLabel(tyreWear: Option<real>): (n: int)
    ensures tyreWear.None? ==> n == 100
    ensures tyreWear.Some? && 0.0 <= tyreWear.value <= 1.0 ==> 0 <= n <= 100
  {
    JsMath.Round((1.0 - (if tyreWear.Some? then tyreWear.value else 0.0)) * 100.0)
  }

  /** More wear never shows a higher percentage. */
  lemma TyreLabelMonotone(a: real, b: real)
    requires a <= b
    ensures TyreLabel(Some(b)) <= TyreLabel(Some(a))
  {
    JsMath.RoundMonotone((1.0 - b) * 100.0, (1.0 - a) * 100.0);
  }

  /** The progress bar, `currentLap / totalLaps * 100`; `None` when there are no laps (a non-finite value). */
  function ProgressValue(currentLap: int, totalLaps: int): (v: Option<real>)
    ensures v.None? <==> totalLaps == 0
    ensures v.Some? && 0 <= currentLap <= totalLaps ==> 0.0 <= v.value <= 100.0
    ensures v.Some? && currentLap == totalLaps ==> v.value == 100.0
  {
    if totalLaps == 0 then None else Some(currentLap as real / totalLaps as real * 100.0)
  }

  lemma ProgressMonotone(a: int, b: int, totalLaps: int)
    requires a <= b && totalLaps > 0
    ensures ProgressValue(a, totalLaps).value <= ProgressValue(b, totalLaps).value
  {
    var t := totalLaps as real;
    assert a as real / t <= b as real / t;
  }

  /** `s.split(' ').pop()`: what follows the last space (all of `s` when it has none). */
  function LastWord(s: string): (r: string)
    ensures ' ' !in r
    ensures |r| <= |s| && r == s[|s| - |r|..]
    ensures |r| < |s| ==> s[|s| - |r| - 1] == ' '
  {
    if s == [] || s[|s| - 1] == ' ' then []
    else LastWord(s[..|s| - 1]) + [s[|s| - 1]]
  }

  /** The name shown: the last word of the name, or `Driver <index+1>` when that is missing or empty. */
  function NameLabel(name: Option<string>, index: nat): (r: string)
    ensures r != ""
    ensures name.Some? && name.value != "" && name.value[|name.value| - 1] != ' ' ==> r == LastWord(name.value)
    ensures name.None? ==> r == "Driver " + NatStr(index + 1)
  {
    var w := if name.Some? then LastWord(name.value) else "";
    if w != "" then w else "Driver " + NatStr(index + 1)
  }

  /** `#${driver.number || index + 1}`. */
  function NumberLabel(number: Option<int>, index: nat): (r: string)
    ensures Teams.TruthyNum(number) ==> r == "#" + Dec(number.value)
    ensures !Teams.TruthyNum(number) ==> r == "#" + NatStr(index + 1)
  {
    "#" + if Teams.TruthyNum(number) then Dec(number.value) else NatStr(index + 1)
  }

  /** `driver.id.includes(selectedTeamKey)`: an absent key is searched for as the text `undefined`. */
  predicate IsSelectedTeam(id: string, selectedTeamKey: Option<string>)
  {
    Contains(id, Teams.Show(selectedTeamKey))
  }

  /** A car whose id starts with the selected team's id is highlighted. */
  lemma OwnCarHighlighted(id: string, key: string)
    requires IsPrefix(key, id)
    ensures IsSelectedTeam(id, Some(key))
  {
  }

  datatype GapLabel = Leader | Behind(seconds: real)

  /** `position === 1 ? 'LEADER' : +gap`, a missing gap showing as zero. */
  function Gap(position: int, gapSeconds: Option<real>): (g: GapLabel)
    ensures g == Leader <==> position == 1
    ensures g.Behind? ==> g.seconds == gapSeconds.GetOr(0.0)
  {
    if position == 1 then Leader else Behind(gapSeconds.GetOr(0.0))
  }

  /** The panel's top three badges: position at most 3. */
  predicate IsTop3(d: Entry) { d.position <= 3 }
}
