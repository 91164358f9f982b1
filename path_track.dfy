/**
 * The animation engine behind the race view: a roster of cars built from the teams,
 * one state per car advanced along a closed path on every animation frame, and the
 * ordered telemetry handed back to the race screen.
 *
 * Geometry (path length, points, angles) comes from the rendering surface and enters
 * as parameters: the path length `L`, and for every car the raw heading change
 * `a1 - a0` measured around it. The SVG transform of each car is not modelled.
 */
module PathTrack {
  import opened Wrappers
  import opened Text
  import opened Lists
  import opened Teams
  import Sorting
  import Strategies

  // ---------------------------------------------------------------- roster

  datatype Car = Car(id: string, number: int, name: string, teamName: string, teamColor: string, isSelectedTeam: bool)

  /** `team.id || team.name || <random tag>`. */
  function TeamKey(team: Team, tag: string): string
  {
    if TruthyStr(team.id) then team.id.value else if team.name != "" then team.name else tag
  }

  /** The random tag drawn for the team at `i` (only used when it has neither id nor name). */
  function TagOf(tags: seq<string>, i: nat): string
  {
    if i < |tags| then tags[i] else ""
  }

  /** The car pushed for one (team, driver, index) slot. */
  function RosterCar(s: Slot, tags: seq<string>, selectedTeamKey: Option<string>): Car
  {
    Car(
      TeamKey(s.team, TagOf(tags, s.teamIndex)) + "_" + DriverKey(s.driver, s.idx),
      if TruthyNum(s.driver.number) then s.driver.number.value else s.idx + 1,
      if s.driver.name != "" then s.driver.name else "Driver " + Dec(s.idx + 1),
      s.team.name,
      if s.team.color != "" then s.team.color else "#FF3B3B",
      TruthyStr(selectedTeamKey) && s.team.id == selectedTeamKey)
  }

  /** The `i`-th of the twenty demonstration cars shown when no teams are given. */
  function DemoCar(i: nat): Car
  {
    Car("demo_" + Dec(i), i + 1, "Car " + Dec(i + 1), "Demo", "hsl(" + Dec((i * 24) % 360) + " 80% 55%)", false)
  }

  /** The cars for a run of slots, one per slot, in order. */
  function RosterOf(slots: seq<Slot>, tags: seq<string>, selectedTeamKey: Option<string>): (cars: seq<Car>)
    ensures |cars| == |slots|
    ensures forall k :: 0 <= k < |slots| ==> cars[k] == RosterCar(slots[k], tags, selectedTeamKey)
  {
    seq(|slots|, k requires 0 <= k < |slots| => RosterCar(slots[k], tags, selectedTeamKey))
  }

  lemma RosterOfAppend(a: seq<Slot>, b: seq<Slot>, tags: seq<string>, selectedTeamKey: Option<string>)
    ensures RosterOf(a + b, tags, selectedTeamKey) == RosterOf(a, tags, selectedTeamKey) + RosterOf(b, tags, selectedTeamKey)
  {
    var l, r := RosterOf(a + b, tags, selectedTeamKey), RosterOf(a, tags, selectedTeamKey) + RosterOf(b, tags, selectedTeamKey);
    assert |l| == |r|;
    forall k | 0 <= k < |l| ensures l[k] == r[k] {
      if k < |a| {
        assert (a + b)[k] == a[k];
      } else {
        assert (a + b)[k] == b[k - |a|];
      }
    }
  }

  /** The inner loop of the roster: one car per driver of the team at `ti`, in driver order. */
  method TeamRoster(ti: nat, team: Team, tags: seq<string>, selectedTeamKey: Option<string>)
    returns (cars: seq<Car>)
    ensures cars == RosterOf(TeamSlots(ti, team), tags, selectedTeamKey)
  {
    cars := [];
    var idx := 0;
    while idx < |team.drivers|
      invariant 0 <= idx <= |team.drivers|
      invariant |cars| == idx
      invariant forall k :: 0 <= k < idx ==> cars[k] == RosterCar(Slot(ti, team, team.drivers[k], k), tags, selectedTeamKey)
    {
      cars := cars + [RosterCar(Slot(ti, team, team.drivers[idx], idx), tags, selectedTeamKey)];
      idx := idx + 1;
    }
  }

  /** Builds the car list: every driver of every team in order, or twenty demo cars. */
  method BuildRoster(teams: Option<seq<Team>>, selectedTeamKey: Option<string>, tags: seq<string>)
    returns (list: seq<Car>)
    ensures teams.None? ==> list == seq(20, i requires 0 <= i < 20 => DemoCar(i))
    ensures teams.Some? ==> list == RosterOf(Slots(teams.value), tags, selectedTeamKey)
  {
    if teams.None? {
      return seq(20, i requires 0 <= i < 20 => DemoCar(i));
    }
    var ts := teams.value;
    list := [];
    var ti := 0;
    while ti < |ts|
      invariant 0 <= ti <= |ts|
      invariant list == RosterOf(Slots(ts[..ti]), tags, selectedTeamKey)
    {
      var cars := TeamRoster(ti, ts[ti], tags, selectedTeamKey);
      SlotsStep(ts, ti);
      RosterOfAppend(Slots(ts[..ti]), TeamSlots(ti, ts[ti]), tags, selectedTeamKey);
      list := list + cars;
      ti := ti + 1;
    }
    assert ts[..ti] == ts;
  }

  /**
   * One car per driver; a car's id is its team key, `_`, and its driver key, and it is
   * marked as the selected team's exactly when a selection is made and its team id matches.
   */
  lemma {:induction false} RosterCars(teams: seq<Team>, selectedTeamKey: Option<string>, tags: seq<string>)
    ensures |RosterOf(Slots(teams), tags, selectedTeamKey)| == DriverCount(teams)
    ensures forall k :: 0 <= k < |Slots(teams)| ==>
      var s := Slots(teams)[k];
      var c := RosterOf(Slots(teams), tags, selectedTeamKey)[k];
      s.teamIndex < |teams| && s.idx < |teams[s.teamIndex].drivers|
      && c.id == TeamKey(teams[s.teamIndex], TagOf(tags, s.teamIndex)) + "_"
                 + DriverKey(teams[s.teamIndex].drivers[s.idx], s.idx)
      && (c.isSelectedTeam <==> TruthyStr(selectedTeamKey) && teams[s.teamIndex].id == selectedTeamKey)
  {
    SlotsShape(teams);
  }

  /** The demonstration roster: twenty cars `demo_0` .. `demo_19`, numbered 1 .. 20, ids pairwise distinct. */
  lemma DemoRoster()
    ensures forall i :: 0 <= i < 20 ==> DemoCar(i).id == "demo_" + NatStr(i) && DemoCar(i).number == i + 1
    ensures forall i, j :: 0 <= i < j < 20 ==> DemoCar(i).id != DemoCar(j).id
  {
    forall i, j | 0 <= i < j < 20 ensures DemoCar(i).id != DemoCar(j).id {
      if DemoCar(i).id == DemoCar(j).id {
        assert NatStr(i) == DemoCar(i).id[5..];
        assert NatStr(j) == DemoCar(j).id[5..];
        NatStrInjective(i, j);
      }
    }
  }

  // ---------------------------------------------------------------- the path outline

  /** `/Z\s*$/i`: the outline already ends with a close command, possibly followed by spaces. */
  predicate EndsWithZ(d: string)
  {
    var e := TrimEnd(d);
    |e| > 0 && (e[|e| - 1] == 'Z' || e[|e| - 1] == 'z')
  }

  /** The path outline, trimmed, with a ` Z` close command appended when closing is asked and none is there. */
  function ClosedPath(d: string, closed: bool): string
  {
    var t := Trim(d);
    if !closed then t else if EndsWithZ(t) then t else t + " Z"
  }

  /** A closed outline ends with a close command; an open one is just trimmed. */
  lemma ClosedPathEnds(d: string, closed: bool)
    ensures closed ==> EndsWithZ(ClosedPath(d, closed))
    ensures !closed ==> ClosedPath(d, closed) == Trim(d)
  {
    var t := Trim(d);
    if closed && !EndsWithZ(t) {
      assert TrimEnd(t + " Z") == t + " Z";
    }
  }

  /** Closing a non-blank outline twice is closing it once. */
  lemma ClosedPathIdempotent(d: string, closed: bool)
    requires Trim(d) != ""
    ensures ClosedPath(ClosedPath(d, closed), closed) == ClosedPath(d, closed)
  {
    var t := Trim(d);
    TrimIdempotent(d);
    if closed && !EndsWithZ(t) {
      var r := t + " Z";
      assert r[0] == t[0] && r[|r| - 1] == 'Z';
      TrimOfTrimmed(r);
      assert TrimEnd(r) == r;
    }
  }

  /** A blank outline shows why idempotence needs a non-blank one: `""` closes to `" Z"`, which closes to `"Z"`. */
  lemma ClosedPathBlank()
    ensures ClosedPath("", true) == " Z"
    ensures ClosedPath(" Z", true) == "Z"
  {
    assert Trim("") == "";
    assert !EndsWithZ("");
    TrimSpaceZ();
    TrimOfTrimmed("Z");
    assert EndsWithZ("Z");
  }

  lemma TrimSpaceZ()
    ensures Trim(" Z") == "Z"
  {
    TrimSpaceThen('Z');
    assert [' ', 'Z'] == " Z";
  }

  lemma TrimSpaceThen(c: char)
    requires !IsSpace(c)
    ensures Trim([' ', c]) == [c]
  {
    var z := [' ', c];
    assert z[1..] == [c];
    assert TrimStart(z) == [c];
  }

  // ---------------------------------------------------------------- arithmetic of the path

  /** `Math.PI`. */
  const Pi: real := 3.141592653589793

  function Abs(x: real): real { if x < 0.0 then -x else x }
  function Max(a: real, b: real): real { if a >= b then a else b }
  function Min(a: real, b: real): real { if a <= b then a else b }

  /** Truncation toward zero. */
  function Trunc(r: real): int
  {
    if r >= 0.0 then r.Floor else -((-r).Floor)
  }

  /** JavaScript `x % L` on numbers: the remainder takes the sign of `x`. */
  function JsMod(x: real, L: real): real
    requires L > 0.0
  {
    x - L * (Trunc(x / L) as real)
  }

  lemma CancelLt(a: real, b: real, c: real)
    requires c > 0.0 && a * c < b * c
    ensures a < b
  {
  }

  lemma CancelLe(a: real, b: real, c: real)
    requires c > 0.0 && a * c <= b * c
    ensures a <= b
  {
  }

  /** Where the quotient `x / L` lies, for a positive `L`. */
  lemma Quotient(x: real, L: real)
    requires L > 0.0
    ensures (x / L) * L == x
    ensures x >= 0.0 ==> x / L >= 0.0
    ensures x < L ==> x / L < 1.0
    ensures x >= L ==> x / L >= 1.0
    ensures x < 2.0 * L ==> x / L < 2.0
    ensures x > -L ==> x / L > -1.0
  {
    QuotientLower(x, L, 0.0);
    QuotientUpper(x, L, 1.0);
    QuotientLower(x, L, 1.0);
    QuotientUpper(x, L, 2.0);
    QuotientAbove(x, L, -1.0);
  }

  lemma QuotientLower(x: real, L: real, b: real)
    requires L > 0.0
    ensures x >= b * L ==> x / L >= b
  {
    var q := x / L;
    assert q * L == x;
    if x >= b * L {
      CancelLe(b, q, L);
    }
  }

  lemma QuotientUpper(x: real, L: real, b: real)
    requires L > 0.0
    ensures x < b * L ==> x / L < b
  {
    var q := x / L;
    assert q * L == x;
    if x < b * L {
      CancelLt(q, b, L);
    }
  }

  lemma QuotientAbove(x: real, L: real, b: real)
    requires L > 0.0
    ensures x > b * L ==> x / L > b
  {
    var q := x / L;
    assert q * L == x;
    if x > b * L {
      CancelLt(b, q, L);
    }
  }

  lemma JsModNonNeg(x: real, L: real)
    requires L > 0.0 && x >= 0.0
    ensures 0.0 <= JsMod(x, L) < L
  {
    Quotient(x, L);
    var q := x / L;
    var f := q.Floor;
    var frac := q - f as real;
    assert 0.0 <= frac < 1.0;
    assert JsMod(x, L) == L * frac by {
      assert JsMod(x, L) == q * L - L * (f as real);
    }
    assert L * frac >= 0.0;
    assert L - L * frac == L * (1.0 - frac);
    assert L * (1.0 - frac) > 0.0;
  }

  lemma JsModBelow(x: real, L: real)
    requires L > 0.0 && 0.0 <= x < L
    ensures JsMod(x, L) == x
  {
    Quotient(x, L);
    assert (x / L).Floor == 0;
  }

  lemma JsModNegBelow(x: real, L: real)
    requires L > 0.0 && -L < x < 0.0
    ensures JsMod(x, L) == x
  {
    Quotient(x, L);
    Quotient(-x, L);
    assert -x / L == -(x / L);
    assert (-(x / L)).Floor == 0;
  }

  lemma JsModOnce(x: real, L: real)
    requires L > 0.0 && L <= x < 2.0 * L
    ensures JsMod(x, L) == x - L
  {
    Quotient(x, L);
    assert (x / L).Floor == 1;
  }

  /** The wrapped heading change in `[-Pi, Pi)`: `d` minus whole turns. */
  function Wrap(d: real): (r: real)
  {
    d - 2.0 * Pi * (((d + Pi) / (2.0 * Pi)).Floor as real)
  }

  /** `r` differs from `d` by exactly `k` whole turns. */
  predicate Turns(d: real, r: real, k: int)
  {
    r == d + 2.0 * Pi * (k as real)
  }

  lemma WrapRange(d: real)
    ensures -Pi <= Wrap(d) < Pi
    ensures Turns(d, Wrap(d), -(((d + Pi) / (2.0 * Pi)).Floor))
  {
    var q := (d + Pi) / (2.0 * Pi);
    var f := q.Floor;
    assert d + Pi == q * (2.0 * Pi);
    assert Wrap(d) + Pi == (2.0 * Pi) * (q - f as real);
  }

  /** Two angles in `[-Pi, Pi]` that differ by whole turns have the same magnitude. */
  lemma SameMagnitude(d: real, r1: real, k1: int, r2: real, k2: int)
    requires Turns(d, r1, k1) && Turns(d, r2, k2)
    requires -Pi <= r1 <= Pi && -Pi <= r2 <= Pi
    ensures Abs(r1) == Abs(r2)
  {
    assert r1 - r2 == 2.0 * Pi * ((k1 - k2) as real);
    assert -1 <= k1 - k2 <= 1;
  }

  /**
   * The two `while` loops that bring a heading change into `[-Pi, Pi]` by whole turns;
   * an angle already in range is left alone, and the magnitude is that of the wrapped angle.
   */
  method NormalizeAngle(d: real) returns (r: real)
    ensures -Pi <= r <= Pi
    ensures exists k :: Turns(d, r, k)
    ensures -Pi <= d <= Pi ==> r == d
    ensures Abs(r) == Abs(Wrap(d))
  {
    r := d;
    ghost var k := 0;
    while r > Pi
      invariant Turns(d, r, k)
      invariant -Pi <= d <= Pi ==> r == d
      decreases r.Floor
    {
      r := r - 2.0 * Pi;
      k := k - 1;
    }
    while r < -Pi
      invariant r <= Pi
      invariant Turns(d, r, k)
      invariant -Pi <= d <= Pi ==> r == d
      decreases (-r).Floor
    {
      r := r + 2.0 * Pi;
      k := k + 1;
    }
    WrapRange(d);
    SameMagnitude(d, r, k, Wrap(d), -(((d + Pi) / (2.0 * Pi)).Floor));
  }

  /** Look-ahead distance along the path, in pixels. */
  const Look: real := 6.0

  /** `|dth| / (2 * look + 1e-6)` for the normalised heading change. */
  function Curvature(turn: real): (kappa: real)
    ensures 0.0 <= kappa
  {
    Abs(Wrap(turn)) / (2.0 * Look + 0.000001)
  }

  // ---------------------------------------------------------------- one car, one frame

  /** A car's simulation state. */
  datatype CarState = CarState(s: real, speedK: real, laneIndex: nat, lap: int, pitTimer: real, startDelay: real, tyreWear: real)

  /** Path length and the speed parameters the animation effect is keyed on. */
  datatype Track = Track(L: real, vmaxBase: real, kv: real)

  predicate ValidTrack(tr: Track)
  {
    tr.L > 0.0 && tr.vmaxBase >= 0.0 && tr.kv >= 0.0
  }

  /** What one frame needs beyond the car: elapsed seconds, the phase and time in it, the flag factor, the start switch. */
  datatype Tick = Tick(dt: real, phase: string, phaseMs: real, flagFactor: real, raceStarted: bool)

  /** The state of car `i` of `n` when the states are (re)created; `u`, `v` are the two random draws in `[0, 1)`. */
  function InitState(i: nat, n: nat, phase: string, L: real, u: real, v: real): CarState
    requires L > 0.0
  {
    if phase == "start" && n > 0 then
      CarState(JsMod(0.0 - (i as real) * 18.0 + L, L), 0.95 + u * 0.12, i % 4, 0, 0.0, v * 0.5, 0.0)
    else
      CarState(JsMod(Spacing(L, n) * (i as real), L), 0.95 + u * 0.12, i % 4, 0, 0.0, 0.0, 0.0)
  }

  /** `L / (n || 1)`: the distance between neighbouring cars when they are spread over the lap. */
  function Spacing(L: real, n: nat): (g: real)
    requires L > 0.0
    ensures g > 0.0
    ensures n >= 1 ==> g * (n as real) == L
  {
    Quotient(L, if n >= 1 then n as real else 1.0);
    L / (if n >= 1 then n as real else 1.0)
  }

  /** Outside the start phase the cars are spread evenly over the lap, all at lap 0 with no pit or wear. */
  lemma InitSpread(i: nat, n: nat, phase: string, L: real, u: real, v: real)
    requires L > 0.0 && i < n && 0.0 <= u < 1.0
    requires phase != "start"
    ensures InitState(i, n, phase, L, u, v).s == Spacing(L, n) * (i as real)
    ensures 0.0 <= InitState(i, n, phase, L, u, v).s < L
    ensures 0.95 <= InitState(i, n, phase, L, u, v).speedK < 1.07
    ensures InitState(i, n, phase, L, u, v).lap == 0 && InitState(i, n, phase, L, u, v).pitTimer == 0.0
    ensures InitState(i, n, phase, L, u, v).tyreWear == 0.0 && InitState(i, n, phase, L, u, v).laneIndex < 4
  {
    var x := Spacing(L, n) * (i as real);
    SpreadBound(L, n, i);
    JsModBelow(x, L);
  }

  lemma SpreadBound(L: real, n: nat, i: nat)
    requires L > 0.0 && i < n
    ensures 0.0 <= Spacing(L, n) * (i as real) < L
  {
    var g := Spacing(L, n);
    assert g * (i as real) >= 0.0;
    assert g * (n as real) - g * (i as real) == g * ((n - i) as real);
    assert g * ((n - i) as real) > 0.0;
  }


  /**
   * In the start phase the cars stand 18 px apart behind the line: car `i` at `L - 18 i`
   * (car 0 on the line). Once `18 i` exceeds `L` the position is negative.
   */
  lemma InitGrid(i: nat, n: nat, L: real, u: real, v: real)
    requires L > 0.0 && i < n && 0.0 <= u < 1.0 && 0.0 <= v < 1.0
    ensures i == 0 ==> InitState(i, n, "start", L, u, v).s == 0.0
    ensures 0 < i && (i as real) * 18.0 <= L ==> InitState(i, n, "start", L, u, v).s == L - (i as real) * 18.0
    ensures L < (i as real) * 18.0 < 2.0 * L ==> InitState(i, n, "start", L, u, v).s == L - (i as real) * 18.0 < 0.0
    ensures 0.0 <= InitState(i, n, "start", L, u, v).startDelay < 0.5
  {
    var x := 0.0 - (i as real) * 18.0 + L;
    if i == 0 {
      assert x == L;
      assert x / L == 1.0;
    } else if (i as real) * 18.0 <= L {
      JsModBelow(x, L);
    } else if (i as real) * 18.0 < 2.0 * L {
      JsModNegBelow(x, L);
    }
  }

  /** `v0 / (1 + kv * kappa)`: the cornering-limited speed. */
  function CornerSpeed(tr: Track, kappa: real): (v: real)
    requires ValidTrack(tr) && kappa >= 0.0
    ensures 0.0 <= v <= tr.vmaxBase
  {
    assert 1.0 + tr.kv * kappa >= 1.0;
    tr.vmaxBase / (1.0 + tr.kv * kappa)
  }

  /** `strat.pitSeconds || 2.5`. */
  function PitSeconds(s: Strategies.Strategy): real
  {
    if s.pitSeconds.Some? && s.pitSeconds.value != 0.0 then s.pitSeconds.value else 2.5
  }

  /** The lap probe: one metre ahead wraps past the line. */
  predicate ProbeWraps(s: real, L: real)
    requires L > 0.0
  {
    JsMod(s + 1.0, L) < s
  }

  /** The planned pit stop starts at this frame. */
  predicate PitDue(st: CarState, lap: int, strat: Option<Strategies.Strategy>)
  {
    strat.Some? && strat.value.plannedPitLaps.Some? && st.pitTimer <= 0.0 && lap in strat.value.plannedPitLaps.value
  }

  /** Lap counting, pit timer and tyre wear: everything a frame changes before the move. */
  function Bookkeep(st: CarState, kappa: real, strat: Option<Strategies.Strategy>, tr: Track, dt: real): CarState
    requires ValidTrack(tr) && kappa >= 0.0
  {
    var lap := if ProbeWraps(st.s, tr.L) then st.lap + 1 else st.lap;
    var pit := if PitDue(st, lap, strat) then PitSeconds(strat.value) else st.pitTimer;
    st.(lap := lap,
        pitTimer := if pit > 0.0 then Max(0.0, pit - dt) else pit,
        tyreWear := st.tyreWear + Max(0.0, CornerSpeed(tr, kappa) * dt) * 0.0005)
  }

  /** `max(0.8, 1 - min(0.2, wear))`. */
  function WearFactor(w: real): real
  {
    Max(0.8, 1.0 - Min(0.2, w))
  }

  /** Grip lost to wear costs at most 20 % of the speed, and the full 20 % once wear reaches 0.2. */
  lemma WearFactorRange(w: real)
    requires w >= 0.0
    ensures 0.8 <= WearFactor(w) <= 1.0
    ensures w >= 0.2 ==> WearFactor(w) == 0.8
    ensures w <= 0.2 ==> WearFactor(w) == 1.0 - w
  {
  }

  /** `speedK`, scaled by the strategy's pace when it has one. */
  function PaceScale(st: CarState, strat: Option<Strategies.Strategy>): real
  {
    if strat.Some? && strat.value.paceK.Some? then st.speedK * strat.value.paceK.value else st.speedK
  }

  /** Start-phase release: held at 0 until the car's own delay has passed, then 85 %. */
  function StartFactor(st: CarState, tick: Tick): real
  {
    if tick.phase == "start" then (if tick.phaseMs > st.startDelay * 1000.0 then 0.85 else 0.0) else 1.0
  }

  /** The speed the car moves at this frame, never below the 120 px/s floor. */
  function Speed(st: CarState, kappa: real, strat: Option<Strategies.Strategy>, tr: Track, tick: Tick): (v: real)
    requires ValidTrack(tr) && kappa >= 0.0
    ensures v >= 120.0
  {
    Max(120.0, CornerSpeed(tr, kappa) * PaceScale(st, strat) * StartFactor(st, tick) * WearFactor(st.tyreWear)
               * tick.flagFactor * (if tick.raceStarted then 1.0 else 0.0) * (if st.pitTimer > 0.0 then 0.0 else 1.0))
  }

  /** One frame of one car: bookkeeping, then `s := (s + vmax * dt) % L`. */
  function Advance(st: CarState, kappa: real, strat: Option<Strategies.Strategy>, tr: Track, tick: Tick): CarState
    requires ValidTrack(tr) && kappa >= 0.0
  {
    var b := Bookkeep(st, kappa, strat, tr, tick.dt);
    b.(s := JsMod(st.s + Speed(b, kappa, strat, tr, tick) * tick.dt, tr.L))
  }

  /**
   * The lap counter rises by one exactly when the car stands in the last metre before the
   * line at the start of the frame (for a path longer than a metre), and by nothing otherwise.
   */
  lemma AdvanceLap(st: CarState, kappa: real, strat: Option<Strategies.Strategy>, tr: Track, tick: Tick)
    requires ValidTrack(tr) && kappa >= 0.0
    requires tr.L > 1.0 && -tr.L < st.s < tr.L
    ensures Advance(st, kappa, strat, tr, tick).lap == if st.s >= tr.L - 1.0 then st.lap + 1 else st.lap
  {
    var x := st.s + 1.0;
    if x >= tr.L {
      JsModOnce(x, tr.L);
    } else if x >= 0.0 {
      JsModBelow(x, tr.L);
    } else {
      JsModNegBelow(x, tr.L);
    }
  }

  /**
   * The pit timer never goes negative when the strategy's pit time is not negative; a running
   * timer only counts down by the frame time, and a stop starts only when none is running.
   */
  lemma AdvancePitTimer(st: CarState, kappa: real, strat: Option<Strategies.Strategy>, tr: Track, tick: Tick)
    requires ValidTrack(tr) && kappa >= 0.0 && tick.dt >= 0.0
    requires st.pitTimer >= 0.0
    requires strat.Some? && strat.value.pitSeconds.Some? ==> strat.value.pitSeconds.value >= 0.0
    ensures Advance(st, kappa, strat, tr, tick).pitTimer >= 0.0
    ensures st.pitTimer > 0.0 ==> Advance(st, kappa, strat, tr, tick).pitTimer == Max(0.0, st.pitTimer - tick.dt)
    ensures Advance(st, kappa, strat, tr, tick).pitTimer > st.pitTimer ==>
      st.pitTimer == 0.0 && strat.Some? && strat.value.plannedPitLaps.Some?
      && Advance(st, kappa, strat, tr, tick).lap in strat.value.plannedPitLaps.value
  {
  }

  /** Tyre wear only grows, by 0.0005 per pixel of cornering-limited distance. */
  lemma AdvanceWear(st: CarState, kappa: real, strat: Option<Strategies.Strategy>, tr: Track, tick: Tick)
    requires ValidTrack(tr) && kappa >= 0.0 && tick.dt >= 0.0
    ensures st.tyreWear <= Advance(st, kappa, strat, tr, tick).tyreWear <= st.tyreWear + tr.vmaxBase * tick.dt * 0.0005
  {
    var v := CornerSpeed(tr, kappa);
    assert v * tick.dt <= tr.vmaxBase * tick.dt;
  }

  /** From a position on the lap, the car stays on the lap. */
  lemma AdvancePosition(st: CarState, kappa: real, strat: Option<Strategies.Strategy>, tr: Track, tick: Tick)
    requires ValidTrack(tr) && kappa >= 0.0 && tick.dt >= 0.0 && st.s >= 0.0
    ensures 0.0 <= Advance(st, kappa, strat, tr, tick).s < tr.L
  {
    var v := Speed(Bookkeep(st, kappa, strat, tr, tick.dt), kappa, strat, tr, tick);
    assert v * tick.dt >= 0.0;
    JsModNonNeg(st.s + v * tick.dt, tr.L);
  }

  /**
   * With the race not started (the value both race screens leave in place), speed is the
   * 120 px/s floor whatever the phase, pit timer or strategy.
   */
  lemma NotStartedCrawl(st: CarState, kappa: real, strat: Option<Strategies.Strategy>, tr: Track, tick: Tick)
    requires ValidTrack(tr) && kappa >= 0.0 && !tick.raceStarted
    ensures Speed(st, kappa, strat, tr, tick) == 120.0
  {
  }

  /** A car in the pits still moves: the floor applies while the pit timer runs. */
  lemma PitStopStillMoves()
    ensures var st := CarState(0.0, 1.0, 0, 3, 2.0, 0.0, 0.0);
            var tick := Tick(0.1, "race", 0.0, 1.0, true);
            Advance(st, 0.0, None, Track(1000.0, 520.0, 1200.0), tick).s == 12.0
            && Advance(st, 0.0, None, Track(1000.0, 520.0, 1200.0), tick).pitTimer > 0.0
  {
    var st := CarState(0.0, 1.0, 0, 3, 2.0, 0.0, 0.0);
    var tr := Track(1000.0, 520.0, 1200.0);
    var tick := Tick(0.1, "race", 0.0, 1.0, true);
    JsModBelow(1.0, 1000.0);
    var b := Bookkeep(st, 0.0, None, tr, 0.1);
    assert b.pitTimer == 1.9;
    assert Speed(b, 0.0, None, tr, tick) == 120.0;
    JsModBelow(12.0, 1000.0);
  }

  /** The probe runs before the move: a car moving more than a metre per frame can cross the line uncounted. */
  lemma LapSkippedByFastFrame()
    ensures var st := CarState(998.5, 1.0, 0, 0, 0.0, 0.0, 0.0);
            var a := Advance(st, 0.0, None, Track(1000.0, 520.0, 1200.0), Tick(0.02, "race", 0.0, 1.0, false));
            a.lap == 0 && a.s < st.s
  {
    var st := CarState(998.5, 1.0, 0, 0, 0.0, 0.0, 0.0);
    var tr := Track(1000.0, 520.0, 1200.0);
    JsModBelow(999.5, 1000.0);
    var b := Bookkeep(st, 0.0, None, tr, 0.02);
    assert b.lap == 0;
    JsModOnce(1000.9, 1000.0);
  }

  // ---------------------------------------------------------------- telemetry

  datatype Standing = Standing(id: string, name: string, teamName: string, teamColor: string, lap: int, s: real, total: real)
  datatype TelemetryRow = TelemetryRow(standing: Standing, position: nat, gapMeters: real)

  function Total(x: Standing): real { x.total }

  function StandingOf(c: Car, st: CarState, L: real): Standing
  {
    Standing(c.id, c.name, c.teamName, c.teamColor, st.lap, st.s, (st.lap as real) * L + st.s)
  }

  /** One standing per car, in roster order. */
  function Standings(cars: seq<Car>, states: seq<CarState>, L: real): (r: seq<Standing>)
    requires |cars| == |states|
    ensures |r| == |cars|
    ensures forall i :: 0 <= i < |r| ==> r[i] == StandingOf(cars[i], states[i], L)
  {
    seq(|cars|, i requires 0 <= i < |cars| => StandingOf(cars[i], states[i], L))
  }

  /** The telemetry of one frame: standings by distance covered, largest first, with positions and gaps to the leader. */
  function Classify(cars: seq<Car>, states: seq<CarState>, L: real): seq<TelemetryRow>
    requires |cars| == |states|
  {
    var ordered := Sorting.SortDesc(Standings(cars, states, L), Total);
    var leader := if |ordered| > 0 && ordered[0].total != 0.0 then ordered[0].total else 0.0;
    seq(|ordered|, k requires 0 <= k < |ordered| => TelemetryRow(ordered[k], k + 1, leader - ordered[k].total))
  }

  /** Positions run 1, 2, ... in order of distance covered, and every gap is the distance to the leader. */
  lemma ClassifyOrder(cars: seq<Car>, states: seq<CarState>, L: real)
    requires |cars| == |states|
    ensures |Classify(cars, states, L)| == |cars|
    ensures forall k :: 0 <= k < |cars| ==> Classify(cars, states, L)[k].position == k + 1
    ensures forall i, j :: 0 <= i < j < |cars| ==>
      Classify(cars, states, L)[i].standing.total >= Classify(cars, states, L)[j].standing.total
    ensures |cars| > 0 ==> Classify(cars, states, L)[0].gapMeters == 0.0
    ensures forall k :: 0 <= k < |cars| ==>
      Classify(cars, states, L)[k].gapMeters == Classify(cars, states, L)[0].standing.total - Classify(cars, states, L)[k].standing.total
      && Classify(cars, states, L)[k].gapMeters >= 0.0
  {
    Sorting.SortDescSorted(Standings(cars, states, L), Total);
  }

  function RowStanding(r: TelemetryRow): Standing { r.standing }

  /** Every car appears in the telemetry exactly once. */
  lemma ClassifyPermutation(cars: seq<Car>, states: seq<CarState>, L: real)
    requires |cars| == |states|
    ensures multiset(Map(RowStanding, Classify(cars, states, L))) == multiset(Standings(cars, states, L))
  {
    var ordered := Sorting.SortDesc(Standings(cars, states, L), Total);
    Sorting.SortDescPerm(Standings(cars, states, L), Total);
    assert Map(RowStanding, Classify(cars, states, L)) == ordered;
  }

  // ---------------------------------------------------------------- the engine

  /** The animation loop's state: the roster, one state per car, the path, the frame clock and the phase clock. */
  class RaceEngine {
    var cars: seq<Car>
    var states: array<CarState>
    var track: Track
    /** Timestamp of the previous frame; 0 before the first. */
    var t0: real
    var phase: string
    var phaseStartMs: real
    /** A next frame is scheduled. */
    var running: bool

    ghost predicate Valid()
      reads this
    {
      ValidTrack(track) && t0 >= 0.0
    }

    /** Mounting: no cars yet; the animation starts with the clock unset. */
    constructor (track: Track, phase: string)
      requires ValidTrack(track)
      ensures Valid() && this.track == track && this.phase == phase
      ensures cars == [] && states.Length == 0 && t0 == 0.0 && phaseStartMs == 0.0 && running
    {
      this.track := track;
      this.phase := phase;
      cars := [];
      states := new CarState[0];
      t0 := 0.0;
      phaseStartMs := 0.0;
      running := true;
    }

    /** New teams or selection: the roster is rebuilt and the car states dropped. */
    method SetRoster(teams: Option<seq<Team>>, selectedTeamKey: Option<string>, tags: seq<string>)
      requires Valid()
      modifies this
      ensures Valid() && track == old(track) && t0 == old(t0) && phase == old(phase) && phaseStartMs == old(phaseStartMs)
      ensures running == old(running) && states.Length == 0
      ensures teams.None? ==> cars == seq(20, i requires 0 <= i < 20 => DemoCar(i))
      ensures teams.Some? ==> cars == Map((s: Slot) => RosterCar(s, tags, selectedTeamKey), Slots(teams.value))
    {
      cars := BuildRoster(teams, selectedTeamKey, tags);
      states := new CarState[0];
    }

    /** A phase change restarts the phase clock; the same phase again changes nothing. */
    method SetPhase(p: string, nowMs: real)
      modifies this
      ensures phase == p
      ensures phaseStartMs == if old(phase) != p then nowMs else old(phaseStartMs)
      ensures cars == old(cars) && states == old(states) && track == old(track) && t0 == old(t0) && running == old(running)
    {
      if phase != p {
        phase := p;
        phaseStartMs := nowMs;
      }
    }

    /** The effect re-runs (new path length, speed or cornering parameters, or roster size): the clock restarts. */
    method Restart(tr: Track)
      requires ValidTrack(tr)
      modifies this
      ensures Valid() && track == tr && t0 == 0.0 && running
      ensures cars == old(cars) && states == old(states) && phase == old(phase) && phaseStartMs == old(phaseStartMs)
    {
      track := tr;
      t0 := 0.0;
      running := true;
    }

    /** The states the frame starts from: the current ones, or fresh ones when their number is not the roster's. */
    ghost function Before(states0: seq<CarState>, speedDraws: seq<real>, delayDraws: seq<real>): (r: seq<CarState>)
      reads this
      requires Valid() && |speedDraws| == |cars| && |delayDraws| == |cars|
      ensures |r| == |cars|
    {
      var n := |cars|;
      var p := phase;
      var L := track.L;
      if |states0| == n then states0
      else seq(n, i requires 0 <= i < n => InitState(i, n, p, L, speedDraws[i], delayDraws[i]))
    }

    method Init(speedDraws: seq<real>, delayDraws: seq<real>)
      requires Valid() && |speedDraws| == |cars| && |delayDraws| == |cars|
      modifies this
      ensures Valid() && cars == old(cars) && track == old(track) && t0 == old(t0) && phase == old(phase)
      ensures phaseStartMs == old(phaseStartMs) && running == old(running)
      ensures states.Length == |cars|
      ensures states[..] == old(Before(states[..], speedDraws, delayDraws))
      ensures old(states.Length) == |cars| ==> states == old(states)
      ensures old(states.Length) != |cars| ==> fresh(states)
    {
      if states.Length != |cars| {
        var n := |cars|;
        var L := track.L;
        var p := phase;
        var initial := seq(n, i requires 0 <= i < n => InitState(i, n, p, L, speedDraws[i], delayDraws[i]));
        states := new CarState[n](i requires 0 <= i < n => initial[i]);
        assert states[..] == initial;
      }
    }

    /** The per-car loop of a frame: car `i` advanced by `Advance` with its own curvature and strategy. */
    method AdvanceAll(tick: Tick, turns: seq<real>, strategies: Strategies.CarTable)
      requires Valid() && states.Length == |cars| && |turns| == |cars|
      modifies states
      ensures forall i :: 0 <= i < |cars| ==>
        states[i] == Advance(old(states[i]), Curvature(turns[i]), Strategies.Get(strategies, cars[i].id), track, tick)
    {
      var i := 0;
      while i < |cars|
        invariant 0 <= i <= |cars|
        invariant forall j :: 0 <= j < i ==>
          states[j] == Advance(old(states[j]), Curvature(turns[j]), Strategies.Get(strategies, cars[j].id), track, tick)
        invariant forall j :: i <= j < |cars| ==> states[j] == old(states[j])
      {
        var dth := NormalizeAngle(turns[i]);
        var kappa := Abs(dth) / (2.0 * Look + 0.000001);
        assert kappa == Curvature(turns[i]);
        states[i] := Advance(states[i], kappa, Strategies.Get(strategies, cars[i].id), track, tick);
        i := i + 1;
      }
    }

    /**
     * One animation frame: elapsed time from the frame clock, fresh states when the roster
     * size changed, every car advanced, and the frame's telemetry returned.
     * `flagFactor` is an explicit input of the frame.
     */
    method Step(ts: real, turns: seq<real>, strategies: Strategies.CarTable, nowMs: real, flagFactor: real,
                raceStarted: bool, speedDraws: seq<real>, delayDraws: seq<real>)
      returns (telemetry: seq<TelemetryRow>)
      requires Valid() && ts > 0.0 && ts >= t0
      requires |turns| == |cars| && |speedDraws| == |cars| && |delayDraws| == |cars|
      modifies this, states
      ensures Valid() && cars == old(cars) && track == old(track) && phase == old(phase)
      ensures phaseStartMs == old(phaseStartMs) && running == old(running) && t0 == ts
      ensures states.Length == |cars|
      ensures var before := old(Before(states[..], speedDraws, delayDraws));
              var tick := Tick(if old(t0) == 0.0 then 0.0 else (ts - old(t0)) / 1000.0, phase, nowMs - phaseStartMs, flagFactor, raceStarted);
              forall i :: 0 <= i < |cars| ==>
                states[i] == Advance(before[i], Curvature(turns[i]), Strategies.Get(strategies, cars[i].id), track, tick)
      ensures telemetry == Classify(cars, states[..], track.L)
    {
      var dt := if t0 == 0.0 then 0.0 else (ts - t0) / 1000.0;
      t0 := ts;
      Init(speedDraws, delayDraws);
      var tick := Tick(dt, phase, nowMs - phaseStartMs, flagFactor, raceStarted);
      AdvanceAll(tick, turns, strategies);
      telemetry := Classify(cars, states[..], track.L);
    }

    /**
     * The frame as the shipped component runs it: the speed formula reads a `flagFactor`
     * that is never declared, so the first car's lap, pit timer and wear are updated, its
     * move throws, no telemetry is sent and no further frame is scheduled.
     */
    method StepAsWritten(ts: real, turns: seq<real>, strategies: Strategies.CarTable, speedDraws: seq<real>, delayDraws: seq<real>)
      returns (thrown: bool)
      requires Valid() && ts > 0.0 && ts >= t0
      requires |turns| == |cars| && |speedDraws| == |cars| && |delayDraws| == |cars|
      modifies this, states
      ensures thrown <==> |cars| > 0
      ensures running == (old(running) && !thrown)
      ensures Valid() && cars == old(cars) && t0 == ts && states.Length == |cars|
      ensures var before := old(Before(states[..], speedDraws, delayDraws));
              thrown ==> states[0] == Bookkeep(before[0], Curvature(turns[0]), Strategies.Get(strategies, cars[0].id), track,
                                               if old(t0) == 0.0 then 0.0 else (ts - old(t0)) / 1000.0)
                         && forall j :: 1 <= j < |cars| ==> states[j] == before[j]
    {
      var dt := if t0 == 0.0 then 0.0 else (ts - t0) / 1000.0;
      t0 := ts;
      Init(speedDraws, delayDraws);
      thrown := |cars| > 0;
      if thrown {
        var dth := NormalizeAngle(turns[0]);
        var kappa := Abs(dth) / (2.0 * Look + 0.000001);
        states[0] := Bookkeep(states[0], kappa, Strategies.Get(strategies, cars[0].id), track, dt);
        running := false;
      }
    }
  }
}
