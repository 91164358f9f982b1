/**
 * The Bahrain circuit view: a fixed table of track points, the lookup that turns a
 * race progress percentage into a position between two of them (Catmull-Rom for the
 * coordinates, linear for the speed), the four lanes, and the list of cars it draws,
 * largest progress first. Trigonometry (the heading and the lane's perpendicular
 * offset) is not modelled: the lookup returns the lane offset alongside the point.
 */
module BahrainTrack {
  import opened Wrappers
  import opened Text
  import Teams
  import JsMath
  import Sorting

  datatype Point = P(x: real, y: real, sector: int, turn: Option<string>, speed: real, drs: bool)

  /** The circuit's coordinate table, start/finish first. */
  const BahrainPoints: seq<Point> := [
      P(25.0, 350.0, 1, Some("S/F"), 320.0, false), P(30.0, 350.0, 1, None, 322.0, false), P(35.0, 350.0, 1, None, 324.0, true), P(40.0, 350.0, 1, None, 326.0, true),
      P(45.0, 350.0, 1, None, 328.0, true), P(50.0, 350.0, 1, None, 330.0, true), P(55.0, 350.0, 1, None, 332.0, true), P(60.0, 350.0, 1, None, 334.0, true),
      P(65.0, 350.0, 1, None, 336.0, true), P(70.0, 350.0, 1, None, 338.0, true), P(75.0, 350.0, 1, None, 340.0, true), P(80.0, 350.0, 1, None, 342.0, true),
      P(85.0, 350.0, 1, None, 344.0, true), P(90.0, 350.0, 1, None, 346.0, true), P(95.0, 350.0, 1, None, 348.0, true), P(100.0, 350.0, 1, None, 350.0, true),
      P(105.0, 350.0, 1, None, 352.0, true), P(110.0, 350.0, 1, None, 354.0, true), P(115.0, 350.0, 1, None, 356.0, true), P(120.0, 350.0, 1, None, 358.0, true),
      P(125.0, 350.0, 1, None, 360.0, true), P(130.0, 350.0, 1, None, 358.0, true), P(135.0, 350.0, 1, None, 356.0, true), P(140.0, 350.0, 1, None, 354.0, true),
      P(145.0, 350.0, 1, None, 352.0, true), P(150.0, 350.0, 1, None, 350.0, true), P(155.0, 350.0, 1, None, 348.0, true), P(160.0, 350.0, 1, None, 346.0, true),
      P(165.0, 350.0, 1, None, 344.0, true), P(170.0, 350.0, 1, None, 342.0, true), P(175.0, 350.0, 1, None, 340.0, true), P(180.0, 350.0, 1, None, 335.0, false),
      P(185.0, 349.0, 1, None, 330.0, false), P(190.0, 348.0, 1, None, 325.0, false), P(195.0, 347.0, 1, None, 320.0, false), P(200.0, 346.0, 1, None, 315.0, false),
      P(205.0, 344.0, 1, None, 300.0, false), P(210.0, 342.0, 1, None, 280.0, false), P(215.0, 339.0, 1, Some("T1"), 260.0, false), P(220.0, 336.0, 1, None, 240.0, false),
      P(225.0, 332.0, 1, None, 220.0, false), P(230.0, 328.0, 1, None, 200.0, false), P(235.0, 323.0, 1, None, 180.0, false), P(240.0, 318.0, 1, None, 170.0, false),
      P(245.0, 312.0, 1, None, 160.0, false), P(250.0, 306.0, 1, Some("T2"), 155.0, false), P(255.0, 299.0, 1, None, 150.0, false), P(260.0, 292.0, 1, None, 148.0, false),
      P(265.0, 284.0, 1, None, 150.0, false), P(270.0, 276.0, 1, Some("T3"), 155.0, false), P(275.0, 268.0, 1, None, 165.0, false), P(280.0, 259.0, 1, None, 175.0, false),
      P(285.0, 250.0, 1, None, 185.0, false), P(290.0, 241.0, 1, None, 195.0, false), P(295.0, 231.0, 1, Some("T4"), 205.0, false), P(30.0, 350.0, 3, None, 318.0, true)
  ]

  lemma PointsCount()
    ensures |BahrainPoints| == 56
  {
  }

  // ---------------------------------------------------------------- the lookup

  /** `Math.max(0, Math.min(99.999, progress)) / 100`. */
  function Normalized(progress: real): (np: real)
    ensures 0.0 <= np <= 0.99999
    ensures 0.0 <= progress <= 99.999 ==> np == progress / 100.0
    ensures progress <= 0.0 ==> np == 0.0
    ensures progress >= 99.999 ==> np == 0.99999
  {
    JsMath.Max(0.0, JsMath.Min(99.999, progress)) / 100.0
  }

  /** The four table indices the spline reads, and how far the car is from the current point to the next. */
  datatype Indices = Indices(current: nat, next: nat, prev: nat, after: nat, t: real)

  /** Where a progress falls in a table of `n` points. */
  function Locate(n: nat, progress: real): (ix: Indices)
    requires n >= 1
    ensures ix.current < n && ix.next < n && ix.prev < n && ix.after < n
    ensures n >= 2 ==> ix.current <= n - 2 && ix.next == ix.current + 1
    ensures ix.prev == if ix.current == 0 then 0 else ix.current - 1
    ensures ix.after == if ix.next + 1 < n then ix.next + 1 else n - 1
    ensures 0.0 <= ix.t < 1.0
    ensures ix.current as real + ix.t == Normalized(progress) * (n - 1) as real
  {
    var exact := Normalized(progress) * (n - 1) as real;
    BelowOne(Normalized(progress), (n - 1) as real);
    var current := exact.Floor;
    var next := if current + 1 < n - 1 then current + 1 else n - 1;
    var prev := if current - 1 > 0 then current - 1 else 0;
    var after := if n - 1 < next + 1 then n - 1 else next + 1;
    Indices(current, next, prev, after, exact - current as real)
  }

  lemma BelowOne(f: real, m: real)
    requires 0.0 <= f < 1.0 && m >= 0.0
    ensures 0.0 <= f * m && (m > 0.0 ==> f * m < m)
  {
  }

  /** The Catmull-Rom spline through `p1` (at `t = 0`) and `p2` (at `t = 1`). */
  function CatmullRom(p0: real, p1: real, p2: real, p3: real, t: real): (r: real)
    ensures t == 0.0 ==> r == p1
    ensures t == 1.0 ==> r == p2
  {
    0.5 * (2.0 * p1 + (-p0 + p2) * t + (2.0 * p0 - 5.0 * p1 + 4.0 * p2 - p3) * (t * t)
           + (-p0 + 3.0 * p1 - 3.0 * p2 + p3) * (t * t * t))
  }

  /** `a + (b - a) * t`: for `t` in [0, 1] it lies between `a` and `b`. */
  function Lerp(a: real, b: real, t: real): (r: real)
    ensures 0.0 <= t <= 1.0 ==> JsMath.Min(a, b) <= r <= JsMath.Max(a, b)
    ensures t == 0.0 ==> r == a
  {
    var d := (b - a) * t;
    ScaleBetween(b - a, t, d);
    a + d
  }

  lemma ScaleBetween(e: real, t: real, d: real)
    requires d == e * t
    ensures 0.0 <= t <= 1.0 && e >= 0.0 ==> 0.0 <= d <= e
    ensures 0.0 <= t <= 1.0 && e < 0.0 ==> e <= d <= 0.0
    ensures t == 0.0 ==> d == 0.0
  {
    if 0.0 <= t <= 1.0 && e < 0.0 {
      assert (-e) * t <= -e;
    }
  }

  /** The lane offsets in pixels: a 12 m track at 1.2 px/m, lanes at -3/4, -1/4, 1/4 and 3/4 of its width. */
  function LaneOffset(carIndex: nat): (o: real)
    ensures -10.8 <= o <= 10.8
    ensures o < 0.0 <==> carIndex % 4 < 2
    ensures o == [-10.8, -3.6, 3.6, 10.8][carIndex % 4]
  {
    var w := 12.0 * 1.2;
    [-w * 0.75, -w * 0.25, w * 0.25, w * 0.75][carIndex % 4]
  }

  /** What the lookup returns, before the lane offset is turned into a perpendicular displacement. */
  datatype CarPosition = CarPosition(
    x: real, y: real, laneOffset: real, sector: int, turn: Option<string>, speed: int, isDRS: bool, progress: real)

  /**
   * `getPreciseCarPosition`: the point and its attributes at a progress percentage.
   * The sector and turn are the current point's, the speed lies between the two points'
   * speeds, DRS is on only where both points have it, and the reported progress is the
   * clamped one. At a table point exactly, the coordinates are that point's.
   */
  function PreciseCarPosition(pts: seq<Point>, progress: real, carIndex: nat): (pos: CarPosition)
    requires |pts| >= 1
    ensures var ix := Locate(|pts|, progress); var cur, nxt := pts[ix.current], pts[ix.next];
      pos.sector == cur.sector && pos.turn == cur.turn
      && pos.isDRS == (cur.drs && nxt.drs)
      && JsMath.Round(JsMath.Min(cur.speed, nxt.speed)) <= pos.speed <= JsMath.Round(JsMath.Max(cur.speed, nxt.speed))
      && (ix.t == 0.0 ==> pos.x == cur.x && pos.y == cur.y)
    ensures 0.0 <= pos.progress <= 99.999
    ensures pos.laneOffset == LaneOffset(carIndex)
  {
    var ix := Locate(|pts|, progress);
    var cur, nxt, prv, aft := pts[ix.current], pts[ix.next], pts[ix.prev], pts[ix.after];
    var speed := Lerp(cur.speed, nxt.speed, ix.t);
    JsMath.RoundMonotone(JsMath.Min(cur.speed, nxt.speed), speed);
    JsMath.RoundMonotone(speed, JsMath.Max(cur.speed, nxt.speed));
    CarPosition(
      CatmullRom(prv.x, cur.x, nxt.x, aft.x, ix.t),
      CatmullRom(prv.y, cur.y, nxt.y, aft.y, ix.t),
      LaneOffset(carIndex), cur.sector, cur.turn, JsMath.Round(speed), cur.drs && nxt.drs,
      Normalized(progress) * 100.0)
  }

  // ---------------------------------------------------------------- the cars on track

  datatype RacingCar = RacingCar(
    id: Option<string>, name: string, number: Option<int>, teamColor: string, teamName: string,
    progress: real, isPlayerTeam: bool)

  datatype RivalDriver = RivalDriver(name: string, number: int)
  datatype RivalTeam = RivalTeam(name: string, color: string, drivers: seq<RivalDriver>)

  /** The nine other teams the view always draws. */
  const Ferrari: RivalTeam := RivalTeam("Ferrari", "#DC143C", [RivalDriver("C.Leclerc", 16), RivalDriver("C.Sainz", 55)])
  const Mercedes: RivalTeam := RivalTeam("Mercedes", "#00D2BE", [RivalDriver("L.Hamilton", 44), RivalDriver("G.Russell", 63)])
  const McLaren: RivalTeam := RivalTeam("McLaren", "#FF8000", [RivalDriver("L.Norris", 4), RivalDriver("O.Piastri", 81)])
  const Alpine: RivalTeam := RivalTeam("Alpine", "#0090FF", [RivalDriver("P.Gasly", 10), RivalDriver("E.Ocon", 31)])
  const AstonMartin: RivalTeam := RivalTeam("Aston Martin", "#006F62", [RivalDriver("F.Alonso", 14), RivalDriver("L.Stroll", 18)])
  const Williams: RivalTeam := RivalTeam("Williams", "#005AFF", [RivalDriver("A.Albon", 23), RivalDriver("F.Colapinto", 43)])
  const RB: RivalTeam := RivalTeam("RB", "#6692FF", [RivalDriver("Y.Tsunoda", 22), RivalDriver("D.Ricciardo", 3)])
  const Haas: RivalTeam := RivalTeam("Haas", "#FFFFFF", [RivalDriver("K.Magnussen", 20), RivalDriver("N.Hulkenberg", 27)])
  const Sauber: RivalTeam := RivalTeam("Sauber", "#52E252", [RivalDriver("V.Bottas", 77), RivalDriver("G.Zhou", 24)])
  const OtherTeams: seq<RivalTeam> := [Ferrari, Mercedes, McLaren, Alpine, AstonMartin, Williams, RB, Haas, Sauber]

  /** A `Math.random()` value. */
  predicate InUnit(x: real) { 0.0 <= x < 1.0 }

  /** One of the player's cars: the driver's own id, within 1.5 points of the race progress. */
  function PlayerCar(team: Teams.Team, d: Teams.Driver, raceProgress: real, r: real): (c: RacingCar)
    ensures c.id == d.id && c.isPlayerTeam
    ensures InUnit(r) ==> raceProgress - 1.5 <= c.progress < raceProgress + 1.5
  {
    RacingCar(d.id, d.name, d.number, team.color, team.name, raceProgress + (r - 0.5) * 3.0, true)
  }

  /** A rival car: `<lower-case team name>_<number>`, within 10 points of the race progress. */
  function RivalCar(team: RivalTeam, d: RivalDriver, raceProgress: real, r: real): (c: RacingCar)
    ensures c.id == Some(ToLower(team.name) + "_" + Dec(d.number)) && !c.isPlayerTeam
    ensures InUnit(r) ==> raceProgress - 10.0 <= c.progress < raceProgress + 10.0
  {
    RacingCar(Some(ToLower(team.name) + "_" + Dec(d.number)), d.name, Some(d.number), team.color, team.name,
      raceProgress + (r - 0.5) * 20.0, false)
  }

  /** The player's drivers, in order; none when there is no team. */
  function PlayerCars(teamData: Option<Teams.Team>, raceProgress: real, noise: seq<real>): (cs: seq<RacingCar>)
    requires teamData.Some? ==> |noise| == |teamData.value.drivers|
    ensures teamData.None? ==> cs == []
    ensures teamData.Some? ==> (|cs| == |teamData.value.drivers|
      && forall i :: 0 <= i < |cs| ==> cs[i] == PlayerCar(teamData.value, teamData.value.drivers[i], raceProgress, noise[i]))
  {
    if teamData.None? then []
    else seq(|noise|, i requires 0 <= i < |noise| => PlayerCar(teamData.value, teamData.value.drivers[i], raceProgress, noise[i]))
  }

  /** Every rival driver, teams in order, paired with its team. */
  function RivalSlots(teams: seq<RivalTeam>): (slots: seq<(RivalTeam, RivalDriver)>)
  {
    if teams == [] then []
    else
      seq(|teams[0].drivers|, j requires 0 <= j < |teams[0].drivers| => (teams[0], teams[0].drivers[j]))
      + RivalSlots(teams[1..])
  }

  /** Teams of two give two slots each. */
  lemma {:induction false} PairsCount(teams: seq<RivalTeam>)
    requires forall i :: 0 <= i < |teams| ==> |teams[i].drivers| == 2
    ensures |RivalSlots(teams)| == 2 * |teams|
  {
    if teams != [] {
      PairsCount(teams[1..]);
    }
  }

  /** Eighteen rival cars. */
  lemma RivalCount()
    ensures |RivalSlots(OtherTeams)| == 18
  {
    PairsCount(OtherTeams);
  }

  function RivalCars(slots: seq<(RivalTeam, RivalDriver)>, raceProgress: real, noise: seq<real>): (cs: seq<RacingCar>)
    requires |noise| == |slots|
    ensures |cs| == |slots|
    ensures forall i :: 0 <= i < |cs| ==> cs[i] == RivalCar(slots[i].0, slots[i].1, raceProgress, noise[i])
  {
    seq(|slots|, i requires 0 <= i < |slots| => RivalCar(slots[i].0, slots[i].1, raceProgress, noise[i]))
  }

  /** The `push` loops: the player's cars, then those of every team in `others`. */
  method BuildCars(teamData: Option<Teams.Team>, others: seq<RivalTeam>, raceProgress: real,
                   playerNoise: seq<real>, rivalNoise: seq<real>)
    returns (cars: seq<RacingCar>)
    requires teamData.Some? ==> |playerNoise| == |teamData.value.drivers|
    requires |rivalNoise| == |RivalSlots(others)|
    ensures cars == PlayerCars(teamData, raceProgress, playerNoise) + RivalCars(RivalSlots(others), raceProgress, rivalNoise)
  {
    cars := [];
    if teamData.Some? {
      var team := teamData.value;
      var i := 0;
      while i < |team.drivers|
        invariant 0 <= i <= |team.drivers|
        invariant |cars| == i
        invariant forall j :: 0 <= j < i ==> cars[j] == PlayerCar(team, team.drivers[j], raceProgress, playerNoise[j])
      {
        cars := cars + [PlayerCar(team, team.drivers[i], raceProgress, playerNoise[i])];
        i := i + 1;
      }
    }
    assert cars == PlayerCars(teamData, raceProgress, playerNoise);
    var player := cars;
    var slots := RivalSlots(others);
    var rivals := [];
    var k := 0;
    while k < |slots|
      invariant 0 <= k <= |slots|
      invariant |rivals| == k
      invariant forall j :: 0 <= j < k ==> rivals[j] == RivalCar(slots[j].0, slots[j].1, raceProgress, rivalNoise[j])
    {
      rivals := rivals + [RivalCar(slots[k].0, slots[k].1, raceProgress, rivalNoise[k])];
      k := k + 1;
    }
    assert rivals == RivalCars(slots, raceProgress, rivalNoise);
    cars := player + rivals;
  }

  function Progress(c: RacingCar): real { c.progress }

  /** The cars sorted by progress, largest first (`b.progress - a.progress`). */
  function RacingCars(cars: seq<RacingCar>): (r: seq<RacingCar>)
    ensures |r| == |cars|
  {
    Sorting.SortDesc(cars, Progress)
  }

  /** The drawn list is ordered by progress and holds exactly the built cars. */
  lemma RacingCarsOrdered(cars: seq<RacingCar>)
    ensures Sorting.SortedDesc(RacingCars(cars), Progress)
    ensures multiset(RacingCars(cars)) == multiset(cars)
  {
    Sorting.SortDescSorted(cars, Progress);
    Sorting.SortDescPerm(cars, Progress);
  }

  /** `racingCars.slice(0, 20)`: at most twenty cars are drawn, the leaders. */
  function ShownCars(cars: seq<RacingCar>): (r: seq<RacingCar>)
    ensures |r| == if |cars| < 20 then |cars| else 20
    ensures r == cars[..|r|]
  {
    if |cars| <= 20 then cars else cars[..20]
  }

  /** With a two-driver player team the view draws exactly twenty cars. */
  lemma FullField(team: Teams.Team, raceProgress: real, playerNoise: seq<real>, rivalNoise: seq<real>)
    requires |team.drivers| == 2 && |playerNoise| == 2 && |rivalNoise| == |RivalSlots(OtherTeams)|
    ensures |ShownCars(RacingCars(PlayerCars(Some(team), raceProgress, playerNoise)
                                  + RivalCars(RivalSlots(OtherTeams), raceProgress, rivalNoise)))| == 20
  {
    RivalCount();
  }

  class TrackView {
    var racingCars: seq<RacingCar>

    constructor ()
      ensures racingCars == []
    {
      racingCars := [];
    }

    /** The effect on a new race progress or team: every car rebuilt with fresh noise and sorted. */
    method CarsEffect(teamData: Option<Teams.Team>, raceProgress: real, playerNoise: seq<real>, rivalNoise: seq<real>)
      requires teamData.Some? ==> |playerNoise| == |teamData.value.drivers|
      requires |rivalNoise| == |RivalSlots(OtherTeams)|
      modifies this
      ensures racingCars == RacingCars(PlayerCars(teamData, raceProgress, playerNoise)
                                       + RivalCars(RivalSlots(OtherTeams), raceProgress, rivalNoise))
    {
      var cars := BuildCars(teamData, OtherTeams, raceProgress, playerNoise, rivalNoise);
      racingCars := RacingCars(cars);
    }
  }
}
