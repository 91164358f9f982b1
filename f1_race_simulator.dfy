/**
 * The race controller screen (`F1RaceSimulator`): the phase machine
 * strategy_prep → formation → start → race → finished, the car lookup, the
 * initial ranking built from the strategy screen's hand-over, the lap sync from
 * the track's telemetry, the periodic pace updates from the strategy model and
 * the chat with one selected driver.
 */
module F1RaceSimulator {
  import opened Wrappers
  import opened Text
  import opened Lists
  import opened Teams
  import opened Strategies
  import PathTrack
  import RaceSimulation

  // ---------------------------------------------------------------- phases

  /** `racePhase`: `strategy_prep`, `formation`, `start`, `race`, `finished`. */
  datatype SimPhase = StrategyPrep | Formation | Start | Race | Finished

  /**
   * What moves the phase: the strategy screen's hand-over, the start button, the
   * three-second lights-out timer, the finish check and the reset button.
   */
  datatype PhaseEvent = Prepared | StartPressed | LightsOff | LapsDone | Reset

  /**
   * The phase after an event. The start button acts only in formation, the finish
   * check leaves only the race, and the lights-out timer sets the race from
   * whatever phase it finds (it is not cancelled by a reset).
   */
  function NextPhase(p: SimPhase, e: PhaseEvent): (q: SimPhase)
    ensures e == StartPressed ==> (q != p <==> p == Formation)
    ensures q == Start && p != Start ==> p == Formation && e == StartPressed
    ensures q == Finished && p != Finished ==> p == Race && e == LapsDone
    ensures q == Race && p != Race ==> e == LightsOff
    ensures q == StrategyPrep && p != StrategyPrep ==> e == Reset
    ensures q == Formation && p != Formation ==> e == Prepared
  {
    match e
    case Prepared => Formation
    case StartPressed => if p == Formation then Start else p
    case LightsOff => Race
    case LapsDone => if p == Race then Finished else p
    case Reset => StrategyPrep
  }

  // ---------------------------------------------------------------- the car lookup

  /** A driver record spread with its team's name and colour (`{...driver, teamName, teamColor}`). */
  datatype CarInfo = CarInfo(driver: Driver, teamName: string, teamColor: string)

  /**
   * `${team.id}_${driver.id || driver.number}`: the id the lookup compares. There is
   * no index fallback, and a falsy number is still printed (`0`, `undefined`).
   */
  function LookupId(team: Team, d: Driver): (r: string)
    ensures TruthyStr(d.id) ==> r == Show(team.id) + "_" + d.id.value
    ensures !TruthyStr(d.id) ==> r == Show(team.id) + "_" + ShowNum(d.number)
  {
    Show(team.id) + "_" + (if TruthyStr(d.id) then d.id.value else ShowNum(d.number))
  }

  /** The first of `ds` (drivers of `team`) whose lookup id is `carId`. */
  function FindInTeam(team: Team, ds: seq<Driver>, carId: string): Option<CarInfo>
  {
    if ds == [] then None
    else if LookupId(team, ds[0]) == carId then Some(CarInfo(ds[0], team.name, team.color))
    else FindInTeam(team, ds[1..], carId)
  }

  /** The first driver, teams in order and then each team's drivers, whose lookup id is `carId`. */
  function FindCar(teams: seq<Team>, carId: string): Option<CarInfo>
  {
    if teams == [] then None
    else
      var hit := FindInTeam(teams[0], teams[0].drivers, carId);
      if hit.Some? then hit else FindCar(teams[1..], carId)
  }

  /** The team-level lookup finds a driver exactly when one matches, and what it finds matches. */
  lemma {:induction false} FindInTeamIff(team: Team, ds: seq<Driver>, carId: string)
    ensures FindInTeam(team, ds, carId).None? <==> forall j :: 0 <= j < |ds| ==> LookupId(team, ds[j]) != carId
    ensures FindInTeam(team, ds, carId).Some? ==>
      exists j :: 0 <= j < |ds| && LookupId(team, ds[j]) == carId
                  && FindInTeam(team, ds, carId).value == CarInfo(ds[j], team.name, team.color)
  {
    if ds != [] && LookupId(team, ds[0]) != carId {
      FindInTeamIff(team, ds[1..], carId);
      var r := FindInTeam(team, ds[1..], carId);
      if r.Some? {
        var j :| 0 <= j < |ds[1..]| && LookupId(team, ds[1..][j]) == carId && r.value == CarInfo(ds[1..][j], team.name, team.color);
        assert ds[j + 1] == ds[1..][j];
      }
      forall j | 1 <= j < |ds| ensures ds[j] == ds[1..][j - 1] { }
    }
  }

  /**
   * `findCarById` returns `null` exactly when no driver of any team has the id,
   * and otherwise a driver that has it, spread with its team's name and colour.
   */
  lemma {:induction false} FindCarIff(teams: seq<Team>, carId: string)
    ensures FindCar(teams, carId).None? <==>
      forall i, j :: 0 <= i < |teams| && 0 <= j < |teams[i].drivers| ==> LookupId(teams[i], teams[i].drivers[j]) != carId
    ensures FindCar(teams, carId).Some? ==>
      exists i, j :: 0 <= i < |teams| && 0 <= j < |teams[i].drivers| && LookupId(teams[i], teams[i].drivers[j]) == carId
                     && FindCar(teams, carId).value == CarInfo(teams[i].drivers[j], teams[i].name, teams[i].color)
  {
    if teams != [] {
      FindInTeamIff(teams[0], teams[0].drivers, carId);
      FindCarIff(teams[1..], carId);
      var hit := FindInTeam(teams[0], teams[0].drivers, carId);
      if hit.None? {
        var r := FindCar(teams[1..], carId);
        if r.Some? {
          var i, j :| 0 <= i < |teams[1..]| && 0 <= j < |teams[1..][i].drivers|
                      && LookupId(teams[1..][i], teams[1..][i].drivers[j]) == carId
                      && r.value == CarInfo(teams[1..][i].drivers[j], teams[1..][i].name, teams[1..][i].color);
          assert teams[i + 1] == teams[1..][i];
        }
        forall i | 1 <= i < |teams| ensures teams[i] == teams[1..][i - 1] { }
      }
    }
  }

  /** The two nested loops of `findCarById`, returning at the first match. */
  method FindCarById(teams: seq<Team>, carId: string) returns (r: Option<CarInfo>)
    ensures r == FindCar(teams, carId)
  {
    var ti := 0;
    while ti < |teams|
      invariant 0 <= ti <= |teams|
      invariant FindCar(teams, carId) == FindCar(teams[ti..], carId)
    {
      var team := teams[ti];
      var di := 0;
      while di < |team.drivers|
        invariant 0 <= di <= |team.drivers|
        invariant FindInTeam(team, team.drivers, carId) == FindInTeam(team, team.drivers[di..], carId)
      {
        assert team.drivers[di..][1..] == team.drivers[di + 1..];
        if LookupId(team, team.drivers[di]) == carId {
          return Some(CarInfo(team.drivers[di], team.name, team.color));
        }
        di := di + 1;
      }
      assert teams[ti..][1..] == teams[ti + 1..];
      ti := ti + 1;
    }
    return None;
  }

  /**
   * A grid car whose team has an id and whose driver has an id or a number is found:
   * its grid id is its lookup id.
   */
  lemma GridCarFound(teams: seq<Team>, ti: nat, j: nat)
    requires ti < |teams| && j < |teams[ti].drivers|
    requires TruthyStr(teams[ti].id)
    requires TruthyStr(teams[ti].drivers[j].id) || TruthyNum(teams[ti].drivers[j].number)
    ensures FindCar(teams, GridId(Slot(ti, teams[ti], teams[ti].drivers[j], j))).Some?
  {
    var id := GridId(Slot(ti, teams[ti], teams[ti].drivers[j], j));
    assert LookupId(teams[ti], teams[ti].drivers[j]) == id;
    FindCarIff(teams, id);
  }

  /**
   * A driver with neither id nor number gets the grid id `t_0` from its index, but the
   * lookup compares `t_undefined`: the ranking shows it as an unknown car.
   */
  lemma NamelessCarNotFound()
    ensures var team := Team(Some("t"), "T", "#fff", [Driver(None, None, "A")]);
      GridId(Slot(0, team, team.drivers[0], 0)) == "t_0"
      && FindCar([team], "t_0").None?
  {
    var team := Team(Some("t"), "T", "#fff", [Driver(None, None, "A")]);
    assert LookupId(team, team.drivers[0]) == "t_undefined";
    assert NatStr(0) == "0";
    FindCarIff([team], "t_0");
  }

  // ---------------------------------------------------------------- the initial ranking

  /** One line of the initial ranking. */
  datatype RankingRow = RankingRow(
    id: string, name: string, teamName: string, teamColor: string, position: nat, lap: int,
    totalTime: real, gapSeconds: real, inPit: bool, tyreWear: real, currentTyre: Tyre)

  /** `liveRanking`: the initial ranking until the track's first telemetry replaces it. */
  datatype Ranking = Initial(initial: seq<RankingRow>) | Live(live: seq<PathTrack.TelemetryRow>)

  /** `strategies[carId]?.tyreSequence?.[0] || 'medium'`. */
  function StartTyre(t: CarTable, carId: string): (r: Tyre)
    ensures carId in t.entries && t.entries[carId].tyreSequence.Some? && |t.entries[carId].tyreSequence.value| > 0
            ==> r == t.entries[carId].tyreSequence.value[0]
    ensures r != Medium ==> carId in t.entries && t.entries[carId].tyreSequence.Some?
  {
    if carId in t.entries && t.entries[carId].tyreSequence.Some? && |t.entries[carId].tyreSequence.value| > 0
    then t.entries[carId].tyreSequence.value[0]
    else Medium
  }

  /** `s || fallback` for a string. */
  function OrElse(s: string, fallback: string): string
  {
    if s != "" then s else fallback
  }

  /** The ranking line of the car at grid index `index`. */
  function RankRow(teams: seq<Team>, prep: PrepResult, index: nat): RankingRow
    requires index < |prep.gridOrder|
  {
    var carId := prep.gridOrder[index];
    var car := FindCar(teams, carId);
    RankingRow(carId,
               if car.Some? then OrElse(car.value.driver.name, "Driver " + NatStr(index + 1)) else "Driver " + NatStr(index + 1),
               if car.Some? then OrElse(car.value.teamName, "Unknown") else "Unknown",
               if car.Some? then OrElse(car.value.teamColor, "#FF0000") else "#FF0000",
               index + 1, 0, 0.0, 0.0, false, 0.0, StartTyre(prep.strategies, carId))
  }

  /**
   * The ranking shown before the first telemetry: one line per car in grid order,
   * positions 1, 2, ..., nobody has a lap, a gap or a worn tyre, and each car is on
   * the first tyre of its plan.
   */
  function InitialRanking(teams: seq<Team>, prep: PrepResult): (r: seq<RankingRow>)
    ensures |r| == |prep.gridOrder|
    ensures forall i :: 0 <= i < |r| ==>
      r[i].id == prep.gridOrder[i] && r[i].position == i + 1 && r[i].lap == 0 && r[i].totalTime == 0.0
      && r[i].gapSeconds == 0.0 && !r[i].inPit && r[i].tyreWear == 0.0
      && r[i].currentTyre == StartTyre(prep.strategies, prep.gridOrder[i])
  {
    seq(|prep.gridOrder|, i requires 0 <= i < |prep.gridOrder| => RankRow(teams, prep, i))
  }

  /**
   * A car nobody in the roster has the id of is shown as `Driver n` of team `Unknown`
   * in red; a found car shows its driver's and its team's names where they are set.
   */
  lemma RankingNames(teams: seq<Team>, prep: PrepResult, i: nat)
    requires i < |prep.gridOrder|
    ensures var row, car := InitialRanking(teams, prep)[i], FindCar(teams, prep.gridOrder[i]);
      (car.None? ==> row.name == "Driver " + NatStr(i + 1) && row.teamName == "Unknown" && row.teamColor == "#FF0000")
      && (car.Some? && car.value.driver.name != "" ==> row.name == car.value.driver.name)
      && (car.Some? && car.value.teamName != "" ==> row.teamName == car.value.teamName)
  {
    assert InitialRanking(teams, prep)[i] == RankRow(teams, prep, i);
  }

  /** Positions in the initial ranking are distinct: the ranking is a permutation of 1..n. */
  lemma RankingPositions(teams: seq<Team>, prep: PrepResult)
    ensures forall i, j :: 0 <= i < j < |prep.gridOrder| ==>
      InitialRanking(teams, prep)[i].position < InitialRanking(teams, prep)[j].position
    ensures forall i :: 0 <= i < |prep.gridOrder| ==> 1 <= InitialRanking(teams, prep)[i].position <= |prep.gridOrder|
  {
  }

  // ---------------------------------------------------------------- pace updates from the strategy model

  /** One entry of `strategyUpdates`; either field may be missing. */
  datatype PaceUpdate = PaceUpdate(carId: Option<string>, paceMultiplier: Option<real>)

  /** `upd.carId && upd.paceMultiplier`: both present and truthy. */
  predicate Applies(u: PaceUpdate)
  {
    TruthyStr(u.carId) && u.paceMultiplier.Some? && u.paceMultiplier.value != 0.0
  }

  /** An update that applies: the car and its multiplier. */
  datatype Step<K> = Step(id: K, m: real)

  /**
   * `next[id] = {...(next[id] || {}), paceK: (existed.paceK || 1.0) * m}` for each step
   * in order. The table stays well formed, and the cars it had keep their places;
   * new cars are added after them.
   */
  function ScaleSteps<K(==,!new)>(t: Table<K>, steps: seq<Step<K>>): (r: Table<K>)
    ensures Valid(t) ==> Valid(r)
    ensures |t.keys| <= |r.keys| && r.keys[..|t.keys|] == t.keys
    ensures t.entries.Keys <= r.entries.Keys
    decreases |steps|
  {
    if steps == [] then t
    else
      var s := steps[|steps| - 1];
      ScalePace(ScaleSteps(t, steps[..|steps| - 1]), s.id, s.m)
  }

  /** The multipliers of the steps for car `k`, in order. */
  function Multipliers<K(==)>(steps: seq<Step<K>>, k: K): (ms: seq<real>)
    ensures (forall i :: 0 <= i < |steps| ==> steps[i].m != 0.0) ==> forall j :: 0 <= j < |ms| ==> ms[j] != 0.0
    decreases |steps|
  {
    if steps == [] then []
    else Multipliers(steps[..|steps| - 1], k) + if steps[|steps| - 1].id == k then [steps[|steps| - 1].m] else []
  }

  /** A strategy whose pace is scaled by each multiplier in turn. */
  function ScaledBy(s: Strategy, ms: seq<real>): Strategy
    decreases |ms|
  {
    if ms == [] then s else Scaled(ScaledBy(s, ms[..|ms| - 1]), ms[|ms| - 1])
  }

  function Product(ms: seq<real>): real
    decreases |ms|
  {
    if ms == [] then 1.0 else Product(ms[..|ms| - 1]) * ms[|ms| - 1]
  }

  /** Scaling by non-zero multipliers in turn scales the effective pace by their product and changes nothing else. */
  lemma {:induction false} ScaledByProduct(s: Strategy, ms: seq<real>)
    requires forall j :: 0 <= j < |ms| ==> ms[j] != 0.0
    ensures PaceOf(ScaledBy(s, ms)) == PaceOf(s) * Product(ms)
    ensures ScaledBy(s, ms) == s.(paceK := ScaledBy(s, ms).paceK)
    decreases |ms|
  {
    if ms != [] {
      var n := |ms| - 1;
      ScaledByProduct(s, ms[..n]);
      NonZeroProduct(PaceOf(ScaledBy(s, ms[..n])), ms[n]);
      MulAssoc(PaceOf(s), Product(ms[..n]), ms[n], PaceOf(ScaledBy(s, ms[..n])));
    }
  }

  /** After the steps, car `k`'s entry is its old one (or `{}`) scaled by each of its multipliers in turn. */
  lemma {:induction false} ScaleStepsEntry<K(!new)>(t: Table<K>, steps: seq<Step<K>>, k: K)
    ensures EntryOr(ScaleSteps(t, steps), k) == ScaledBy(EntryOr(t, k), Multipliers(steps, k))
    decreases |steps|
  {
    if steps != [] {
      var n := |steps| - 1;
      ScaleStepsEntry(t, steps[..n], k);
      var before := ScaleSteps(t, steps[..n]);
      if steps[n].id == k {
        var ms := Multipliers(steps[..n], k);
        assert Multipliers(steps, k) == ms + [steps[n].m];
        SnocFront(ms, steps[n].m);
        assert ScaledBy(EntryOr(t, k), ms + [steps[n].m]) == Scaled(ScaledBy(EntryOr(t, k), ms), steps[n].m);
        assert EntryOr(ScaleSteps(t, steps), k) == Scaled(EntryOr(before, k), steps[n].m);
      } else {
        assert Multipliers(steps, k) == Multipliers(steps[..n], k);
      }
    }
  }

  /** A car no step names is exactly as it was, present or absent. */
  lemma {:induction false} ScaleStepsUntouched<K(!new)>(t: Table<K>, steps: seq<Step<K>>, k: K)
    requires forall i :: 0 <= i < |steps| ==> steps[i].id != k
    ensures (k in ScaleSteps(t, steps).entries <==> k in t.entries)
    ensures k in t.entries ==> ScaleSteps(t, steps).entries[k] == t.entries[k]
    decreases |steps|
  {
    if steps != [] {
      ScaleStepsUntouched(t, steps[..|steps| - 1], k);
    }
  }

  /** The updates that apply, in order, as steps; their multipliers are truthy. */
  function Effective(ups: seq<PaceUpdate>): (steps: seq<Step<string>>)
    ensures forall i :: 0 <= i < |steps| ==> steps[i].m != 0.0
    decreases |ups|
  {
    if ups == [] then []
    else
      var u := ups[|ups| - 1];
      Effective(ups[..|ups| - 1]) + if Applies(u) then [Step(u.carId.value, u.paceMultiplier.value)] else []
  }

  /** Some update applies to `k`. */
  predicate Touched(ups: seq<PaceUpdate>, k: string)
  {
    exists i :: 0 <= i < |ups| && Applies(ups[i]) && ups[i].carId.value == k
  }

  /** A car no applying update names is named by no step. */
  lemma {:induction false} EffectiveUntouched(ups: seq<PaceUpdate>, k: string)
    requires !Touched(ups, k)
    ensures forall i :: 0 <= i < |Effective(ups)| ==> Effective(ups)[i].id != k
    decreases |ups|
  {
    if ups != [] {
      var n := |ups| - 1;
      assert !Touched(ups[..n], k) by {
        forall i | 0 <= i < n ensures !(Applies(ups[..n][i]) && ups[..n][i].carId.value == k) {
          assert ups[..n][i] == ups[i];
        }
      }
      EffectiveUntouched(ups[..n], k);
    }
  }

  /** The strategy updates applied in order to a copy of the table. */
  function PaceUpdates(t: CarTable, ups: seq<PaceUpdate>): CarTable
  {
    ScaleSteps(t, Effective(ups))
  }

  /**
   * An update applies only when both its car id and its multiplier are truthy. After
   * the updates a car's entry (or `{}`) is scaled in turn by each multiplier that
   * applied to it, all of them non-zero, so that by `ScaledByProduct` its effective
   * pace is the old one times their product and its other fields are unchanged; a car
   * no update applied to is exactly as it was, present or absent.
   */
  lemma PaceUpdatesEffect(t: CarTable, ups: seq<PaceUpdate>, k: string)
    ensures EntryOr(PaceUpdates(t, ups), k) == ScaledBy(EntryOr(t, k), Multipliers(Effective(ups), k))
    ensures forall j :: 0 <= j < |Multipliers(Effective(ups), k)| ==> Multipliers(Effective(ups), k)[j] != 0.0
    ensures !Touched(ups, k) ==> (k in PaceUpdates(t, ups).entries <==> k in t.entries)
                                 && (k in t.entries ==> PaceUpdates(t, ups).entries[k] == t.entries[k])
  {
    ScaleStepsEntry(t, Effective(ups), k);
    if !Touched(ups, k) {
      EffectiveUntouched(ups, k);
      ScaleStepsUntouched(t, Effective(ups), k);
    }
  }

  /** The `forEach` over `strategyUpdates`, on a copy of the table. */
  method ApplyPaceUpdates(prev: CarTable, ups: seq<PaceUpdate>) returns (next: CarTable)
    ensures next == PaceUpdates(prev, ups)
  {
    next := prev;
    var i := 0;
    while i < |ups|
      invariant 0 <= i <= |ups|
      invariant next == ScaleSteps(prev, Effective(ups[..i]))
    {
      assert ups[..i + 1][..i] == ups[..i];
      var upd := ups[i];
      if TruthyStr(upd.carId) && upd.paceMultiplier.Some? && upd.paceMultiplier.value != 0.0 {
        var step := Step(upd.carId.value, upd.paceMultiplier.value);
        assert Effective(ups[..i + 1]) == Effective(ups[..i]) + [step];
        SnocFront(Effective(ups[..i]), step);
        next := ScalePace(next, step.id, step.m);
      } else {
        assert Effective(ups[..i + 1]) == Effective(ups[..i]);
      }
      i := i + 1;
    }
    assert ups[..i] == ups;
  }

  lemma SnocFront<T>(xs: seq<T>, x: T)
    ensures (xs + [x])[..|xs|] == xs && (xs + [x])[|xs|] == x
  {
  }

  /** The strategy model's answer: pace updates and radio messages, each possibly missing. */
  datatype LlmReply = LlmReply(strategyUpdates: Option<seq<PaceUpdate>>, teamRadio: Option<seq<Option<string>>>)

  /** The pop-up alert: the lap it was raised on and its text. */
  datatype Alert = Alert(lap: int, message: string)

  /** `data.teamRadio[0].message || 'Team radio'`. */
  function RadioText(m: Option<string>): (r: string)
    ensures r != ""
    ensures TruthyStr(m) ==> r == m.value
  {
    if TruthyStr(m) then m.value else "Team radio"
  }

  // ---------------------------------------------------------------- the driver chat

  /** The driver the chat panel talks to. */
  datatype ChatDriver = ChatDriver(id: string, name: string, position: Option<int>)

  /**
   * `driver.id || `${team.id}_${driver.number || driver.name.toLowerCase().replace(' ', '_')}``:
   * the id the chat uses; it is never empty, so the request's own name fallback is never taken.
   */
  function ChatId(team: Team, d: Driver): (r: string)
    ensures r != ""
    ensures TruthyStr(d.id) ==> r == d.id.value
    ensures !TruthyStr(d.id) && TruthyNum(d.number) ==> r == Show(team.id) + "_" + Dec(d.number.value)
    ensures !TruthyStr(d.id) && !TruthyNum(d.number) ==> r == Show(team.id) + "_" + ReplaceFirst(ToLower(d.name), ' ', '_')
  {
    if TruthyStr(d.id) then d.id.value
    else Show(team.id) + "_" + (if TruthyNum(d.number) then Dec(d.number.value) else ReplaceFirst(ToLower(d.name), ' ', '_'))
  }

  datatype MessageKind = SystemMessage | UserMessage | AiMessage | ErrorMessage

  datatype ChatMessage = ChatMessage(sender: string, message: string, kind: MessageKind)

  /** The greeting the selected driver opens the chat with. */
  function Welcome(team: Team, d: Driver, position: Option<int>): ChatMessage
  {
    ChatMessage(d.name, team.name + "车队，我是" + d.name + "。无线电连接正常，当前P"
                        + (if TruthyNum(position) then Dec(position.value) else "?") + "位置。", SystemMessage)
  }

  datatype Role = UserRole | AssistantRole

  datatype HistoryEntry = HistoryEntry(role: Role, content: string)

  function Entry(m: ChatMessage): HistoryEntry
  {
    HistoryEntry(if m.kind == UserMessage then UserRole else AssistantRole, m.message)
  }

  /**
   * `conversationHistory`: the last ten messages, oldest first; the engineer's own
   * messages are the user's turns and everything else the assistant's.
   */
  function History(msgs: seq<ChatMessage>): (h: seq<HistoryEntry>)
    ensures |h| == Min(|msgs|, 10)
    ensures forall i :: 0 <= i < |h| ==>
      h[i].content == msgs[|msgs| - |h| + i].message
      && (h[i].role == UserRole <==> msgs[|msgs| - |h| + i].kind == UserMessage)
  {
    Map(Entry, Last(msgs, 10))
  }

  /** The driver model's answer; the fields are missing when the answer lacks them. */
  datatype DriverAnswer = DriverAnswer(response: Option<string>, paceMultiplier: Option<real>)

  /** The message shown for a chat answer or failure (`result.response || '收到指令。'`). */
  function ReplyMessage(to: ChatDriver, reply: Result<DriverAnswer, string>): (m: ChatMessage)
    ensures m.sender == to.name && m.message != ""
    ensures reply.Err? ==> m.kind == ErrorMessage && m.message == "无线电故障: " + reply.error
    ensures reply.Ok? ==> m.kind == AiMessage
    ensures reply.Ok? && TruthyStr(reply.value.response) ==> m.message == reply.value.response.value
  {
    if reply.Err? then ChatMessage(to.name, "无线电故障: " + reply.error, ErrorMessage)
    else ChatMessage(to.name, if TruthyStr(reply.value.response) then reply.value.response.value else "收到指令。", AiMessage)
  }

  // ---------------------------------------------------------------- the screen's state

  /** Every state variable of the screen but the strategy table, at once. */
  datatype ControllerView = ControllerView(
    phase: SimPhase, progress: int, lap: int, active: bool, gridOrder: seq<string>, ranking: Ranking,
    weather: Option<RaceSimulation.Weather>, selected: Option<ChatDriver>, chat: seq<ChatMessage>, thinking: bool,
    events: seq<RaceSimulation.RaceEvent>, flag: RaceSimulation.Flag, alert: Option<Alert>)

  /** The race controller for one selected team (resolved by the caller) and one race. */
  class RaceController {
    const teams: seq<Team>
    const team: Team
    const laps: Option<int>

    var phase: SimPhase
    var raceProgress: int
    var currentLap: int
    var isRaceActive: bool
    var gridOrder: seq<string>
    var strategies: CarTable
    var ranking: Ranking
    var weather: Option<RaceSimulation.Weather>
    var selected: Option<ChatDriver>
    var chat: seq<ChatMessage>
    var thinking: bool
    var raceEvents: seq<RaceSimulation.RaceEvent>
    var raceFlag: RaceSimulation.Flag
    var alert: Option<Alert>

    function View(): ControllerView
      reads this
    {
      ControllerView(phase, raceProgress, currentLap, isRaceActive, gridOrder, ranking, weather,
                     selected, chat, thinking, raceEvents, raceFlag, alert)
    }

    /** The table is well formed and the lap count is not negative. */
    predicate Valid()
      reads this
    {
      Strategies.Valid(strategies) && currentLap >= 0
    }

    /** The first render: every state variable holds its initial value (`weatherData` is `{}`). */
    constructor (teams: seq<Team>, team: Team, laps: Option<int>)
      ensures Valid()
      ensures this.teams == teams && this.team == team && this.laps == laps
      ensures strategies == EmptyTable()
      ensures View() == ControllerView(StrategyPrep, 0, 0, false, [], Initial([]), Some(RaceSimulation.Weather(None, None, None)),
                                       None, [], false, [], RaceSimulation.Green, None)
    {
      this.teams, this.team, this.laps := teams, team, laps;
      phase, raceProgress, currentLap, isRaceActive, gridOrder := StrategyPrep, 0, 0, false, [];
      strategies, ranking, weather := EmptyTable(), Initial([]), Some(RaceSimulation.Weather(None, None, None));
      selected, chat, thinking, raceEvents, raceFlag, alert := None, [], false, [], RaceSimulation.Green, None;
    }

    /**
     * The strategy screen's hand-over: its table and grid replace the screen's own,
     * the weather becomes `undefined` (the hand-over has no `weather` field), the
     * phase is formation and the ranking is the grid.
     */
    method HandleStrategyComplete(prep: PrepResult)
      requires Valid() && Strategies.Valid(prep.strategies)
      modifies this
      ensures Valid()
      ensures strategies == prep.strategies
      ensures View() == old(View()).(phase := NextPhase(old(phase), Prepared), gridOrder := prep.gridOrder, weather := None,
                                     ranking := Initial(InitialRanking(teams, prep)))
    {
      strategies, gridOrder, weather := prep.strategies, prep.gridOrder, None;
      phase, ranking := Formation, Initial(InitialRanking(teams, prep));
    }

    /** The start button: only in formation, the race becomes active and the lights come on. */
    method StartRace()
      requires Valid()
      modifies this
      ensures Valid()
      ensures strategies == old(strategies)
      ensures old(phase) != Formation ==> View() == old(View())
      ensures old(phase) == Formation ==> View() == old(View()).(active := true, phase := NextPhase(Formation, StartPressed))
    {
      if phase == Formation {
        isRaceActive, phase := true, Start;
      }
    }

    /** The lights-out timer, three seconds after the start: the race phase, whatever the phase is by then. */
    method LightsOut()
      requires Valid()
      modifies this
      ensures Valid()
      ensures strategies == old(strategies)
      ensures View() == old(View()).(phase := NextPhase(old(phase), LightsOff))
    {
      phase := Race;
    }

    /** The pause/resume button; it acts in every phase. */
    method ToggleRace()
      requires Valid()
      modifies this
      ensures Valid()
      ensures strategies == old(strategies)
      ensures View() == old(View()).(active := !old(isRaceActive))
    {
      isRaceActive := !isRaceActive;
    }

    /** Back to strategy preparation; the grid, the table, the weather and the alert stay. */
    method ResetRace()
      requires Valid()
      modifies this`phase, this`raceProgress, this`currentLap, this`isRaceActive
      modifies this`ranking, this`chat, this`raceEvents, this`raceFlag, this`selected
      ensures Valid()
      ensures unchanged(`strategies, `gridOrder, `weather, `thinking, `alert)
      ensures phase == NextPhase(old(phase), Reset) && raceProgress == 0 && currentLap == 0 && !isRaceActive
      ensures ranking == Initial([]) && chat == [] && raceEvents == [] && raceFlag == RaceSimulation.Green && selected.None?
    {
      phase, raceProgress, currentLap, isRaceActive := StrategyPrep, 0, 0, false;
      ranking, chat, raceEvents, raceFlag := Initial([]), [], [], RaceSimulation.Green;
      selected := None;
    }

    /** The two-second finish check, running while the race is active and in the race phase. */
    method FinishCheck()
      requires Valid()
      modifies this
      ensures Valid()
      ensures strategies == old(strategies)
      ensures var done := old(isRaceActive) && old(phase) == Race && old(currentLap) >= RaceSimulation.TotalLaps(laps);
        View() == if done then old(View()).(active := false, phase := NextPhase(Race, LapsDone)) else old(View())
    {
      if isRaceActive && phase == Race && currentLap >= RaceSimulation.TotalLaps(laps) {
        isRaceActive, phase := false, Finished;
      }
    }

    /** The track's telemetry: the lap follows the leader but never goes back, and the ranking is replaced. */
    method OnTelemetry(rows: seq<PathTrack.TelemetryRow>)
      requires Valid()
      modifies this
      ensures Valid()
      ensures strategies == old(strategies)
      ensures currentLap >= old(currentLap)
      ensures |rows| > 0 ==> currentLap >= rows[0].standing.lap && (currentLap == old(currentLap) || currentLap == rows[0].standing.lap)
      ensures View() == old(View()).(lap := currentLap, ranking := Live(rows))
      ensures |rows| == 0 ==> currentLap == old(currentLap)
    {
      if |rows| > 0 {
        currentLap := if rows[0].standing.lap > currentLap then rows[0].standing.lap else currentLap;
      }
      ranking := Live(rows);
    }

    /**
     * The six-second strategy-model tick, running while the race is active outside
     * formation: pace updates are applied to the table and the first radio message
     * becomes the alert.
     */
    method LlmTick(reply: Option<LlmReply>)
      requires Valid()
      modifies this
      ensures Valid()
      ensures var asked := old(isRaceActive) && old(phase) != Formation && reply.Some?;
        strategies == (if asked && reply.value.strategyUpdates.Some?
                       then PaceUpdates(old(strategies), reply.value.strategyUpdates.value) else old(strategies))
        && View() == old(View()).(alert := if asked && reply.value.teamRadio.Some? && |reply.value.teamRadio.value| > 0
                                           then Some(Alert(old(currentLap), RadioText(reply.value.teamRadio.value[0])))
                                           else old(alert))
    {
      if isRaceActive && phase != Formation && reply.Some? {
        if reply.value.strategyUpdates.Some? {
          strategies := ApplyPaceUpdates(strategies, reply.value.strategyUpdates.value);
        }
        if reply.value.teamRadio.Some? && |reply.value.teamRadio.value| > 0 {
          alert := Some(Alert(currentLap, RadioText(reply.value.teamRadio.value[0])));
        }
      }
    }

    /** The alert's close button. */
    method DismissAlert()
      requires Valid()
      modifies this
      ensures Valid()
      ensures strategies == old(strategies)
      ensures View() == old(View()).(alert := None)
    {
      alert := None;
    }

    /** Opens the chat with a driver: its id is completed and the chat restarts with its greeting. */
    method SelectDriverForChat(d: Driver, position: Option<int>)
      requires Valid()
      modifies this
      ensures Valid()
      ensures strategies == old(strategies)
      ensures View() == old(View()).(selected := Some(ChatDriver(ChatId(team, d), d.name, position)),
                                     chat := [Welcome(team, d, position)])
    {
      selected, chat := Some(ChatDriver(ChatId(team, d), d.name, position)), [Welcome(team, d, position)];
    }

    /** The chat panel's close button. */
    method CloseChat()
      requires Valid()
      modifies this
      ensures Valid()
      ensures strategies == old(strategies)
      ensures View() == old(View()).(selected := None)
    {
      selected := None;
    }

    /**
     * A message to the selected driver. Without a driver, or while an answer is
     * awaited, nothing happens; otherwise the message is shown, the screen waits,
     * and the request carries the last ten messages before it.
     */
    method SendChat(message: string) returns (sent: bool, history: seq<HistoryEntry>)
      requires Valid()
      modifies this
      ensures Valid()
      ensures strategies == old(strategies)
      ensures sent <==> old(selected).Some? && !old(thinking)
      ensures !sent ==> View() == old(View()) && history == []
      ensures sent ==> View() == old(View()).(thinking := true, chat := old(chat) + [ChatMessage("车队指挥", message, UserMessage)])
                       && history == History(old(chat))
    {
      if selected.None? || thinking {
        return false, [];
      }
      history := History(chat);
      thinking, chat := true, chat + [ChatMessage("车队指挥", message, UserMessage)];
      sent := true;
    }

    /**
     * The answer to a message sent to `to` (the driver selected when it was sent), or
     * the failure's message: it is shown, a truthy pace multiplier scales that car's
     * pace, and the screen stops waiting.
     */
    method ReceiveChat(to: ChatDriver, reply: Result<DriverAnswer, string>)
      requires Valid()
      modifies this
      ensures Valid()
      ensures View() == old(View()).(thinking := false, chat := old(chat) + [ReplyMessage(to, reply)])
      ensures strategies == if reply.Ok? && reply.value.paceMultiplier.Some? && reply.value.paceMultiplier.value != 0.0
                            then ScalePace(old(strategies), to.id, reply.value.paceMultiplier.value)
                            else old(strategies)
    {
      chat := chat + [ReplyMessage(to, reply)];
      if reply.Ok? && reply.value.paceMultiplier.Some? && reply.value.paceMultiplier.value != 0.0 {
        strategies := ScalePace(strategies, to.id, reply.value.paceMultiplier.value);
      }
      thinking := false;
    }
  }
}
