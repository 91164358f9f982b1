# 7bull race simulation, modelled in Dafny

7bull is an F1 race simulation with a React front end and a Python back end. The player
picks a team, prepares a strategy for every car (pit laps, tyres, pace factor), watches
the race on an animated circuit with a live classification, and talks to the drivers on
the team radio. The back end answers the radio with rules or a language model and also
runs a character role-play chat with users, characters and stored conversations.

This project models the logic of that program in Dafny and proves what it promises.
There is one module per source file:

- `PathTrack` (`path_track.dfy`) is the animation engine. It builds the roster and keeps one
  state per car in an array. Each frame advances every car along the closed path: curvature,
  pace, lap probe, pit timer, tyre wear, speed floor and wrap. It then hands back the ordered
  telemetry.
- `RaceSimulation` (`race_simulation.dfy`) is the race screen. It covers:
  - progress, phase and lap;
  - the default strategies;
  - the radio and chatter panels;
  - the language-model strategy merge;
  - random race events, among them the safety-car pit insertion;
  - driver impacts;
  - whole-field templates.
- `F1RaceSimulator` (`f1_race_simulator.dfy`) is the race controller. It holds:
  - the phase machine strategy_prep → formation → start → race → finished;
  - `findCarById` and the initial ranking;
  - the lap sync from telemetry;
  - pace updates;
  - the single-driver chat.
- `StrategyPrep` (`strategy_prep.dfy`) is the strategy screen. It builds the car list, shuffles
  it into a grid and gives default strategies by grid position. It lets the user edit one car
  or re-template all of them, and it hands over six fields per car on start.
- `LiveRanking` (`live_ranking.dfy`) is the classification panel: a bounded history,
  position-change badges, driver status and row labels.
- `BahrainTrack` (`bahrain_track.dfy`) is the circuit view: the point table, the spline lookup,
  lanes, and the car list sorted by progress.
- `Chat` (`chat.dfy`) is the character chat. It assembles the recognition transcript, sends a
  message and takes the reply, cuts speech into segments, and picks the voice, rate and pitch.
- `RealTimeChat` (`realtime_chat.dfy`) is the radio chat with windowed histories, the fallback,
  and mood colours and emojis.
- `Dashboard` and `DashboardJs` (`dashboard.dfy`, `dashboard_js.dfy`) are the character
  browsers: the carousel ring, view navigation and search filters.
- `RaceStrategy` (`race_strategy.dfy`) is the rule-based strategy assistant of the back end.
- `LlmEndpoints` (`llm_endpoints.dfy`) covers the language-model endpoints. It normalises the
  reply, clamps the pace, and handles the fallback, the prompt branch, the race flags and the
  fixed defaults.
- `BackendMain` (`backend_main.dfy`) is the role-play back end. It covers:
  - skill detection and prompt enhancement;
  - register and login;
  - the chat exchange with its history window;
  - the conversation listing.

Shared modules:

- `Wrappers` (Option, Result).
- `Text`: prefixes, substrings, ASCII case, trimming, decimals and replace.
- `Lists`: windows, map, filter, find and subsequence.
- `Sorting`: descending order by a real key, as a permutation.
- `JsMath`: `Math.round`, `min` and `max`.
- `Teams`: the roster and car ids.
- `Strategies`: the per-car strategy record and the insertion-ordered table that stands for a
  JavaScript object keyed by car id.

JavaScript and Python semantics are written out where they matter:

- Truthiness: an absent value is `None`; `0` and `""` are falsy.
- `||` defaults.
- Truncating `%` on reals.
- `replace` with a string pattern replaces only the first occurrence in JavaScript, but every
  occurrence in Python.
- A Python dict display keeps the last value of a repeated key.
- `random.sample` raises on a pool that is too small.

Screens whose state React keeps in `useState` are classes:

- the fields are the state variables;
- the handlers and effects are methods;
- timers appear as explicit event methods.

Randomness, clocks, the path geometry, network replies and the language model's answers are
parameters, each with the range the program draws it from.

Behaviour of the code a reader might not expect:

- The speed floor of 120 px/s applies even in the pit or before the start, so no gate stops a car.
- The lap probe is taken before the move, so a wrap can be skipped or counted twice.
- Nothing clamps the frame time.
- The general reply of the strategy assistant is unreachable, because `'general'` is truthy.
- The race screen's 8-second strategy interval and 12-second event interval are re-armed whenever `raceProgress` changes (the dependency lists at RaceSimulation.jsx:363 and :412). While the race runs, the 1-second progress interval changes it every second, so neither interval ever fires. `RaceSession.LlmTick` and `RaceSession.EventTick` model what one firing would do, and the lemmas about the safety car (`SafetyCarEffect`) and the radio window (`AddRadiosWindow`) state what such a firing would change. The program itself never takes those transitions.
- The controller's 6-second strategy interval is re-armed whenever `liveRanking` changes (F1RaceSimulator.jsx:111). With a working frame loop, the telemetry callback replaces `liveRanking` on every animation frame, so the interval never fires and `RaceController.LlmTick` is not reachable. As written, the undeclared `flagFactor` (see Findings) stops the frame loop before any telemetry is sent, so the ranking stays unchanged and the interval does fire.
- The driver endpoint never sends a history, because the request model has no such field.
- A car with no id or number is `t_0` on the grid but is looked up as `t_undefined`.
- A chat may append to any conversation id the client supplies.
- The conversation listing shows every file whose name merely contains the user name.

## Model

| member | source | states |
|---|---|---|
| Teams.Show | frontend/src/components/RaceSimulation.jsx:73 | a present string prints as itself inside the car-id template literal |
| Teams.ShowNum | frontend/src/components/RaceSimulation.jsx:73 | a present number prints as its decimal form inside the template literal |
| Teams.DriverKey | frontend/src/components/RaceSimulation.jsx:73 | the driver key is the id when truthy, else the number when truthy, else the index, as `d.id \|\| d.number \|\| idx` |
| Teams.TeamIdOrName | frontend/src/components/RaceSimulation.jsx:71 | the team key is the id when truthy, else the name |
| Teams.TeamSlots | frontend/src/components/RaceSimulation.jsx:72 | one slot per driver of the team, in the team's order, each carrying its index |
| Teams.SlotsShape | frontend/src/components/RaceSimulation.jsx:70-76 | walking all teams yields exactly one slot per driver, each a real (team, driver, index) triple of the input |
| Teams.GridIds | frontend/src/components/RaceSimulation.jsx:73-74 | one car id per slot, in order, made of the team key and the driver key |
| Teams.TeamGridIds | frontend/src/components/RaceSimulation.jsx:72-75 | the inner push loop collects the car ids of one team's drivers in order |
| Teams.GridOrder | frontend/src/components/RaceSimulation.jsx:68-78 | the push loop over all teams yields the car ids of every driver, teams in order and drivers in order |
| Teams.GridCovers | frontend/src/components/RaceSimulation.jsx:68-78 | the grid has one id per driver and the id at each position is `teamKey_driverKey` of that driver |
| Strategies.Override | frontend/src/components/RaceSimulation.jsx:335-338 | in an object spread a field the patch sets wins, otherwise the base's field stays |
| Strategies.Merge | frontend/src/components/RaceSimulation.jsx:335-338 | `{...base, ...patch}` overrides each strategy field the patch sets and keeps every other field of the base |
| Strategies.MergeLaws | frontend/src/components/RaceSimulation.jsx:335-338 | spreading `{}` changes nothing, spreading onto `{}` copies the patch, and spreading the same patch twice is spreading it once |
| Strategies.EmptyTable | frontend/src/components/RaceSimulation.jsx:82 | `{}` has no keys and no entries |
| Strategies.Get | frontend/src/components/RaceSimulation.jsx:334 | looking up a car id yields its entry exactly when the id is a key, and `undefined` otherwise |
| Strategies.Put | frontend/src/components/RaceSimulation.jsx:87 | assigning a key stores the value, keeps an existing key in its place, appends a new key last, and keeps the table well formed |
| Strategies.PaceOf | frontend/src/components/RaceSimulation.jsx:254 | `paceK \|\| 1.0` is the pace when it is set and non-zero, else 1.0, and is never zero |
| Strategies.EntryOr | frontend/src/components/RaceSimulation.jsx:253 | the car's entry when it has one, else the empty strategy |
| Strategies.Scaled | frontend/src/components/RaceSimulation.jsx:252-255 | the pace becomes `(paceK \|\| 1.0) * m` and every other field stays |
| Strategies.ScaledTwice | frontend/src/components/RaceSimulation.jsx:252-255 | scaling a pace by a non-zero factor and then again scales it once by the product, other fields untouched |
| Strategies.ScalePace | frontend/src/components/RaceSimulation.jsx:248-256 | a driver-AI impact scales one car's pace, creating its entry with pace `m` when it had none; other cars and the key order stay |
| Strategies.ScaleCompose | frontend/src/components/RaceSimulation.jsx:248-256 | two impacts on the same car compose into one impact by the product of the multipliers, with the same keys and the same other cars |
| Strategies.PutTwice | frontend/src/components/RaceSimulation.jsx:87 | a second assignment to the same key replaces the first and leaves the key order as one assignment does |
| Strategies.PutAll | frontend/src/components/RaceSimulation.jsx:82-89 | a run of assignments yields exactly the old keys plus the written ones, untouched entries stay, and no new key is added when every id was present |
| Strategies.PutAllDistinct | frontend/src/components/RaceSimulation.jsx:82-89 | with distinct ids each id ends up holding the value written for it |
| Strategies.PutAllAt | frontend/src/components/RaceSimulation.jsx:82-89 | with distinct ids the `j`-th id holds the `j`-th value |
| Strategies.PutAllKeys | frontend/src/components/RaceSimulation.jsx:82-89 | distinct ids written onto `{}` become the keys in their own order |
| Strategies.PutAllFrom | frontend/src/components/RaceSimulation.jsx:85-88 | when every written value is the same default, every written id holds it |
| Strategies.Values | frontend/src/components/RaceSimulation.jsx:406 | the values of a table listed in key order, one per key |
| Strategies.Spread | frontend/src/components/RaceSimulation.jsx:406 | `{...a, ...b}` writes the entries of `b` onto `a` in `b`'s key order and keeps the table well formed |
| Strategies.SpreadOver | frontend/src/components/RaceSimulation.jsx:406 | spreading entries whose keys are already present keeps the key order, takes the entries of `b` and keeps the rest of `a` |
| Strategies.MergeShadow | frontend/src/components/RaceSimulation.jsx:989-1007 | a later template that sets every field an earlier one set hides the earlier one |
| Strategies.MergeAll | frontend/src/components/RaceSimulation.jsx:988-990 | patching every entry keeps the keys and their order and spreads the patch over each entry |
| Strategies.MergeAllShadow | frontend/src/components/RaceSimulation.jsx:985-1011 | applying a template to the whole field and then one that covers it is applying the second alone |
| JsMath.Round | frontend/src/components/LiveRanking.jsx:320 | `Math.round` lands within one half of its argument (halves rounding up) |
| JsMath.RoundMonotone | frontend/src/components/BahrainTrack.jsx:159 | rounding preserves order |
| JsMath.Min | frontend/src/components/BahrainTrack.jsx:89 | `Math.min` is one of its arguments and below both |
| JsMath.Max | frontend/src/components/BahrainTrack.jsx:89 | `Math.max` is one of its arguments and above both |
| PathTrack.RosterOf | frontend/src/components/PathTrack.jsx:54-63 | one car per (team, driver) slot, in order |
| PathTrack.TeamRoster | frontend/src/components/PathTrack.jsx:54-63 | the inner push loop makes one car per driver of a team, in driver order |
| PathTrack.BuildRoster | frontend/src/components/PathTrack.jsx:48-80 | with teams, every driver of every team in order; without, the twenty demonstration cars |
| PathTrack.RosterCars | frontend/src/components/PathTrack.jsx:49-64 | one car per driver; its id is team key, `_`, driver key, and it is the selected team's exactly when a selection is given and the team id equals it |
| PathTrack.DemoRoster | frontend/src/components/PathTrack.jsx:69-76 | the demonstration cars are `demo_0` .. `demo_19`, numbered 1 .. 20, with pairwise distinct ids |
| PathTrack.ClosedPathEnds | frontend/src/components/PathTrack.jsx:94-98 | a closed outline ends with a close command (`/Z\s*$/i`), an open one is the trimmed outline |
| PathTrack.ClosedPathIdempotent | frontend/src/components/PathTrack.jsx:94-98 | closing a non-blank outline twice is closing it once |
| PathTrack.ClosedPathBlank | frontend/src/components/PathTrack.jsx:95-97 | a blank outline closes to `" Z"`, which closes again to `"Z"`, so idempotence needs a non-blank outline |
| PathTrack.JsModNonNeg | frontend/src/components/PathTrack.jsx:118 | JavaScript `%` of a value above `-L` plus `L` by `L` lands in `[0, L)` |
| PathTrack.JsModBelow | frontend/src/components/PathTrack.jsx:128 | JavaScript `%` leaves a value in `[0, L)` unchanged |
| PathTrack.JsModNegBelow | frontend/src/components/PathTrack.jsx:118 | JavaScript `%` leaves a value in `(-L, 0]` unchanged: the remainder takes the sign of the dividend |
| PathTrack.JsModOnce | frontend/src/components/PathTrack.jsx:190 | JavaScript `%` of a value in `[L, 2L)` subtracts one lap |
| PathTrack.WrapRange | frontend/src/components/PathTrack.jsx:148-150 | the wrapped heading change lies in `[-Pi, Pi)` and differs from the raw one by whole turns |
| PathTrack.NormalizeAngle | frontend/src/components/PathTrack.jsx:148-150 | the two `while` loops bring the heading change into `[-Pi, Pi]` by whole turns, leave an in-range angle alone, and give the magnitude of the wrapped angle |
| PathTrack.Curvature | frontend/src/components/PathTrack.jsx:151 | curvature is never negative |
| PathTrack.Spacing | frontend/src/components/PathTrack.jsx:126 | the gap `L / max(1, n)` is positive and `n` gaps make one lap |
| PathTrack.InitSpread | frontend/src/components/PathTrack.jsx:125-134 | outside the start phase car `i` starts at `gap * i` within the lap, with speed factor in `[0.95, 1.07)`, lap 0, no pit time, no wear, lane below 4 |
| PathTrack.InitGrid | frontend/src/components/PathTrack.jsx:114-124 | in the start phase car 0 is on the line, car `i` stands `18 i` px behind it, negative once `18 i` exceeds `L`, and its start delay is in `[0, 0.5)` |
| PathTrack.CornerSpeed | frontend/src/components/PathTrack.jsx:182 | the cornering-limited speed lies between 0 and the straight-line maximum |
| PathTrack.WearFactorRange | frontend/src/components/PathTrack.jsx:184 | wear costs at most 20 % of the speed, exactly `1 - wear` below 0.2 and the full 20 % from 0.2 |
| PathTrack.Speed | frontend/src/components/PathTrack.jsx:189 | the frame speed never drops below the 120 px/s floor |
| PathTrack.AdvanceLap | frontend/src/components/PathTrack.jsx:168-171 | the lap counter rises by one exactly when the car starts the frame within one metre of the line |
| PathTrack.AdvancePitTimer | frontend/src/components/PathTrack.jsx:172-179 | the pit timer never goes negative, a running timer counts down by the frame time, and a stop only starts when none runs |
| PathTrack.AdvanceWear | frontend/src/components/PathTrack.jsx:182-183 | tyre wear only grows, by at most 0.0005 per pixel of straight-line distance |
| PathTrack.AdvancePosition | frontend/src/components/PathTrack.jsx:190-191 | a car on the lap stays on the lap after its move |
| PathTrack.NotStartedCrawl | frontend/src/components/PathTrack.jsx:187-189 | before the race starts every car moves at the 120 px/s floor, whatever its phase, pit timer or strategy |
| PathTrack.PitStopStillMoves | frontend/src/components/PathTrack.jsx:189 | a car in the pits still moves at the floor speed |
| PathTrack.LapSkippedByFastFrame | frontend/src/components/PathTrack.jsx:168-191 | the lap probe runs before the move, so a car covering more than a metre in one frame can cross the line uncounted |
| PathTrack.Standings | frontend/src/components/PathTrack.jsx:209-217 | one standing per car in roster order, with total distance `lap * L + s` |
| PathTrack.ClassifyOrder | frontend/src/components/PathTrack.jsx:218-224 | positions run 1, 2, ... by distance covered, largest first, the leader's gap is 0 and every gap is the distance to the leader |
| PathTrack.ClassifyPermutation | frontend/src/components/PathTrack.jsx:218 | every car appears in the telemetry exactly once |
| PathTrack.RaceEngine.constructor | frontend/src/components/PathTrack.jsx:31-45 | on mount there are no cars or states and the frame clock is unset |
| PathTrack.RaceEngine.SetRoster | frontend/src/components/PathTrack.jsx:48-80 | new teams rebuild the roster and drop the car states; nothing else changes |
| PathTrack.RaceEngine.SetPhase | frontend/src/components/PathTrack.jsx:83-88 | a phase change restarts the phase clock; the same phase changes nothing |
| PathTrack.RaceEngine.Restart | frontend/src/components/PathTrack.jsx:100-103 | re-running the effect records the new track, unsets the frame clock and schedules a frame |
| PathTrack.RaceEngine.Init | frontend/src/components/PathTrack.jsx:112-136 | the car states are kept when their number matches the roster and are created afresh otherwise |
| PathTrack.RaceEngine.AdvanceAll | frontend/src/components/PathTrack.jsx:139-205 | every car is advanced by one frame with its own curvature and strategy |
| PathTrack.RaceEngine.Step | frontend/src/components/PathTrack.jsx:107-228 | one frame: elapsed time from the frame clock, fresh states when the roster size changed, every car advanced, and the ordered telemetry returned |
| PathTrack.RaceEngine.StepAsWritten | frontend/src/components/PathTrack.jsx:189 | as shipped, the undeclared `flagFactor` throws at the first car after its lap, pit timer and wear changed; no telemetry, no next frame |
| RaceSimulation.TotalLaps | frontend/src/components/RaceSimulation.jsx:190 | `race.laps \|\| 57`: the race's laps when truthy, else 57 |
| RaceSimulation.LapRange | frontend/src/components/RaceSimulation.jsx:507 | for progress in `[0, 100]` the displayed lap lies in `[0, laps]`, is 0 at the start and the last lap at 100 % |
| RaceSimulation.LapMonotone | frontend/src/components/RaceSimulation.jsx:316 | the displayed lap never goes backwards as progress grows |
| RaceSimulation.PhaseFor | frontend/src/components/RaceSimulation.jsx:107-109 | the race-start phase exactly below 20 %, the final phase exactly from 70 %, never pre-race |
| RaceSimulation.PhaseMonotone | frontend/src/components/RaceSimulation.jsx:98-112 | phases only move forward as progress grows |
| RaceSimulation.Repeat | frontend/src/components/RaceSimulation.jsx:87 | `n` copies of the default strategy |
| RaceSimulation.TeamDefaults | frontend/src/components/RaceSimulation.jsx:85-88 | the inner loop writes the two-stop default under each driver's car id, in driver order |
| RaceSimulation.PutEach | frontend/src/components/RaceSimulation.jsx:85-88 | writing one value under each id in turn is the run of assignments `PutAll` |
| RaceSimulation.DefaultStrategies | frontend/src/components/RaceSimulation.jsx:81-91 | the default table writes the two-stop default under every grid id, in grid order, and is well formed |
| RaceSimulation.DefaultsShape | frontend/src/components/RaceSimulation.jsx:81-91 | exactly the grid ids have entries, every entry is `{plannedPitLaps:[15,38], pitSeconds:2.5, paceK:1.0}`, and with distinct ids the key order is the grid order |
| RaceSimulation.TemplatePatch | frontend/src/components/RaceSimulation.jsx:989-1007 | one-stop writes `[20]` and 2.3 s, two-stop `[15, 38]` and 2.5 s, no-stop `[]` and 0 s, and no other field |
| RaceSimulation.ApplyTemplate | frontend/src/components/RaceSimulation.jsx:987-991 | the `forEach` over the copy's keys patches every existing car with the template |
| RaceSimulation.TemplateFields | frontend/src/components/RaceSimulation.jsx:989 | after a template button every car has the template's pit laps and seconds and keeps its pace, tyres, fuel and template name |
| RaceSimulation.TemplateLastWins | frontend/src/components/RaceSimulation.jsx:985-1011 | two template buttons in a row leave the table as the second alone would |
| RaceSimulation.DoubleStopOnDefaults | frontend/src/components/RaceSimulation.jsx:994-1002 | the two-stop button on the default table changes nothing |
| RaceSimulation.DoubleStopKeeps | frontend/src/components/RaceSimulation.jsx:998 | on a table of two-stop defaults the two-stop template is the identity |
| RaceSimulation.MergeUpdates | frontend/src/components/RaceSimulation.jsx:331-342 | the model's updates keep the cars and their order; an update for a car without an entry is skipped |
| RaceSimulation.MergeUpdatesAt | frontend/src/components/RaceSimulation.jsx:333-340 | each car ends up with exactly its own changes spread over it, in order: updates to different cars do not interfere |
| RaceSimulation.MergeForUntouched | frontend/src/components/RaceSimulation.jsx:334 | a car no update names keeps its strategy |
| RaceSimulation.CarIds | frontend/src/components/RaceSimulation.jsx:333 | the car ids of the updates, in order |
| RaceSimulation.Changes | frontend/src/components/RaceSimulation.jsx:337 | the changes of the updates, in order |
| RaceSimulation.ApplyUpdates | frontend/src/components/RaceSimulation.jsx:332-341 | the `forEach` on the copy applies the updates one after another |
| RaceSimulation.WithPit | frontend/src/components/RaceSimulation.jsx:401-404 | the planned pit laps gain `lap + 1` at the end (starting from `[]` when absent) and nothing else changes |
| RaceSimulation.Affected | frontend/src/components/RaceSimulation.jsx:398 | `Object.keys(...).slice(0, 6)`: the first six keys, or all when fewer |
| RaceSimulation.PitValues | frontend/src/components/RaceSimulation.jsx:400-405 | one extra-stop strategy per affected car, built from its current entry |
| RaceSimulation.SafetyUpdates | frontend/src/components/RaceSimulation.jsx:399-405 | the loop builds the updates object from the first six cars |
| RaceSimulation.SafetyStep | frontend/src/components/RaceSimulation.jsx:400-405 | one more affected car added to the updates object |
| RaceSimulation.SafetyUpdatesShape | frontend/src/components/RaceSimulation.jsx:398-405 | the updates hold exactly the first six cars in order, each with its extra stop |
| RaceSimulation.AfterSafetyCar | frontend/src/components/RaceSimulation.jsx:406 | spreading the updates keeps the table well formed |
| RaceSimulation.SafetyCarTable | frontend/src/components/RaceSimulation.jsx:396-407 | building the updates and spreading them is the safety-car table |
| RaceSimulation.SafetyCarEffect | frontend/src/components/RaceSimulation.jsx:396-407 | after a safety car the first six cars have one more stop on the next lap, the others are unchanged, and the cars and their order stay |
| RaceSimulation.AddRadiosWindow | frontend/src/components/RaceSimulation.jsx:347-357 | the panel after the model's radio lines is the eleven newest of the old panel followed by the new lines |
| RaceSimulation.AddLinesNewest | frontend/src/components/RaceSimulation.jsx:348 | adding lines one at a time, each keeping the ten newest, leaves the eleven newest lines |
| RaceSimulation.RadioLoop | frontend/src/components/RaceSimulation.jsx:347-357 | the `teamRadio.forEach` adds one line per message with the panel window |
| RaceSimulation.PhaseMessages | frontend/src/components/RaceSimulation.jsx:133-158 | four lines per phase |
| RaceSimulation.OtherTeams | frontend/src/components/RaceSimulation.jsx:125 | exactly the teams whose id is not the selected one, in their order |
| RaceSimulation.ChatterLine | frontend/src/components/RaceSimulation.jsx:126-171 | a line exactly when some other team exists and the picked one has a driver; it names that team and driver and says one of the phase's four lines |
| RaceSimulation.Responses | frontend/src/components/RaceSimulation.jsx:429-435 | three canned answers per instruction kind |
| RaceSimulation.ResponseKey | frontend/src/components/RaceSimulation.jsx:437 | the first of the five keys the instruction contains, or `推进` when it contains none |
| RaceSimulation.QuickInstructionKeys | frontend/src/components/RaceSimulation.jsx:791-799 | each quick-instruction button other than fuel is answered as its own kind |
| RaceSimulation.SaveFuelKey | frontend/src/components/RaceSimulation.jsx:791 | the `节省燃油` button is answered as a fuel instruction |
| RaceSimulation.DriverCarIdOnGrid | frontend/src/components/RaceSimulation.jsx:249 | when the team and its first driver have ids, the impact lands on that driver's grid car |
| RaceSimulation.DriverCarIdOffGrid | frontend/src/components/RaceSimulation.jsx:249 | a first driver without an id sends the impact to `..._undefined`, a car no grid entry has |
| RaceSimulation.EventFlag | frontend/src/components/RaceSimulation.jsx:375-380 | every event but the weather change shows a non-green flag |
| RaceSimulation.EventDuration | frontend/src/components/RaceSimulation.jsx:375-380 | only the weather change has a zero duration |
| RaceSimulation.RaceSession.constructor | frontend/src/components/RaceSimulation.jsx:35-54 | the first render holds every initial state value |
| RaceSimulation.RaceSession.GridEffect | frontend/src/components/RaceSimulation.jsx:68-78 | the first mount effect sets the grid order to every driver of every team and changes nothing else |
| RaceSimulation.RaceSession.DefaultsEffect | frontend/src/components/RaceSimulation.jsx:81-91 | the second mount effect sets the default two-stop table and changes nothing else |
| RaceSimulation.RaceSession.ProgressTick | frontend/src/components/RaceSimulation.jsx:96-113 | while the race runs progress rises by one; at 100 the race stops in the final phase; otherwise the phase follows progress |
| RaceSimulation.RaceSession.ChatterTick | frontend/src/components/RaceSimulation.jsx:120-180 | while the race runs a chatter line, when there is one, is added after the eight newest lines |
| RaceSimulation.RaceSession.LlmTick | frontend/src/components/RaceSimulation.jsx:312-363 | on an active tick at a lap that is a positive multiple of 5 the model's updates are merged and its radio lines added; otherwise nothing changes. While the race runs, the interval is re-armed every second and never fires |
| RaceSimulation.RaceSession.EventTick | frontend/src/components/RaceSimulation.jsx:366-412 | with a draw below 0.05 the drawn event is logged on the current lap, its flag shown, and a safety car adds a stop to the first six cars. While the race runs, the interval is re-armed every second and never fires |
| RaceSimulation.RaceSession.FlagTimeout | frontend/src/components/RaceSimulation.jsx:392 | the flag timer sets the flag back to green and changes nothing else |
| RaceSimulation.RaceSession.StartRace | frontend/src/components/RaceSimulation.jsx:265-278 | the race becomes active from 0 % in the pre-race phase with the formation lap and the engineer's greeting |
| RaceSimulation.RaceSession.PauseRace | frontend/src/components/RaceSimulation.jsx:280-283 | pausing only deactivates the race |
| RaceSimulation.RaceSession.PlayPause | frontend/src/components/RaceSimulation.jsx:836 | the button pauses a running race and starts a stopped one |
| RaceSimulation.RaceSession.ResetRace | frontend/src/components/RaceSimulation.jsx:285-296 | reset clears progress, phase, panels, events and flag and reopens the strategy screen; grid, strategies and weather stay |
| RaceSimulation.RaceSession.HandleStrategyComplete | frontend/src/components/RaceSimulation.jsx:299-309 | the strategy screen's table, grid and weather replace the screen's own, the screen closes and the formation lap begins |
| RaceSimulation.RaceSession.SetTrackPhase | frontend/src/components/RaceSimulation.jsx:975 | a phase button sets the track phase and nothing else |
| RaceSimulation.RaceSession.ApplyGridTemplate | frontend/src/components/RaceSimulation.jsx:985-1011 | a template button patches every car of the table and nothing else |
| RaceSimulation.RaceSession.SendTeamInstruction | frontend/src/components/RaceSimulation.jsx:415-424 | the instruction is appended to the radio panel as the team's |
| RaceSimulation.RaceSession.QuickInstruction | frontend/src/components/RaceSimulation.jsx:797-800 | a quick button sends its instruction with the `指令: ` prefix |
| RaceSimulation.RaceSession.DriverResponds | frontend/src/components/RaceSimulation.jsx:427-450 | the driver's canned answer for the instruction's key is appended to the radio panel |
| RaceSimulation.RaceSession.BeginUserInput | frontend/src/components/RaceSimulation.jsx:209 | a message to the driver model sets the thinking flag |
| RaceSimulation.RaceSession.FinishUserInput | frontend/src/components/RaceSimulation.jsx:233-262 | an answer is appended to the panel and an impact scales the pace of `${team.id}_${drivers[0].id}`; a failure only clears the thinking flag |
| F1RaceSimulator.NextPhase | frontend/src/components/F1RaceSimulator.jsx:117-201 | the start button moves only formation; start is entered only from formation, finished only from the race by the lap check, race only by lights-out, preparation only by reset, formation only by the hand-over |
| F1RaceSimulator.LookupId | frontend/src/components/F1RaceSimulator.jsx:147 | the lookup id is `team.id` and the driver id when truthy, else the printed number, with no index fallback |
| F1RaceSimulator.FindInTeamIff | frontend/src/components/F1RaceSimulator.jsx:146-154 | within a team the lookup fails exactly when no driver's id matches, and what it finds is a matching driver of that team |
| F1RaceSimulator.FindCarIff | frontend/src/components/F1RaceSimulator.jsx:144-158 | `findCarById` returns `null` exactly when no driver of any team has the id, and otherwise a matching driver spread with its team's name and colour |
| F1RaceSimulator.FindCarById | frontend/src/components/F1RaceSimulator.jsx:144-158 | the two nested loops with an early return compute the first match |
| F1RaceSimulator.GridCarFound | frontend/src/components/F1RaceSimulator.jsx:147 | a grid car whose team has an id and whose driver has an id or number is found, since its grid id is its lookup id |
| F1RaceSimulator.NamelessCarNotFound | frontend/src/components/F1RaceSimulator.jsx:147 | a driver with neither id nor number is on the grid as `t_0` but looked up as `t_undefined`, so it is not found |
| F1RaceSimulator.StartTyre | frontend/src/components/F1RaceSimulator.jsx:137 | the first tyre of the car's plan when it has one, otherwise medium |
| F1RaceSimulator.InitialRanking | frontend/src/components/F1RaceSimulator.jsx:124-139 | one line per grid car in grid order, positions 1, 2, ..., no lap, gap or wear, each car on its first planned tyre |
| F1RaceSimulator.RankingNames | frontend/src/components/F1RaceSimulator.jsx:128-130 | an unknown car is shown as `Driver n` of team `Unknown` in red; a found car shows its own names where set |
| F1RaceSimulator.RankingPositions | frontend/src/components/F1RaceSimulator.jsx:131 | the initial positions are distinct and lie in `1..n` |
| F1RaceSimulator.ScaleSteps | frontend/src/components/F1RaceSimulator.jsx:83-93 | the scaling loop keeps the table well formed, keeps the present cars in their places and adds new cars after them |
| F1RaceSimulator.Multipliers | frontend/src/components/F1RaceSimulator.jsx:85 | the multipliers addressed to one car are non-zero when every step's is |
| F1RaceSimulator.ScaledByProduct | frontend/src/components/F1RaceSimulator.jsx:89 | scaling by non-zero multipliers in turn scales the effective pace by their product and changes nothing else |
| F1RaceSimulator.ScaleStepsEntry | frontend/src/components/F1RaceSimulator.jsx:86-90 | after the steps a car's entry (or `{}`) is scaled by each of its own multipliers in turn |
| F1RaceSimulator.ScaleStepsUntouched | frontend/src/components/F1RaceSimulator.jsx:84-92 | a car no step names is exactly as it was, present or absent |
| F1RaceSimulator.Effective | frontend/src/components/F1RaceSimulator.jsx:85 | only updates with a truthy car id and multiplier apply, so applied multipliers are non-zero |
| F1RaceSimulator.EffectiveUntouched | frontend/src/components/F1RaceSimulator.jsx:85 | a car no applying update names gets no step |
| F1RaceSimulator.PaceUpdatesEffect | frontend/src/components/F1RaceSimulator.jsx:81-95 | each car's entry is scaled by exactly its applying multipliers, all non-zero; untouched cars are exactly as before |
| F1RaceSimulator.ApplyPaceUpdates | frontend/src/components/F1RaceSimulator.jsx:82-94 | the `forEach` over the updates on a copy computes the pace updates |
| F1RaceSimulator.RadioText | frontend/src/components/F1RaceSimulator.jsx:102 | the first radio message when truthy, else `Team radio`; never empty |
| F1RaceSimulator.ChatId | frontend/src/components/F1RaceSimulator.jsx:314 | the driver id when truthy, else `team.id` and the number, else `team.id` and the lower-cased name with its first space replaced; never empty |
| F1RaceSimulator.History | frontend/src/components/F1RaceSimulator.jsx:225-228 | the last ten messages oldest first, the engineer's as user turns and the rest as assistant turns |
| F1RaceSimulator.ReplyMessage | frontend/src/components/F1RaceSimulator.jsx:263-302 | the selected driver speaks; a failure shows `无线电故障: ` and its message, an answer shows its response or the `收到指令。` fallback |
| F1RaceSimulator.RaceController.constructor | frontend/src/components/F1RaceSimulator.jsx:39-59 | the first render holds every initial state value |
| F1RaceSimulator.RaceController.HandleStrategyComplete | frontend/src/components/F1RaceSimulator.jsx:117-141 | the hand-over's table and grid replace the screen's own, the weather becomes undefined, the phase formation, and the ranking the initial one |
| F1RaceSimulator.RaceController.StartRace | frontend/src/components/F1RaceSimulator.jsx:161-171 | only in formation the race becomes active in the start phase; otherwise nothing changes |
| F1RaceSimulator.RaceController.LightsOut | frontend/src/components/F1RaceSimulator.jsx:167-170 | the lights-out timer sets the race phase, whatever the phase is by then |
| F1RaceSimulator.RaceController.ToggleRace | frontend/src/components/F1RaceSimulator.jsx:174-176 | the pause button flips the active flag in every phase |
| F1RaceSimulator.RaceController.ResetRace | frontend/src/components/F1RaceSimulator.jsx:179-189 | back to preparation with progress, lap, ranking, chat, events, flag and selection cleared; grid, table, weather and alert stay |
| F1RaceSimulator.RaceController.FinishCheck | frontend/src/components/F1RaceSimulator.jsx:192-201 | in the active race, once the lap reaches the race's laps, the race stops as finished |
| F1RaceSimulator.RaceController.OnTelemetry | frontend/src/components/F1RaceSimulator.jsx:554-562 | the lap follows the leader but never goes back, and the ranking becomes the telemetry |
| F1RaceSimulator.RaceController.LlmTick | frontend/src/components/F1RaceSimulator.jsx:62-111 | an active tick outside formation applies the pace updates and raises the first radio message as the alert. The interval fires only while `liveRanking` stays unchanged for six seconds |
| F1RaceSimulator.RaceController.DismissAlert | frontend/src/components/F1RaceSimulator.jsx:899 | closing the alert clears it and nothing else |
| F1RaceSimulator.RaceController.SelectDriverForChat | frontend/src/components/F1RaceSimulator.jsx:309-324 | the selected driver gets its completed id and the chat restarts with its greeting |
| F1RaceSimulator.RaceController.CloseChat | frontend/src/components/F1RaceSimulator.jsx:610 | closing the chat clears the selection and nothing else |
| F1RaceSimulator.RaceController.SendChat | frontend/src/components/F1RaceSimulator.jsx:204-228 | a message is sent exactly when a driver is selected and no answer is awaited; it is shown, the screen waits, and the request's history is the ten messages before it. The request's team and race context and the driver id are not modelled |
| F1RaceSimulator.RaceController.ReceiveChat | frontend/src/components/F1RaceSimulator.jsx:259-305 | the answer or failure is shown, a truthy multiplier scales the selected car's pace, and the screen stops waiting |
| StrategyPrep.TemplateOf | frontend/src/components/StrategyPrep.jsx:53-82 | each template has one tyre more than stops, strictly increasing pit laps inside a 57-lap race, and a pace factor between 0.9 and 1.1 |
| StrategyPrep.DefaultTemplate | frontend/src/components/StrategyPrep.jsx:113 | grid indices 0-5 are aggressive, 6-11 conservative, and 12 on one-stop |
| StrategyPrep.CarOf | frontend/src/components/StrategyPrep.jsx:93-102 | a list entry has the shared car id, the driver's and team's fields, and is the user's exactly when `team.id === selectedTeamKey` |
| StrategyPrep.PrepCars | frontend/src/components/StrategyPrep.jsx:92-103 | one entry per slot, in order |
| StrategyPrep.Ids | frontend/src/components/StrategyPrep.jsx:205 | `cars.map(car => car.id)`: the ids in order |
| StrategyPrep.CarIdsAreGridIds | frontend/src/components/StrategyPrep.jsx:93 | the screen's car ids are the ids the race screens build for the same drivers |
| StrategyPrep.TeamCars | frontend/src/components/StrategyPrep.jsx:92-103 | the inner push loop lists one team's drivers in order |
| StrategyPrep.BuildCars | frontend/src/components/StrategyPrep.jsx:89-104 | the push loops list every team's drivers, teams in order |
| StrategyPrep.Permute | frontend/src/components/StrategyPrep.jsx:107 | the shuffled list puts the `order[i]`-th car at position `i` |
| StrategyPrep.PermuteSame | frontend/src/components/StrategyPrep.jsx:107 | a shuffle keeps the length and exactly the same cars |
| StrategyPrep.DefaultStrategy | frontend/src/components/StrategyPrep.jsx:113-123 | a car's default takes its index's template, pit laps and tyres, starts on the first tyre, with a 2.3-2.7 s stop, the template pace within 0.025 and the fuel load within 2.5 |
| StrategyPrep.DefaultValues | frontend/src/components/StrategyPrep.jsx:112-124 | one default per grid index, in grid order |
| StrategyPrep.InitialStrategies | frontend/src/components/StrategyPrep.jsx:111-124 | the `forEach` fills the default table in grid order |
| StrategyPrep.DefaultsEffect | frontend/src/components/StrategyPrep.jsx:110-125 | exactly the grid cars have a default; with distinct ids the table lists them in grid order and the car at grid index `i` holds the default for index `i` |
| StrategyPrep.UpdateCar | frontend/src/components/StrategyPrep.jsx:166-171 | editing one car adds it last when new, keeps the other cars and the order, and keeps the table well formed |
| StrategyPrep.UpdateCarFields | frontend/src/components/StrategyPrep.jsx:169 | the edited car takes exactly the fields the patch sets and keeps every other one |
| StrategyPrep.UpdateCarTwice | frontend/src/components/StrategyPrep.jsx:166-171 | two edits of the same car are one edit with the second patch spread over the first |
| StrategyPrep.ChoicePatch | frontend/src/components/StrategyPrep.jsx:479-484 | choosing a template sets its name, pit laps, tyres and exact pace, and nothing else |
| StrategyPrep.ChoiceKeepsTyre | frontend/src/components/StrategyPrep.jsx:479-484 | choosing a template keeps the car's current tyre, pit-stop time and fuel |
| StrategyPrep.ChoiceTyreMismatch | frontend/src/components/StrategyPrep.jsx:479-484 | an aggressive default switched to the conservative template starts on a tyre that is not the first of its sequence |
| StrategyPrep.TemplatePatch | frontend/src/components/StrategyPrep.jsx:178-185 | the template button sets name, pit laps, tyres and first tyre, and a pace within 0.015 of the template's |
| StrategyPrep.RetemplateValues | frontend/src/components/StrategyPrep.jsx:177-186 | one re-templated strategy per existing car, in key order |
| StrategyPrep.Rebuilt | frontend/src/components/StrategyPrep.jsx:176-186 | a table rebuilt key by key onto `{}` has the same keys in the same order, each with its new value |
| StrategyPrep.MergeTemplate | frontend/src/components/StrategyPrep.jsx:178-185 | spreading the template over a car re-templates it and keeps its pit-stop time and fuel |
| StrategyPrep.RetemplateEffect | frontend/src/components/StrategyPrep.jsx:174-188 | after the template button the cars and their order are the same and every car is re-templated |
| StrategyPrep.ApplyTemplate | frontend/src/components/StrategyPrep.jsx:174-188 | the template button's loop builds the re-templated table |
| StrategyPrep.Project | frontend/src/components/StrategyPrep.jsx:193-200 | the six race fields are every field but the template name |
| StrategyPrep.ProjectValues | frontend/src/components/StrategyPrep.jsx:192-201 | one projected strategy per car, in key order |
| StrategyPrep.FinalizedEffect | frontend/src/components/StrategyPrep.jsx:191-201 | the race receives the same cars in the same order, each with its strategy minus the template name |
| StrategyPrep.FinalStrategies | frontend/src/components/StrategyPrep.jsx:191-201 | the start button's loop builds the final table |
| StrategyPrep.PrepScreen.constructor | frontend/src/components/StrategyPrep.jsx:36-43 | the initial state: no strategies, no grid, dry, 42 degrees, 110 kg, nothing selected |
| StrategyPrep.PrepScreen.InitEffect | frontend/src/components/StrategyPrep.jsx:85-126 | without teams nothing happens; otherwise the shuffled cars become the grid and each gets the default of its grid index |
| StrategyPrep.PrepScreen.SetWeather | frontend/src/components/StrategyPrep.jsx:262 | the weather selector sets the weather and nothing else |
| StrategyPrep.PrepScreen.SetTrackTemp | frontend/src/components/StrategyPrep.jsx:278 | the temperature slider sets the track temperature and nothing else |
| StrategyPrep.PrepScreen.SetFuelLoad | frontend/src/components/StrategyPrep.jsx:290 | the fuel slider sets the fuel load and nothing else |
| StrategyPrep.PrepScreen.SelectCarForEdit | frontend/src/components/StrategyPrep.jsx:353 | clicking a car selects it for editing and nothing else |
| StrategyPrep.PrepScreen.UpdateCarStrategy | frontend/src/components/StrategyPrep.jsx:166-171 | the table becomes the table with that car edited |
| StrategyPrep.PrepScreen.ChooseTemplate | frontend/src/components/StrategyPrep.jsx:467-485 | while a car is edited the template selector edits it with the template's patch; otherwise nothing happens |
| StrategyPrep.PrepScreen.SetPitSeconds | frontend/src/components/StrategyPrep.jsx:505 | while a car is edited the slider sets its pit-stop seconds; otherwise nothing happens |
| StrategyPrep.PrepScreen.SetPaceK | frontend/src/components/StrategyPrep.jsx:517 | while a car is edited the slider sets its pace; otherwise nothing happens |
| StrategyPrep.PrepScreen.ApplyTemplateToAll | frontend/src/components/StrategyPrep.jsx:174-188 | the template button re-templates every car |
| StrategyPrep.PrepScreen.RandomizeGrid | frontend/src/components/StrategyPrep.jsx:807 | the random-grid button reshuffles the grid, and the strategies stay with their cars |
| StrategyPrep.PrepScreen.StartRace | frontend/src/components/StrategyPrep.jsx:190-210 | the race receives the final table, the grid's car ids, the weather, the temperature and the fuel load |
| LiveRanking.FindEntry | frontend/src/components/LiveRanking.jsx:43 | the entry found carries the id asked for and is the first with it; nothing is found exactly when no entry of the previous snapshot has that id |
| LiveRanking.Changed | frontend/src/components/LiveRanking.jsx:43-48 | a driver has a change exactly when it is in the previous snapshot at a different position, and the change is the places gained (old position minus new), never zero |
| LiveRanking.Changes | frontend/src/components/LiveRanking.jsx:40-50 | the recorded changes are never zero |
| LiveRanking.ChangesPresent | frontend/src/components/LiveRanking.jsx:42-49 | every recorded driver is in both the current and the previous snapshot |
| LiveRanking.ChangesAbsent | frontend/src/components/LiveRanking.jsx:42-49 | a driver missing from the current snapshot gets no entry |
| LiveRanking.ChangesAt | frontend/src/components/LiveRanking.jsx:42-49 | for a driver of the current snapshot with a unique id, it is recorded exactly when it changed position, with that change as its value |
| LiveRanking.ChangesNone | frontend/src/components/LiveRanking.jsx:46-48 | when no driver changed position nothing is recorded |
| LiveRanking.NoChangeWhenSame | frontend/src/components/LiveRanking.jsx:37-50 | a snapshot compared with itself records no change |
| LiveRanking.Diff | frontend/src/components/LiveRanking.jsx:40-50 | the loop over the current snapshot builds exactly the map `Changes` defines (every changed driver with its places gained) |
| LiveRanking.ChangeBadge | frontend/src/components/LiveRanking.jsx:68-101 | no badge for a missing or zero change; a green `+n` for places gained and a red `-n` for places lost |
| LiveRanking.EveryChangeShows | frontend/src/components/LiveRanking.jsx:68-101 | every recorded change shows a badge whose sign is the direction of the change |
| LiveRanking.RankingPanel.constructor | frontend/src/components/LiveRanking.jsx:26-27 | the panel starts with no history and no badges |
| LiveRanking.RankingPanel.OnClassification | frontend/src/components/LiveRanking.jsx:30-66 | an empty classification changes nothing; otherwise the history becomes its last ten snapshots plus the new one (never more than eleven), and when there was a previous snapshot the badges become the changes since it and are handed to the clearing timer |
| LiveRanking.RankingPanel.ClearChanges | frontend/src/components/LiveRanking.jsx:55-61 | the timer removes exactly the ids it recorded from the badges and leaves the history alone |
| LiveRanking.DriverStatus | frontend/src/components/LiveRanking.jsx:103-126 | the first of the last five events naming the driver decides the status (red for an incident, orange otherwise); with none, worn tyres (over 0.8) show orange, then low fuel (under 0.2) red, else the driver is normal in green |
| LiveRanking.OldEventsIgnored | frontend/src/components/LiveRanking.jsx:104 | an event older than the last five never changes a driver's status |
| LiveRanking.ShownEvents | frontend/src/components/LiveRanking.jsx:339 | the event list shows the last three events (all of them when fewer), in order |
| LiveRanking.TyreLabel | frontend/src/components/LiveRanking.jsx:320 | a missing wear shows 100%; a wear between 0 and 1 shows a percentage between 0 and 100 |
| LiveRanking.TyreLabelMonotone | frontend/src/components/LiveRanking.jsx:320 | more wear never shows a higher tyre percentage |
| LiveRanking.ProgressValue | frontend/src/components/LiveRanking.jsx:163 | no finite value when the race has no laps; otherwise a value between 0 and 100 for a lap inside the race, exactly 100 on the last lap |
| LiveRanking.ProgressMonotone | frontend/src/components/LiveRanking.jsx:163 | the progress bar never moves back as the lap count grows |
| LiveRanking.LastWord | frontend/src/components/LiveRanking.jsx:251 | the shown surname contains no space and is the end of the name, right after its last space |
| LiveRanking.NameLabel | frontend/src/components/LiveRanking.jsx:251 | the label is never empty; it is the last word of a name that does not end in a space, and `Driver <index+1>` for a car without a name |
| LiveRanking.NumberLabel | frontend/src/components/LiveRanking.jsx:251 | a truthy car number is shown; a missing or zero one falls back to the row index plus one |
| LiveRanking.OwnCarHighlighted | frontend/src/components/LiveRanking.jsx:179 | a car whose id starts with the selected team's id is highlighted as the user's team |
| LiveRanking.Gap | frontend/src/components/LiveRanking.jsx:289 | the leader shows `LEADER` and only the leader; every other car shows its gap, zero when it is missing |
| BahrainTrack.PointsCount | frontend/src/components/BahrainTrack.jsx:19-84 | the circuit table has 56 points, start/finish first |
| BahrainTrack.Normalized | frontend/src/components/BahrainTrack.jsx:89 | the progress is clamped to [0, 99.999] and scaled to a fraction: inside the range it is the progress over 100, below it 0, above it 0.99999 |
| BahrainTrack.Locate | frontend/src/components/BahrainTrack.jsx:92-106 | every index the spline reads is inside the table; the next point follows the current one, the previous and after points are clamped at the ends, and the current index plus the fraction is exactly the clamped progress times the number of segments |
| BahrainTrack.CatmullRom | frontend/src/components/BahrainTrack.jsx:111-123 | the spline passes through the current point at `t = 0` and through the next point at `t = 1` |
| BahrainTrack.Lerp | frontend/src/components/BahrainTrack.jsx:150 | the interpolated speed lies between the two points' speeds and is the current point's at `t = 0` |
| BahrainTrack.LaneOffset | frontend/src/components/BahrainTrack.jsx:131-142 | the four lanes lie within 10.8 px of the centre line, the first two inside, and car `i` takes lane `i % 4` |
| BahrainTrack.PreciseCarPosition | frontend/src/components/BahrainTrack.jsx:87-163 | the sector and turn are the current point's, DRS is on only where both points have it, the rounded speed lies between the two points' rounded speeds, the coordinates are the table point's at a point exactly, and the reported progress is the clamped one |
| BahrainTrack.PlayerCar | frontend/src/components/BahrainTrack.jsx:172-180 | a player car keeps the driver's id and lies within 1.5 points of the race progress |
| BahrainTrack.RivalCar | frontend/src/components/BahrainTrack.jsx:199-207 | a rival car's id is the lower-case team name, `_` and the number, it is not the player's, and it lies within 10 points of the race progress |
| BahrainTrack.PlayerCars | frontend/src/components/BahrainTrack.jsx:170-182 | no player cars without a team; otherwise one per driver, in order |
| BahrainTrack.PairsCount | frontend/src/components/BahrainTrack.jsx:197-209 | teams of two drivers give two rival slots each |
| BahrainTrack.RivalCount | frontend/src/components/BahrainTrack.jsx:185-195 | the nine other teams give eighteen rival cars |
| BahrainTrack.RivalCars | frontend/src/components/BahrainTrack.jsx:197-209 | one rival car per slot, in order, each built from its own team and driver |
| BahrainTrack.BuildCars | frontend/src/components/BahrainTrack.jsx:167-209 | the push loops build the player's cars followed by every rival car, in order |
| BahrainTrack.RacingCars | frontend/src/components/BahrainTrack.jsx:212 | sorting keeps the number of cars |
| BahrainTrack.RacingCarsOrdered | frontend/src/components/BahrainTrack.jsx:212 | the sorted list is ordered by progress, largest first, and is a permutation of the built cars |
| BahrainTrack.ShownCars | frontend/src/components/BahrainTrack.jsx:268 | at most twenty cars are drawn, the first twenty of the sorted list |
| BahrainTrack.FullField | frontend/src/components/BahrainTrack.jsx:170-212 | with a two-driver player team exactly twenty cars are drawn |
| BahrainTrack.TrackView.constructor | frontend/src/components/BahrainTrack.jsx:16 | the view starts with no cars |
| BahrainTrack.TrackView.CarsEffect | frontend/src/components/BahrainTrack.jsx:165-213 | a new race progress or team rebuilds every car and stores them sorted by progress |
| Chat.TextsAreFiltered | frontend/src/components/Chat.jsx:58-65 | the final text is the transcripts of the final results joined in order, and the interim text those of the other results |
| Chat.FinalTextEmpty | frontend/src/components/Chat.jsx:67 | the final text is empty exactly when every final result has an empty transcript |
| Chat.Assemble | frontend/src/components/Chat.jsx:55-65 | the loop from `resultIndex` on accumulates exactly the interim and the final transcripts of the new results |
| Text.Utf16Length | frontend/src/components/Chat.jsx:193 | JavaScript's `length` counts UTF-16 units: at least the number of characters and at most twice it |
| Text.Utf16LengthAppend | frontend/src/components/Chat.jsx:199 | the length of joined texts is the sum of their lengths, as the overflow test adds them |
| Text.Utf16LengthBmp | frontend/src/components/Chat.jsx:193 | the UTF-16 length equals the character count exactly when no character lies outside the Basic Multilingual Plane |
| Chat.FirstTerminator | frontend/src/components/Chat.jsx:194 | the first sentence end (`。`, `！` or `？`) of the text is found, none occurring before it |
| Chat.SplitSentences | frontend/src/components/Chat.jsx:194 | splitting with a capturing group always gives an odd number of pieces |
| Chat.SplitSentencesConcat | frontend/src/components/Chat.jsx:194 | the split loses nothing: its pieces joined give the text back |
| Chat.SplitSentencesAlternate | frontend/src/components/Chat.jsx:194 | the pieces alternate between text without sentence ends and single sentence ends |
| Chat.Pairs | frontend/src/components/Chat.jsx:197-198 | walking the pieces two at a time gives one sentence per pair, the last piece alone when the count is odd |
| Chat.PairsConcat | frontend/src/components/Chat.jsx:198 | pairing loses nothing: the sentences joined give the pieces joined |
| Chat.RunConcat | frontend/src/components/Chat.jsx:197-205 | the loop loses nothing: the emitted segments plus the text being accumulated are the input plus every sentence fed |
| Chat.RunNonEmpty | frontend/src/components/Chat.jsx:199-201 | the loop only emits non-empty accumulated text |
| Chat.RunFits | frontend/src/components/Chat.jsx:199-204 | each emitted segment is at most 200 UTF-16 units long or is one sentence on its own |
| Chat.SpokenShort | frontend/src/components/Chat.jsx:192-193 | text of at most 200 UTF-16 units (JavaScript's `length`) is spoken as one segment |
| Chat.SpokenLong | frontend/src/components/Chat.jsx:193-209 | longer text is spoken in non-empty segments that, joined, give the processed text back, each at most 200 UTF-16 units or a single sentence |
| Chat.SpeakText | frontend/src/components/Chat.jsx:191-212 | the segmentation loop hands `speakSegment` exactly the segments `Spoken` defines, in order |
| Chat.ChooseVoice | frontend/src/components/Chat.jsx:218-240 | a voice is chosen exactly when there is a Chinese one; the first local voice with one of the five preferred names wins, then the first local Chinese voice, then the first Chinese voice |
| Chat.RateAndPitch | frontend/src/components/Chat.jsx:245-282 | the first profile whose key the character's name contains gives the rate and pitch, and a name matching none speaks at 0.85 and 0.95 |
| Chat.RateAndPitchModerate | frontend/src/components/Chat.jsx:245-282 | whatever the name, a table of moderate profiles gives a rate in [0.7, 1.0] and a pitch in [0.8, 1.1] |
| Chat.ProfilesModerate | frontend/src/components/Chat.jsx:246-278 | the eleven character profiles are all moderate |
| Chat.MakeUtterance | frontend/src/components/Chat.jsx:216-282 | an utterance speaks the segment in `zh-CN` at volume 0.85 with the chosen voice, a rate in [0.7, 1.0] and a pitch in [0.8, 1.1] |
| Chat.Welcome | frontend/src/components/Chat.jsx:95-99 | the welcome message is the assistant's and opens with the greeting and the character's name |
| Chat.ChatScreen.constructor | frontend/src/components/Chat.jsx:95-99 | the screen opens with only the welcome message, nothing typed, not loading, not listening and no conversation |
| Chat.ChatScreen.OnStart | frontend/src/components/Chat.jsx:89-91 | recognition starting sets listening and changes nothing else |
| Chat.ChatScreen.OnEnd | frontend/src/components/Chat.jsx:75-87 | recognition ending or failing clears listening and changes nothing else |
| Chat.ChatScreen.ToggleListening | frontend/src/components/Chat.jsx:303-316 | without recognition support only the alert is raised and nothing changes; otherwise a listening screen stops and an idle one starts, and listening flips |
| Chat.ChatScreen.OnResult | frontend/src/components/Chat.jsx:54-73 | a non-empty final transcript replaces the input and stops listening; otherwise the interim transcript replaces the input |
| Chat.ChatScreen.Send | frontend/src/components/Chat.jsx:110-136 | a blank input or a pending request changes nothing; otherwise the user's message is shown, the input cleared, loading set, and the request carries the character, the message and the current conversation id |
| Chat.ChatScreen.Receive | frontend/src/components/Chat.jsx:138-160 | a reply appends the assistant's answer, takes its conversation id and is spoken; a failure appends the apology and keeps the id; loading ends either way |
| RealTimeChat.TeamContextOf | frontend/src/components/RealTimeChat.jsx:92-100 | the team context carries the team's name; each race field is kept when truthy and otherwise defaults (position 10, lap 0, 57 laps, `medium` tyres, `normal` fuel, `+0.00s` gap), so position, laps and the texts are never falsy |
| RealTimeChat.RaceInfoOf | frontend/src/components/RealTimeChat.jsx:101-107 | the race context keeps a truthy phase, flag and conditions and defaults a falsy one to `race`, `green` and `dry`, and sends the nearby drivers or an empty list |
| RealTimeChat.RequestHistory | frontend/src/components/RealTimeChat.jsx:79-82 | the history sent is the last ten context entries (all of them when fewer) followed by the instruction as the user's |
| RealTimeChat.NextContext | frontend/src/components/RealTimeChat.jsx:130-134 | after a reply the context is the last eight previous entries followed by the instruction and the answer, never more than ten |
| RealTimeChat.BuildRequest | frontend/src/components/RealTimeChat.jsx:84-108 | the request carries the instruction, the driver's id and name, the history, and the team and race contexts |
| RealTimeChat.Welcome | frontend/src/components/RealTimeChat.jsx:47-54 | the welcome message is a system message from the driver, in a professional mood, naming the team and the driver |
| RealTimeChat.RadioChat.constructor | frontend/src/components/RealTimeChat.jsx:26-33 | the radio starts empty, not thinking, in a focused mood and without context |
| RealTimeChat.RadioChat.OnProps | frontend/src/components/RealTimeChat.jsx:45-58 | with both a driver and a team the chat restarts with only the welcome message and no context; otherwise nothing is reset |
| RealTimeChat.RadioChat.Submit | frontend/src/components/RealTimeChat.jsx:61-109 | blank input or a pending reply changes nothing; otherwise the instruction is shown and the request built, and without a team the fallback is shown at once, while without a driver the chat stays thinking |
| RealTimeChat.RadioChat.ShowInstruction | frontend/src/components/RealTimeChat.jsx:65-75 | the instruction is appended, the input cleared, and a reply awaited |
| RealTimeChat.RadioChat.Fail | frontend/src/components/RealTimeChat.jsx:154-170 | a failure appends the fallback message and stops thinking; without a driver nothing changes |
| RealTimeChat.RadioChat.Respond | frontend/src/components/RealTimeChat.jsx:111-170 | a reply is shown, sets the mood and extends the context; its impact is forwarded exactly when there is one and a handler, likewise its radio message; a failed request shows the fallback and changes neither mood nor context |
| RealTimeChat.RadioChat.Accept | frontend/src/components/RealTimeChat.jsx:112-149 | an accepted reply is appended as the driver's, sets the mood, extends the context, and forwards the impact and the radio message only to handlers that exist |
| RealTimeChat.FallbackMessage | frontend/src/components/RealTimeChat.jsx:158-165 | the fallback comes from the driver, in a concerned mood, with the unstable-signal text |
| RealTimeChat.MoodColor | frontend/src/components/RealTimeChat.jsx:173-183 | a missing or unknown mood is shown white |
| RealTimeChat.MoodEmoji | frontend/src/components/RealTimeChat.jsx:185-195 | a missing or unknown mood shows the racing-car emoji |
| RealTimeChat.MoodsDistinguished | frontend/src/components/RealTimeChat.jsx:173-195 | each of the six known moods has its own colour and emoji, none of them the default |
| Dashboard.NextSlide | frontend/src/components/Dashboard.jsx:228-230 | the next slide is always a slide: one step on, and the last wraps to the first |
| Dashboard.PrevSlide | frontend/src/components/Dashboard.jsx:232-234 | the previous slide is always a slide: one step back, and the first wraps to the last |
| Dashboard.SlidesInverse | frontend/src/components/Dashboard.jsx:228-234 | on the ring of slides, forward and back undo each other |
| Dashboard.Advance | frontend/src/components/Dashboard.jsx:166 | `k` steps forward land on slide `(i + k) mod n` |
| Dashboard.FullTurn | frontend/src/components/Dashboard.jsx:166 | as many steps as there are slides return to the start |
| Dashboard.EmptyTermMatches | frontend/src/components/Dashboard.jsx:364 | an empty search term matches every text |
| Dashboard.FilteredTeams | frontend/src/components/Dashboard.jsx:363-366 | exactly the teams whose name or one of whose drivers' names contains the term (ignoring case) are kept, in their order; an empty term keeps them all |
| Dashboard.FilteredDrivers | frontend/src/components/Dashboard.jsx:483-486 | exactly the team's drivers whose name contains the term are kept, in order; an empty term keeps them all |
| Dashboard.FilteredCharacters | frontend/src/components/Dashboard.jsx:564-568 | exactly the characters whose name, description or one of its skills contains the term are kept, in order; an empty term keeps them all |
| Dashboard.DriverCardOf | frontend/src/components/Dashboard.jsx:526-533 | a driver's card keeps the name, its id is the lower-cased name with only the first space made `_`, and it is described as the team's F1 driver with the two fixed skills |
| Dashboard.DashboardScreen.constructor | frontend/src/components/Dashboard.jsx:148-155 | the screen opens on the categories, loading, with no characters, no search, no selection, the first slide and auto-play on |
| Dashboard.DashboardScreen.FetchDone | frontend/src/components/Dashboard.jsx:192-201 | the characters are replaced only when the request succeeds, and loading ends either way |
| Dashboard.DashboardScreen.SelectCategory | frontend/src/components/Dashboard.jsx:203-210 | selecting F1 opens the teams, any other category its characters, and the category is remembered |
| Dashboard.DashboardScreen.SelectTeam | frontend/src/components/Dashboard.jsx:212-215 | selecting a team remembers it and opens its drivers |
| Dashboard.DashboardScreen.BackToCategories | frontend/src/components/Dashboard.jsx:217-221 | going back to the categories clears both selections |
| Dashboard.DashboardScreen.BackToTeams | frontend/src/components/Dashboard.jsx:223-226 | going back to the teams clears the team and keeps the category |
| Dashboard.DashboardScreen.Home | frontend/src/components/Dashboard.jsx:672-673 | the home breadcrumb shows the categories and keeps both selections |
| Dashboard.DashboardScreen.Next | frontend/src/components/Dashboard.jsx:228-230 | the next button moves the carousel one slide on |
| Dashboard.DashboardScreen.Prev | frontend/src/components/Dashboard.jsx:232-234 | the previous button moves the carousel one slide back |
| Dashboard.DashboardScreen.AutoTick | frontend/src/components/Dashboard.jsx:162-169 | a tick advances the carousel only on the category view with auto-play on, and otherwise leaves it |
| Dashboard.DashboardScreen.ChangeIndex | frontend/src/components/Dashboard.jsx:290-293 | clicking an indicator shows that slide |
| Dashboard.DashboardScreen.SetAutoPlaying | frontend/src/components/Dashboard.jsx:277-313 | hovering stops auto-play, leaving and the play button set it as asked |
| Dashboard.DashboardScreen.SetSearchTerm | frontend/src/components/Dashboard.jsx:711 | typing replaces the search term |
| DashboardJs.FilteredCharacters | frontend/src/components/Dashboard.js:42-45 | exactly the characters whose name or description contains the term (ignoring case) are kept, in order; an empty term keeps them all |
| DashboardJs.NoMatchIff | frontend/src/components/Dashboard.js:146-150 | the no-match notice shows exactly when loading is over and no character matches |
| RaceStrategy.ClimateOf | backend/race_strategy.py:62-67 | a track above 45 degrees is hot, below 35 cool, and anything from 35 to 45 mild |
| RaceStrategy.RainRemark | backend/race_strategy.py:69-72 | only light and heavy rain add a sentence; any other weather adds nothing |
| RaceStrategy.StrategyAnalysis | backend/race_strategy.py:58-74 | the analysis is the race-length heading, then the sentence of the temperature band, then the rain sentence if any |
| RaceStrategy.AnalysisDetermines | backend/race_strategy.py:58-74 | for one race length, the analysis text determines the temperature band and the rain sentence |
| RaceStrategy.AdviceAt | backend/race_strategy.py:82-99 | the first two positions hold the lead, the next two try the undercut, the rest go for two stops |
| RaceStrategy.Recommendations | backend/race_strategy.py:76-102 | one recommendation per driver of the grid order, at most six, each the advice of its position in order |
| RaceStrategy.SuggestionNamesTier | backend/race_strategy.py:85-97 | the suggestion text names the tier: equal suggestions mean the same tier |
| RaceStrategy.StrategyUpdates | backend/race_strategy.py:104-123 | up to lap 10 there are no updates; later, with fewer than three cars among the first ten, sampling fails; otherwise three distinct sampled cars get a pace factor in [0.98, 1.05] and one planned stop 3 to 8 laps ahead |
| RaceStrategy.RadioFor | backend/race_strategy.py:147-153 | a radio message comes from a listed team in that team's own colour, with one of the eight templates and the drawn driver number |
| RaceStrategy.TeamRadio | backend/race_strategy.py:143-155 | one message per draw, two to four of them, in draw order |
| RaceStrategy.AnalyzeStrategy | backend/race_strategy.py:39-56 | the report fails exactly when update sampling does; otherwise its analysis uses the defaults `dry`, 42 and 57; its recommendations are those of the leading six grid entries and its radio messages those of the draws, in order; it has no updates up to lap 10 and, later, the three sampled updates |
| RaceStrategy.ProfanityIgnoresCase | backend/race_strategy.py:178-181 | profanity detection gives the same answer for a text and its lower-cased form |
| RaceStrategy.Classify | backend/race_strategy.py:183-193 | a pit keyword wins, then push, then defend, then fuel saving, each case-sensitive; text with none of them is general |
| RaceStrategy.PitCallWins | backend/race_strategy.py:185-186 | appending anything to a pit call keeps it a pit call |
| RaceStrategy.InstructionName | backend/race_strategy.py:169-174 | every instruction type has a non-empty name, so the general handler is never reached |
| RaceStrategy.Multiplier | backend/race_strategy.py:237-248 | pit 1.0, push 1.05, defend 0.97, fuel saving 0.94, and the 1.0 fallback for general; always within [0.94, 1.05] |
| RaceStrategy.Handle | backend/race_strategy.py:168-176 | profane input gets the profanity reply; anything else the reply for its instruction type, never the general one |
| RaceStrategy.InstructionLines | backend/race_strategy.py:214-235 | each instruction type has three replies, each opening with the driver's name |
| RaceStrategy.Candidates | backend/race_strategy.py:195-250 | the reply is picked from three lines for an instruction and from four otherwise, all opening with the driver's name |
| RaceStrategy.DriverResponse | backend/race_strategy.py:157-250 | the reply is one of its handler's lines and opens with the driver's name; profanity is answered firmly at pace 0.98, anything else in focus at the instruction's multiplier, so there is always a pace impact |
| RaceStrategy.PlainTalkIsPush | backend/race_strategy.py:245-248 | input without a keyword is answered with a push reply at neutral pace 1.0 |
| LlmEndpoints.SetDefault | backend/llm_endpoints.py:185-186 | `setdefault` keeps a present value, adds a missing key with the default, and touches no other key |
| LlmEndpoints.Clamp | backend/llm_endpoints.py:191 | the pace is clamped into [0.9, 1.15]: kept inside the range, raised to 0.9 below it, lowered to 1.15 above it |
| LlmEndpoints.ClampIdempotent | backend/llm_endpoints.py:191 | clamping twice gives the same as clamping once |
| LlmEndpoints.ClampImpact | backend/llm_endpoints.py:189-191 | the clamp step fails exactly when the `.get` calls raise; otherwise it keeps every key and every other value, clamps a truthy numeric multiplier into [0.9, 1.15] and leaves a zero multiplier alone |
| LlmEndpoints.ClampImpactIdempotent | backend/llm_endpoints.py:189-191 | clamping an already clamped reply changes nothing |
| LlmEndpoints.Normalize | backend/llm_endpoints.py:182-193 | a JSON object reply gains `mood` (default `professional`) and `confidence` (default 0.8) without losing a key or changing another value, and fails exactly when the clamp raises |
| LlmEndpoints.FallbackKindOf | backend/llm_endpoints.py:216-221 | the fallback is the high-pressure line after lap 45, then the defensive line on the podium, else the normal line |
| LlmEndpoints.LlmResponse | backend/llm_endpoints.py:99-228 | the result always has a mood and a confidence; a failed call gives the context's fallback, a reply that is not a JSON object is passed on as text, and an object is normalised |
| LlmEndpoints.PaceAlwaysBounded | backend/llm_endpoints.py:189-228 | whatever the model answers, a non-zero numeric multiplier in the result lies in [0.9, 1.15] |
| LlmEndpoints.ChatMessages | backend/llm_endpoints.py:147-153 | the model gets the system prompt, at most the last six history entries, and the user prompt last |
| LlmEndpoints.PromptKindOf | backend/llm_endpoints.py:287-291 | a profane word in the lower-cased message picks the profanity prompt, else a technical word the technical prompt, else the general prompt |
| LlmEndpoints.PromptKindIgnoresCase | backend/llm_endpoints.py:290-291 | the prompt chosen does not depend on letter case |
| LlmEndpoints.DriverPrompt | backend/llm_endpoints.py:311-337 | the prompt quotes the message verbatim and opens with its branch's wording |
| LlmEndpoints.TeamId | backend/llm_endpoints.py:297 | the team id has the team name's length and no space in it |
| LlmEndpoints.EnhancedContext | backend/llm_endpoints.py:294-308 | the context passed on has the driver's name and the lap and position of the team context, 0 and 10 when missing |
| LlmEndpoints.DriverSendsTwoMessages | backend/llm_endpoints.py:340-342 | the request model has no history field, so the driver endpoint sends only the system prompt and the user prompt |
| LlmEndpoints.PitWindow | backend/llm_endpoints.py:353 | the pit window is laps 15 to 17 and 35 to 40 |
| LlmEndpoints.RaceFlags | backend/llm_endpoints.py:349-354 | the race flags carry the lap and position, pressure after lap 40 or below P15, and the pit window |
| LlmEndpoints.DriverEndpoint | backend/llm_endpoints.py:280-356 | the driver reply is the generated reply with its `raceContext` replaced by the race flags of the request |
| LlmEndpoints.GetOr | backend/llm_endpoints.py:269-274 | `get` returns a present value and the default otherwise |
| LlmEndpoints.StrategyAnalysisReply | backend/llm_endpoints.py:268-275 | the analysis reply has exactly its three keys, each the model's value when present and the default otherwise |
| LlmEndpoints.AnalysisFailureGivesDefaults | backend/llm_endpoints.py:259-275 | when the model call fails the analysis endpoint answers with its defaults only |
| LlmEndpoints.LlmStrategyReply | backend/llm_endpoints.py:390-401 | the strategy-update reply has exactly its three keys, each the model's value when present and the default otherwise |
| LlmEndpoints.LlmStrategyFailureGivesDefaults | backend/llm_endpoints.py:383-401 | when the model call fails the strategy-update endpoint answers with its defaults only |
| BackendMain.DetectSkill | backend/main.py:270-300 | the skill detected is the first of the six tested skills, in order, that the character has and whose keyword occurs in the lower-cased message; none exactly when no test passes; philosophy is never detected |
| BackendMain.SkillNamed | backend/main.py:304-314 | the enhancement looked up is one whose key equals the skill name, and there is none exactly when no key equals it |
| BackendMain.EnhancePrompt | backend/main.py:302-314 | the enhanced prompt starts with the base prompt, and an unknown skill adds nothing |
| BackendMain.EnhanceByName | backend/main.py:304-314 | with distinct skill names, a skill's name appends exactly that skill's enhancement |
| BackendMain.ConversationId | backend/main.py:341 | a non-empty conversation id from the client is kept; otherwise the id is user, character and epoch second joined by `_` |
| BackendMain.RequestMessages | backend/main.py:344-356 | the model gets the system prompt, the last eight stored messages (all when fewer) as role and content, and the user's message last |
| BackendMain.SystemPrompt | backend/main.py:333-338 | the system prompt starts with the character's prompt and is that prompt alone when no skill is detected |
| BackendMain.SummaryOf | backend/main.py:405-411 | a summary fails exactly when its character is unknown; otherwise it carries the file's id, at most 100 characters of the last message, and a timestamp exactly when there are messages |
| BackendMain.ListingShape | backend/main.py:399-411 | the listing fails exactly when a visible file names an unknown character; otherwise it holds the summary of every visible file and nothing else |
| BackendMain.ListConversations | backend/main.py:397-413 | the listing fails exactly when a visible file names an unknown character; otherwise it is the visible files' summaries reordered newest first |
| BackendMain.Backend.constructor | backend/main.py:226-228 | a fresh data directory has no users and no conversations |
| BackendMain.Backend.Register | backend/main.py:226-245 | a taken username is refused with 400 and nothing changes; otherwise the user is stored with the email, the hash, the creation time and no conversations |
| BackendMain.Backend.Login | backend/main.py:247-264 | a token is issued exactly for a known user whose password verifies; both failures give the same error |
| BackendMain.Backend.Chat | backend/main.py:316-395 | no client gives 500 and an unknown character 404, changing nothing; otherwise the model gets the enhanced prompt, the recent history and the message, a failed call gives 500 and saves nothing, and a reply is returned with the conversation id and saved as the user's message and the answer, appended to an existing conversation or starting a new one |

## Left out

- Geometry: the SVG path functions (`getTotalLength`, `getPointAtLength`) and the trigonometry are left out. The path length and each car's raw heading change are inputs, as are the heading and perpendicular lane offset in `BahrainTrack`, and `toFixed` display formatting.
- Floating point: numbers are Dafny reals, so NaN, Infinity and rounding error are not modelled. A zero lap count gives `None` where JavaScript would show a non-finite value.
- Timers and frames: `requestAnimationFrame`, `performance.now`, `setInterval` and `setTimeout` are left out. Each tick, timeout or frame is an explicit method whose time stamp is a parameter.
- React scheduling: batching of state updates and stale closures are left out. An effect sees the state it is given, and strategy edits reach the animation loop only as the strategy table passed to `Step`.
- Randomness: `Math.random`, `random.sample`, `random.uniform`, `random.randint`, `random.choice` and the shuffle are parameters constrained to the ranges they are drawn from.
- Network and model calls: HTTP (`fetch`, axios), the OpenAI clients and FastAPI routing are left out. Replies come back as parameters, with `None` for a failure. The modelled requests are these: the radio chat's request (`RealTimeChat.BuildRequest`, returned by `RealTimeChat.RadioChat.Submit`); the character chat's request (returned by `Chat.ChatScreen.Send`); the messages the backend sends to its model (`BackendMain.Backend.Chat`'s `sent`, `BackendMain.RequestMessages`); and the endpoints' prompts (`LlmEndpoints.ChatMessages`, `LlmEndpoints.DriverPrompt`).
- Request bodies that are not modelled: `handleUserInput`'s body in RaceSimulation.jsx:209-232 (`BeginUserInput` and `FinishUserInput` only keep the thinking flag and apply the answer); the strategy tick's context and `callLLMForStrategy`'s body in RaceSimulation.jsx:183-205 and 316-330; the controller's strategy tick payload in F1RaceSimulator.jsx:66-72; and in `handleLLMChat` (F1RaceSimulator.jsx:221-243) the driver id, team context and race context, of which `RaceController.SendChat` returns only the history.
- Persistence: the JSON files on disk are maps in the `Backend` class. File names are conversation ids plus `.json`, so an id that itself contains `.json` is not modelled.
- Credentials: bcrypt hashing, JWT creation and `get_current_user` are inputs to `Register`, `Login` and `Chat`.
- Error text: the `str(e)` detail of the HTTPExceptions is not modelled; the status code is kept.
- Speech: the browser's speech synthesis and recognition objects, the alerts, and the wait for the voice list are left out. `ToggleListening` takes the presence of a recognition object as a parameter.
- Chat.SpeakText: starts from the processed text, so the regular-expression preprocessing of the reply is not modelled.
- Case folding: `toLowerCase` and `str.lower` are ASCII-only in `Text`. Other scripts pass through unchanged, which is exact for the Chinese keywords and approximate for other letters.
- Mis-encoded strings: the keyword lists and skill names of `main.py` appear mis-encoded in the source. They are a `SkillTexts` parameter, not constants.
- Prompt text: the `json.dumps` composition of the system prompts is treated as an opaque string. The prompt branch and the quoted message are modelled.
- Layout: images, MUI styling, JSX and DOM writes are left out, as are the calibration hotkeys of the path view and scrolling.
- Time stamps and ids: `Date.now`, `new Date()` and `datetime.utcnow()` are inputs. Message time stamps are carried only where the back end stores them.
- Sort stability: the sorts are specified as ordered and a permutation of their input. Ties are not promised an order.
- Object key order: insertion order is modelled by the strategy table, and elsewhere object key order is not modelled.
- Weather objects: `raceContext.weather || {}` and similar pass-through objects are not modelled. The endpoints do not read them.
- RaceStrategy.Recommendations: takes the driver names directly, so a grid entry without a `driver` key (a KeyError in the source) is not modelled.
- RaceStrategy.DriverResponse: the driver-context fields `position` and `currentLap` are read and passed on to the instruction handler, which never uses them, so they are not modelled.
- RaceStrategy.TeamRadio: the context field `currentLap` is read but never used, so it is not modelled.
- The `generate_event` endpoint of `llm_endpoints.py` returns the model's result unchanged. That result is `LlmResponse` itself, so it has no member of its own.
- `analyzeWithLLM` in `StrategyPrep.jsx` and the display of a strategy analysis only fetch and show text. Their request is not modelled.
- Chat.js, f1Data.js, theme.js and the presentation-only components (CategoryCarousel, CarouselPlayer, CharacterCard, F1Dashboard, Login, App) are not part of this model.

## Findings

| source | as written | input that shows it | evidently intended | confidence | as-written member | corrected member |
|---|---|---|---|---|---|---|
| frontend/src/components/PathTrack.jsx:189 | the speed limit multiplies by `flagFactor`, which is declared nowhere, so the frame throws a ReferenceError at the first car | any frame with at least one car: the first car's lap, pit timer and wear are updated, then the speed line throws and the loop stops | a flag speed factor supplied by the race state, applied to every car | not executed | PathTrack.RaceEngine.StepAsWritten | PathTrack.RaceEngine.Step |
