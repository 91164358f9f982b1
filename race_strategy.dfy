/** The rule-based strategy assistant of the backend: race analysis text,
    recommendations, strategy updates, team radio and the driver's reaction
    to a radio instruction. Random draws are parameters with their ranges. */
module RaceStrategy {
  import opened Wrappers
  import opened Text
  import opened Lists

  // ---------------------------------------------------------------------------
  // Analysis text
  // ---------------------------------------------------------------------------

  /** The three temperature bands of the analysis. */
  datatype Climate = Hot | Cool | Mild

  function ClimateOf(trackTemp: int): (c: Climate)
    ensures c == Hot <==> trackTemp > 45
    ensures c == Cool <==> trackTemp < 35
    ensures c == Mild <==> 35 <= trackTemp <= 45
  {
    if trackTemp > 45 then Hot else if trackTemp < 35 then Cool else Mild
  }

  function Heading(raceLength: int): string
  {
    "巴林赛道" + Dec(raceLength) + "圈比赛分析："
  }

  function ClimateRemark(c: Climate): string
  {
    match c
    case Hot => " 高温条件下轮胎衰减严重，建议保守策略。"
    case Cool => " 低温条件有利于轮胎寿命，可采用激进策略。"
    case Mild => " 温度适中，多种策略可行。"
  }

  /** Only the two rain values add a sentence; any other weather adds nothing. */
  function RainRemark(weather: string): (r: string)
    ensures r == "" <==> weather != "light_rain" && weather != "heavy_rain"
  {
    if weather == "light_rain" then " 轻微降雨增加变数，需准备雨胎策略。"
    else if weather == "heavy_rain" then " 大雨条件下安全车概率极高，策略需灵活调整。"
    else ""
  }

  /** `_generate_strategy_analysis`: the heading, then one sentence per band
      and at most one rain sentence, appended in that order. */
  method StrategyAnalysis(weather: string, trackTemp: int, raceLength: int) returns (analysis: string)
    ensures analysis == Heading(raceLength) + ClimateRemark(ClimateOf(trackTemp)) + RainRemark(weather)
  {
    analysis := "巴林赛道" + Dec(raceLength) + "圈比赛分析：";
    if trackTemp > 45 {
      analysis := analysis + " 高温条件下轮胎衰减严重，建议保守策略。";
    } else if trackTemp < 35 {
      analysis := analysis + " 低温条件有利于轮胎寿命，可采用激进策略。";
    } else {
      analysis := analysis + " 温度适中，多种策略可行。";
    }
    if weather == "light_rain" {
      analysis := analysis + " 轻微降雨增加变数，需准备雨胎策略。";
    } else if weather == "heavy_rain" {
      analysis := analysis + " 大雨条件下安全车概率极高，策略需灵活调整。";
    }
  }

  lemma SuffixAfter(p: string, a: string, b: string)
    requires p + a == p + b
    ensures a == b
  {
    assert a == (p + a)[|p|..];
    assert b == (p + b)[|p|..];
  }

  /** The analysis text of one race length determines the temperature band and
      the rain sentence: no two bands share a text. */
  lemma {:induction false} AnalysisDetermines(n: int, c1: Climate, w1: string, c2: Climate, w2: string)
    requires Heading(n) + ClimateRemark(c1) + RainRemark(w1) == Heading(n) + ClimateRemark(c2) + RainRemark(w2)
    ensures c1 == c2
    ensures RainRemark(w1) == RainRemark(w2)
  {
    var s1 := ClimateRemark(c1) + RainRemark(w1);
    var s2 := ClimateRemark(c2) + RainRemark(w2);
    assert Heading(n) + s1 == Heading(n) + s2;
    SuffixAfter(Heading(n), s1, s2);
    assert s1[1] == ClimateRemark(c1)[1];
    assert s2[1] == ClimateRemark(c2)[1];
    assert c1 == c2;
    SuffixAfter(ClimateRemark(c1), RainRemark(w1), RainRemark(w2));
  }

  // ---------------------------------------------------------------------------
  // Recommendations
  // ---------------------------------------------------------------------------

  /** The advice tier of a grid position among the first six. */
  datatype Advice = HoldLead | Undercut | TwoStop

  function AdviceAt(i: nat): (a: Advice)
    ensures a == HoldLead <==> i < 2
    ensures a == Undercut <==> 2 <= i < 4
    ensures a == TwoStop <==> 4 <= i
  {
    if i < 2 then HoldLead else if i < 4 then Undercut else TwoStop
  }

  function Suggestion(a: Advice): string
  {
    match a
    case HoldLead => "保持领先优势，采用保守一停策略"
    case Undercut => "尝试undercut策略，早停抢位"
    case TwoStop => "激进二停策略，利用新胎优势"
  }

  function Effect(a: Advice): string
  {
    match a
    case HoldLead => "降低风险，确保积分"
    case Undercut => "有机会提升2-3个位置"
    case TwoStop => "高风险高回报，可能大幅提升"
  }

  datatype Recommendation = Recommendation(driver: string, suggestion: string, impact: string)

  function Recommend(driver: string, i: nat): Recommendation
  {
    Recommendation(driver, Suggestion(AdviceAt(i)), Effect(AdviceAt(i)))
  }

  /** `_generate_recommendations` over the drivers of the grid order: one
      recommendation per leading entry, at most six, in grid order. */
  method Recommendations(gridOrder: seq<string>) returns (recs: seq<Recommendation>)
    ensures |recs| == Min(6, |gridOrder|)
    ensures forall i :: 0 <= i < |recs| ==> recs[i] == Recommend(gridOrder[i], i)
    ensures Recommends(gridOrder, recs)
  {
    var leading := if |gridOrder| <= 6 then gridOrder else gridOrder[..6];
    recs := [];
    var i := 0;
    while i < |leading|
      invariant 0 <= i <= |leading|
      invariant |recs| == i
      invariant forall j :: 0 <= j < i ==> recs[j] == Recommend(leading[j], j)
    {
      var rec;
      if i < 2 {
        rec := Recommendation(leading[i], "保持领先优势，采用保守一停策略", "降低风险，确保积分");
      } else if i < 4 {
        rec := Recommendation(leading[i], "尝试undercut策略，早停抢位", "有机会提升2-3个位置");
      } else {
        rec := Recommendation(leading[i], "激进二停策略，利用新胎优势", "高风险高回报，可能大幅提升");
      }
      recs := recs + [rec];
      i := i + 1;
    }
  }

  /** The suggestion names the tier: two recommendations with the same
      suggestion come from the same band of grid positions. */
  lemma SuggestionNamesTier(i: nat, j: nat)
    requires Suggestion(AdviceAt(i)) == Suggestion(AdviceAt(j))
    ensures AdviceAt(i) == AdviceAt(j)
    ensures (i < 2 <==> j < 2) && (i < 4 <==> j < 4)
  {
    assert Suggestion(AdviceAt(i))[0] == Suggestion(AdviceAt(j))[0];
  }

  // ---------------------------------------------------------------------------
  // Strategy updates
  // ---------------------------------------------------------------------------

  /** One draw of `_generate_strategy_updates`: the sampled position in the
      classification, `uniform(0.98, 1.05)` and `randint(3, 8)`. */
  datatype UpdateDraw = UpdateDraw(pick: nat, paceK: real, pitOffset: int)

  /** What `random.sample(pool, 3)`, `uniform` and `randint` can deliver. */
  predicate ValidDraws(draws: seq<UpdateDraw>, pool: nat)
  {
    |draws| == 3
    && (forall k :: 0 <= k < 3 ==> draws[k].pick < pool)
    && (forall k :: 0 <= k < 3 ==> 0.98 <= draws[k].paceK <= 1.05)
    && (forall k :: 0 <= k < 3 ==> 3 <= draws[k].pitOffset <= 8)
    && (forall j, k :: 0 <= j < k < 3 ==> draws[j].pick != draws[k].pick)
  }

  datatype StrategyUpdate = StrategyUpdate(carId: Option<string>, paceK: real, plannedPitLaps: seq<int>)

  /** Sampling happens among the first ten classified cars. */
  function PoolSize(classification: seq<Option<string>>): nat
  {
    Min(10, |classification|)
  }

  /** `_generate_strategy_updates` over the ids (`car.get('id')`) of the
      classification. None stands for the ValueError `random.sample` raises
      when fewer than three cars are in the pool. */
  method StrategyUpdates(currentLap: int, classification: seq<Option<string>>, draws: seq<UpdateDraw>)
    returns (r: Option<seq<StrategyUpdate>>)
    requires currentLap > 10 && PoolSize(classification) >= 3 ==> ValidDraws(draws, PoolSize(classification))
    ensures currentLap <= 10 ==> r == Some([])
    ensures currentLap > 10 && PoolSize(classification) < 3 ==> r == None
    ensures currentLap > 10 && PoolSize(classification) >= 3 ==>
      r.Some? && |r.value| == 3
      && (forall k :: 0 <= k < 3 ==>
            r.value[k] == StrategyUpdate(classification[draws[k].pick], draws[k].paceK, [currentLap + draws[k].pitOffset]))
      && Sampled(currentLap, classification, draws, r.value)
    ensures r.Some? && r.value != [] ==>
      forall k :: 0 <= k < |r.value| ==>
        0.98 <= r.value[k].paceK <= 1.05
        && |r.value[k].plannedPitLaps| == 1
        && currentLap + 3 <= r.value[k].plannedPitLaps[0] <= currentLap + 8
  {
    var updates: seq<StrategyUpdate> := [];
    if currentLap > 10 {
      var pool := if |classification| <= 10 then classification else classification[..10];
      if |pool| < 3 {
        return None;
      }
      var k := 0;
      while k < 3
        invariant 0 <= k <= 3
        invariant |updates| == k
        invariant forall j :: 0 <= j < k ==>
          updates[j] == StrategyUpdate(classification[draws[j].pick], draws[j].paceK, [currentLap + draws[j].pitOffset])
      {
        var car := pool[draws[k].pick];
        updates := updates + [StrategyUpdate(car, draws[k].paceK, [currentLap + draws[k].pitOffset])];
        k := k + 1;
      }
    }
    return Some(updates);
  }

  // ---------------------------------------------------------------------------
  // Team radio
  // ---------------------------------------------------------------------------

  const RadioTeams: seq<string> := ["Ferrari", "Mercedes", "McLaren", "Alpine", "Aston Martin"]
  const RadioColors: seq<string> := ["#DC143C", "#00D2BE", "#FF8000", "#0090FF", "#006F62"]
  const RadioTemplates: seq<string> := [
    "轮胎温度正常，保持节奏",
    "前车防守很强，寻找机会",
    "DRS检测点通过，准备超车",
    "燃油消耗在预期范围内",
    "注意后车，他们在推进",
    "轮胎开始衰减，考虑进站窗口",
    "赛道温度上升，保护轮胎",
    "很好的防守，保持位置"
  ]

  /** One message's draws: `randint(0, 4)`, `randint(1, 20)`, `choice(templates)`. */
  datatype RadioDraw = RadioDraw(team: nat, driverNumber: int, template: nat)

  predicate ValidRadioDraw(d: RadioDraw)
  {
    d.team < 5 && 1 <= d.driverNumber <= 20 && d.template < 8
  }

  datatype RadioMessage = RadioMessage(teamName: string, driverName: string, message: string, teamColor: string)

  /** The colour the radio table lists for a team name. */
  function ColorOf(teamName: string): Option<string>
  {
    if teamName == "Ferrari" then Some("#DC143C")
    else if teamName == "Mercedes" then Some("#00D2BE")
    else if teamName == "McLaren" then Some("#FF8000")
    else if teamName == "Alpine" then Some("#0090FF")
    else if teamName == "Aston Martin" then Some("#006F62")
    else None
  }

  /** The message one draw produces: a listed team with that team's own
      colour, a driver number in 1..20 and one of the templates. */
  function RadioFor(d: RadioDraw): (r: RadioMessage)
    requires ValidRadioDraw(d)
    ensures ColorOf(r.teamName) == Some(r.teamColor)
    ensures r.message in RadioTemplates
    ensures r.driverName == "Driver " + Dec(d.driverNumber)
  {
    RadioMessage(RadioTeams[d.team], "Driver " + Dec(d.driverNumber), RadioTemplates[d.template], RadioColors[d.team])
  }

  /** `_generate_team_radio`: two to four messages, one per draw, in draw order. */
  method TeamRadio(draws: seq<RadioDraw>) returns (radios: seq<RadioMessage>)
    requires 2 <= |draws| <= 4
    requires forall k :: 0 <= k < |draws| ==> ValidRadioDraw(draws[k])
    ensures |radios| == |draws|
    ensures forall k :: 0 <= k < |radios| ==> radios[k] == RadioFor(draws[k])
    ensures Radios(draws, radios)
  {
    radios := [];
    for k := 0 to |draws|
      invariant |radios| == k
      invariant forall j :: 0 <= j < k ==> radios[j] == RadioFor(draws[j])
    {
      radios := radios + [RadioFor(draws[k])];
    }
  }

  // ---------------------------------------------------------------------------
  // Analysis report
  // ---------------------------------------------------------------------------

  /** The fields of the race context the assistant reads; None is a missing key. */
  datatype RaceContext = RaceContext(
    weather: Option<string>,
    trackTemp: Option<int>,
    raceLength: Option<int>,
    gridOrder: Option<seq<string>>,
    currentLap: Option<int>,
    classification: Option<seq<Option<string>>>)

  datatype Report = Report(
    analysis: string,
    recommendations: seq<Recommendation>,
    strategyUpdates: seq<StrategyUpdate>,
    teamRadio: seq<RadioMessage>)

  /** The recommendations for a grid order: one per leading car, at most six, in grid order. */
  predicate Recommends(gridOrder: seq<string>, recs: seq<Recommendation>)
  {
    |recs| == Min(6, |gridOrder|) && forall i :: 0 <= i < |recs| ==> recs[i] == Recommend(gridOrder[i], i)
  }

  /** The radio messages for the draws: one per draw, in draw order. */
  predicate Radios(draws: seq<RadioDraw>, radios: seq<RadioMessage>)
    requires forall k :: 0 <= k < |draws| ==> ValidRadioDraw(draws[k])
  {
    |radios| == |draws| && forall k :: 0 <= k < |draws| ==> radios[k] == RadioFor(draws[k])
  }

  /** Three updates, one per sampled car, with the drawn pace and a pit lap the drawn offset ahead. */
  predicate Sampled(lap: int, cars: seq<Option<string>>, draws: seq<UpdateDraw>, ups: seq<StrategyUpdate>)
  {
    |ups| == 3 && |draws| == 3
    && forall k :: 0 <= k < 3 ==>
         draws[k].pick < |cars| && ups[k] == StrategyUpdate(cars[draws[k].pick], draws[k].paceK, [lap + draws[k].pitOffset])
  }

  /** `analyze_strategy` with the defaults 'dry', 42 and 57; None when the
      update sampling raises. */
  method AnalyzeStrategy(ctx: RaceContext, updateDraws: seq<UpdateDraw>, radioDraws: seq<RadioDraw>)
    returns (report: Option<Report>)
    requires var lap := ctx.currentLap.GetOr(0);
             var pool := PoolSize(ctx.classification.GetOr([]));
             lap > 10 && pool >= 3 ==> ValidDraws(updateDraws, pool)
    requires 2 <= |radioDraws| <= 4
    requires forall k :: 0 <= k < |radioDraws| ==> ValidRadioDraw(radioDraws[k])
    ensures report.None? <==> ctx.currentLap.GetOr(0) > 10 && PoolSize(ctx.classification.GetOr([])) < 3
    ensures report.Some? ==>
      report.value.analysis == Heading(ctx.raceLength.GetOr(57))
        + ClimateRemark(ClimateOf(ctx.trackTemp.GetOr(42))) + RainRemark(ctx.weather.GetOr("dry"))
    ensures report.Some? ==> Recommends(ctx.gridOrder.GetOr([]), report.value.recommendations)
    ensures report.Some? ==> Radios(radioDraws, report.value.teamRadio)
    ensures report.Some? && ctx.currentLap.GetOr(0) <= 10 ==> report.value.strategyUpdates == []
    ensures report.Some? && ctx.currentLap.GetOr(0) > 10 ==>
      Sampled(ctx.currentLap.GetOr(0), ctx.classification.GetOr([]), updateDraws, report.value.strategyUpdates)
  {
    var analysis := StrategyAnalysis(ctx.weather.GetOr("dry"), ctx.trackTemp.GetOr(42), ctx.raceLength.GetOr(57));
    var recs := Recommendations(ctx.gridOrder.GetOr([]));
    var updates := StrategyUpdates(ctx.currentLap.GetOr(0), ctx.classification.GetOr([]), updateDraws);
    if updates.None? {
      return None;
    }
    var radios := TeamRadio(radioDraws);
    report := Some(Report(analysis, recs, updates.value, radios));
  }

  // ---------------------------------------------------------------------------
  // Driver reaction
  // ---------------------------------------------------------------------------

  /** `text` contains one of `words` (Python `any(word in text ...)`). */
  predicate Mentions(text: string, words: seq<string>)
  {
    exists i :: 0 <= i < |words| && Contains(text, words[i])
  }

  const ProfanityWords: seq<string> := ["草泥马", "傻逼", "白痴", "蠢货", "fuck", "shit", "damn"]
  const PitWords: seq<string> := ["进站", "pit", "box"]
  const PushWords: seq<string> := ["推进", "加速", "push", "attack"]
  const DefendWords: seq<string> := ["防守", "保持", "defend", "hold"]
  const FuelWords: seq<string> := ["节油", "省油", "fuel", "save"]

  /** `_detect_profanity`: the lower-cased text contains a listed word. */
  predicate Profane(text: string)
  {
    Mentions(ToLower(text), ProfanityWords)
  }

  /** Profanity detection ignores letter case. */
  lemma ProfanityIgnoresCase(text: string)
    ensures Profane(text) <==> Profane(ToLower(text))
  {
    ToLowerIdempotent(text);
  }

  datatype Instruction = Pit | Push | Defend | FuelSave | General

  /** `_classify_instruction`: case-sensitive keyword tests in priority order. */
  function Classify(text: string): (k: Instruction)
    ensures k == Pit <==> Mentions(text, PitWords)
    ensures k == Push <==> !Mentions(text, PitWords) && Mentions(text, PushWords)
    ensures k == Defend <==> !Mentions(text, PitWords) && !Mentions(text, PushWords) && Mentions(text, DefendWords)
    ensures k == FuelSave <==>
      !Mentions(text, PitWords) && !Mentions(text, PushWords) && !Mentions(text, DefendWords) && Mentions(text, FuelWords)
    ensures k == General <==>
      !Mentions(text, PitWords) && !Mentions(text, PushWords) && !Mentions(text, DefendWords) && !Mentions(text, FuelWords)
  {
    if Mentions(text, PitWords) then Pit
    else if Mentions(text, PushWords) then Push
    else if Mentions(text, DefendWords) then Defend
    else if Mentions(text, FuelWords) then FuelSave
    else General
  }

  lemma {:induction false} ContainsAppend(s: string, t: string, sub: string)
    requires Contains(s, sub)
    ensures Contains(s + t, sub)
  {
    ContainsIff(s, sub);
    ContainsIff(s + t, sub);
    var i :| OccursAt(s, sub, i);
    assert (s + t)[i..i + |sub|] == s[i..i + |sub|];
    assert OccursAt(s + t, sub, i);
  }

  lemma MentionsAppend(s: string, t: string, words: seq<string>)
    requires Mentions(s, words)
    ensures Mentions(s + t, words)
  {
    var i :| 0 <= i < |words| && Contains(s, words[i]);
    ContainsAppend(s, t, words[i]);
  }

  /** A pit call wins over anything said after it. */
  lemma PitCallWins(s: string, t: string)
    requires Classify(s) == Pit
    ensures Classify(s + t) == Pit
  {
    MentionsAppend(s, t, PitWords);
  }

  /** The key the instruction is dispatched on. */
  function InstructionName(k: Instruction): (name: string)
    ensures name != ""
  {
    match k
    case Pit => "pit"
    case Push => "push"
    case Defend => "defend"
    case FuelSave => "fuel_save"
    case General => "general"
  }

  /** `impact_multipliers`, looked up with `.get(name, 1.0)`. */
  const ImpactMultipliers: map<string, real> := map["pit" := 1.0, "push" := 1.05, "defend" := 0.97, "fuel_save" := 0.94]

  function Multiplier(k: Instruction): (m: real)
    ensures k == Pit ==> m == 1.0
    ensures k == Push ==> m == 1.05
    ensures k == Defend ==> m == 0.97
    ensures k == FuelSave ==> m == 0.94
    ensures k == General ==> m == 1.0
    ensures 0.94 <= m <= 1.05
  {
    var name := InstructionName(k);
    if name in ImpactMultipliers then ImpactMultipliers[name] else 1.0
  }

  /** Which handler `generate_driver_response` calls. */
  datatype Handling = ProfanityReply | InstructionReply(k: Instruction) | ChatReply

  /** Profanity first; then the instruction type, which is always a non-empty
      (truthy) string, so the general chat handler is never chosen. */
  function Handle(input: string): (h: Handling)
    ensures h == ProfanityReply <==> Profane(input)
    ensures !Profane(input) ==> h == InstructionReply(Classify(input))
    ensures h != ChatReply
  {
    if Profane(input) then ProfanityReply
    else if InstructionName(Classify(input)) != "" then InstructionReply(Classify(input))
    else ChatReply
  }

  /** One radio line, `f"{driver_name}: ..."`. */
  function Line(driver: string, text: string): (r: string)
    ensures IsPrefix(driver + ": ", r)
  {
    var r := driver + ": " + text;
    assert r[..|driver| + 2] == driver + ": ";
    r
  }

  function InstructionLines(k: Instruction, driver: string): (r: seq<string>)
    ensures |r| == 3
    ensures forall i :: 0 <= i < |r| ==> IsPrefix(driver + ": ", r[i])
  {
    match k
    case Pit => [Line(driver, "收到，轮胎确实需要更换了。进站！"),
                 Line(driver, "明白，准备进站。告诉技师准备好。"),
                 Line(driver, "轮胎已经到极限了，这是正确的决定。")]
    case Defend => [Line(driver, "收到，我会守住内线。"),
                    Line(driver, "明白，防守位置。他们很难超我。"),
                    Line(driver, "防守模式，我会让他们知道什么叫难超。")]
    case FuelSave => [Line(driver, "收到，切换到节油模式。"),
                      Line(driver, "明白，调整驾驶风格保存燃油。"),
                      Line(driver, "燃油管理激活，我会控制好油门。")]
    // 'push' itself, and the `.get` fallback for 'general'
    case _ => [Line(driver, "收到！全力推进，轮胎感觉还不错。"),
               Line(driver, "明白，我会榨干每一分性能。"),
               Line(driver, "推进模式激活，让我们看看能提升多少。")]
  }

  /** The replies `random.choice` picks from in each handler. */
  function Candidates(h: Handling, driver: string, team: string): (r: seq<string>)
    ensures |r| == (if h.InstructionReply? then 3 else 4)
    ensures forall i :: 0 <= i < |r| ==> IsPrefix(driver + ": ", r[i])
  {
    match h
    case ProfanityReply => [Line(driver, "嘿，保持专业！我们专注比赛。"),
                            Line(driver, "我明白你的沮丧，但让我们把注意力放在赛道上。"),
                            Line(driver, "无线电请保持清洁，" + team + "车队有标准的。"),
                            Line(driver, "我听到了，但现在我需要专注驾驶。")]
    case InstructionReply(k) => InstructionLines(k, driver)
    case ChatReply => [Line(driver, "车感很好，" + team + "的调校很棒。"),
                       Line(driver, "专注比赛中，有什么技术问题吗？"),
                       Line(driver, "明白，我会根据情况调整。"),
                       Line(driver, "收到，让我们拿下这场比赛！")]
  }

  /** The team part of the driver context. */
  datatype TeamContext = TeamContext(name: Option<string>, position: Option<int>, currentLap: Option<int>)

  datatype DriverContext = DriverContext(driverName: Option<string>, teamContext: Option<TeamContext>)

  function DriverName(ctx: DriverContext): string
  {
    ctx.driverName.GetOr("Driver")
  }

  function TeamName(ctx: DriverContext): string
  {
    if ctx.teamContext.Some? then ctx.teamContext.value.name.GetOr("Team") else "Team"
  }

  /** The reply: text, mood and the pace multiplier of `strategyImpact` (None is no impact). */
  datatype Reply = Reply(response: string, mood: string, paceMultiplier: Option<real>)

  /** How many replies the handler for `input` has to choose from. */
  function ChoiceCount(input: string): nat
  {
    if Profane(input) then 4 else 3
  }

  /** `generate_driver_response`, with the `random.choice` index as `pick`. */
  function DriverResponse(input: string, ctx: DriverContext, pick: nat): (r: Reply)
    requires pick < ChoiceCount(input)
    ensures r.response in Candidates(Handle(input), DriverName(ctx), TeamName(ctx))
    ensures IsPrefix(DriverName(ctx) + ": ", r.response)
    ensures Profane(input) ==> r.mood == "professional_but_firm" && r.paceMultiplier == Some(0.98)
    ensures !Profane(input) ==> r.mood == "focused" && r.paceMultiplier == Some(Multiplier(Classify(input)))
    ensures r.paceMultiplier.Some?
  {
    var h := Handle(input);
    var lines := Candidates(h, DriverName(ctx), TeamName(ctx));
    var text := lines[pick];
    match h
    case ProfanityReply => Reply(text, "professional_but_firm", Some(0.98))
    case InstructionReply(k) => Reply(text, "focused", Some(Multiplier(k)))
    case ChatReply => Reply(text, "neutral", None)
  }

  /** Input without a keyword is answered as a push instruction at neutral pace. */
  lemma PlainTalkIsPush(input: string, ctx: DriverContext, pick: nat)
    requires !Profane(input) && Classify(input) == General
    requires pick < 3
    ensures DriverResponse(input, ctx, pick).response == InstructionLines(Push, DriverName(ctx))[pick]
    ensures DriverResponse(input, ctx, pick).paceMultiplier == Some(1.0)
  {
  }
}
