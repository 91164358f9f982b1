/** The language-model endpoints of the backend: normalisation of the model's
    reply, the fallback when the call fails, the prompt branch of the driver
    endpoint and its race flags, and the defaults the endpoints fill in.
    The call itself is an input: its outcome is given as a value. */
module LlmEndpoints {
  import opened Wrappers
  import opened Text
  import opened Lists

  /** A JSON value as `json.loads` produces it. */
  datatype Json =
    | JNull
    | JBool(b: bool)
    | JNum(x: real)
    | JStr(s: string)
    | JArr(items: seq<Json>)
    | JObj(fields: map<string, Json>)

  type Dict = map<string, Json>

  /** Python truthiness of a JSON value. */
  predicate Truthy(j: Json)
  {
    match j
    case JNull => false
    case JBool(b) => b
    case JNum(x) => x != 0.0
    case JStr(s) => s != ""
    case JArr(items) => items != []
    case JObj(fields) => fields != map[]
  }

  // ---------------------------------------------------------------------------
  // Normalising the model's reply
  // ---------------------------------------------------------------------------

  /** `d.setdefault(k, v)`: a present value is kept, a missing one becomes `v`. */
  function SetDefault(d: Dict, k: string, v: Json): (r: Dict)
    ensures r.Keys == d.Keys + {k}
    ensures k in d ==> r[k] == d[k]
    ensures k !in d ==> r[k] == v
    ensures forall j :: j in d && j != k ==> r[j] == d[j]
  {
    if k in d then d else d[k := v]
  }

  /** `max(0.9, min(1.15, pace))`. */
  function Clamp(x: real): (r: real)
    ensures 0.9 <= r <= 1.15
    ensures 0.9 <= x <= 1.15 ==> r == x
    ensures x < 0.9 ==> r == 0.9
    ensures x > 1.15 ==> r == 1.15
  {
    var low := if 1.15 < x then 1.15 else x;
    if 0.9 < low then low else 0.9
  }

  lemma ClampIdempotent(x: real)
    ensures Clamp(Clamp(x)) == Clamp(x)
  {
  }

  /** The numeric pace multiplier of a reply, when there is one. */
  function PaceOf(d: Dict): Option<real>
  {
    if "strategyImpact" in d && d["strategyImpact"].JObj?
       && "paceMultiplier" in d["strategyImpact"].fields
       && d["strategyImpact"].fields["paceMultiplier"].JNum?
    then Some(d["strategyImpact"].fields["paceMultiplier"].x)
    else None
  }

  /** The `.get` on `strategyImpact` raises unless that value is falsy or a
      dict, and `min`/`max` raise on a truthy multiplier that is not a number
      or a boolean. */
  predicate ClampRaises(d: Dict)
  {
    "strategyImpact" in d && Truthy(d["strategyImpact"])
    && (!d["strategyImpact"].JObj?
        || (var si := d["strategyImpact"].fields;
            "paceMultiplier" in si && Truthy(si["paceMultiplier"])
            && !si["paceMultiplier"].JNum? && !si["paceMultiplier"].JBool?))
  }

  /** The clamp step: a truthy numeric multiplier is clamped into [0.9, 1.15];
      a zero one is left alone; None is the exception the step raises. */
  function ClampImpact(d: Dict): (r: Option<Dict>)
    ensures r.None? <==> ClampRaises(d)
    ensures r.Some? ==> r.value.Keys == d.Keys
    ensures r.Some? ==> forall k :: k in d && k != "strategyImpact" ==> r.value[k] == d[k]
    ensures PaceOf(d).Some? && PaceOf(d).value != 0.0 ==> r.Some? && PaceOf(r.value) == Some(Clamp(PaceOf(d).value))
    ensures PaceOf(d) == Some(0.0) ==> r == Some(d)
    ensures r.Some? && PaceOf(r.value).Some? && PaceOf(r.value).value != 0.0 ==> 0.9 <= PaceOf(r.value).value <= 1.15
  {
    if "strategyImpact" in d && Truthy(d["strategyImpact"]) then
      match d["strategyImpact"]
      case JObj(si) =>
        if "paceMultiplier" in si && Truthy(si["paceMultiplier"]) then
          match si["paceMultiplier"]
          case JNum(x) => Some(d["strategyImpact" := JObj(si["paceMultiplier" := JNum(Clamp(x))])])
          // True compares as 1, which both bounds leave in place
          case JBool(_) => Some(d)
          case _ => None
        else Some(d)
      case _ => None
    else Some(d)
  }

  /** Clamping a clamped reply changes nothing. */
  lemma ClampImpactIdempotent(d: Dict)
    requires ClampImpact(d).Some?
    ensures ClampImpact(ClampImpact(d).value) == ClampImpact(d)
  {
    var r := ClampImpact(d).value;
    if "strategyImpact" in d && Truthy(d["strategyImpact"]) && d["strategyImpact"].JObj? {
      var si := d["strategyImpact"].fields;
      if "paceMultiplier" in si && Truthy(si["paceMultiplier"]) && si["paceMultiplier"].JNum? {
        var x := si["paceMultiplier"].x;
        ClampIdempotent(x);
        var si2 := si["paceMultiplier" := JNum(Clamp(x))];
        assert r["strategyImpact"] == JObj(si2);
        assert Truthy(si2["paceMultiplier"]);
        assert si2["paceMultiplier" := JNum(Clamp(Clamp(x)))] == si2;
        assert r["strategyImpact" := JObj(si2)] == r;
      }
    }
  }

  /** The two `setdefault` calls and the clamp, in source order. */
  function Normalize(d: Dict): (r: Option<Dict>)
    ensures r.Some? ==> r.value.Keys == d.Keys + {"mood", "confidence"}
    ensures r.Some? ==> r.value["mood"] == (if "mood" in d then d["mood"] else JStr("professional"))
    ensures r.Some? ==> r.value["confidence"] == (if "confidence" in d then d["confidence"] else JNum(0.8))
    ensures r.Some? ==> forall k :: k in d && k != "strategyImpact" ==> r.value[k] == d[k]
    ensures r.None? <==> ClampRaises(d)
  {
    var withMood := SetDefault(d, "mood", JStr("professional"));
    var withConfidence := SetDefault(withMood, "confidence", JNum(0.8));
    assert ClampRaises(withConfidence) == ClampRaises(d);
    ClampImpact(withConfidence)
  }

  // ---------------------------------------------------------------------------
  // The call and its fallback
  // ---------------------------------------------------------------------------

  /** How the model call ended: it raised (the client, or building the prompt),
      or it returned text, which `json.loads` parsed (Some) or rejected (None). */
  datatype Outcome = Raised | Answered(text: string, parsed: Option<Json>)

  /** The context keys the fallback reads; None is a missing key. */
  datatype LlmContext = LlmContext(driverName: Option<string>, currentLap: Option<int>, position: Option<int>)

  function Lap(ctx: LlmContext): int { ctx.currentLap.GetOr(0) }

  function Position(ctx: LlmContext): int { ctx.position.GetOr(10) }

  datatype FallbackKind = HighPressure | Defensive | NormalRun

  /** Late laps first, then a podium position, else the normal line. */
  function FallbackKindOf(lap: int, position: int): (k: FallbackKind)
    ensures k == HighPressure <==> lap > 45
    ensures k == Defensive <==> lap <= 45 && position <= 3
    ensures k == NormalRun <==> lap <= 45 && position > 3
  {
    if lap > 45 then HighPressure else if position <= 3 then Defensive else NormalRun
  }

  function FallbackText(ctx: LlmContext): string
  {
    match FallbackKindOf(Lap(ctx), Position(ctx))
    case HighPressure => "现在是第" + Dec(Lap(ctx)) + "圈，我在P" + Dec(Position(ctx)) + "，专注比赛中。有什么技术指令吗？"
    case Defensive => "后面的车在推进，我会保持防守位置。"
    case NormalRun => "收到，" + ctx.driverName.GetOr("车手") + "在线。当前P" + Dec(Position(ctx)) + "位置，一切正常。"
  }

  function Fallback(ctx: LlmContext): Dict
  {
    map["response" := JStr(FallbackText(ctx)), "mood" := JStr("professional"),
        "confidence" := JNum(0.6), "strategyImpact" := JNull]
  }

  /** A reply that is not a JSON object is passed on as plain text. */
  function RawReply(text: string): Dict
  {
    map["response" := JStr(text), "mood" := JStr("professional"),
        "confidence" := JNum(0.7), "strategyImpact" := JNull]
  }

  /** `generate_llm_response` once the call has ended with `outcome`. */
  function LlmResponse(ctx: LlmContext, outcome: Outcome): (r: Dict)
    ensures "mood" in r && "confidence" in r
    ensures outcome.Raised? ==> r == Fallback(ctx)
    ensures outcome.Answered? && (outcome.parsed.None? || !outcome.parsed.value.JObj?) ==> r == RawReply(outcome.text)
    ensures outcome.Answered? && outcome.parsed.Some? && outcome.parsed.value.JObj? ==>
      var d := outcome.parsed.value.fields;
      (ClampRaises(d) ==> r == Fallback(ctx)) && (!ClampRaises(d) ==> Some(r) == Normalize(d))
    ensures "strategyImpact" in r && r["strategyImpact"] == JNull ==> PaceOf(r).None?
  {
    match outcome
    case Raised => Fallback(ctx)
    case Answered(text, parsed) =>
      if parsed.Some? && parsed.value.JObj? then
        match Normalize(parsed.value.fields)
        case Some(d) => d
        case None => Fallback(ctx)
      else RawReply(text)
  }

  /** Whatever the model answers, a numeric multiplier in the result is either
      zero or within [0.9, 1.15]. */
  lemma PaceAlwaysBounded(ctx: LlmContext, outcome: Outcome)
    ensures PaceOf(LlmResponse(ctx, outcome)).Some? ==>
      PaceOf(LlmResponse(ctx, outcome)).value == 0.0 || 0.9 <= PaceOf(LlmResponse(ctx, outcome)).value <= 1.15
  {
    if outcome.Answered? && outcome.parsed.Some? && outcome.parsed.value.JObj? {
      var d := outcome.parsed.value.fields;
      var d2 := SetDefault(SetDefault(d, "mood", JStr("professional")), "confidence", JNum(0.8));
      assert Normalize(d) == ClampImpact(d2);
    }
  }

  /** A chat message handed to the model. */
  datatype ChatMessage = ChatMessage(role: string, content: string)

  /** The message list: the system prompt, the last six history entries when
      the history is non-empty, then the user prompt. */
  function ChatMessages(systemPrompt: string, history: seq<ChatMessage>, prompt: string): (r: seq<ChatMessage>)
    ensures 2 <= |r| <= 8
    ensures r[0] == ChatMessage("system", systemPrompt)
    ensures r[|r| - 1] == ChatMessage("user", prompt)
    ensures r[1..|r| - 1] == Last(history, 6)
  {
    var recent := if history != [] then Last(history, 6) else [];
    [ChatMessage("system", systemPrompt)] + recent + [ChatMessage("user", prompt)]
  }

  // ---------------------------------------------------------------------------
  // The driver endpoint
  // ---------------------------------------------------------------------------

  const ProfanityWords: seq<string> := ["草泥马", "傻逼", "白痴", "蠢货", "fuck", "shit", "damn", "滚", "死", "操"]
  const TechnicalWords: seq<string> :=
    ["进站", "pit", "box", "推进", "push", "attack", "防守", "defend", "节油", "save fuel"]

  predicate Mentions(text: string, words: seq<string>)
  {
    exists i :: 0 <= i < |words| && Contains(text, words[i])
  }

  datatype PromptKind = ProfanityPrompt | TechnicalPrompt | GeneralPrompt

  /** The prompt branch: both tests run on the lower-cased message, and
      profanity is tested first. */
  function PromptKindOf(message: string): (k: PromptKind)
    ensures k == ProfanityPrompt <==> Mentions(ToLower(message), ProfanityWords)
    ensures k == TechnicalPrompt <==> !Mentions(ToLower(message), ProfanityWords) && Mentions(ToLower(message), TechnicalWords)
    ensures k == GeneralPrompt <==> !Mentions(ToLower(message), ProfanityWords) && !Mentions(ToLower(message), TechnicalWords)
  {
    var lower := ToLower(message);
    if Mentions(lower, ProfanityWords) then ProfanityPrompt
    else if Mentions(lower, TechnicalWords) then TechnicalPrompt
    else GeneralPrompt
  }

  /** The branch ignores letter case. */
  lemma PromptKindIgnoresCase(message: string)
    ensures PromptKindOf(ToLower(message)) == PromptKindOf(message)
  {
    ToLowerIdempotent(message);
  }

  function PromptOpening(k: PromptKind): string
  {
    match k
    case ProfanityPrompt => "用户刚才对你说了不当的话：\""
    case TechnicalPrompt => "车队给你下达了技术指令：\""
    case GeneralPrompt => "用户对你说：\""
  }

  function PromptClosing(k: PromptKind): string
  {
    match k
    case ProfanityPrompt =>
      "\"\n\n作为一名专业的F1车手，你需要：\n1. 表达不满但保持职业素养\n2. 重新引导对话到比赛技术层面\n"
      + "3. 显示你的个性但不失专业标准\n\n当前你正在激烈的比赛中，压力很大，但必须保持专业。"
    case TechnicalPrompt =>
      "\"\n\n请根据当前比赛情况给出专业回应：\n- 如果是合理指令，确认执行\n- 如果有疑虑，提出专业建议\n"
      + "- 根据你的个性和经验做出判断\n\n这个指令可能会影响你的驾驶表现和比赛策略。"
    case GeneralPrompt =>
      "\"\n\n请根据你的个性、当前比赛情况和压力水平做出真实回应。\n- 如果是闲聊，可以简短回应但要保持专注\n"
      + "- 如果是鼓励，表达感谢并保持信心\n- 如果是质疑，专业地解释你的判断"
  }

  /** The prompt of the chosen branch, quoting the message verbatim. */
  function DriverPrompt(message: string): (p: string)
    ensures Contains(p, message)
    ensures IsPrefix(PromptOpening(PromptKindOf(message)), p)
  {
    var k := PromptKindOf(message);
    var p := PromptOpening(k) + message + PromptClosing(k);
    assert OccursAt(p, message, |PromptOpening(k)|);
    ContainsIff(p, message);
    assert p[..|PromptOpening(k)|] == PromptOpening(k);
    p
  }

  /** The `teamContext` / `raceContext` keys the endpoint reads; None is missing. */
  datatype DriverRequest = DriverRequest(
    message: string,
    driverId: string,
    driverName: string,
    teamName: Option<string>,
    currentLap: Option<int>,
    position: Option<int>)

  /** `name.lower().replace(' ', '_')`: every space becomes an underscore. */
  function TeamId(req: DriverRequest): (id: string)
    ensures |id| == |req.teamName.GetOr("")|
    ensures forall i :: 0 <= i < |id| ==> id[i] != ' '
  {
    ReplaceChar(ToLower(req.teamName.GetOr("")), ' ', '_')
  }

  /** The enhanced context, as far as the reply depends on it. */
  function EnhancedContext(req: DriverRequest): (ctx: LlmContext)
    ensures Lap(ctx) == req.currentLap.GetOr(0) && Position(ctx) == req.position.GetOr(10)
    ensures ctx.driverName == Some(req.driverName)
  {
    LlmContext(Some(req.driverName), Some(req.currentLap.GetOr(0)), Some(req.position.GetOr(10)))
  }

  /** `getattr(request, 'conversationHistory', [])`: the request model declares
      no such field, so the history is always empty. */
  function RequestHistory(req: DriverRequest): seq<ChatMessage>
  {
    []
  }

  /** The driver endpoint sends exactly the system prompt and the user prompt. */
  lemma DriverSendsTwoMessages(req: DriverRequest, systemPrompt: string)
    ensures ChatMessages(systemPrompt, RequestHistory(req), DriverPrompt(req.message))
         == [ChatMessage("system", systemPrompt), ChatMessage("user", DriverPrompt(req.message))]
  {
  }

  predicate UnderPressure(lap: int, position: int)
  {
    lap > 40 || position > 15
  }

  /** `lap in [15, 16, 17, 35, 36, 37, 38, 39, 40]`. */
  function PitWindow(lap: int): (b: bool)
    ensures b <==> (15 <= lap <= 17 || 35 <= lap <= 40)
  {
    lap in [15, 16, 17, 35, 36, 37, 38, 39, 40]
  }

  function RaceFlags(lap: int, position: int): (r: Dict)
    ensures r.Keys == {"currentLap", "position", "isUnderPressure", "isPitWindow"}
    ensures r["isUnderPressure"] == JBool(UnderPressure(lap, position))
    ensures r["isPitWindow"] == JBool(PitWindow(lap))
  {
    map["currentLap" := JNum(lap as real), "position" := JNum(position as real),
        "isUnderPressure" := JBool(UnderPressure(lap, position)), "isPitWindow" := JBool(PitWindow(lap))]
  }

  /** `driver_response`: the generated reply plus the race flags. */
  function DriverEndpoint(req: DriverRequest, outcome: Outcome): (r: Dict)
    ensures r.Keys == LlmResponse(EnhancedContext(req), outcome).Keys + {"raceContext"}
    ensures r["raceContext"] == JObj(RaceFlags(req.currentLap.GetOr(0), req.position.GetOr(10)))
    ensures forall k :: k in LlmResponse(EnhancedContext(req), outcome) && k != "raceContext" ==>
      k in r && r[k] == LlmResponse(EnhancedContext(req), outcome)[k]
  {
    var lap := req.currentLap.GetOr(0);
    var position := req.position.GetOr(10);
    LlmResponse(EnhancedContext(req), outcome)["raceContext" := JObj(RaceFlags(lap, position))]
  }

  // ---------------------------------------------------------------------------
  // Defaults of the other endpoints
  // ---------------------------------------------------------------------------

  /** `result.get(k, default)`. */
  function GetOr(d: Dict, k: string, default: Json): (r: Json)
    ensures k in d ==> r == d[k]
    ensures k !in d ==> r == default
  {
    if k in d then d[k] else default
  }

  function Rec(driver: string, suggestion: string, impact: string): Json
  {
    JObj(map["driver" := JStr(driver), "suggestion" := JStr(suggestion), "impact" := JStr(impact)])
  }

  function AnalysisDefault(circuit: string, trackTemp: int): Dict
  {
    map["analysis" := JStr(circuit + "在" + Dec(trackTemp) + "°C条件下，轮胎衰减将是关键因素。"),
        "recommendations" := JArr([Rec("Top 3", "保守一停策略", "确保积分"), Rec("Mid-field", "激进二停", "争取更好位置")]),
        "riskAssessment" := JArr([JStr("轮胎衰减: 高"), JStr("超车难度: 中")])]
  }

  /** `strategy_analysis`: the three result keys, each kept when the model
      gave it and filled with its default otherwise. */
  function StrategyAnalysisReply(circuit: string, trackTemp: int, result: Dict): (r: Dict)
    ensures r.Keys == AnalysisDefault(circuit, trackTemp).Keys
    ensures forall k :: k in r ==> r[k] == (if k in result then result[k] else AnalysisDefault(circuit, trackTemp)[k])
  {
    var defaults := AnalysisDefault(circuit, trackTemp);
    map["analysis" := GetOr(result, "analysis", defaults["analysis"]),
        "recommendations" := GetOr(result, "recommendations", defaults["recommendations"]),
        "riskAssessment" := GetOr(result, "riskAssessment", defaults["riskAssessment"])]
  }

  /** The strategy-analysis context has no driver, lap or position keys. */
  const AnalysisContext := LlmContext(None, None, None)

  /** When the call fails, the analysis endpoint answers with its defaults only. */
  lemma AnalysisFailureGivesDefaults(circuit: string, trackTemp: int)
    ensures StrategyAnalysisReply(circuit, trackTemp, LlmResponse(AnalysisContext, Raised)) == AnalysisDefault(circuit, trackTemp)
  {
    var r := StrategyAnalysisReply(circuit, trackTemp, LlmResponse(AnalysisContext, Raised));
    var f := Fallback(AnalysisContext);
    assert "analysis" !in f && "recommendations" !in f && "riskAssessment" !in f;
  }

  function LlmStrategyDefault(): Dict
  {
    map["strategyUpdates" := JArr([]),
        "teamRadio" := JArr([JObj(map["teamName" := JStr("Ferrari"), "driverName" := JStr("Leclerc"),
                                      "message" := JStr("轮胎温度正常，保持节奏"), "teamColor" := JStr("#DC143C")])]),
        "eventPredictions" := JArr([])]
  }

  /** `llm_strategy_update`: the three result keys with their defaults. */
  function LlmStrategyReply(result: Dict): (r: Dict)
    ensures r.Keys == LlmStrategyDefault().Keys
    ensures forall k :: k in r ==> r[k] == (if k in result then result[k] else LlmStrategyDefault()[k])
  {
    var defaults := LlmStrategyDefault();
    map["strategyUpdates" := GetOr(result, "strategyUpdates", defaults["strategyUpdates"]),
        "teamRadio" := GetOr(result, "teamRadio", defaults["teamRadio"]),
        "eventPredictions" := GetOr(result, "eventPredictions", defaults["eventPredictions"])]
  }

  /** When the call fails, the strategy-update endpoint answers with its defaults only. */
  lemma LlmStrategyFailureGivesDefaults(currentLap: int)
    ensures LlmStrategyReply(LlmResponse(LlmContext(None, Some(currentLap), None), Raised)) == LlmStrategyDefault()
  {
    var f := Fallback(LlmContext(None, Some(currentLap), None));
    assert "strategyUpdates" !in f && "teamRadio" !in f && "eventPredictions" !in f;
  }
}
