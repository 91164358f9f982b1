/**
 * The in-race radio chat with the selected driver: the welcome message, sending an
 * instruction (the request history is a window of the conversation context), taking the
 * reply or falling back, and the mood colour and emoji. The HTTP call is not modelled:
 * the request is returned and the reply comes back as a parameter.
 */
module RealTimeChat {
  import opened Wrappers
  import opened Text
  import opened Lists
  import Teams

  datatype Kind = SystemKind | UserKind | AiResponse | FallbackKind

  /** The payload the server attaches when an answer changes the strategy. */
  datatype Impact = Impact(fields: map<string, string>)

  datatype ChatMessage = ChatMessage(
    sender: string, message: string, kind: Kind, mood: Option<string>,
    confidence: Option<real>, strategyImpact: Option<Impact>)

  datatype Role = UserRole | AssistantRole
  datatype ContextEntry = ContextEntry(role: Role, content: string)

  /** The race state the parent passes in; absent fields are `undefined`. */
  datatype RaceContext = RaceContext(
    currentPosition: Option<int>, currentLap: Option<int>, totalLaps: Option<int>,
    tyreCondition: Option<string>, fuelLevel: Option<string>, gap: Option<string>,
    phase: Option<string>, raceFlag: Option<string>, trackConditions: Option<string>,
    nearbyDrivers: Option<seq<string>>)

  datatype TeamContext = TeamContext(
    name: string, position: int, currentLap: int, totalLaps: int,
    tyreCondition: string, fuelLevel: string, gap: string)

  datatype RaceInfo = RaceInfo(phase: string, raceFlag: string, trackConditions: string, competitors: seq<string>)

  /** The JSON body posted to `/api/chat/driver_response`. */
  datatype DriverRequest = DriverRequest(
    message: string, driverId: Option<string>, driverName: string,
    conversationHistory: seq<ContextEntry>, teamContext: TeamContext, raceContext: RaceInfo)

  /** The parsed reply of a successful response. */
  datatype Reply = Reply(
    response: string, mood: Option<string>, confidence: Option<real>,
    strategyImpact: Option<Impact>, teamRadioMessage: Option<string>)

  /** What is handed to `onMessageSent`. */
  datatype RadioNote = RadioNote(sender: string, message: string, impact: Option<Impact>)

  const Commander: string := "车队指挥"
  const FallbackText: string := "无线电信号不稳定，请重试指令。"

  function OrNum(o: Option<int>, d: int): int { if Teams.TruthyNum(o) then o.value else d }
  function OrStr(o: Option<string>, d: string): string { if Teams.TruthyStr(o) then o.value else d }

  /** `x || default` for each field: a truthy value is kept, anything falsy (absent, 0, "") replaced. */
  function TeamContextOf(teamName: string, rc: RaceContext): (tc: TeamContext)
    ensures tc.name == teamName
    ensures tc.position != 0 && tc.totalLaps != 0
    ensures tc.tyreCondition != "" && tc.fuelLevel != "" && tc.gap != ""
    ensures Teams.TruthyNum(rc.currentPosition) ==> tc.position == rc.currentPosition.value
    ensures !Teams.TruthyNum(rc.currentPosition) ==> tc.position == 10
    ensures !Teams.TruthyNum(rc.currentLap) ==> tc.currentLap == 0
    ensures rc.currentLap.Some? ==> tc.currentLap == rc.currentLap.value
    ensures Teams.TruthyNum(rc.totalLaps) ==> tc.totalLaps == rc.totalLaps.value
    ensures !Teams.TruthyNum(rc.totalLaps) ==> tc.totalLaps == 57
    ensures Teams.TruthyStr(rc.tyreCondition) ==> tc.tyreCondition == rc.tyreCondition.value
    ensures !Teams.TruthyStr(rc.tyreCondition) ==> tc.tyreCondition == "medium"
    ensures Teams.TruthyStr(rc.fuelLevel) ==> tc.fuelLevel == rc.fuelLevel.value
    ensures !Teams.TruthyStr(rc.fuelLevel) ==> tc.fuelLevel == "normal"
    ensures Teams.TruthyStr(rc.gap) ==> tc.gap == rc.gap.value
    ensures !Teams.TruthyStr(rc.gap) ==> tc.gap == "+0.00s"
  {
    TeamContext(teamName, OrNum(rc.currentPosition, 10), OrNum(rc.currentLap, 0), OrNum(rc.totalLaps, 57),
      OrStr(rc.tyreCondition, "medium"), OrStr(rc.fuelLevel, "normal"), OrStr(rc.gap, "+0.00s"))
  }

  function RaceInfoOf(rc: RaceContext): (ri: RaceInfo)
    ensures ri.phase != "" && ri.raceFlag != "" && ri.trackConditions != ""
    ensures Teams.TruthyStr(rc.phase) ==> ri.phase == rc.phase.value
    ensures !Teams.TruthyStr(rc.phase) ==> ri.phase == "race"
    ensures Teams.TruthyStr(rc.raceFlag) ==> ri.raceFlag == rc.raceFlag.value
    ensures !Teams.TruthyStr(rc.raceFlag) ==> ri.raceFlag == "green"
    ensures Teams.TruthyStr(rc.trackConditions) ==> ri.trackConditions == rc.trackConditions.value
    ensures !Teams.TruthyStr(rc.trackConditions) ==> ri.trackConditions == "dry"
    ensures ri.competitors == if rc.nearbyDrivers.Some? then rc.nearbyDrivers.value else []
  {
    RaceInfo(OrStr(rc.phase, "race"), OrStr(rc.raceFlag, "green"), OrStr(rc.trackConditions, "dry"),
      rc.nearbyDrivers.GetOr([]))
  }

  /** The history sent with an instruction: the last ten context entries and the instruction. */
  function RequestHistory(context: seq<ContextEntry>, input: string): (h: seq<ContextEntry>)
    ensures 1 <= |h| <= 11 && |h| - 1 <= |context| && h[|h| - 1] == ContextEntry(UserRole, input)
    ensures h[..|h| - 1] == context[|context| - (|h| - 1)..]
    ensures |context| >= 10 ==> |h| == 11
    ensures |context| < 10 ==> h == context + [ContextEntry(UserRole, input)]
  {
    Last(context, 10) + [ContextEntry(UserRole, input)]
  }

  /** The context after a reply: the last eight previous entries, then the exchange. */
  function NextContext(context: seq<ContextEntry>, input: string, response: string): (c: seq<ContextEntry>)
    ensures 2 <= |c| <= 10 && |c| - 2 <= |context|
    ensures c[|c| - 2..] == [ContextEntry(UserRole, input), ContextEntry(AssistantRole, response)]
    ensures c[..|c| - 2] == context[|context| - (|c| - 2)..]
    ensures |context| >= 8 ==> |c| == 10
  {
    var c := Last(context, 8) + [ContextEntry(UserRole, input), ContextEntry(AssistantRole, response)];
    assert c[..|c| - 2] == Last(context, 8);
    c
  }

  /** The request for one instruction. */
  function BuildRequest(input: string, d: Teams.Driver, team: Teams.Team, context: seq<ContextEntry>, rc: RaceContext)
    : (r: DriverRequest)
    ensures r.message == input && r.driverId == d.id && r.driverName == d.name
    ensures r.conversationHistory == RequestHistory(context, input)
    ensures r.teamContext == TeamContextOf(team.name, rc) && r.raceContext == RaceInfoOf(rc)
  {
    DriverRequest(input, d.id, d.name, RequestHistory(context, input), TeamContextOf(team.name, rc), RaceInfoOf(rc))
  }

  function Instruction(input: string): ChatMessage
  {
    ChatMessage(Commander, input, UserKind, None, None, None)
  }

  function Welcome(driver: Teams.Driver, team: Teams.Team): (m: ChatMessage)
    ensures m.sender == driver.name && m.kind == SystemKind && m.mood == Some("professional")
    ensures IsPrefix(team.name + "车队，我是" + driver.name, m.message)
  {
    var head := team.name + "车队，我是" + driver.name;
    var m := ChatMessage(driver.name, head + "。无线电连接正常，准备接受指令。", SystemKind, Some("professional"), None, None);
    assert m.message[..|head|] == head;
    m
  }

  class RadioChat {
    /** Whether the parent passed `onStrategyImpact` and `onMessageSent`. */
    const hasImpactHandler: bool
    const hasMessageHandler: bool
    var selectedDriver: Option<Teams.Driver>
    var teamData: Option<Teams.Team>
    var messages: seq<ChatMessage>
    var userInput: string
    var isAIThinking: bool
    var driverMood: Option<string>
    var conversationContext: seq<ContextEntry>

    /** The context never grows beyond ten entries. */
    predicate Valid()
      reads this`conversationContext
    {
      |conversationContext| <= 10
    }

    constructor (onStrategyImpact: bool, onMessageSent: bool)
      ensures Valid()
      ensures hasImpactHandler == onStrategyImpact && hasMessageHandler == onMessageSent
      ensures selectedDriver.None? && teamData.None?
      ensures messages == [] && userInput == "" && !isAIThinking && driverMood == Some("focused")
      ensures conversationContext == []
    {
      hasImpactHandler, hasMessageHandler := onStrategyImpact, onMessageSent;
      selectedDriver, teamData := None, None;
      messages, userInput, isAIThinking := [], "", false;
      driverMood := Some("focused");
      conversationContext := [];
    }

    /** The props change: with both a driver and a team the chat restarts with the welcome message. */
    method OnProps(driver: Option<Teams.Driver>, team: Option<Teams.Team>)
      requires Valid()
      modifies this
      ensures Valid()
      ensures selectedDriver == driver && teamData == team
      ensures driver.Some? && team.Some? ==> messages == [Welcome(driver.value, team.value)] && conversationContext == []
      ensures !(driver.Some? && team.Some?) ==>
        messages == old(messages) && conversationContext == old(conversationContext)
      ensures userInput == old(userInput) && isAIThinking == old(isAIThinking) && driverMood == old(driverMood)
    {
      selectedDriver, teamData := driver, team;
      if driver.Some? && team.Some? {
        messages := [Welcome(driver.value, team.value)];
        conversationContext := [];
      }
    }

    /**
     * `handleUserMessage` up to the request. Blank input, or input while a reply is pending,
     * changes nothing. Otherwise the instruction is shown and the request built; without a
     * driver or a team building it throws, and the `catch` block appends the fallback, which
     * itself throws when there is no driver, so the chat then stays "thinking".
     */
    method Submit(input: string, rc: RaceContext) returns (request: Option<DriverRequest>)
      requires Valid()
      modifies this`messages, this`userInput, this`isAIThinking
      ensures Valid()
      ensures IsBlank(input) || old(isAIThinking) ==>
        request.None? && messages == old(messages) && userInput == old(userInput) && isAIThinking == old(isAIThinking)
      ensures !IsBlank(input) && !old(isAIThinking) && selectedDriver.Some? && teamData.Some? ==>
        request == Some(BuildRequest(input, selectedDriver.value, teamData.value, conversationContext, rc))
        && messages == old(messages) + [Instruction(input)]
        && userInput == "" && isAIThinking
      ensures !IsBlank(input) && !old(isAIThinking) && selectedDriver.Some? && teamData.None? ==>
        request.None? && userInput == "" && !isAIThinking
        && messages == old(messages) + [Instruction(input)] + [FallbackMessage(selectedDriver.value)]
      ensures !IsBlank(input) && !old(isAIThinking) && selectedDriver.None? ==>
        request.None? && userInput == "" && isAIThinking
        && messages == old(messages) + [Instruction(input)]
    {
      if IsBlank(input) || isAIThinking {
        request := None;
        return;
      }
      ShowInstruction(input);
      if selectedDriver.Some? && teamData.Some? {
        request := Some(BuildRequest(input, selectedDriver.value, teamData.value, conversationContext, rc));
      } else {
        request := None;
        Fail();
      }
    }

    /** The instruction is shown, the input cleared, and a reply awaited. */
    method ShowInstruction(input: string)
      modifies this`messages, this`userInput, this`isAIThinking
      ensures messages == old(messages) + [Instruction(input)] && userInput == "" && isAIThinking
    {
      messages, userInput, isAIThinking := messages + [Instruction(input)], "", true;
    }

    /** The `catch` block: the fallback message, then `isAIThinking` is cleared; without a driver it throws first. */
    method Fail()
      modifies this`messages, this`isAIThinking
      ensures selectedDriver.Some? ==> messages == old(messages) + [FallbackMessage(selectedDriver.value)] && !isAIThinking
      ensures selectedDriver.None? ==> messages == old(messages) && isAIThinking == old(isAIThinking)
    {
      if selectedDriver.Some? {
        messages := messages + [FallbackMessage(selectedDriver.value)];
        isAIThinking := false;
      }
    }

    /**
     * The rest of `handleUserMessage` once the request is answered (`None`: not ok or
     * failed). A reply is shown, sets the mood and extends the context; its strategy
     * impact is forwarded exactly when there is one and a handler, and likewise its radio
     * message.
     */
    method Respond(input: string, reply: Option<Reply>)
      returns (impact: Option<(Option<string>, Impact)>, note: Option<RadioNote>)
      requires Valid()
      modifies this`messages, this`driverMood, this`conversationContext, this`isAIThinking
      ensures Valid()
      ensures reply.Some? && selectedDriver.Some? ==>
        var r, d := reply.value, selectedDriver.value;
        messages == old(messages) + [ChatMessage(d.name, r.response, AiResponse, r.mood, r.confidence, r.strategyImpact)]
        && driverMood == r.mood && !isAIThinking
        && conversationContext == NextContext(old(conversationContext), input, r.response)
        && (impact.Some? <==> r.strategyImpact.Some? && hasImpactHandler)
        && (impact.Some? ==> impact.value == (d.id, r.strategyImpact.value))
        && (note.Some? <==> Teams.TruthyStr(r.teamRadioMessage) && hasMessageHandler)
        && (note.Some? ==> note.value == RadioNote(d.name, r.teamRadioMessage.value, r.strategyImpact))
      ensures reply.None? || selectedDriver.None? ==>
        impact.None? && note.None? && conversationContext == old(conversationContext) && driverMood == old(driverMood)
        && (selectedDriver.Some? ==> messages == old(messages) + [FallbackMessage(selectedDriver.value)] && !isAIThinking)
        && (selectedDriver.None? ==> messages == old(messages) && isAIThinking == old(isAIThinking))
    {
      if reply.Some? && selectedDriver.Some? {
        impact, note := Accept(input, reply.value, selectedDriver.value);
      } else {
        impact, note := None, None;
        Fail();
      }
    }

    /** A reply: shown, its mood taken, the context extended, and its impact and radio message forwarded. */
    method Accept(input: string, r: Reply, d: Teams.Driver)
      returns (impact: Option<(Option<string>, Impact)>, note: Option<RadioNote>)
      requires Valid()
      modifies this`messages, this`driverMood, this`conversationContext, this`isAIThinking
      ensures Valid()
      ensures messages == old(messages) + [ChatMessage(d.name, r.response, AiResponse, r.mood, r.confidence, r.strategyImpact)]
      ensures driverMood == r.mood && !isAIThinking
      ensures conversationContext == NextContext(old(conversationContext), input, r.response)
      ensures impact == if r.strategyImpact.Some? && hasImpactHandler then Some((d.id, r.strategyImpact.value)) else None
      ensures note == if Teams.TruthyStr(r.teamRadioMessage) && hasMessageHandler
                      then Some(RadioNote(d.name, r.teamRadioMessage.value, r.strategyImpact)) else None
    {
      messages := messages + [ChatMessage(d.name, r.response, AiResponse, r.mood, r.confidence, r.strategyImpact)];
      driverMood := r.mood;
      conversationContext := NextContext(conversationContext, input, r.response);
      impact := if r.strategyImpact.Some? && hasImpactHandler then Some((d.id, r.strategyImpact.value)) else None;
      note := if Teams.TruthyStr(r.teamRadioMessage) && hasMessageHandler
              then Some(RadioNote(d.name, r.teamRadioMessage.value, r.strategyImpact)) else None;
      isAIThinking := false;
    }
  }

  function FallbackMessage(d: Teams.Driver): (m: ChatMessage)
    ensures m.sender == d.name && m.kind == FallbackKind && m.mood == Some("concerned")
    ensures m.message == FallbackText
  {
    ChatMessage(d.name, FallbackText, FallbackKind, Some("concerned"), None, None)
  }

  // ---------------------------------------------------------------- moods

  /** The moods with a colour and an emoji of their own. */
  const KnownMoods: seq<string> := ["angry", "frustrated", "confident", "concerned", "excited", "professional"]

  function MoodColor(mood: Option<string>): (c: string)
    ensures mood.None? || mood.value !in KnownMoods ==> c == "#ffffff"
  {
    if mood == Some("angry") then "#F44336"
    else if mood == Some("frustrated") then "#FF9800"
    else if mood == Some("confident") then "#4CAF50"
    else if mood == Some("concerned") then "#FFC107"
    else if mood == Some("excited") then "#2196F3"
    else if mood == Some("professional") then "#9C27B0"
    else "#ffffff"
  }

  function MoodEmoji(mood: Option<string>): (e: string)
    ensures mood.None? || mood.value !in KnownMoods ==> e == "🏎️"
  {
    if mood == Some("angry") then "😠"
    else if mood == Some("frustrated") then "😤"
    else if mood == Some("confident") then "😎"
    else if mood == Some("concerned") then "😟"
    else if mood == Some("excited") then "🔥"
    else if mood == Some("professional") then "🎯"
    else "🏎️"
  }

  /** Each known mood has its own colour and emoji, neither of them the default. */
  lemma MoodsDistinguished(i: nat, j: nat)
    requires i < |KnownMoods| && j < |KnownMoods|
    ensures MoodColor(Some(KnownMoods[i])) != "#ffffff" && MoodEmoji(Some(KnownMoods[i])) != "🏎️"
    ensures i != j ==> MoodColor(Some(KnownMoods[i])) != MoodColor(Some(KnownMoods[j]))
    ensures i != j ==> MoodEmoji(Some(KnownMoods[i])) != MoodEmoji(Some(KnownMoods[j]))
  {
  }
}
