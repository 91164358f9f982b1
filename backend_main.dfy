/** The role-play backend: skill detection and prompt enhancement, the user
    store behind register/login, the chat exchange with its history window,
    and the conversation listing. The stores are the JSON files on disk;
    hashing, tokens, the clock and the language-model reply are inputs. */
module BackendMain {
  import opened Wrappers
  import opened Text
  import opened Lists
  import Sorting

  // ---------------------------------------------------------------------------
  // Skills
  // ---------------------------------------------------------------------------

  /** The seven skills the prompt enhancements know; the first six are detected. */
  datatype Skill = Knowledge | Emotional | Creative | Racing | Humor | Motivational | Philosophy

  /** The skill names, the keyword lists and the two halves of each
      enhancement text around the quoted message. These constants are given
      opaquely: the module does not depend on their wording. */
  datatype SkillTexts = SkillTexts(
    name: Skill -> string,
    keywords: Skill -> seq<string>,
    before: Skill -> string,
    after: Skill -> string)

  predicate Mentions(text: string, words: seq<string>)
  {
    exists i :: 0 <= i < |words| && Contains(text, words[i])
  }

  /** A skill's test: a keyword occurs in the lower-cased message and the
      character has the skill. */
  predicate Applies(texts: SkillTexts, message: string, characterSkills: seq<string>, s: Skill)
  {
    Mentions(ToLower(message), texts.keywords(s)) && texts.name(s) in characterSkills
  }

  /** A skill's place in the order of the tests. */
  function Rank(s: Skill): nat
  {
    match s
    case Knowledge => 0
    case Emotional => 1
    case Creative => 2
    case Racing => 3
    case Humor => 4
    case Motivational => 5
    case Philosophy => 6
  }

  /** `detect_skill_usage`: the first of the six tested skills, in order,
      whose test passes. 哲学思辨 (Philosophy) has no test. */
  function DetectSkill(texts: SkillTexts, message: string, characterSkills: seq<string>): (r: Option<Skill>)
    ensures r.Some? ==> texts.name(r.value) in characterSkills && Mentions(ToLower(message), texts.keywords(r.value))
    ensures r != Some(Philosophy)
    ensures r.None? <==> forall s :: s != Philosophy ==> !Applies(texts, message, characterSkills, s)
    ensures r.Some? ==> forall s :: Rank(s) < Rank(r.value) ==> !Applies(texts, message, characterSkills, s)
  {
    if Applies(texts, message, characterSkills, Knowledge) then Some(Knowledge)
    else if Applies(texts, message, characterSkills, Emotional) then Some(Emotional)
    else if Applies(texts, message, characterSkills, Creative) then Some(Creative)
    else if Applies(texts, message, characterSkills, Racing) then Some(Racing)
    else if Applies(texts, message, characterSkills, Humor) then Some(Humor)
    else if Applies(texts, message, characterSkills, Motivational) then Some(Motivational)
    else
      NoTestPasses(texts, message, characterSkills);
      None
  }

  lemma NoTestPasses(texts: SkillTexts, message: string, characterSkills: seq<string>)
    requires !Applies(texts, message, characterSkills, Knowledge) && !Applies(texts, message, characterSkills, Emotional)
    requires !Applies(texts, message, characterSkills, Creative) && !Applies(texts, message, characterSkills, Racing)
    requires !Applies(texts, message, characterSkills, Humor) && !Applies(texts, message, characterSkills, Motivational)
    ensures forall s :: s != Philosophy ==> !Applies(texts, message, characterSkills, s)
  {
    forall s | s != Philosophy ensures !Applies(texts, message, characterSkills, s) {
      match s
      case Knowledge =>
      case Emotional =>
      case Creative =>
      case Racing =>
      case Humor =>
      case Motivational =>
    }
  }

  /** The enhancement of a skill for a message. */
  function Enhancement(texts: SkillTexts, s: Skill, message: string): string
  {
    texts.before(s) + message + texts.after(s)
  }

  /** The key of `skill_enhancements` equal to `skill`. The tests run from the
      last key back, as a repeated key in a dict display keeps its last value. */
  function SkillNamed(texts: SkillTexts, skill: string): (r: Option<Skill>)
    ensures r.Some? ==> texts.name(r.value) == skill
    ensures r.None? <==> forall s :: texts.name(s) != skill
  {
    if texts.name(Motivational) == skill then Some(Motivational)
    else if texts.name(Humor) == skill then Some(Humor)
    else if texts.name(Racing) == skill then Some(Racing)
    else if texts.name(Philosophy) == skill then Some(Philosophy)
    else if texts.name(Creative) == skill then Some(Creative)
    else if texts.name(Emotional) == skill then Some(Emotional)
    else if texts.name(Knowledge) == skill then Some(Knowledge)
    else
      NoKeyMatches(texts, skill);
      None
  }

  lemma NoKeyMatches(texts: SkillTexts, skill: string)
    requires texts.name(Knowledge) != skill && texts.name(Emotional) != skill && texts.name(Creative) != skill
    requires texts.name(Philosophy) != skill && texts.name(Racing) != skill && texts.name(Humor) != skill
    requires texts.name(Motivational) != skill
    ensures forall s :: texts.name(s) != skill
  {
    forall s ensures texts.name(s) != skill {
      match s
      case Knowledge =>
      case Emotional =>
      case Creative =>
      case Philosophy =>
      case Racing =>
      case Humor =>
      case Motivational =>
    }
  }

  /** `enhance_prompt_with_skill`: the base prompt, followed by the enhancement
      of the skill with that name, or by nothing for an unknown name. */
  function EnhancePrompt(texts: SkillTexts, basePrompt: string, skill: string, message: string): (r: string)
    ensures IsPrefix(basePrompt, r)
    ensures (forall s :: texts.name(s) != skill) ==> r == basePrompt
  {
    var found := SkillNamed(texts, skill);
    var r := basePrompt + (if found.Some? then Enhancement(texts, found.value, message) else "");
    assert r[..|basePrompt|] == basePrompt;
    r
  }

  predicate NamesDistinct(texts: SkillTexts)
  {
    forall s, t :: s != t ==> texts.name(s) != texts.name(t)
  }

  /** With distinct names, a skill's name selects that skill's enhancement. */
  lemma EnhanceByName(texts: SkillTexts, basePrompt: string, s: Skill, message: string)
    requires NamesDistinct(texts)
    ensures EnhancePrompt(texts, basePrompt, texts.name(s), message) == basePrompt + Enhancement(texts, s, message)
  {
    var found := SkillNamed(texts, texts.name(s));
    assert found.Some?;
    assert found.value == s;
  }

  // ---------------------------------------------------------------------------
  // Users
  // ---------------------------------------------------------------------------

  /** A stored user; `password` holds the hash. */
  datatype UserRecord = UserRecord(email: string, password: string, createdAt: string, conversations: seq<string>)

  datatype HttpError = HttpError(status: int, detail: string)

  const LoginError := HttpError(400, "Incorrect username or password")

  // ---------------------------------------------------------------------------
  // Conversations
  // ---------------------------------------------------------------------------

  /** A message stored in a conversation file; `skill` is `skill_used` of a user message. */
  datatype StoredMessage = StoredMessage(role: string, content: string, timestamp: nat, skill: Option<Skill>)

  /** A conversation file. */
  datatype Conversation = Conversation(user: string, characterId: string, messages: seq<StoredMessage>)

  /** A message handed to the model. */
  datatype ChatMessage = ChatMessage(role: string, content: string)

  /** A character: its name, its skill names and its system prompt. */
  datatype Character = Character(name: string, skills: seq<string>, prompt: string)

  datatype ChatRequest = ChatRequest(characterId: string, message: string, conversationId: Option<string>)

  datatype ChatResponse = ChatResponse(response: string, conversationId: string)

  /** `request.conversation_id or f"{user}_{character_id}_{timestamp}"`. */
  function ConversationId(req: ChatRequest, user: string, now: int): (id: string)
    ensures req.conversationId.Some? && req.conversationId.value != "" ==> id == req.conversationId.value
    ensures req.conversationId.None? || req.conversationId.value == "" ==>
      IsPrefix(user + "_" + req.characterId + "_", id) && id[|user + "_" + req.characterId + "_"|..] == Dec(now)
  {
    if req.conversationId.Some? && req.conversationId.value != "" then req.conversationId.value
    else
      var p := user + "_" + req.characterId + "_";
      var id := p + Dec(now);
      assert id[..|p|] == p && id[|p|..] == Dec(now);
      id
  }

  function ToChat(m: StoredMessage): ChatMessage
  {
    ChatMessage(m.role, m.content)
  }

  /** The messages sent: the system prompt, at most the last eight stored
      messages in order, then the user's message. */
  function RequestMessages(systemPrompt: string, history: seq<StoredMessage>, message: string): (r: seq<ChatMessage>)
    ensures 2 <= |r| <= 10
    ensures r[0] == ChatMessage("system", systemPrompt)
    ensures r[|r| - 1] == ChatMessage("user", message)
    ensures |r| == Min(8, |history|) + 2
    ensures forall i :: 0 < i < |r| - 1 ==> r[i] == ToChat(history[|history| - Min(8, |history|) + i - 1])
  {
    var recent := Last(history, 8);
    [ChatMessage("system", systemPrompt)] + Map(ToChat, recent) + [ChatMessage("user", message)]
  }

  /** The system prompt: the character's prompt, enhanced when a skill with a
      non-empty name is detected. */
  function SystemPrompt(texts: SkillTexts, c: Character, message: string): (p: string)
    ensures IsPrefix(c.prompt, p)
    ensures DetectSkill(texts, message, c.skills).None? ==> p == c.prompt
  {
    var skill := DetectSkill(texts, message, c.skills);
    if skill.Some? && texts.name(skill.value) != "" then EnhancePrompt(texts, c.prompt, texts.name(skill.value), message)
    else c.prompt
  }

  // ---------------------------------------------------------------------------
  // Listing
  // ---------------------------------------------------------------------------

  /** A conversation file `id.json` is listed for a user whose name occurs in
      the file name. */
  predicate Visible(user: string, id: string)
  {
    Contains(id + ".json", user)
  }

  datatype Summary = Summary(id: string, characterId: string, characterName: string, lastMessage: string, timestamp: Option<nat>)

  /** The summary of one file; None when its character is unknown (a KeyError). */
  function SummaryOf(id: string, conv: Conversation, characters: map<string, Character>): (r: Option<Summary>)
    ensures r.None? <==> conv.characterId !in characters
    ensures r.Some? ==> r.value.id == id && |r.value.lastMessage| <= 100
    ensures r.Some? ==> (r.value.timestamp.None? <==> conv.messages == [])
  {
    if conv.characterId !in characters then None
    else if conv.messages == [] then Some(Summary(id, conv.characterId, characters[conv.characterId].name, "", None))
    else
      var last := conv.messages[|conv.messages| - 1];
      Some(Summary(id, conv.characterId, characters[conv.characterId].name, Take(last.content, 100), Some(last.timestamp)))
  }

  /** The summaries of the visible files in directory order; None when one
      of them fails. */
  function Listing(user: string, files: seq<(string, Conversation)>, characters: map<string, Character>): Option<seq<Summary>>
  {
    if files == [] then Some([])
    else
      var front := Listing(user, files[..|files| - 1], characters);
      var (id, conv) := files[|files| - 1];
      if front.None? then None
      else if !Visible(user, id) then front
      else
        var s := SummaryOf(id, conv, characters);
        if s.None? then None else Some(front.value + [s.value])
  }

  /** The listing fails exactly when a visible file names an unknown character;
      otherwise it holds one summary per visible file, in directory order. */
  lemma {:induction false} ListingShape(user: string, files: seq<(string, Conversation)>, characters: map<string, Character>)
    ensures Listing(user, files, characters).None? <==>
      exists i :: 0 <= i < |files| && Visible(user, files[i].0) && files[i].1.characterId !in characters
    ensures Listing(user, files, characters).Some? ==>
      forall i :: 0 <= i < |files| && Visible(user, files[i].0) ==>
        SummaryOf(files[i].0, files[i].1, characters).value in Listing(user, files, characters).value
    ensures Listing(user, files, characters).Some? ==>
      forall s :: s in Listing(user, files, characters).value ==>
        exists i :: 0 <= i < |files| && Visible(user, files[i].0) && SummaryOf(files[i].0, files[i].1, characters) == Some(s)
  {
    if files != [] {
      var init := files[..|files| - 1];
      ListingShape(user, init, characters);
      var n := |files| - 1;
      forall i | 0 <= i < n ensures files[i] == init[i] { }
    }
  }

  /** `reverse=True` on the `timestamp` key; an empty conversation's "" sorts last. */
  function StampKey(s: Summary): real
  {
    if s.timestamp.Some? then s.timestamp.value as real else -1.0
  }

  // ---------------------------------------------------------------------------
  // The backend state
  // ---------------------------------------------------------------------------

  class Backend {
    /** users.json */
    var users: map<string, UserRecord>
    /** the conversation files, by conversation id */
    var conversations: map<string, Conversation>

    /** A fresh data directory: `{}` in users.json, no conversation files. */
    constructor()
      ensures users == map[] && conversations == map[]
    {
      users := map[];
      conversations := map[];
    }

    /** `register`, with the password hash and the creation time as inputs. */
    method Register(username: string, email: string, hashedPassword: string, createdAt: string)
      returns (r: Result<string, HttpError>)
      modifies this`users
      ensures username in old(users) ==>
        r == Err(HttpError(400, "Username already registered")) && users == old(users)
      ensures username !in old(users) ==>
        r == Ok("User registered successfully")
        && users == old(users)[username := UserRecord(email, hashedPassword, createdAt, [])]
    {
      if username in users {
        return Err(HttpError(400, "Username already registered"));
      }
      users := users[username := UserRecord(email, hashedPassword, createdAt, [])];
      return Ok("User registered successfully");
    }

    /** `login`, with password verification and token creation as inputs: a
        token only for a known user with a matching password, and one error
        for both failures. */
    function Login(username: string, password: string, verify: (string, string) -> bool, token: string):
      (r: Result<string, HttpError>)
      reads this`users
      ensures r.Ok? <==> username in users && verify(password, users[username].password)
      ensures r.Ok? ==> r.value == token
      ensures r.Err? ==> r.error == LoginError
    {
      if username !in users then Err(LoginError)
      else if !verify(password, users[username].password) then Err(LoginError)
      else Ok(token)
    }

    /** `chat` for `user`. `configured` says whether a model client exists,
        `now` is the epoch second, `userStamp`/`replyStamp` the two message
        times and `reply` the model's answer (None: the call raised). Returns
        the response and the messages sent to the model. */
    method Chat(texts: SkillTexts, characters: map<string, Character>, user: string, req: ChatRequest,
                configured: bool, now: int, userStamp: nat, replyStamp: nat, reply: Option<string>)
      returns (r: Result<ChatResponse, HttpError>, sent: seq<ChatMessage>)
      modifies this`conversations
      ensures !configured ==> r == Err(HttpError(500, "LLM API not configured")) && conversations == old(conversations)
      ensures configured && req.characterId !in characters ==>
        r == Err(HttpError(404, "Character not found")) && conversations == old(conversations)
      ensures configured && req.characterId in characters ==>
        var c := characters[req.characterId];
        var id := ConversationId(req, user, now);
        var history := if id in old(conversations) then old(conversations)[id].messages else [];
        sent == RequestMessages(SystemPrompt(texts, c, req.message), history, req.message)
        && (reply.None? ==> r.Err? && r.error.status == 500 && conversations == old(conversations))
        && (reply.Some? ==>
              var skill := DetectSkill(texts, req.message, c.skills);
              var added := [StoredMessage("user", req.message, userStamp, skill),
                            StoredMessage("assistant", reply.value, replyStamp, None)];
              r == Ok(ChatResponse(reply.value, id))
              && conversations == old(conversations)[id :=
                   if id in old(conversations) then old(conversations)[id].(messages := history + added)
                   else Conversation(user, req.characterId, added)])
    {
      sent := [];
      if !configured {
        return Err(HttpError(500, "LLM API not configured")), sent;
      }
      if req.characterId !in characters {
        return Err(HttpError(404, "Character not found")), sent;
      }
      var c := characters[req.characterId];
      var skill := DetectSkill(texts, req.message, c.skills);
      var prompt := SystemPrompt(texts, c, req.message);
      var id := ConversationId(req, user, now);
      var history := if id in conversations then conversations[id].messages else [];
      sent := RequestMessages(prompt, history, req.message);
      if reply.None? {
        return Err(HttpError(500, "Error generating response")), sent;
      }
      var added := [StoredMessage("user", req.message, userStamp, skill),
                    StoredMessage("assistant", reply.value, replyStamp, None)];
      if id in conversations {
        conversations := conversations[id := conversations[id].(messages := history + added)];
      } else {
        conversations := conversations[id := Conversation(user, req.characterId, added)];
      }
      r := Ok(ChatResponse(reply.value, id));
    }
  }

  /** `get_conversations` over the directory listing `files` (id and
      contents, in directory order): the summaries of the visible files,
      newest last message first; None when a file names an unknown character. */
  method ListConversations(user: string, files: seq<(string, Conversation)>, characters: map<string, Character>)
    returns (r: Option<seq<Summary>>)
    ensures r.None? <==> exists i :: 0 <= i < |files| && Visible(user, files[i].0) && files[i].1.characterId !in characters
    ensures r.Some? ==> Sorting.SortedDesc(r.value, StampKey)
    ensures Listing(user, files, characters).Some? ==>
      r.Some? && multiset(r.value) == multiset(Listing(user, files, characters).value)
  {
    ListingShape(user, files, characters);
    var summaries: seq<Summary> := [];
    var i := 0;
    while i < |files|
      invariant 0 <= i <= |files|
      invariant Listing(user, files[..i], characters) == Some(summaries)
    {
      assert files[..i + 1][..i] == files[..i];
      var (id, conv) := files[i];
      if Visible(user, id) {
        var s := SummaryOf(id, conv, characters);
        if s.None? {
          ListingNone(user, files, characters, i + 1);
          return None;
        }
        summaries := summaries + [s.value];
      }
      i := i + 1;
    }
    assert files[..i] == files;
    Sorting.SortDescSorted(summaries, StampKey);
    Sorting.SortDescPerm(summaries, StampKey);
    r := Some(Sorting.SortDesc(summaries, StampKey));
  }

  /** A failing prefix makes the whole listing fail. */
  lemma {:induction false} ListingNone(user: string, files: seq<(string, Conversation)>, characters: map<string, Character>, n: nat)
    requires n <= |files|
    requires Listing(user, files[..n], characters).None?
    ensures Listing(user, files, characters).None?
    decreases |files| - n
  {
    if n < |files| {
      assert files[..n + 1][..n] == files[..n];
      ListingNone(user, files, characters, n + 1);
    } else {
      assert files[..n] == files;
    }
  }
}
