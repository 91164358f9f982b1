/**
 * The character chat screen: assembling the speech-recognition transcript, sending
 * a message and taking the reply, and the speech output: cutting the processed reply
 * into segments of at most 200 characters along sentence ends, and choosing the voice,
 * rate and pitch of each utterance. The regular-expression preprocessing of the reply
 * and the browser's speech objects are not modelled: segmentation starts from the
 * processed text, and the voice list is a parameter.
 */
module Chat {
  import opened Wrappers
  import opened Text
  import opened Lists

  // ---------------------------------------------------------------- recognition

  /** One alternative of a recognition result: its transcript and whether it is final. */
  datatype RecognitionResult = RecognitionResult(transcript: string, isFinal: bool)

  /** The transcripts of the final results, in order. */
  function FinalText(rs: seq<RecognitionResult>): string
  {
    if rs == [] then ""
    else FinalText(rs[..|rs| - 1]) + (if rs[|rs| - 1].isFinal then rs[|rs| - 1].transcript else "")
  }

  /** The transcripts of the interim results, in order. */
  function InterimText(rs: seq<RecognitionResult>): string
  {
    if rs == [] then ""
    else InterimText(rs[..|rs| - 1]) + (if rs[|rs| - 1].isFinal then "" else rs[|rs| - 1].transcript)
  }

  function Transcript(r: RecognitionResult): string { r.transcript }
  predicate IsFinal(r: RecognitionResult) { r.isFinal }
  predicate IsInterim(r: RecognitionResult) { !r.isFinal }

  /** The final text is the final results' transcripts joined, and likewise the interim text. */
  lemma {:induction false} TextsAreFiltered(rs: seq<RecognitionResult>)
    ensures FinalText(rs) == Concat(Map(Transcript, FilterBack(IsFinal, rs)))
    ensures InterimText(rs) == Concat(Map(Transcript, FilterBack(IsInterim, rs)))
  {
    if rs != [] {
      var init, r := rs[..|rs| - 1], rs[|rs| - 1];
      TextsAreFiltered(init);
      MapAppend(Transcript, FilterBack(IsFinal, init), if r.isFinal then [r] else []);
      MapAppend(Transcript, FilterBack(IsInterim, init), if r.isFinal then [] else [r]);
      ConcatAppend(Map(Transcript, FilterBack(IsFinal, init)), Map(Transcript, if r.isFinal then [r] else []));
      ConcatAppend(Map(Transcript, FilterBack(IsInterim, init)), Map(Transcript, if r.isFinal then [] else [r]));
    }
  }

  /** `xs.filter(p)`, peeling from the back. */
  function FilterBack<T>(p: T -> bool, xs: seq<T>): (r: seq<T>)
    ensures forall x :: x in r ==> x in xs && p(x)
  {
    if xs == [] then [] else FilterBack(p, xs[..|xs| - 1]) + (if p(xs[|xs| - 1]) then [xs[|xs| - 1]] else [])
  }

  /** The final text is empty exactly when every final result has an empty transcript. */
  lemma {:induction false} FinalTextEmpty(rs: seq<RecognitionResult>)
    ensures FinalText(rs) == "" <==> forall i :: 0 <= i < |rs| && rs[i].isFinal ==> rs[i].transcript == ""
  {
    if rs != [] {
      FinalTextEmpty(rs[..|rs| - 1]);
      assert forall i :: 0 <= i < |rs| - 1 ==> rs[..|rs| - 1][i] == rs[i];
    }
  }

  /** `event.results` from `event.resultIndex` on (none when the index is past the end). */
  function FromIndex(results: seq<RecognitionResult>, resultIndex: nat): seq<RecognitionResult>
  {
    if resultIndex <= |results| then results[resultIndex..] else []
  }

  /** The `onresult` loop: the interim and the final transcripts of the new results. */
  method Assemble(results: seq<RecognitionResult>, resultIndex: nat) returns (interim: string, final: string)
    ensures interim == InterimText(FromIndex(results, resultIndex))
    ensures final == FinalText(FromIndex(results, resultIndex))
  {
    interim, final := "", "";
    var start := if resultIndex <= |results| then resultIndex else |results|;
    var i := start;
    while i < |results|
      invariant start <= i <= |results|
      invariant interim == InterimText(results[start..i])
      invariant final == FinalText(results[start..i])
    {
      assert results[start..i + 1][..i - start] == results[start..i];
      if results[i].isFinal {
        final := final + results[i].transcript;
      } else {
        interim := interim + results[i].transcript;
      }
      i := i + 1;
    }
    assert results[start..] == results[start..|results|];
  }

  // ---------------------------------------------------------------- segmentation

  /** `maxLength`: the longest text, in UTF-16 units, spoken in one utterance unless a single sentence is longer. */
  const MaxLength: nat := 200

  /** The sentence ends the text is split at. */
  predicate IsTerminator(c: char) { c == '。' || c == '！' || c == '？' }

  /** The index of the first sentence end, or the length when there is none. */
  function FirstTerminator(s: string): (i: nat)
    ensures i <= |s|
    ensures forall j :: 0 <= j < i ==> !IsTerminator(s[j])
    ensures i < |s| ==> IsTerminator(s[i])
  {
    if s == [] || IsTerminator(s[0]) then 0 else FirstTerminator(s[1..]) + 1
  }

  /** `text.split(/([。！？])/)`: the text between sentence ends, with each end kept as a piece of its own. */
  function SplitSentences(s: string): (parts: seq<string>)
    ensures |parts| % 2 == 1
    decreases |s|
  {
    var i := FirstTerminator(s);
    if i == |s| then [s] else [s[..i], [s[i]]] + SplitSentences(s[i + 1..])
  }

  /** A piece at an even index holds no sentence end; one at an odd index is a single sentence end. */
  predicate WellSplit(parts: seq<string>)
  {
    forall k :: 0 <= k < |parts| ==>
      (k % 2 == 0 ==> forall j :: 0 <= j < |parts[k]| ==> !IsTerminator(parts[k][j]))
      && (k % 2 == 1 ==> |parts[k]| == 1 && IsTerminator(parts[k][0]))
  }

  /** The split loses nothing. */
  lemma {:induction false} SplitSentencesConcat(s: string)
    ensures Concat(SplitSentences(s)) == s
    decreases |s|
  {
    var i := FirstTerminator(s);
    if i == |s| {
      ConcatCons(s, []);
    } else {
      SplitSentencesConcat(s[i + 1..]);
      CutAt(s, i, SplitSentences(s[i + 1..]));
    }
  }

  /** Cutting a string around one character and joining the pieces again. */
  lemma CutAt(s: string, i: nat, rest: seq<string>)
    requires i < |s| && Concat(rest) == s[i + 1..]
    ensures Concat([s[..i], [s[i]]] + rest) == s
  {
    assert [s[..i], [s[i]]] + rest == [s[..i]] + ([[s[i]]] + rest);
    ConcatCons(s[..i], [[s[i]]] + rest);
    ConcatCons([s[i]], rest);
    assert s == s[..i] + [s[i]] + s[i + 1..];
  }

  /** The split alternates text and single sentence ends. */
  lemma {:induction false} SplitSentencesAlternate(s: string)
    ensures WellSplit(SplitSentences(s))
    decreases |s|
  {
    var i := FirstTerminator(s);
    if i < |s| {
      var rest := SplitSentences(s[i + 1..]);
      SplitSentencesAlternate(s[i + 1..]);
      var parts := [s[..i], [s[i]]] + rest;
      forall k | 2 <= k < |parts|
        ensures parts[k] == rest[k - 2]
      {
      }
    }
  }

  /** `sentences[i] + (sentences[i + 1] || '')` for i = 0, 2, 4, ...: each sentence with its end. */
  function Pairs(parts: seq<string>): (ps: seq<string>)
    ensures |ps| == (|parts| + 1) / 2
    decreases |parts|
  {
    if |parts| == 0 then []
    else if |parts| == 1 then [parts[0]]
    else [parts[0] + parts[1]] + Pairs(parts[2..])
  }

  /** Pairing loses nothing. */
  lemma {:induction false} PairsConcat(parts: seq<string>)
    ensures Concat(Pairs(parts)) == Concat(parts)
    decreases |parts|
  {
    if |parts| == 1 {
      ConcatCons(parts[0], []);
      assert parts == [parts[0]] + [];
    } else if |parts| >= 2 {
      PairsConcat(parts[2..]);
      ConcatCons(parts[0] + parts[1], Pairs(parts[2..]));
      assert parts == [parts[0]] + ([parts[1]] + parts[2..]);
      ConcatCons(parts[0], [parts[1]] + parts[2..]);
      ConcatCons(parts[1], parts[2..]);
    }
  }

  /** The segments emitted so far and the text being accumulated (`currentText`). */
  datatype Segmenter = Segmenter(spoken: seq<string>, current: string)

  /** One iteration of the loop: emit the accumulated text if the sentence would overflow it. */
  function Feed(st: Segmenter, sentence: string): Segmenter
  {
    if Utf16Length(st.current) + Utf16Length(sentence) > MaxLength && st.current != "" then Segmenter(st.spoken + [st.current], sentence)
    else Segmenter(st.spoken, st.current + sentence)
  }

  /** The loop over the remaining sentences. */
  function Run(st: Segmenter, ps: seq<string>): Segmenter
    decreases |ps|
  {
    if ps == [] then st else Run(Feed(st, ps[0]), ps[1..])
  }

  /** After the loop, the accumulated text is spoken if it is non-empty. */
  function Flush(st: Segmenter): seq<string>
  {
    if st.current != "" then st.spoken + [st.current] else st.spoken
  }

  /** What `speakText` hands to `speakSegment`, in order. */
  function Spoken(text: string): seq<string>
  {
    if Utf16Length(text) > MaxLength then Flush(Run(Segmenter([], ""), Pairs(SplitSentences(text)))) else [text]
  }

  lemma {:induction false} RunConcat(st: Segmenter, ps: seq<string>)
    ensures var e := Run(st, ps); Concat(e.spoken) + e.current == Concat(st.spoken) + st.current + Concat(ps)
    decreases |ps|
  {
    if ps != [] {
      RunConcat(Feed(st, ps[0]), ps[1..]);
      ConcatCons(ps[0], ps[1..]);
      assert [ps[0]] + ps[1..] == ps;
      if Utf16Length(st.current) + Utf16Length(ps[0]) > MaxLength && st.current != "" {
        ConcatAppend(st.spoken, [st.current]);
        ConcatCons(st.current, []);
      }
    }
  }

  /** Every segment emitted is non-empty. */
  predicate AllNonEmpty(gs: seq<string>) { forall k :: 0 <= k < |gs| ==> gs[k] != "" }

  lemma {:induction false} RunNonEmpty(st: Segmenter, ps: seq<string>)
    requires AllNonEmpty(st.spoken)
    ensures AllNonEmpty(Run(st, ps).spoken)
    decreases |ps|
  {
    if ps != [] {
      RunNonEmpty(Feed(st, ps[0]), ps[1..]);
    }
  }

  /** A segment either fits in `MaxLength` or is one of the sentences `all`. */
  predicate Fits(g: string, all: seq<string>) { Utf16Length(g) <= MaxLength || g in all }

  lemma {:induction false} RunFits(st: Segmenter, ps: seq<string>, all: seq<string>)
    requires forall k :: 0 <= k < |st.spoken| ==> Fits(st.spoken[k], all)
    requires Fits(st.current, all)
    requires forall k :: 0 <= k < |ps| ==> ps[k] in all
    ensures var e := Run(st, ps); (forall k :: 0 <= k < |e.spoken| ==> Fits(e.spoken[k], all)) && Fits(e.current, all)
    decreases |ps|
  {
    if ps != [] {
      var next := Feed(st, ps[0]);
      assert Fits(next.current, all) by {
        if st.current == "" {
          assert next.current == ps[0];
        } else {
          Utf16LengthAppend(st.current, ps[0]);
        }
      }
      RunFits(next, ps[1..], all);
    }
  }

  /** Short processed text is spoken as one segment. */
  lemma SpokenShort(text: string)
    requires Utf16Length(text) <= MaxLength
    ensures Spoken(text) == [text]
  {
  }

  /**
   * Longer text: the segments, joined in order, give back the processed text; none is
   * empty; and one longer than `MaxLength` is a single sentence with its end.
   */
  lemma SpokenLong(text: string)
    requires Utf16Length(text) > MaxLength
    ensures Concat(Spoken(text)) == text
    ensures AllNonEmpty(Spoken(text))
    ensures forall k :: 0 <= k < |Spoken(text)| ==> Fits(Spoken(text)[k], Pairs(SplitSentences(text)))
  {
    var ps := Pairs(SplitSentences(text));
    var e := Run(Segmenter([], ""), ps);
    assert Spoken(text) == Flush(e);
    SpokenConcat(text, ps);
    RunNonEmpty(Segmenter([], ""), ps);
    assert Utf16Length("") == 0;
    RunFits(Segmenter([], ""), ps, ps);
    FlushKeeps(e, ps);
  }

  /** Flushing the accumulated text keeps every segment non-empty and fitting. */
  lemma FlushKeeps(e: Segmenter, all: seq<string>)
    requires AllNonEmpty(e.spoken)
    requires (forall k :: 0 <= k < |e.spoken| ==> Fits(e.spoken[k], all)) && Fits(e.current, all)
    ensures AllNonEmpty(Flush(e))
    ensures forall k :: 0 <= k < |Flush(e)| ==> Fits(Flush(e)[k], all)
  {
    if e.current != "" {
      assert Flush(e) == e.spoken + [e.current];
      assert forall k :: 0 <= k < |e.spoken| ==> Flush(e)[k] == e.spoken[k];
    }
  }

  lemma SpokenConcat(text: string, ps: seq<string>)
    requires ps == Pairs(SplitSentences(text))
    ensures Concat(Flush(Run(Segmenter([], ""), ps))) == text
  {
    var e := Run(Segmenter([], ""), ps);
    SplitSentencesConcat(text);
    PairsConcat(SplitSentences(text));
    RunConcat(Segmenter([], ""), ps);
    assert Concat([]) == "";
    assert Concat(e.spoken) + e.current == Concat(ps);
    if e.current != "" {
      ConcatAppend(e.spoken, [e.current]);
      ConcatCons(e.current, []);
      assert [e.current] + [] == [e.current];
    }
  }

  /** The segmentation of `speakText`, following its loop over the split pieces two at a time. */
  method SpeakText(processedText: string) returns (segments: seq<string>)
    ensures segments == Spoken(processedText)
  {
    if Utf16Length(processedText) > MaxLength {
      var sentences := SplitSentences(processedText);
      var st := Segmenter([], "");
      var i := 0;
      while i < |sentences|
        invariant i % 2 == 0 && i <= |sentences| + 1
        invariant Run(st, Pairs(if i <= |sentences| then sentences[i..] else [])) == Run(Segmenter([], ""), Pairs(sentences))
        decreases |sentences| - i
      {
        var sentence := sentences[i] + (if i + 1 < |sentences| then sentences[i + 1] else "");
        ghost var rest := if i + 2 <= |sentences| then sentences[i + 2..] else [];
        if i + 1 < |sentences| {
          assert sentences[i..][2..] == rest;
        } else {
          assert sentences[i..] == [sentences[i]] && sentence == sentences[i];
        }
        assert Pairs(sentences[i..]) == [sentence] + Pairs(rest);
        assert Run(st, [sentence] + Pairs(rest)) == Run(Feed(st, sentence), Pairs(rest)) by {
          assert ([sentence] + Pairs(rest))[1..] == Pairs(rest);
        }
        st := Feed(st, sentence);
        i := i + 2;
      }
      segments := Flush(st);
    } else {
      segments := [processedText];
    }
  }

  // ---------------------------------------------------------------- voice

  datatype Voice = Voice(name: string, lang: string, localService: bool)

  /** `voice.lang.includes('zh') || voice.lang.includes('cn')`. */
  predicate IsChinese(v: Voice) { Contains(v.lang, "zh") || Contains(v.lang, "cn") }

  /** A local voice with one of the five preferred names. */
  predicate IsPreferred(v: Voice)
  {
    v.localService
    && (Contains(v.name, "Tingting") || Contains(v.name, "Yaoyao") || Contains(v.name, "Xiaoxiao")
        || Contains(v.name, "Siqi") || Contains(v.name, "Yunxi"))
  }

  predicate IsLocal(v: Voice) { v.localService }
  predicate PreferredChinese(v: Voice) { IsChinese(v) && IsPreferred(v) }
  predicate LocalChinese(v: Voice) { IsChinese(v) && v.localService }

  /**
   * The voice of an utterance: among the Chinese voices, the first preferred one, else
   * the first local one, else the first; none when there is no Chinese voice.
   */
  function ChooseVoice(voices: seq<Voice>): (r: Option<Voice>)
    ensures r.None? <==> forall i :: 0 <= i < |voices| ==> !IsChinese(voices[i])
    ensures r.Some? ==> r.value in voices && IsChinese(r.value)
    ensures FindFirst(PreferredChinese, voices).Some? ==> r == FindFirst(PreferredChinese, voices)
    ensures FindFirst(PreferredChinese, voices).None? && FindFirst(LocalChinese, voices).Some?
      ==> r == FindFirst(LocalChinese, voices)
    ensures FindFirst(LocalChinese, voices).None? ==> r == FindFirst(IsChinese, voices)
  {
    var chineseVoices := Filter(IsChinese, voices);
    FilterIff(IsChinese, voices);
    FindFirstFilter(IsChinese, IsPreferred, PreferredChinese, voices);
    FindFirstFilter(IsChinese, IsLocal, LocalChinese, voices);
    if chineseVoices == [] then
      None
    else
      FirstOfFilter(IsChinese, voices);
      var preferred := FindFirst(IsPreferred, chineseVoices);
      if preferred.Some? then preferred
      else
        var local := FindFirst(IsLocal, chineseVoices);
        if local.Some? then local else Some(chineseVoices[0])
  }

  /** The head of a non-empty filtered list is the first element that passes. */
  lemma {:induction false} FirstOfFilter<T>(p: T -> bool, xs: seq<T>)
    requires Filter(p, xs) != []
    ensures FindFirst(p, xs) == Some(Filter(p, xs)[0])
  {
    if !p(xs[0]) {
      FirstOfFilter(p, xs[1..]);
    }
  }

  /** A rate and pitch keyed by a fragment of the character's name. */
  datatype VoiceProfile = VoiceProfile(key: string, rate: real, pitch: real)

  /** The `if` chain, in its order. */
  const Profiles: seq<VoiceProfile> := [
    VoiceProfile("维斯塔潘", 0.9, 0.8),
    VoiceProfile("勒克莱尔", 0.75, 1.0),
    VoiceProfile("汉密尔顿", 0.8, 0.85),
    VoiceProfile("诺里斯", 1.0, 1.1),
    VoiceProfile("皮亚斯特里", 0.8, 0.95),
    VoiceProfile("拉塞尔", 0.85, 1.0),
    VoiceProfile("安东内利", 0.85, 1.05),
    VoiceProfile("角田裕毅", 0.8, 0.95),
    VoiceProfile("苏格拉底", 0.7, 0.85),
    VoiceProfile("哈利", 0.85, 1.05),
    VoiceProfile("莎士比亚", 0.75, 0.95)
  ]

  /** The rate and pitch of the first profile whose key the name contains, else 0.85 and 0.95. */
  function RateAndPitch(name: string, profiles: seq<VoiceProfile>): (rp: (real, real))
    ensures (forall i :: 0 <= i < |profiles| ==> !Contains(name, profiles[i].key)) ==> rp == (0.85, 0.95)
    ensures forall i :: 0 <= i < |profiles| && Contains(name, profiles[i].key)
                        && (forall j :: 0 <= j < i ==> !Contains(name, profiles[j].key))
                        ==> rp == (profiles[i].rate, profiles[i].pitch)
  {
    if profiles == [] then (0.85, 0.95)
    else if Contains(name, profiles[0].key) then (profiles[0].rate, profiles[0].pitch)
    else
      var rp := RateAndPitch(name, profiles[1..]);
      assert forall i :: 1 <= i < |profiles| ==> profiles[1..][i - 1] == profiles[i];
      rp
  }

  /** Every profile's rate is in [0.7, 1.0] and its pitch in [0.8, 1.1]. */
  predicate Moderate(profiles: seq<VoiceProfile>)
  {
    forall i :: 0 <= i < |profiles| ==> 0.7 <= profiles[i].rate <= 1.0 && 0.8 <= profiles[i].pitch <= 1.1
  }

  /** Whatever the name, the voice is spoken at a rate in [0.7, 1.0] and a pitch in [0.8, 1.1]. */
  lemma {:induction false} RateAndPitchModerate(name: string, profiles: seq<VoiceProfile>)
    requires Moderate(profiles)
    ensures 0.7 <= RateAndPitch(name, profiles).0 <= 1.0 && 0.8 <= RateAndPitch(name, profiles).1 <= 1.1
  {
    if profiles != [] && !Contains(name, profiles[0].key) {
      RateAndPitchModerate(name, profiles[1..]);
    }
  }

  lemma ProfilesModerate()
    ensures Moderate(Profiles)
  {
  }

  /** What `speakSegment` gives to the speech engine. */
  datatype Utterance = Utterance(text: string, voice: Option<Voice>, lang: string, volume: real, rate: real, pitch: real)

  function MakeUtterance(text: string, voices: seq<Voice>, characterName: string): (u: Utterance)
    ensures u.text == text && u.lang == "zh-CN" && u.volume == 0.85
    ensures u.voice == ChooseVoice(voices)
    ensures 0.7 <= u.rate <= 1.0 && 0.8 <= u.pitch <= 1.1
  {
    var rp := RateAndPitch(characterName, Profiles);
    ProfilesModerate();
    RateAndPitchModerate(characterName, Profiles);
    Utterance(text, ChooseVoice(voices), "zh-CN", 0.85, rp.0, rp.1)
  }

  // ---------------------------------------------------------------- the screen

  datatype Character = Character(id: string, name: string, description: string)
  datatype Role = User | Assistant
  datatype Message = Message(role: Role, content: string)

  /** The body posted to `/chat`. */
  datatype ChatRequest = ChatRequest(characterId: string, message: string, conversationId: Option<string>)

  /** The part of the reply the screen reads. */
  datatype ChatReply = ChatReply(response: string, conversationId: Option<string>)

  const ErrorReply: string := "抱歉，我现在无法回复。请稍后再试。"

  function Welcome(c: Character): (m: Message)
    ensures m.role == Assistant
    ensures IsPrefix("你好！我是" + c.name, m.content)
  {
    var head := "你好！我是" + c.name;
    var m := Message(Assistant, head + "。" + c.description + "。很高兴与你对话！");
    assert m.content[..|head|] == head;
    m
  }

  /** What the microphone button asks of the browser: the unsupported alert, `stop()` or `start()`. */
  datatype MicAction = NoRecognition | StopRecognition | StartRecognition

  class ChatScreen {
    const character: Character
    var messages: seq<Message>
    var inputMessage: string
    var loading: bool
    var isListening: bool
    var conversationId: Option<string>

    /** The state after mounting: the welcome message and nothing typed. */
    constructor (c: Character)
      ensures character == c && messages == [Welcome(c)] && inputMessage == ""
      ensures !loading && !isListening && conversationId.None?
    {
      character := c;
      messages := [Welcome(c)];
      inputMessage := "";
      loading := false;
      isListening := false;
      conversationId := None;
    }

    /** `onstart`. */
    method OnStart()
      modifies this
      ensures isListening
      ensures messages == old(messages) && inputMessage == old(inputMessage) && loading == old(loading)
      ensures conversationId == old(conversationId)
    {
      isListening := true;
    }

    /** `onend` and `onerror` (the alert is not modelled). */
    method OnEnd()
      modifies this
      ensures !isListening
      ensures messages == old(messages) && inputMessage == old(inputMessage) && loading == old(loading)
      ensures conversationId == old(conversationId)
    {
      isListening := false;
    }

    /**
     * The microphone button. Without a recognition object (`supported` false) the only
     * effect is the alert; otherwise recognition stops or starts and listening flips.
     */
    method ToggleListening(supported: bool) returns (action: MicAction)
      modifies this
      ensures !supported ==> action == NoRecognition && isListening == old(isListening)
      ensures supported ==> isListening == !old(isListening)
      ensures supported ==> action == (if old(isListening) then StopRecognition else StartRecognition)
      ensures messages == old(messages) && inputMessage == old(inputMessage) && loading == old(loading)
      ensures conversationId == old(conversationId)
    {
      if !supported {
        return NoRecognition;
      }
      if isListening {
        action := StopRecognition;
        isListening := false;
      } else {
        action := StartRecognition;
        isListening := true;
      }
    }

    /**
     * `onresult`: a non-empty final transcript replaces the input and stops listening;
     * otherwise the interim transcript replaces the input.
     */
    method OnResult(results: seq<RecognitionResult>, resultIndex: nat)
      modifies this
      ensures var rs := FromIndex(results, resultIndex);
        if FinalText(rs) != "" then inputMessage == FinalText(rs) && !isListening
        else inputMessage == InterimText(rs) && isListening == old(isListening)
      ensures messages == old(messages) && loading == old(loading) && conversationId == old(conversationId)
    {
      var interim, final := Assemble(results, resultIndex);
      if final != "" {
        inputMessage := final;
        isListening := false;
      } else {
        inputMessage := interim;
      }
    }

    /**
     * `handleSendMessage` up to the request: blank input or a pending request changes
     * nothing; otherwise the user's message is shown, the input cleared, and the request
     * carries the message and the current conversation id.
     */
    method Send() returns (request: Option<ChatRequest>)
      modifies this
      ensures IsBlank(old(inputMessage)) || old(loading) ==>
        request.None? && messages == old(messages) && inputMessage == old(inputMessage) && loading == old(loading)
      ensures !IsBlank(old(inputMessage)) && !old(loading) ==>
        request == Some(ChatRequest(character.id, old(inputMessage), old(conversationId)))
        && messages == old(messages) + [Message(User, old(inputMessage))] && inputMessage == "" && loading
      ensures isListening == old(isListening) && conversationId == old(conversationId)
    {
      if IsBlank(inputMessage) || loading {
        request := None;
        return;
      }
      request := Some(ChatRequest(character.id, inputMessage, conversationId));
      messages := messages + [Message(User, inputMessage)];
      inputMessage := "";
      loading := true;
    }

    /**
     * The reply, or the failure of the request: the assistant's answer (or the apology)
     * is appended and loading ends; an answer also sets the conversation id and is
     * returned to be spoken.
     */
    method Receive(reply: Option<ChatReply>) returns (toSpeak: Option<string>)
      modifies this
      ensures reply.Some? ==> (messages == old(messages) + [Message(Assistant, reply.value.response)]
        && conversationId == reply.value.conversationId && toSpeak == Some(reply.value.response))
      ensures reply.None? ==> (messages == old(messages) + [Message(Assistant, ErrorReply)]
        && conversationId == old(conversationId) && toSpeak.None?)
      ensures !loading && inputMessage == old(inputMessage) && isListening == old(isListening)
    {
      if reply.Some? {
        messages := messages + [Message(Assistant, reply.value.response)];
        conversationId := reply.value.conversationId;
        toSpeak := Some(reply.value.response);
      } else {
        messages := messages + [Message(Assistant, ErrorReply)];
        toSpeak := None;
      }
      loading := false;
    }
  }
}
