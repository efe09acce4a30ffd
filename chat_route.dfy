/**
 * The chat-message endpoint (POST): it validates the request, looks up the
 * user and their character, builds the escalation instruction and the prompt
 * history, asks for a reply and its speech, and stores the exchange unless
 * the message is the alarm page's silence signal.
 *
 * The database, the memory service and the two model calls are given as the
 * `World`: what each would return, or None where it throws. Every call the
 * endpoint makes is recorded as an `Effect`, in order.
 */
module ChatRoute {
  import opened Common
  import opened Characters
  import opened GeminiClient

  const HistoryWindow: nat := 5
  const StoredLength: nat := 500

  const BadRequestMessage: string := "userId and content are required"
  const NotFoundMessage: string := "User not found"
  const FailedMessage: string := "Failed"

  /** The opening every tier shares; the digit that follows names the tier. */
  const TierOpening: string := "\n【エスカレーションレベル"
  const Tier1: string := TierOpening + "1: 粘り強い】" + "ユーザーがまだ寝ているようです。少ししつこく、強い口調で起こしてください。"
  const Tier2: string := TierOpening + "2: 怒り】" + "ユーザーが全く反応しません。怒鳴る、叫ぶなど、かなり強い怒りを表現して起こしてください。"
  const Tier3: string := TierOpening + "3: 感情の爆発】" + "最終段階です。ガチギレする、絶望して号泣する、あるいは発狂して支離滅裂なことを叫ぶなど、ユーザーが驚いて飛び起きるような極限の感情を表現してください。"
  const MemoryDiaryHeading: string := "\n\n【関連する記憶・日記】\n"

  /** The request body; absent `history` and `escalationLevel` default to [] and 0. */
  datatype ChatRequest = ChatRequest(
    userId: Option<string>, content: Option<string>,
    history: Option<seq<ChatMessage>>, escalationLevel: Option<int>)

  datatype User = User(name: string, character: Option<string>)

  /** What each outside call returns: None where the call throws. */
  datatype World = World(
    user: Option<User>,
    storedNewestFirst: seq<ChatMessage>,
    memories: Option<seq<string>>,
    reply: Option<string>,
    speech: Option<string>,
    dateStr: string,
    timeStr: string)

  datatype Effect =
    | FindUser(userId: string)
    | RetrieveMemory(query: string)
    | LoadRecent(userId: string, take: nat)
    | Generate(messages: seq<ChatMessage>, systemPrompt: string, context: string)
    | Synthesize(text: string, voice: string)
    | SaveMessage(owner: string, role: string, text: string)
    | Memorize(owner: string, text: string)

  datatype Response =
    | BadRequest(error: string)
    | NotFound(error: string)
    | Failed(error: string)
    | Reply(text: string, audioBlob: Option<string>, memoryUsed: bool, characterName: string, isTtsError: bool)

  function Status(r: Response): int
  {
    match r
    case BadRequest(_) => 400
    case NotFound(_) => 404
    case Failed(_) => 500
    case Reply(_, _, _, _, _) => 200
  }

  predicate Signalled(content: string)
  {
    Contains(content, SilenceSignal)
  }

  // ---------------------------------------------------------------------------
  // Escalation instruction
  // ---------------------------------------------------------------------------

  /** The time notice every alarm reply must carry: say the current JST time. */
  function TimeNotice(timeStr: string): (r: string)
    ensures |r| > 0
  {
    "\n【重要: 時刻告知】ユーザーを確実に起こすため、必ず返答のどこかで現在の日本標準時（JST）の時刻（" + timeStr + "）を「○時○分だよ」といった形式で正確に述べてください。"
  }

  function TierText(level: int): string
  {
    if level == 1 then Tier1 else if level == 2 then Tier2 else if level >= 3 then Tier3 else ""
  }

  /**
   * The reference text: nothing for a calm, genuine message; otherwise the
   * time notice followed by the tier the level selects.
   */
  function EscalationText(level: int, content: string, timeStr: string): (r: string)
    ensures r == "" <==> level <= 0 && !Signalled(content)
    ensures r != "" ==> |TimeNotice(timeStr)| <= |r| && r[..|TimeNotice(timeStr)|] == TimeNotice(timeStr)
  {
    if level > 0 || Signalled(content) then TimeNotice(timeStr) + TierText(level) else ""
  }

  /** The instruction built up the way the endpoint does it, by assignment and appending. */
  method EscalationInstruction(level: int, content: string, timeStr: string) returns (instruction: string)
    ensures instruction == EscalationText(level, content, timeStr)
  {
    instruction := "";
    if level > 0 || Contains(content, SilenceSignal) {
      instruction := TimeNotice(timeStr);
      if level == 1 {
        instruction := instruction + Tier1;
      } else if level == 2 {
        instruction := instruction + Tier2;
      } else if level >= 3 {
        instruction := instruction + Tier3;
      }
    }
  }

  /** Levels 1, 2 and 3 or more each add exactly their own tier; a signal at level 0 or below adds only the notice. */
  lemma EscalationTiers(level: int, content: string, timeStr: string)
    ensures level == 1 ==> EscalationText(level, content, timeStr) == TimeNotice(timeStr) + Tier1
    ensures level == 2 ==> EscalationText(level, content, timeStr) == TimeNotice(timeStr) + Tier2
    ensures level >= 3 ==> EscalationText(level, content, timeStr) == TimeNotice(timeStr) + Tier3
    ensures level <= 0 && Signalled(content) ==> EscalationText(level, content, timeStr) == TimeNotice(timeStr)
  {
    if level <= 0 && Signalled(content) {
      assert TimeNotice(timeStr) + "" == TimeNotice(timeStr);
    }
  }

  function TierClass(level: int): int
  {
    if level >= 3 then 3 else level
  }

  /** Two levels that select different tiers give different instructions. */
  lemma DistinctTiersDistinctInstructions(a: int, b: int, content: string, timeStr: string)
    requires a >= 1 && b >= 1 && TierClass(a) != TierClass(b)
    ensures EscalationText(a, content, timeStr) != EscalationText(b, content, timeStr)
  {
    var n := TimeNotice(timeStr);
    var x, y := EscalationText(a, content, timeStr), EscalationText(b, content, timeStr);
    assert x == n + TierText(a) && y == n + TierText(b);
    assert x[|n|..] == TierText(a) && y[|n|..] == TierText(b);
    assert Tier1[13] == '1';
    assert Tier2[13] == '2';
    assert Tier3[13] == '3';
    assert TierText(a) != TierText(b);
  }

  // ---------------------------------------------------------------------------
  // Prompt history, context and stored text
  // ---------------------------------------------------------------------------

  function Min(a: int, b: int): int
  {
    if a <= b then a else b
  }

  function Reverse<T>(s: seq<T>): (r: seq<T>)
    ensures |r| == |s|
    ensures forall i :: 0 <= i < |s| ==> r[i] == s[|s| - 1 - i]
  {
    if s == [] then [] else Reverse(s[1..]) + [s[0]]
  }

  /** `slice(-n)`: the last n items, or all of them when there are fewer. */
  function LastN<T>(s: seq<T>, n: nat): seq<T>
  {
    s[|s| - Min(n, |s|)..]
  }

  /**
   * The prompt messages: the last five of the client's history when it sent
   * any, else the user's five most recent stored messages oldest first; the
   * new message always comes last, as a user turn.
   */
  function PromptMessages(history: seq<ChatMessage>, storedNewestFirst: seq<ChatMessage>, content: string): (r: seq<ChatMessage>)
    ensures 1 <= |r| <= HistoryWindow + 1
    ensures r[|r| - 1] == ChatMessage("user", content)
    ensures |history| > 0 ==> r[..|r| - 1] == history[|history| - Min(HistoryWindow, |history|)..]
    ensures |history| == 0 ==> |r| - 1 == Min(HistoryWindow, |storedNewestFirst|)
    ensures |history| == 0 ==> forall i :: 0 <= i < |r| - 1 ==> r[i] == storedNewestFirst[|r| - 2 - i]
  {
    (if |history| > 0 then LastN(history, HistoryWindow)
     else Reverse(storedNewestFirst[..Min(HistoryWindow, |storedNewestFirst|)]))
    + [ChatMessage("user", content)]
  }

  /** `substring(0, n)`: the first n characters, or the whole text when it is shorter. */
  function Truncate(s: string, n: nat): (r: string)
    ensures |r| == Min(n, |s|) && r == s[..|r|]
    ensures |s| <= n ==> r == s
  {
    s[..Min(n, |s|)]
  }

  /** The remembered summaries, one `- ` bullet per line. */
  function Bullets(summaries: seq<string>): (r: string)
    ensures |summaries| > 0 ==> |r| >= 2 && r[..2] == "- "
  {
    if summaries == [] then ""
    else if |summaries| == 1 then "- " + summaries[0]
    else "- " + summaries[0] + "\n" + Bullets(summaries[1..])
  }

  function UserContext(dateStr: string, timeStr: string, name: string): string
  {
    "現在時刻は " + dateStr + " " + timeStr + " です。\nユーザーの名前は「" + name + "」です。"
  }

  /** The context: the date, time and name, and the memories under their own heading when there are any. */
  function FullContext(userContext: string, memoryContext: string): (r: string)
    ensures memoryContext == "" <==> r == userContext
  {
    if memoryContext != "" then userContext + MemoryDiaryHeading + memoryContext else userContext
  }

  function MemorizedExchange(name: string, content: string, reply: string): string
  {
    "ユーザー(" + name + "): " + content + "\nAI: " + reply
  }

  function SpeechDataUri(base64Audio: string): string
  {
    "data:audio/wav;base64," + base64Audio
  }

  /** The character a user gets: their own, or `normal` when none is set. */
  function UserCharacter(u: User): CharacterProfile
  {
    GetCharacter(if Truthy(u.character) then u.character.value else "normal")
  }

  function MemoryContext(content: string, memories: Option<seq<string>>): (r: string)
    ensures r != "" <==> !Signalled(content) && memories.Some? && |memories.value| > 0
  {
    if !Signalled(content) && memories.Some? && |memories.value| > 0 then Bullets(memories.value) else ""
  }

  function Defaulted<T>(o: Option<T>, d: T): T
  {
    if o.Some? then o.value else d
  }

  // ---------------------------------------------------------------------------
  // The endpoint
  // ---------------------------------------------------------------------------

  /** The generation request: the windowed messages, the character's prompt plus the instruction, and the full context. */
  function Request(userId: string, content: string, history: seq<ChatMessage>, escalationLevel: int, user: User,
                   character: CharacterProfile, w: World): Effect
  {
    Generate(PromptMessages(history, w.storedNewestFirst, content),
             character.systemPrompt + EscalationText(escalationLevel, content, w.timeStr),
             FullContext(UserContext(w.dateStr, w.timeStr, user.name), MemoryContext(content, w.memories)))
  }

  /** The calls made before the reply is asked for: memory retrieval unless signalled, the stored history when none was sent. */
  function Gathered(userId: string, content: string, history: seq<ChatMessage>): (r: seq<Effect>)
    ensures forall e :: e in r ==> e == RetrieveMemory(content) || e == LoadRecent(userId, HistoryWindow)
  {
    (if Signalled(content) then [] else [RetrieveMemory(content)])
    + (if |history| == 0 then [LoadRecent(userId, HistoryWindow)] else [])
  }

  /** The calls made once the reply is there: its speech, then what is stored. */
  function Answered(userId: string, name: string, content: string, character: CharacterProfile, w: World): (r: seq<Effect>)
    ensures w.reply.None? <==> r == []
    ensures w.reply.Some? ==> r[0] == Synthesize(w.reply.value, character.voiceName)
  {
    if w.reply.None? then []
    else [Synthesize(w.reply.value, character.voiceName)] + StoredEffects(userId, name, content, w.reply.value)
  }

  /** Every call of an exchange with a known user, in order. */
  function ExchangeEffects(userId: string, content: string, history: seq<ChatMessage>, escalationLevel: int, user: User,
                           character: CharacterProfile, w: World): seq<Effect>
  {
    Gathered(userId, content, history) + [Request(userId, content, history, escalationLevel, user, character, w)]
    + Answered(userId, user.name, content, character, w)
  }

  /** The answer to a known user: 500 iff generation failed, else the reply, with the audio as a data URI when speech succeeded. */
  function ExchangeResponse(content: string, character: CharacterProfile, w: World): (r: Response)
    ensures r.Failed? || r.Reply?
    ensures r.Failed? <==> w.reply.None?
    ensures r.Failed? ==> r.error == FailedMessage
    ensures r.Reply? ==>
      && r.text == w.reply.value
      && r.characterName == character.name
      && (r.isTtsError <==> r.audioBlob.None?)
      && (r.isTtsError <==> w.speech.None?)
      && (r.audioBlob.Some? ==> r.audioBlob.value == SpeechDataUri(w.speech.value))
      && (r.memoryUsed <==> !Signalled(content) && w.memories.Some? && |w.memories.value| > 0)
  {
    if w.reply.None? then Failed(FailedMessage)
    else
      var audio := if w.speech.Some? then Some(SpeechDataUri(w.speech.value)) else None;
      Reply(w.reply.value, audio, MemoryContext(content, w.memories) != "", character.name, audio.None?)
  }

  predicate Valid(req: ChatRequest)
  {
    Truthy(req.userId) && Truthy(req.content)
  }

  /** The endpoint's answer: 400 without userId or content, 404 for an unknown user, else the exchange's answer. */
  function EndpointResponse(req: ChatRequest, w: World): (r: Response)
    ensures r.BadRequest? <==> !Valid(req)
    ensures r.BadRequest? ==> r.error == BadRequestMessage
    ensures Valid(req) ==> (r.NotFound? <==> w.user.None?)
    ensures r.NotFound? ==> r.error == NotFoundMessage
    ensures Valid(req) && w.user.Some? ==> (r.Failed? <==> w.reply.None?)
    ensures r.Failed? ==> r.error == FailedMessage
  {
    if !Valid(req) then BadRequest(BadRequestMessage)
    else if w.user.None? then NotFound(NotFoundMessage)
    else ExchangeResponse(req.content.value, UserCharacter(w.user.value), w)
  }

  /** The endpoint's calls: none for a bad request, the lookup alone for an unknown user, else the lookup and the exchange. */
  function EndpointEffects(req: ChatRequest, w: World): (r: seq<Effect>)
    ensures !Valid(req) <==> r == []
    ensures Valid(req) ==> r[0] == FindUser(req.userId.value)
    ensures Valid(req) && w.user.None? ==> r == [FindUser(req.userId.value)]
  {
    if !Valid(req) then []
    else
      [FindUser(req.userId.value)]
      + if w.user.None? then []
        else ExchangeEffects(req.userId.value, req.content.value, Defaulted(req.history, []),
                             Defaulted(req.escalationLevel, 0), w.user.value, UserCharacter(w.user.value), w)
  }

  /** A known user's message is sent with the windowed history, the character's prompt plus the instruction, and the context. */
  lemma PromptSent(userId: string, content: string, history: seq<ChatMessage>, escalationLevel: int, user: User,
                   character: CharacterProfile, w: World)
    ensures Generate(PromptMessages(history, w.storedNewestFirst, content),
                     character.systemPrompt + EscalationText(escalationLevel, content, w.timeStr),
                     FullContext(UserContext(w.dateStr, w.timeStr, user.name), MemoryContext(content, w.memories)))
            in ExchangeEffects(userId, content, history, escalationLevel, user, character, w)
  {
    var g := Gathered(userId, content, history);
    var r := ExchangeEffects(userId, content, history, escalationLevel, user, character, w);
    assert r[|g|] == Request(userId, content, history, escalationLevel, user, character, w);
  }

  /** After a failed generation nothing is synthesised, saved or memorised. */
  lemma FailureStoresNothing(userId: string, content: string, history: seq<ChatMessage>, escalationLevel: int, user: User,
                             character: CharacterProfile, w: World)
    requires w.reply.None?
    ensures forall e :: e in ExchangeEffects(userId, content, history, escalationLevel, user, character, w) ==>
      !e.SaveMessage? && !e.Memorize? && !e.Synthesize?
  {
    var g := Gathered(userId, content, history);
    assert ExchangeEffects(userId, content, history, escalationLevel, user, character, w)
      == g + [Request(userId, content, history, escalationLevel, user, character, w)];
  }

  /** With the silence signal no memory is retrieved and nothing is saved or memorised. */
  lemma SignalSkipsMemory(userId: string, content: string, history: seq<ChatMessage>, escalationLevel: int, user: User,
                          character: CharacterProfile, w: World)
    requires Signalled(content)
    ensures forall e :: e in ExchangeEffects(userId, content, history, escalationLevel, user, character, w) ==>
      !e.RetrieveMemory? && !e.SaveMessage? && !e.Memorize?
  {
    var g := Gathered(userId, content, history);
    var a := Answered(userId, user.name, content, character, w);
    assert a == [] || a == [Synthesize(w.reply.value, character.voiceName)];
    forall e | e in ExchangeEffects(userId, content, history, escalationLevel, user, character, w)
      ensures !e.RetrieveMemory? && !e.SaveMessage? && !e.Memorize?
    {
      if e in g {
        assert e.LoadRecent?;
      } else if e in a {
        assert e.Synthesize?;
      }
    }
  }

  /** Without the signal the memories are queried, and a reply is spoken, both turns saved and the exchange memorised. */
  lemma GenuineExchangeStored(userId: string, content: string, history: seq<ChatMessage>, escalationLevel: int, user: User,
                              character: CharacterProfile, w: World)
    requires !Signalled(content)
    ensures RetrieveMemory(content) in ExchangeEffects(userId, content, history, escalationLevel, user, character, w)
    ensures w.reply.Some? ==>
      var r := ExchangeEffects(userId, content, history, escalationLevel, user, character, w);
      && SaveMessage(userId, "user", Truncate(content, StoredLength)) in r
      && SaveMessage(userId, "assistant", Truncate(w.reply.value, StoredLength)) in r
      && Memorize(userId, MemorizedExchange(user.name, content, w.reply.value)) in r
  {
    var g := Gathered(userId, content, history);
    var r := ExchangeEffects(userId, content, history, escalationLevel, user, character, w);
    assert r[0] == RetrieveMemory(content);
    if w.reply.Some? {
      var n := |g| + 1;
      var a := Answered(userId, user.name, content, character, w);
      assert r[n..] == a;
      assert r[n + 1] == SaveMessage(userId, "user", Truncate(content, StoredLength));
      assert r[n + 2] == SaveMessage(userId, "assistant", Truncate(w.reply.value, StoredLength));
      assert r[n + 3] == Memorize(userId, MemorizedExchange(user.name, content, w.reply.value));
    }
  }

  /** A successful reply is spoken in the character's voice. */
  lemma ReplySpoken(userId: string, content: string, history: seq<ChatMessage>, escalationLevel: int, user: User,
                    character: CharacterProfile, w: World)
    requires w.reply.Some?
    ensures Synthesize(w.reply.value, character.voiceName)
            in ExchangeEffects(userId, content, history, escalationLevel, user, character, w)
  {
    var g := Gathered(userId, content, history);
    var r := ExchangeEffects(userId, content, history, escalationLevel, user, character, w);
    assert r[|g| + 1] == Synthesize(w.reply.value, character.voiceName);
  }

  /** Every stored message is at most 500 characters long. */
  lemma StoredTextsBounded(userId: string, content: string, history: seq<ChatMessage>, escalationLevel: int, user: User,
                           character: CharacterProfile, w: World)
    ensures forall e :: e in ExchangeEffects(userId, content, history, escalationLevel, user, character, w) && e.SaveMessage? ==>
      |e.text| <= StoredLength
  {
    var g := Gathered(userId, content, history);
    var a := Answered(userId, user.name, content, character, w);
    forall e | e in ExchangeEffects(userId, content, history, escalationLevel, user, character, w) && e.SaveMessage?
      ensures |e.text| <= StoredLength
    {
      if e in a {
        assert e in a[1..];
      }
    }
  }

  /** The endpoint, step by step: validation, the lookup, then the exchange. */
  method Post(req: ChatRequest, w: World) returns (resp: Response, effects: seq<Effect>)
    ensures resp == EndpointResponse(req, w)
    ensures effects == EndpointEffects(req, w)
  {
    if !Truthy(req.userId) || !Truthy(req.content) {
      return BadRequest(BadRequestMessage), [];
    }
    var userId, content := req.userId.value, req.content.value;
    var history := if req.history.Some? then req.history.value else [];
    var escalationLevel := if req.escalationLevel.Some? then req.escalationLevel.value else 0;

    if w.user.None? {
      return NotFound(NotFoundMessage), [FindUser(userId)];
    }
    var rest;
    resp, rest := Converse(userId, content, history, escalationLevel, w.user.value, UserCharacter(w.user.value), w);
    effects := [FindUser(userId)] + rest;
  }

  /** What follows a successful lookup of the user, with the character that user gets. */
  method Converse(userId: string, content: string, history: seq<ChatMessage>, escalationLevel: int, user: User,
                  character: CharacterProfile, w: World)
    returns (resp: Response, effects: seq<Effect>)
    ensures resp == ExchangeResponse(content, character, w)
    ensures effects == ExchangeEffects(userId, content, history, escalationLevel, user, character, w)
  {
    var asked, memoryContext, gathered := Ask(userId, content, history, escalationLevel, user, character, w);
    var answered;
    resp, answered := Answer(userId, user.name, content, character, |memoryContext| > 0, w);
    effects := gathered + [asked] + answered;
  }

  /** Everything that goes into the text-generation call: memories, stored history, instruction and context. */
  method Ask(userId: string, content: string, history: seq<ChatMessage>, escalationLevel: int, user: User,
             character: CharacterProfile, w: World)
    returns (asked: Effect, memoryContext: string, effects: seq<Effect>)
    ensures asked == Request(userId, content, history, escalationLevel, user, character, w)
    ensures memoryContext == MemoryContext(content, w.memories)
    ensures effects == Gathered(userId, content, history)
  {
    var escalationInstruction := EscalationInstruction(escalationLevel, content, w.timeStr);
    var recalled;
    memoryContext, recalled := Recall(content, w.memories);
    var fullContext := FullContext(UserContext(w.dateStr, w.timeStr, user.name), memoryContext);
    var dbHistory, loaded := LoadHistory(userId, history, w.storedNewestFirst);
    var messages := (if |history| > 0 then LastN(history, HistoryWindow) else dbHistory) + [ChatMessage("user", content)];
    assert messages == PromptMessages(history, w.storedNewestFirst, content);
    asked := Generate(messages, character.systemPrompt + escalationInstruction, fullContext);
    effects := recalled + loaded;
  }

  /** The exchange after the reply is asked for: a 500 if it fails, else speech, storage and the response. */
  method Answer(userId: string, name: string, content: string, character: CharacterProfile, memoryUsed: bool, w: World)
    returns (resp: Response, effects: seq<Effect>)
    ensures resp.Failed? || resp.Reply?
    ensures resp.Failed? <==> w.reply.None?
    ensures resp.Failed? ==> resp == Failed(FailedMessage) && effects == []
    ensures resp.Reply? ==>
      && resp.text == w.reply.value
      && resp.characterName == character.name
      && resp.memoryUsed == memoryUsed
      && (resp.isTtsError <==> resp.audioBlob.None?)
      && (resp.isTtsError <==> w.speech.None?)
      && (resp.audioBlob.Some? ==> resp.audioBlob.value == SpeechDataUri(w.speech.value))
    ensures effects == Answered(userId, name, content, character, w)
  {
    if w.reply.None? {
      return Failed(FailedMessage), [];
    }
    var responseText := w.reply.value;
    var audioData: Option<string> := None;
    if w.speech.Some? {
      audioData := Some(SpeechDataUri(w.speech.value));
    }
    var stored := Persist(userId, name, content, responseText);
    effects := [Synthesize(responseText, character.voiceName)] + stored;
    resp := Reply(responseText, audioData, memoryUsed, character.name, audioData.None?);
  }

  /** What is stored for a genuine exchange: both turns cut to 500 characters, and the exchange memorised. */
  function StoredEffects(userId: string, name: string, content: string, responseText: string): (r: seq<Effect>)
    ensures Signalled(content) <==> r == []
    ensures forall e :: e in r && e.SaveMessage? ==> |e.text| <= StoredLength
  {
    if Signalled(content) then []
    else [SaveMessage(userId, "user", Truncate(content, StoredLength)),
          SaveMessage(userId, "assistant", Truncate(responseText, StoredLength)),
          Memorize(userId, MemorizedExchange(name, content, responseText))]
  }

  /** Memory retrieval, skipped for the silence signal; a failed or empty retrieval leaves no memories. */
  method Recall(content: string, memories: Option<seq<string>>) returns (memoryContext: string, effects: seq<Effect>)
    ensures memoryContext == MemoryContext(content, memories)
    ensures effects == if Signalled(content) then [] else [RetrieveMemory(content)]
  {
    memoryContext := "";
    effects := [];
    if !Contains(content, SilenceSignal) {
      effects := [RetrieveMemory(content)];
      if memories.Some? && |memories.value| > 0 {
        memoryContext := Bullets(memories.value);
      }
    }
  }

  /** The stored history, read only when the client sent none: the five most recent, oldest first. */
  method LoadHistory(userId: string, history: seq<ChatMessage>, storedNewestFirst: seq<ChatMessage>)
    returns (dbHistory: seq<ChatMessage>, effects: seq<Effect>)
    ensures |history| == 0 ==> dbHistory == Reverse(storedNewestFirst[..Min(HistoryWindow, |storedNewestFirst|)])
    ensures effects == if |history| == 0 then [LoadRecent(userId, HistoryWindow)] else []
  {
    dbHistory := [];
    effects := [];
    if |history| == 0 {
      effects := [LoadRecent(userId, HistoryWindow)];
      dbHistory := Reverse(storedNewestFirst[..Min(HistoryWindow, |storedNewestFirst|)]);
    }
  }

  /** Persistence and memorisation, skipped for the silence signal; stored texts are cut to 500 characters. */
  method Persist(userId: string, name: string, content: string, responseText: string) returns (effects: seq<Effect>)
    ensures effects == StoredEffects(userId, name, content, responseText)
  {
    effects := [];
    if !Contains(content, SilenceSignal) {
      effects := effects + [SaveMessage(userId, "user", Truncate(content, StoredLength))];
      effects := effects + [SaveMessage(userId, "assistant", Truncate(responseText, StoredLength))];
      effects := effects + [Memorize(userId, MemorizedExchange(name, content, responseText))];
    }
  }
}
