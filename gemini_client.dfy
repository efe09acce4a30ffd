/**
 * The pure parts of the Gemini client: how chat messages become the
 * request's `contents`, how the system prompt and the remembered facts about
 * the user are combined into one system instruction, when that instruction
 * is sent, and which voice speech synthesis uses. The HTTP calls themselves
 * are not modelled; a missing API key is a parameter.
 */
module GeminiClient {
  import opened Common

  /** A chat message as the server keeps it; the role is 'user' or 'assistant'. */
  datatype ChatMessage = ChatMessage(role: string, content: string)

  datatype Part = Part(text: string)

  /** One element of the request's `contents`: a Gemini role ('user' or 'model') and its parts. */
  datatype Content = Content(role: string, parts: seq<Part>)

  datatype RequestBody = RequestBody(contents: seq<Content>, systemInstruction: Option<seq<Part>>)

  const MemoryHeading: string := "【ユーザーについての記憶】\n"
  const DefaultVoice: string := "Kore"
  const MissingKeyMessage: string := "GEMINI_API_KEY not configured"

  function GeminiRole(role: string): (r: string)
    ensures r == "user" || r == "model"
    ensures r == "user" <==> role == "user"
  {
    if role == "user" then "user" else "model"
  }

  function ToContent(m: ChatMessage): Content
  {
    Content(GeminiRole(m.role), [Part(m.content)])
  }

  /** The messages mapped one for one, in order, each to its Gemini role and a single text part. */
  function ToContents(messages: seq<ChatMessage>): (r: seq<Content>)
    ensures |r| == |messages|
    ensures forall i :: 0 <= i < |r| ==> r[i] == ToContent(messages[i])
  {
    if messages == [] then [] else [ToContent(messages[0])] + ToContents(messages[1..])
  }

  /** The way back from a Gemini role: 'model' is the assistant. */
  function FromContent(c: Content): ChatMessage
    requires |c.parts| == 1
  {
    ChatMessage(if c.role == "user" then "user" else "assistant", c.parts[0].text)
  }

  predicate WellTyped(messages: seq<ChatMessage>)
  {
    forall i :: 0 <= i < |messages| ==> messages[i].role == "user" || messages[i].role == "assistant"
  }

  /** Messages whose role is 'user' or 'assistant' are recovered exactly from the request's contents. */
  lemma ContentsRoundTrip(messages: seq<ChatMessage>)
    requires WellTyped(messages)
    ensures var cs := ToContents(messages);
      (forall i :: 0 <= i < |cs| ==> |cs[i].parts| == 1)
      && seq(|cs|, i requires 0 <= i < |cs| && |cs[i].parts| == 1 => FromContent(cs[i])) == messages
  {
    var cs := ToContents(messages);
    var back := seq(|cs|, i requires 0 <= i < |cs| && |cs[i].parts| == 1 => FromContent(cs[i]));
    forall i | 0 <= i < |messages|
      ensures back[i] == messages[i]
    {
      assert cs[i] == ToContent(messages[i]);
    }
  }

  /**
   * The system instruction: the system prompt, a blank line, and the memory
   * section when there are memories; the memory section alone when there is
   * no prompt; nothing when both are absent or empty.
   */
  function SystemInstruction(systemPrompt: Option<string>, memoryContext: Option<string>): (r: Option<string>)
    ensures r.None? <==> !Truthy(systemPrompt) && !Truthy(memoryContext)
    ensures r.Some? ==> r.value != []
  {
    var memory := if Truthy(memoryContext) then MemoryHeading + memoryContext.value else "";
    if Truthy(systemPrompt) then Some(systemPrompt.value + "\n\n" + memory)
    else if Truthy(memoryContext) then Some(memory)
    else None
  }

  /** The instruction opens with the prompt when there is one and closes with the memories when there are some. */
  lemma SystemInstructionParts(systemPrompt: Option<string>, memoryContext: Option<string>)
    ensures var r := SystemInstruction(systemPrompt, memoryContext);
      && (Truthy(systemPrompt) ==> r.Some? && r.value[..|systemPrompt.value| + 2] == systemPrompt.value + "\n\n")
      && (Truthy(memoryContext) ==> r.Some? && r.value[|r.value| - |MemoryHeading + memoryContext.value|..] == MemoryHeading + memoryContext.value)
      && (Truthy(systemPrompt) && !Truthy(memoryContext) ==> r == Some(systemPrompt.value + "\n\n"))
  {
    var r := SystemInstruction(systemPrompt, memoryContext);
    if Truthy(systemPrompt) {
      var memory := if Truthy(memoryContext) then MemoryHeading + memoryContext.value else "";
      assert r.value == (systemPrompt.value + "\n\n") + memory;
      if !Truthy(memoryContext) {
        assert (systemPrompt.value + "\n\n") + "" == systemPrompt.value + "\n\n";
      }
    }
  }

  /**
   * The body of a text-generation request: the mapped messages, and a
   * system instruction only when it is non-empty; a missing key fails first.
   */
  function GenerateTextRequest(apiKeyConfigured: bool, messages: seq<ChatMessage>,
                               systemPrompt: Option<string>, memoryContext: Option<string>): (r: Result<RequestBody, string>)
    ensures !apiKeyConfigured <==> r == Err(MissingKeyMessage)
    ensures r.Ok? ==> r.value.contents == ToContents(messages)
    ensures r.Ok? ==> (r.value.systemInstruction.Some? <==> Truthy(systemPrompt) || Truthy(memoryContext))
    ensures r.Ok? && r.value.systemInstruction.Some? ==>
      r.value.systemInstruction.value == [Part(SystemInstruction(systemPrompt, memoryContext).value)]
  {
    if !apiKeyConfigured then Err(MissingKeyMessage)
    else
      var instruction := SystemInstruction(systemPrompt, memoryContext);
      var body := RequestBody(ToContents(messages), None);
      if instruction.Some? && instruction.value != [] then Ok(body.(systemInstruction := Some([Part(instruction.value)])))
      else Ok(body)
  }

  /** The voice for speech synthesis: the one asked for, or 'Kore' when none or an empty name is given. */
  function SelectedVoice(voiceName: Option<string>): (r: string)
    ensures r != []
    ensures Truthy(voiceName) ==> r == voiceName.value
    ensures !Truthy(voiceName) ==> r == DefaultVoice
  {
    if Truthy(voiceName) then voiceName.value else DefaultVoice
  }
}
