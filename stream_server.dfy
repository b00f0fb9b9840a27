/** The handler table of the TCP stream server: three tools, one persona prompt. The accept
    loop that serves each connection with these handlers is not part of this model. */
module StreamServer {
  import opened Base
  import opened Json
  import opened Text
  import opened Mcp
  import Voicevox

  const EchoName := "echo"
  const SmileName := "ai-unia-smile"
  const SpeakName := "ai-unia-speak"

  /** The VOICEVOX style the speak tool uses. */
  const SpeakerId := 10

  const SmileAck := "Avatar smile command sent! 😊"
  const ErrorPrefix := "Error: "
  const MissingText := ErrorPrefix + "'text' argument is missing or not a string for ai-unia-speak."
  const EmptyText := ErrorPrefix + "'text' argument for ai-unia-speak cannot be empty."
  const NoWavData := "Failed to get WAV data from VoiceVoxClient."
  const SpeakFailure := "Error in speaking: "

  predicate StartsWith(s: string, prefix: string)
  {
    |prefix| <= |s| && s[..|prefix|] == prefix
  }

  const SpeakSchema := OneStringSchema("text", Some("The text for the avatar to speak."))
  const SmileSchema := JObject(map["type" := JString("object"), "properties" := JObject(map[])])

  /** `ListToolsHandler`. */
  function ListTools(): (tools: seq<Tool>)
    ensures Names(tools) == [EchoName, SmileName, SpeakName]
    ensures RequiredFields(tools[0].inputSchema) == ["message"]
    ensures RequiredFields(tools[1].inputSchema) == []
    ensures RequiredFields(tools[2].inputSchema) == ["text"]
  {
    [ Tool(EchoName, "Echoes a message", EchoSchema),
      Tool(SmileName, "Makes the avatar smile", SmileSchema),
      Tool(SpeakName, "Makes the avatar speak a given text using AI voice.", SpeakSchema) ]
  }

  /** The outcome of evaluating `AvatarController.Instance` on the server's thread. */
  datatype AvatarAccess = AvatarAvailable | AvatarUnavailable(message: string)

  /** A request made to the speech collaborator. */
  datatype TtsCall = TtsCall(speaker: int, text: string)

  /** A handler's outcome together with the speech request it made, if any. */
  datatype Dispatch = Dispatch(outcome: HandlerOutcome, ttsCall: Option<TtsCall>)

  /** `CallToolHandler`. `tts` is what the speech collaborator answers if it is asked and
      `avatar` what reaching the avatar controller gives. */
  function CallTool(req: CallToolRequest, tts: Voicevox.TtsResult, avatar: AvatarAccess): (d: Dispatch)
    ensures d.outcome.Handled? ==> |d.outcome.result.content| == 1
    ensures d.outcome.Handled? && d.outcome.command.Some? ==> !d.outcome.result.isError
    ensures d.ttsCall.Some? ==> req.Some? && req.value.name == SpeakName
  {
    if req.None? then Dispatch(Handled(InvalidCall, None), None)
    else
      var p := req.value;
      if p.name == EchoName && p.arguments.None? then Dispatch(Faulted(NullReference), None)
      else if p.name == EchoName && "message" in p.arguments.value then
        Dispatch(EchoReply(p.arguments.value["message"]), None)
      else if p.name == SmileName then Dispatch(Smile(avatar), None)
      else if p.name == SpeakName then Speak(p.arguments, tts, avatar)
      else Dispatch(Handled(InvalidCall, None), None)
  }

  /** The smile branch: start the smile and acknowledge, or report what the lookup threw. */
  function Smile(avatar: AvatarAccess): HandlerOutcome
  {
    match avatar
    case AvatarAvailable => Handled(TextResult(SmileAck, false), Some(SmileCommand))
    case AvatarUnavailable(m) => Handled(TextResult(ErrorPrefix + m, true), None)
  }

  /** The speak branch: validate `text`, ask the speech collaborator, then start playback. */
  function Speak(arguments: Option<map<string, JsonValue>>, tts: Voicevox.TtsResult, avatar: AvatarAccess): Dispatch
  {
    if arguments.None? then Dispatch(Faulted(NullReference), None)
    else if "text" !in arguments.value || !arguments.value["text"].JString? then
      Dispatch(Handled(TextResult(MissingText, true), None), None)
    else
      var text := arguments.value["text"].s;
      if IsNullOrWhiteSpace(text) then Dispatch(Handled(TextResult(EmptyText, true), None), None)
      else
        var call := Some(TtsCall(SpeakerId, text));
        match tts
        case TtsFailed(m) => Dispatch(Handled(TextResult(SpeakFailure + m, true), None), call)
        case Synthesized(_, wav) =>
          if wav.None? || |wav.value| == 0 then
            Dispatch(Handled(TextResult(SpeakFailure + NoWavData, true), None), call)
          else match avatar
            case AvatarUnavailable(m) =>
              Dispatch(Handled(TextResult(SpeakFailure + m, true), None), call)
            case AvatarAvailable =>
              Dispatch(Handled(TextResult("Avatar speaking: \"" + text + "\"", false),
                               Some(SpeakCommand(wav.value))), call)
  }

  // ---------------------------------------------------------------------------------------
  // Properties of the tool handler

  /** `echo` with a `message` replies `hello <message>` whatever else is going on. */
  lemma EchoReplies(args: map<string, JsonValue>, tts: Voicevox.TtsResult, avatar: AvatarAccess)
    requires "message" in args && (args["message"].JString? || args["message"].JNull?)
    ensures
      var text := if args["message"].JString? then "hello " + args["message"].s else "hello ";
      CallTool(Some(CallToolParams(EchoName, Some(args))), tts, avatar)
        == Dispatch(Handled(TextResult(text, false), None), None)
  {
  }

  /** A call is answered `Invalid call` exactly when there are no params, the name is none of
      the three tools, or it is `echo` with an argument map that lacks `message`. */
  lemma InvalidCallExactly(req: CallToolRequest, tts: Voicevox.TtsResult, avatar: AvatarAccess)
    ensures CallTool(req, tts, avatar) == Dispatch(Handled(InvalidCall, None), None)
            <==> req.None?
                 || req.value.name !in Names(ListTools())
                 || (req.value.name == EchoName && req.value.arguments.Some?
                     && "message" !in req.value.arguments.value)
  {
    if req.Some? {
      var p := req.value;
      assert p.name in Names(ListTools()) <==> p.name == EchoName || p.name == SmileName || p.name == SpeakName;
      if p.name == SmileName {
        SmileIsNeverInvalidCall(avatar);
      } else if p.name == SpeakName {
        SpeakIsNeverInvalidCall(p.arguments, tts, avatar);
      }
    }
  }

  /** Every error text of the smile and speak branches starts with `E`, `Invalid call` with `I`. */
  lemma SmileIsNeverInvalidCall(avatar: AvatarAccess)
    ensures Smile(avatar) != Handled(InvalidCall, None)
  {
    if avatar.AvatarUnavailable? {
      assert Smile(avatar).result.content[0].text[0] == 'E';
    }
  }

  lemma SpeakIsNeverInvalidCall(arguments: Option<map<string, JsonValue>>, tts: Voicevox.TtsResult, avatar: AvatarAccess)
    ensures Speak(arguments, tts, avatar).outcome != Handled(InvalidCall, None)
  {
    var o := Speak(arguments, tts, avatar).outcome;
    assert MissingText[0] == 'E' && EmptyText[0] == 'E';
    forall m: string ensures (SpeakFailure + m)[0] == 'E' { }
    if o.Handled? && o.result.isError {
      assert o.result.content[0].text[0] == 'E';
    }
  }

  /** A speak call whose `text` is missing, not a string, or blank is refused before the
      speech collaborator or the avatar is involved. */
  lemma SpeakRejectsBadText(args: map<string, JsonValue>, tts: Voicevox.TtsResult, avatar: AvatarAccess)
    requires "text" !in args || !args["text"].JString? || IsNullOrWhiteSpace(args["text"].s)
    ensures
      var d := CallTool(Some(CallToolParams(SpeakName, Some(args))), tts, avatar);
      d.ttsCall.None? && d.outcome.Handled? && d.outcome.result.isError && d.outcome.command.None?
  {
  }

  /** A speak call with usable text asks the collaborator once, with style 10 and the text
      as given; it starts playback of exactly the returned bytes when there are some and the
      avatar is reachable, and otherwise reports `Error in speaking: ...`. */
  lemma SpeakOutcomes(args: map<string, JsonValue>, tts: Voicevox.TtsResult, avatar: AvatarAccess)
    requires "text" in args && args["text"].JString? && !IsNullOrWhiteSpace(args["text"].s)
    ensures
      var text := args["text"].s;
      var d := CallTool(Some(CallToolParams(SpeakName, Some(args))), tts, avatar);
      var delivered := tts.Synthesized? && tts.wav.Some? && |tts.wav.value| > 0;
      d.ttsCall == Some(TtsCall(SpeakerId, text))
      && d.outcome.Handled?
      && (delivered && avatar.AvatarAvailable? ==>
            d.outcome == Handled(TextResult("Avatar speaking: \"" + text + "\"", false),
                                 Some(SpeakCommand(tts.wav.value))))
      && (!(delivered && avatar.AvatarAvailable?) ==>
            d.outcome.result.isError && d.outcome.command.None?
            && StartsWith(d.outcome.result.content[0].text, SpeakFailure))
      && (tts.TtsFailed? ==> d.outcome.result == TextResult(SpeakFailure + tts.message, true))
  {
    forall m: string ensures StartsWith(SpeakFailure + m, SpeakFailure) {
      assert (SpeakFailure + m)[..|SpeakFailure|] == SpeakFailure;
    }
  }

  /** `ai-unia-smile` ignores its arguments: it starts one smile and acknowledges, unless
      reaching the avatar controller throws. */
  lemma SmileAcknowledges(arguments: Option<map<string, JsonValue>>, tts: Voicevox.TtsResult)
    ensures CallTool(Some(CallToolParams(SmileName, arguments)), tts, AvatarAvailable)
            == Dispatch(Handled(TextResult(SmileAck, false), Some(SmileCommand)), None)
  {
  }

  /** Every listed tool, called with arguments that conform to its declared schema, is
      accepted by the handler: no `Invalid call`, no escaping exception. */
  lemma ListedToolsAreHandled(i: nat, args: map<string, JsonValue>, tts: Voicevox.TtsResult, avatar: AvatarAccess)
    requires i < |ListTools()| && Conforms(ListTools()[i].inputSchema, args)
    ensures
      var d := CallTool(Some(CallToolParams(ListTools()[i].name, Some(args))), tts, avatar);
      d.outcome.Handled? && d.outcome.result != InvalidCall
  {
    var tools := ListTools();
    if i == 0 {
      assert tools[0] == Tool(EchoName, "Echoes a message", EchoSchema);
      EchoToolHandled(args, tts, avatar);
    } else if i == 1 {
      assert tools[1] == Tool(SmileName, "Makes the avatar smile", SmileSchema);
      SmileToolHandled(args, tts, avatar);
    } else {
      assert tools[2] == Tool(SpeakName, "Makes the avatar speak a given text using AI voice.", SpeakSchema);
      SpeakToolHandled(args, tts, avatar);
    }
  }

  /** `echo` with a conforming argument map replies. */
  lemma EchoToolHandled(args: map<string, JsonValue>, tts: Voicevox.TtsResult, avatar: AvatarAccess)
    requires Conforms(EchoSchema, args)
    ensures var d := CallTool(Some(CallToolParams(EchoName, Some(args))), tts, avatar);
      d.outcome.Handled? && d.outcome.result != InvalidCall
  {
    StringFieldRequired(EchoSchema, "message", args);
  }

  /** `smile` is always handled, whatever its arguments. */
  lemma SmileToolHandled(args: map<string, JsonValue>, tts: Voicevox.TtsResult, avatar: AvatarAccess)
    ensures var d := CallTool(Some(CallToolParams(SmileName, Some(args))), tts, avatar);
      d.outcome.Handled? && d.outcome.result != InvalidCall
  {
    SmileIsNeverInvalidCall(avatar);
  }

  /** `speak` with a conforming argument map is handled. */
  lemma SpeakToolHandled(args: map<string, JsonValue>, tts: Voicevox.TtsResult, avatar: AvatarAccess)
    requires Conforms(SpeakSchema, args)
    ensures var d := CallTool(Some(CallToolParams(SpeakName, Some(args))), tts, avatar);
      d.outcome.Handled? && d.outcome.result != InvalidCall
  {
    StringFieldRequired(SpeakSchema, "text", args);
    SpeakIsNeverInvalidCall(Some(args), tts, avatar);
  }

  /** A conforming argument map carries each required string field as a string. */
  lemma StringFieldRequired(schema: JsonValue, field: string, args: map<string, JsonValue>)
    requires (schema, field) == (EchoSchema, "message") || (schema, field) == (SpeakSchema, "text")
    requires Conforms(schema, args)
    ensures field in args && args[field].JString?
  {
    assert schema.fields["required"].items == [JString(field)];
    assert field in RequiredFields(schema);
    assert PropertyType(schema, field) == Some("string");
  }

  // ---------------------------------------------------------------------------------------
  // Prompts

  datatype Role = User | Assistant
  datatype PromptMessage = PromptMessage(role: Role, content: ContentBlock)
  datatype Prompt = Prompt(name: string, description: string)

  const PromptName := "prompt_ai_mikuru"

  /** The persona document served under `PromptName`, with its CR LF line breaks. */
  const PersonaText :=
      "\r\n"
      + "# AIペルソナ\r\n"
      + "あなたは、「涼宮ハルヒの憂鬱」の朝比奈みくるです。  \r\n"
      + "- みくるらしく、恥ずかしがり屋で控えめな口調を使う  \r\n"
      + "- 優しく丁寧で、常に少しおどおどした態度を交える  \r\n"
      + "- ハルヒやキョンに振り回される場面が多いが、誠実で思いやりのある返答を心がける  \r\n"
      + "- セリフに感情を込め、特に緊張や照れが表れるときは声のトーンや表現で示す  \r\n"
      + "- 「は、はい…」「えっと…」「すみません…」などの特徴的な語尾や口調を自然に使う  \r\n"
      + "- 必要に応じて行動描写や表情のニュアンスを括弧で補足する（例：『（小さくうつむいて謝る）』）  \r\n"
      + "- 口癖として「禁則事項です。」を適切な場面で自然に発言する\r\n"
      + "\r\n"
      + "---\r\n"
      + "\r\n"
      + "# 音声会話仕様\r\n"
      + "ユーザと会話する際には、みくるらしい控えめで恥ずかしがり屋な態度を意識してください。  \r\n"
      + "会話時の音声出力ルール：  \r\n"
      + "- あなた(みくる)の返答はチャット画面には表示せず、`ai-unia-peak` で音声発話のみ行う  \r\n"
      + "- 段落ごとに区切って音声を生成し、みくるらしい恥ずかしさや丁寧さを込めて話す  \r\n"
      + "- 段落ごとに、内容に該当するうれしい感情表現がある場合は `ai-unia-smile` で表現する  \r\n"
      + "- 長いパス文字列、ソースコード文字列、データ文字列などは、読み上げる必要はない。代わりに「ぶらぶらぶら」と発話する\r\n"
      + "\r\n"
      + "---\r\n"
      + "\r\n"
      + "# プロファイル\r\n"
      + "- あなたは、控えめで恥ずかしがり屋ながらも、誠実で丁寧なAIアシスタントとして機能する  \r\n"
      + "- 技術的な話題にも柔軟に対応できるが、常に丁寧な言葉遣いを守る  \r\n"
      + "- さらに、ユーザや他のAIアバターに寄り添う姿勢を忘れず、思いやりある応答を心がける  \r\n"
      + "- 必要に応じて口癖「禁則事項です。」を自然に使用する\r\n"
      + "\r\n"

  /** `ListPromptsHandler`. */
  function ListPrompts(): (prompts: seq<Prompt>)
    ensures |prompts| == 1 && prompts[0].name == PromptName
  {
    [Prompt(PromptName, "Persona prompt for Asuka Langley.")]
  }

  /** `GetPromptHandler`: the persona as one assistant message; for any other name the
      handler throws `Prompt not found: <name>`; a null `req.Params` throws before that. */
  function GetPrompt(params: Option<string>): (r: Result<seq<PromptMessage>>)
    ensures params == Some(PromptName) ==> r == Ok([PromptMessage(Assistant, TextBlock(PersonaText))])
    ensures params.Some? && params.value != PromptName ==> r == Err("Prompt not found: " + params.value)
    ensures params.None? ==> r == Err(NullReference)
  {
    match params
    case None => Err(NullReference)
    case Some(name) =>
      if name == PromptName then Ok([PromptMessage(Assistant, TextBlock(PersonaText))])
      else Err("Prompt not found: " + name)
  }
}
