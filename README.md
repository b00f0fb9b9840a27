# ai-unity-avatar, modelled in Dafny

ai-unity-avatar puts a VRM character on the Windows desktop and lets an AI agent drive it
through the Model Context Protocol (MCP). The agent can call three tools:

- `echo` answers `hello <message>`.
- `ai-unia-smile` makes the avatar smile.
- `ai-unia-speak` sends text to a VOICEVOX speech engine and plays the returned WAV with lip sync.

This project models the logic behind those tools and proves properties of the model:

- **Tool and prompt handlers.** There are three MCP servers. The TCP stream server
  (`StreamServer`) handles the three tools and one persona prompt. The stdio server
  (`StdioEchoServer`) and the streamable-HTTP server (`HttpEchoServer`) handle `echo` only.
  Each handler is a pure function from a `tools/call` request to a result, which is a list of
  content blocks plus an `isError` flag.
  - The speech engine's answer is an input to the handler.
  - So is the outcome of reaching the avatar controller.
  - The handler does not wait for the avatar's work. That work is returned as an
    `AvatarCommand` value.
  - All three servers announce themselves as `UnityMcpServer` version `0.1.0` (`Mcp.ServerInfo`).
- **The WAV decoder `ToAudioClip`.** It reads the canonical 44-byte RIFF/WAVE header, accepts
  only 16-bit samples, and fills a sample buffer in a loop.
  - It is proved equal to a decoding function, `Wav.DecodeWav`.
  - It is proved to be the inverse of a canonical 16-bit encoder, `Wav.EncodeWav`.
- **The avatar controller.** `AvatarController` binds a VRM model's expression runtime and audio
  source.
  - It plays speech with a stop-then-play rule for its single clip slot.
  - While the clip plays, it drives the "oh" mouth shape from the loudness of each frame.
  - It runs the smile animation.
- **The fade timeline.** The smile, the automatic smile and the automatic blink all run the
  same loop: write `Mathf.Lerp(from, to, t / duration)` each frame while `t < duration`, then
  write `to`.
  - The loop is one method, `Expression.RunFade`, driven by a sequence of frame times.
  - Its writes are characterised by `Expression.FadeWrites`.
- **The automatic smile and blink components** (`VRMAutoSmile`, `Vrm10AutoBlink`). They are
  per-frame timers:
  - the smile timer counts up and fires when it reaches the drawn interval;
  - the blink timer counts down and fires at or below zero;
  - each redraws its interval with `Random.Range`.
- **The bracket filter of the speech client.** `RemoveBracketText` deletes `（…）` and `(…)`
  asides, then trims. The two HTTP steps of `GenerateAudioAsync` are modelled with the
  engine's replies as inputs.
- **`WindowConfig.Start`.** It handles the `--title` argument scan, the frame-bit edits of the
  window style, and the centring arithmetic. Every Win32 call that changes the window, and the
  camera edit, is recorded in a trace. What `FindWindow`, `GetWindowLong` and
  `GetSystemMetrics` return is an input.
- **The Python test client `UnityMcpClient`.** It speaks JSON-RPC 2.0 over one line-delimited
  TCP stream.
  - Request ids are numbered 1, 2, 3, ...
  - Notifications carry no id (section 4.1 of the JSON-RPC 2.0 specification).
  - A scan finds the reply to the request just sent (section 5 of the same specification).

Types and conventions:

- Floating-point weights, samples and times are `real`.
- C# `int` arithmetic is modelled with `Base.Int32`, `Base.Wrap32` and the truncating
  `Base.TruncDiv`.
- Win32 style words are `bv32`.
- The expression runtime records every `SetWeight` call in a ghost log. Contracts about
  animations state the exact sequence of weights written.

Behaviour of the code a caller may not expect:

- `echo` with null `Arguments`, or with a `message` that is neither a string nor null, lets an
  exception escape the C# handler. The model returns `Faulted`; it does not return the
  `Invalid call` result.
- `SpeakAsync` without an audio source only logs and returns. It reports no failure to its
  caller.
- A decoded sample can be as low as -32768/32767, slightly below -1.

## Model

| member | source | states |
|---|---|---|
| Base.Wrap32 | unity-project/ai-unity-avatar/Assets/UniaMcpServer/WindowTransparency.cs:162-163 | The unchecked C# `int` result: the signed 32-bit value congruent to the input modulo 2^32, and the input itself when it is already in range |
| Base.TruncDiv | unity-project/ai-unity-avatar/Assets/UniaMcpServer/WindowTransparency.cs:162-163 | C# integer division: the quotient truncated toward zero. It equals the Euclidean quotient for non-negative operands, is non-negative when the operand signs agree, and the remainder is smaller than the divisor in magnitude on the side of zero |
| Json.GetString | unity-project/ai-unity-avatar/Assets/UniaMcpServer/TestMcpStreamServer.cs:148 | `JsonElement.GetString`: the string of exactly the string elements, null for exactly the null element, and failure for every other kind |
| Json.Strings | unity-project/ai-unity-avatar/Assets/UniaMcpServer/TestMcpStreamServer.cs:118 | A string is listed exactly when it occurs as a string member of the array |
| Text.LeadingWhiteSpace | unity-project/ai-unity-avatar/Assets/UniaMcpServer/VoicevoxClient.cs:91 | The length of the longest prefix made only of white space: everything before it is white space and the next character is not |
| Text.TrailingWhiteSpace | unity-project/ai-unity-avatar/Assets/UniaMcpServer/VoicevoxClient.cs:91 | The same for the longest white-space suffix |
| Text.Trim | unity-project/ai-unity-avatar/Assets/UniaMcpServer/VoicevoxClient.cs:91 | `string.Trim()`: the result neither starts nor ends with white space, is empty exactly when the input is all white space, and is the contiguous middle of the input between a white-space prefix and a white-space suffix |
| Mcp.TextResult | unity-project/ai-unity-avatar/Assets/UniaMcpServer/TestMcpStreamServer.cs:149-155 | A result made of exactly one text block with the given text and error flag |
| Mcp.EchoReply | unity-project/ai-unity-avatar/Assets/UniaMcpServer/TestMcpStreamServer.cs:148-156 | A string `message` is answered `hello <message>` and a null one `hello `, both with `isError` false; any other kind makes `GetString` throw |
| Mcp.RequiredFields | unity-project/ai-unity-avatar/Assets/UniaMcpServer/TestMcpStreamServer.cs:118 | A field is required exactly when its name is a string in the schema's `required` array; with no such array nothing is required |
| Mcp.Names | unity-project/ai-unity-avatar/Assets/UniaMcpServer/TestMcpStreamServer.cs:111-139 | The tool names, position by position |
| StreamServer.ListTools | unity-project/ai-unity-avatar/Assets/UniaMcpServer/TestMcpStreamServer.cs:108-141 | The tools are exactly `echo`, `ai-unia-smile`, `ai-unia-speak` in that order; `echo` requires `message`, the smile tool requires nothing, and the speak tool requires `text` |
| StreamServer.CallTool | unity-project/ai-unity-avatar/Assets/UniaMcpServer/TestMcpStreamServer.cs:142-262 | Every handled call yields exactly one content block; an avatar command is issued only with a non-error result; the speech engine is asked only for `ai-unia-speak` |
| StreamServer.EchoReplies | unity-project/ai-unity-avatar/Assets/UniaMcpServer/TestMcpStreamServer.cs:145-157 | `echo` with a string `message` replies `hello <message>`, with a null one `hello `, `isError` false, no command and no speech request, whatever the collaborators would do |
| StreamServer.InvalidCallExactly | unity-project/ai-unity-avatar/Assets/UniaMcpServer/TestMcpStreamServer.cs:145-261 | The reply is the `Invalid call` error with no side effect if and only if the params are null, the name is none of the three listed (case-sensitive), or it is `echo` with arguments lacking `message` |
| StreamServer.SmileIsNeverInvalidCall | unity-project/ai-unity-avatar/Assets/UniaMcpServer/TestMcpStreamServer.cs:160-185 | The smile branch, success or caught exception, never produces the `Invalid call` reply |
| StreamServer.SpeakIsNeverInvalidCall | unity-project/ai-unity-avatar/Assets/UniaMcpServer/TestMcpStreamServer.cs:189-251 | No outcome of the speak branch is the `Invalid call` reply |
| StreamServer.SpeakRejectsBadText | unity-project/ai-unity-avatar/Assets/UniaMcpServer/TestMcpStreamServer.cs:191-211 | A speak call whose `text` is missing, not a JSON string, empty or white space is answered with an error, without asking the speech engine and without an avatar command |
| StreamServer.SpeakOutcomes | unity-project/ai-unity-avatar/Assets/UniaMcpServer/TestMcpStreamServer.cs:213-251 | Usable text is sent once to the engine with speaker 10. Non-empty WAV bytes and a reachable avatar give one `SpeakCommand` with exactly those bytes and the reply `Avatar speaking: "<text>"`. Every other case is an `Error in speaking: ...` error with no command, and an engine failure reports the engine's message |
| StreamServer.SmileAcknowledges | unity-project/ai-unity-avatar/Assets/UniaMcpServer/TestMcpStreamServer.cs:160-174 | With the avatar reachable, `ai-unia-smile` issues one smile command and the fixed acknowledgement with `isError` false, whatever its arguments |
| StreamServer.ListedToolsAreHandled | unity-project/ai-unity-avatar/Assets/UniaMcpServer/TestMcpStreamServer.cs:108-252 | Every listed tool, called with arguments that conform to its declared input schema, is handled without exception and not answered `Invalid call` |
| StreamServer.EchoToolHandled | unity-project/ai-unity-avatar/Assets/UniaMcpServer/TestMcpStreamServer.cs:145-157 | `echo` with arguments conforming to its schema is answered, never with `Invalid call` |
| StreamServer.SmileToolHandled | unity-project/ai-unity-avatar/Assets/UniaMcpServer/TestMcpStreamServer.cs:160-185 | `ai-unia-smile` is answered whatever its arguments, never with `Invalid call` |
| StreamServer.SpeakToolHandled | unity-project/ai-unity-avatar/Assets/UniaMcpServer/TestMcpStreamServer.cs:189-251 | `ai-unia-speak` with arguments conforming to its schema is answered, never with `Invalid call` |
| StreamServer.StringFieldRequired | unity-project/ai-unity-avatar/Assets/UniaMcpServer/TestMcpStreamServer.cs:113-137 | Arguments conforming to the `echo` or speak schema carry `message` or `text` as a JSON string |
| StreamServer.ListPrompts | unity-project/ai-unity-avatar/Assets/UniaMcpServer/TestMcpStreamServer.cs:62-80 | Exactly one prompt is listed, `prompt_ai_mikuru` |
| StreamServer.GetPrompt | unity-project/ai-unity-avatar/Assets/UniaMcpServer/TestMcpStreamServer.cs:82-106 | `prompt_ai_mikuru` yields one assistant message holding the persona text; any other name fails with `Prompt not found: <name>`; null params fail with a null reference |
| StdioEchoServer.ListTools | unity-project/ai-unity-avatar/Assets/UniaMcpServer/TestMcpServer.cs:25-38 | Exactly one tool, `echo`, which requires `message` |
| StdioEchoServer.CallTool | unity-project/ai-unity-avatar/Assets/UniaMcpServer/TestMcpServer.cs:40-72 | One content block and never an avatar command. The reply is `Invalid call` if and only if the params are null, the name is not `echo`, or the arguments lack `message` |
| StdioEchoServer.StreamServerExtendsEcho | unity-project/ai-unity-avatar/Assets/UniaMcpServer/TestMcpServer.cs:40-72 | On every request not naming one of the two avatar tools, the stream server answers exactly as this server does and makes no speech request |
| HttpEchoServer.ListTools | unity-project/ai-unity-avatar/Assets/UniaMcpServer/TestMcpTcpServer.cs:23-38 | Exactly one tool, `echo`, which requires `message` |
| HttpEchoServer.CallTool | unity-project/ai-unity-avatar/Assets/UniaMcpServer/TestMcpTcpServer.cs:39-61 | One content block and never an avatar command; `echo` with a string `message` replies `hello <message>` with `isError` false |
| HttpEchoServer.SameAsStdioServer | unity-project/ai-unity-avatar/Assets/UniaMcpServer/TestMcpTcpServer.cs:23-61 | The tool list and every reply are identical to the stdio server's |
| Wav.ToAudioClip | unity-project/ai-unity-avatar/Assets/UniaMcpServer/AvatarController.cs:124-173 | The header checks and the sample-filling loop compute exactly the decoding function |
| Wav.DecodeOutcomes | unity-project/ai-unity-avatar/Assets/UniaMcpServer/AvatarController.cs:128-166 | Decoding succeeds if and only if the input is non-null, at least 44 bytes long, announces 16 bits per sample and a non-zero channel count. Null or short input fails as too short, never with a partial clip. The clip holds `(len - 44) div 2` samples, sample `i` being the int16 at byte `44 + 2i` over 32767 and lying in [-32768/32767, 1]. Channels and rate come from offsets 22 and 24, and the length is the sample count divided by the channels, truncated |
| Wav.Int16RoundTrip | unity-project/ai-unity-avatar/Assets/UniaMcpServer/AvatarController.cs:136 | Reading back the little-endian bytes of an int16 gives the value |
| Wav.Int32RoundTrip | unity-project/ai-unity-avatar/Assets/UniaMcpServer/AvatarController.cs:137 | Reading back the little-endian bytes of an int32 gives the value |
| Wav.HeaderReads | unity-project/ai-unity-avatar/Assets/UniaMcpServer/AvatarController.cs:136-138 | From a canonical header the decoder reads back the channel count, the sample rate and 16 bits per sample |
| Wav.SamplesRead | unity-project/ai-unity-avatar/Assets/UniaMcpServer/AvatarController.cs:155-160 | From an encoded data chunk the decoder reads back every sample, scaled by 1/32767 |
| Wav.DecodeEncode | unity-project/ai-unity-avatar/Assets/UniaMcpServer/AvatarController.cs:136-164 | Round trip: decoding a canonical 16-bit file returns its channel count, its sample rate, every sample over 32767, and `n / channels` frames |
| Expression.ExpressionRuntime.SetWeight | unity-project/ai-unity-avatar/Assets/UniaMcpServer/AvatarController.cs:224 | The key's weight becomes the new value, the other weights are unchanged, and the write is logged |
| Expression.Clamp01 | unity-project/ai-unity-avatar/Assets/UniaMcpServer/AvatarController.cs:224 | `Mathf.Clamp01`: the result lies in [0, 1] |
| Expression.ClampValue | unity-project/ai-unity-avatar/Assets/UniaMcpServer/AvatarController.cs:224 | `Mathf.Clamp01` returns an input already in [0, 1] unchanged, 0 for a smaller one and 1 for a larger one |
| Expression.Lerp | unity-project/ai-unity-avatar/Assets/UniaMcpServer/AvatarController.cs:258 | `Mathf.Lerp`: the result lies between the two ends, equals the start for `t <= 0` and the end for `t >= 1` |
| Expression.LerpLinear | unity-project/ai-unity-avatar/Assets/UniaMcpServer/AvatarController.cs:258 | For `t` in [0, 1], `Mathf.Lerp(a, b, t)` is the linear value `a + (b - a) t` |
| Expression.LerpMonotone | unity-project/ai-unity-avatar/Assets/UniaMcpServer/AvatarController.cs:258 | A later parameter gives a weight no farther from the end |
| Expression.RunFade | unity-project/ai-unity-avatar/Assets/UniaMcpServer/AvatarController.cs:255-263 | The fade loop with the final exact write: the key ends at the target and the writes are exactly `FadeWrites` over the frame times |
| Expression.FadeEndsAtTarget | unity-project/ai-unity-avatar/Assets/UniaMcpServer/AvatarController.cs:263 | The last weight a fade writes is exactly its target |
| Expression.FadeStartsAtOrigin | unity-project/ai-unity-avatar/Assets/UniaMcpServer/AvatarController.cs:255-258 | A fade with positive duration first writes exactly its origin |
| Expression.FadeWithinRange | unity-project/ai-unity-avatar/Assets/UniaMcpServer/AvatarController.cs:256-263 | Every weight a fade writes lies between its origin and its target |
| Expression.FadeMonotone | unity-project/ai-unity-avatar/Assets/UniaMcpServer/AvatarController.cs:255-263 | A rising fade never writes a smaller weight after a larger one, and a falling fade never a larger one after a smaller one |
| Expression.RunPulse | unity-project/ai-unity-avatar/Assets/UniaMcpServer/AvatarController.cs:255-276 | The fade in, hold and fade out: the key ends at 0, and the writes are the rising fade's followed by the falling fade's |
| Expression.PulseShape | unity-project/ai-unity-avatar/Assets/UniaMcpServer/AvatarController.cs:255-276 | Every weight of a pulse lies in [0, peak]. The fade-in ends exactly at the peak, the weights never fall before it nor rise after it, and the last write is exactly 0 |
| Avatar.AudioSource.constructor | unity-project/ai-unity-avatar/Assets/UniaMcpServer/AvatarController.cs:88 | A freshly added audio source has no clip, is silent, plays on awake and does not loop |
| Avatar.AudioSource.Stop | unity-project/ai-unity-avatar/Assets/UniaMcpServer/AvatarController.cs:198 | Playback stops and is logged; the clip and the flags are unchanged |
| Avatar.AudioSource.Play | unity-project/ai-unity-avatar/Assets/UniaMcpServer/AvatarController.cs:201 | The source plays exactly when it has a clip, and only then is a playback logged |
| Avatar.AudioSource.PlaybackEnded | unity-project/ai-unity-avatar/Assets/UniaMcpServer/AvatarController.cs:216 | At the end of the clip the source stops playing and nothing else changes |
| Avatar.AudioSource.GetOutputData | unity-project/ai-unity-avatar/Assets/UniaMcpServer/AvatarController.cs:218 | The buffer holds exactly this frame's output |
| Avatar.VrmInstance.constructor | unity-project/ai-unity-avatar/Assets/UniaMcpServer/AvatarController.cs:80-85 | A model instance holds its expression runtime and its audio source, if it has one |
| Avatar.Abs | unity-project/ai-unity-avatar/Assets/UniaMcpServer/AvatarController.cs:220 | `Mathf.Abs`: a non-negative value equal to the input or its negation |
| Avatar.OutputLevel | unity-project/ai-unity-avatar/Assets/UniaMcpServer/AvatarController.cs:219-221 | The accumulation loop yields the mean magnitude of the buffer |
| Avatar.SumAbsBounds | unity-project/ai-unity-avatar/Assets/UniaMcpServer/AvatarController.cs:219-220 | The summed magnitude is non-negative and is zero exactly when every sample is zero |
| Avatar.MouthFollowsLoudness | unity-project/ai-unity-avatar/Assets/UniaMcpServer/AvatarController.cs:219-224 | The mouth weight `clamp01(5 × mean|s|)` lies in [0, 1] and is 0 exactly on silence. It is 1 once the mean magnitude reaches 0.2 and five times the mean below that |
| Avatar.MouthWritesShape | unity-project/ai-unity-avatar/Assets/UniaMcpServer/AvatarController.cs:215-230 | Lip sync writes one weight per frame of playback, each the mouth weight of that frame's output and within [0, 1], and then exactly 0 |
| Avatar.AvatarController.constructor | unity-project/ai-unity-avatar/Assets/UniaMcpServer/AvatarController.cs:18-34 | Nothing is bound; the smile settings default to 0.25 s in, 0.7 s hold, 0.25 s out, weight 0.7 |
| Avatar.AvatarController.SetVrmInstance | unity-project/ai-unity-avatar/Assets/UniaMcpServer/AvatarController.cs:72-111 | A null instance changes nothing. Otherwise the controller takes the model's runtime and the model's audio source; a fresh source is added when there is none, and an existing one keeps its clip and state. Play-on-awake and looping are turned off and the mouth key becomes "oh" |
| Avatar.AvatarController.SpeakAsync | unity-project/ai-unity-avatar/Assets/UniaMcpServer/AvatarController.cs:180-204 | Without an audio source, or when the bytes do not decode, nothing changes. Otherwise a playing clip is stopped first, the decoded clip becomes the only current one and is played, and the mouth weights of lip sync are written, ending at 0 |
| Avatar.AvatarController.LipSync | unity-project/ai-unity-avatar/Assets/UniaMcpServer/AvatarController.cs:206-231 | Without a clip nothing changes. Otherwise the clip is restarted, each frame's mouth weight is written while it plays, and the mouth is closed at exactly 0 when playback ends |
| Avatar.AvatarController.SetSmileAsync | unity-project/ai-unity-avatar/Assets/UniaMcpServer/AvatarController.cs:242-278 | With a runtime bound, the happy key receives exactly the pulse up to `smileMaxWeight` and back, ending at 0; without one nothing is written |
| Avatar.AvatarController.SetEmotionAsync | unity-project/ai-unity-avatar/Assets/UniaMcpServer/AvatarController.cs:283-287 | No state of the controller, its audio source or its runtime changes |
| AutoSmile.VrmAutoSmile.constructor | unity-project/ai-unity-avatar/Assets/UniaMcpServer/VRMAutoSmile.cs:14-22 | Intervals default to 5 to 12 s and the fade to 0.25/0.7/0.25 s at weight 0.7; the timer and the next time are 0 |
| AutoSmile.VrmAutoSmile.SetNextSmileTime | unity-project/ai-unity-avatar/Assets/UniaMcpServer/VRMAutoSmile.cs:79-83 | The timer restarts at 0 and the next smile time is a value within the configured interval range |
| AutoSmile.VrmAutoSmile.Start | unity-project/ai-unity-avatar/Assets/UniaMcpServer/VRMAutoSmile.cs:24-37 | Without a VRM instance the component disables itself; otherwise it takes the runtime and schedules the first smile |
| AutoSmile.VrmAutoSmile.Update | unity-project/ai-unity-avatar/Assets/UniaMcpServer/VRMAutoSmile.cs:39-48 | The timer advances by the frame time. Exactly when it reaches the next smile time, one smile is started, the timer resets to 0 and a new time is drawn within the range. The schedule invariant is kept, and a smile only fires after at least the minimum interval |
| AutoSmile.VrmAutoSmile.DoSmile | unity-project/ai-unity-avatar/Assets/UniaMcpServer/VRMAutoSmile.cs:50-77 | The happy key receives exactly the pulse up to `smileMaxWeight` and back, ending at 0 |
| AutoBlink.VrmAutoBlink.constructor | unity-project/ai-unity-avatar/Assets/UniaMcpServer/VRMAutoBlink.cs:10-16 | Intervals default to 2 to 5 s and the blink to 0.05/0.08/0.05 s; the countdown is 0 |
| AutoBlink.VrmAutoBlink.SetNextBlinkTime | unity-project/ai-unity-avatar/Assets/UniaMcpServer/VRMAutoBlink.cs:72-75 | The countdown restarts at a value within the configured interval range |
| AutoBlink.VrmAutoBlink.Start | unity-project/ai-unity-avatar/Assets/UniaMcpServer/VRMAutoBlink.cs:18-29 | Without a runtime the component disables itself; otherwise the first blink is scheduled |
| AutoBlink.VrmAutoBlink.Update | unity-project/ai-unity-avatar/Assets/UniaMcpServer/VRMAutoBlink.cs:31-39 | The countdown drops by the frame time. Exactly when it reaches 0 or below, one blink is started and a new interval is drawn within the range. The countdown stays positive and at most the maximum |
| AutoBlink.VrmAutoBlink.Blink | unity-project/ai-unity-avatar/Assets/UniaMcpServer/VRMAutoBlink.cs:41-70 | The blink key receives exactly a pulse: closing to exactly 1, then opening to exactly 0 |
| Voicevox.FindClose | unity-project/ai-unity-avatar/Assets/UniaMcpServer/VoicevoxClient.cs:90 | Where the lazy `.*?` stops: the first closing bracket with no line feed before it; failure means every closing bracket comes after a line feed |
| Voicevox.GroupLength | unity-project/ai-unity-avatar/Assets/UniaMcpServer/VoicevoxClient.cs:90 | A match starts only at an opening bracket, spans at least the two brackets, contains no line feed, and fails only when no same-kind closing bracket follows on the line |
| Voicevox.RemoveBracketText | unity-project/ai-unity-avatar/Assets/UniaMcpServer/VoicevoxClient.cs:87-92 | The result has no white space at either end, no bracket pair of one kind opening and closing on one line, and no more line feeds than the input; text that already holds no complete group is only trimmed |
| Voicevox.RemoveBracketIdempotent | unity-project/ai-unity-avatar/Assets/UniaMcpServer/VoicevoxClient.cs:87-92 | Cleaning text a second time changes nothing |
| Voicevox.StripFixesGroupFree | unity-project/ai-unity-avatar/Assets/UniaMcpServer/VoicevoxClient.cs:90 | Text in which no complete group starts is left unchanged by the replacement |
| Voicevox.StripLeftmost | unity-project/ai-unity-avatar/Assets/UniaMcpServer/VoicevoxClient.cs:90 | The replacement keeps everything before the leftmost match, deletes that match, and continues on the rest of the text |
| Voicevox.NoMatchBeforeMeans | unity-project/ai-unity-avatar/Assets/UniaMcpServer/VoicevoxClient.cs:90 | The leftmost-match condition used by `StripLeftmost` holds exactly when no match starts at any earlier position |
| Voicevox.StripLeavesNoGroup | unity-project/ai-unity-avatar/Assets/UniaMcpServer/VoicevoxClient.cs:90 | After the replacement no complete group is left |
| Voicevox.TrimKeepsNoGroup | unity-project/ai-unity-avatar/Assets/UniaMcpServer/VoicevoxClient.cs:90-91 | Trimming text that holds no complete group cannot create one |
| Voicevox.TrimCount | unity-project/ai-unity-avatar/Assets/UniaMcpServer/VoicevoxClient.cs:91 | Trimming never adds a character: each occurs in the result at most as often as in the input |
| Voicevox.StripKeepsLineFeeds | unity-project/ai-unity-avatar/Assets/UniaMcpServer/VoicevoxClient.cs:90 | The replacement keeps every line feed |
| Voicevox.NoBracketsOnlyTrimmed | unity-project/ai-unity-avatar/Assets/UniaMcpServer/VoicevoxClient.cs:89-91 | Text without opening brackets is left alone by the replacement and only trimmed |
| Voicevox.DeletesFullWidthGroup | unity-project/ai-unity-avatar/Assets/UniaMcpServer/VoicevoxClient.cs:90 | `はい（小声）` becomes `はい` |
| Voicevox.DeletesShortestMatch | unity-project/ai-unity-avatar/Assets/UniaMcpServer/VoicevoxClient.cs:90 | In `(a(b)c)` the shortest match `(a(b)` is removed, leaving `c)` |
| Voicevox.KeepsMixedPair | unity-project/ai-unity-avatar/Assets/UniaMcpServer/VoicevoxClient.cs:90 | `(a）` is kept: a half-width bracket is not closed by a full-width one |
| Voicevox.KeepsGroupAcrossLineFeed | unity-project/ai-unity-avatar/Assets/UniaMcpServer/VoicevoxClient.cs:90 | `(a\nb)` is kept: `.` does not match a line feed |
| Voicevox.TrimUnchanged | unity-project/ai-unity-avatar/Assets/UniaMcpServer/VoicevoxClient.cs:91 | Trimming leaves text that neither starts nor ends with white space unchanged |
| Voicevox.GenerateAudio | unity-project/ai-unity-avatar/Assets/UniaMcpServer/VoicevoxClient.cs:34-81 | The query is requested for the bracket-filtered text. Any failure of the first step (exception, non-2xx status, unparsable JSON) stops before synthesis. Synthesis is requested exactly when the first step succeeded, with the raw query document as its body. A second-step failure yields no bytes, and success returns the raw query document with the synthesised bytes |
| WindowConfig.Lower | unity-project/ai-unity-avatar/Assets/UniaMcpServer/WindowTransparency.cs:86 | `ToLower` keeps the length and lower-cases each character independently |
| WindowConfig.FirstTitleFlag | unity-project/ai-unity-avatar/Assets/UniaMcpServer/WindowTransparency.cs:83-95 | The position of the first argument reading `--title` in any case, with no such argument before it; none exactly when no argument reads so |
| WindowConfig.ParseTitle | unity-project/ai-unity-avatar/Assets/UniaMcpServer/WindowTransparency.cs:77-95 | The argument loop, which breaks at the first flag, chooses the argument after the first `--title`, or keeps the product name |
| WindowConfig.LaterArgumentsIgnored | unity-project/ai-unity-avatar/Assets/UniaMcpServer/WindowTransparency.cs:88-93 | The scan stops at the first flag: arguments appended later change neither the flag found nor the title it gives |
| WindowConfig.TitleExamples | unity-project/ai-unity-avatar/Assets/UniaMcpServer/WindowTransparency.cs:83-95 | `--TITLE Mikuru` gives `Mikuru`; a trailing `--title` or a mere `-title` keeps the product name |
| WindowConfig.BorderlessBits | unity-project/ai-unity-avatar/Assets/UniaMcpServer/WindowTransparency.cs:138-140 | The new style has exactly the caption, system-menu and sizing-frame bits cleared and every other bit unchanged; the edit is idempotent |
| WindowConfig.LayeredBits | unity-project/ai-unity-avatar/Assets/UniaMcpServer/WindowTransparency.cs:146-148 | The new extended style has `WS_EX_LAYERED` set and every other bit unchanged; the edit is idempotent |
| WindowConfig.Centred | unity-project/ai-unity-avatar/Assets/UniaMcpServer/WindowTransparency.cs:157-163 | Without overflow, the truncating `(screen - size) / 2` centres the window: the margins on both sides differ by at most one pixel |
| WindowConfig.WindowConfig.constructor | unity-project/ai-unity-avatar/Assets/UniaMcpServer/WindowTransparency.cs:68 | No handle and no call made yet |
| WindowConfig.WindowConfig.Start | unity-project/ai-unity-avatar/Assets/UniaMcpServer/WindowTransparency.cs:70-172 | Only on the Windows player does it record the handle found and append the calls `StartCalls` prescribes for what it read |
| WindowConfig.WindowConfig.ApplyWindowStyle | unity-project/ai-unity-avatar/Assets/UniaMcpServer/WindowTransparency.cs:133-167 | Transparent camera, borderless style, frame refresh, layered extended style, glass frame, and the centred 360x640 topmost placement, in that order |
| WindowConfig.NoHandleNoCalls | unity-project/ai-unity-avatar/Assets/UniaMcpServer/WindowTransparency.cs:104-131 | No window call is made if and only if this is not the Windows player, there is no handle, or there is neither a new title nor a main camera |
| WindowConfig.TitleSetOnlyWhenDifferent | unity-project/ai-unity-avatar/Assets/UniaMcpServer/WindowTransparency.cs:115-120 | The window text is set if and only if there is a handle and the chosen title differs from the product name, and then it is set to that title |
| WindowConfig.StyleEdits | unity-project/ai-unity-avatar/Assets/UniaMcpServer/WindowTransparency.cs:126-167 | Without a main camera only the title may change. With one, the style loses the frame bits, the extended style gains layering, and the last call places the 360x640 window at the centred origin |
| RpcClient.Await | unity-project/test_py/test_mcp_client_direct_connect_to_tcp.py:78-92 | The scan consumes a prefix of the stream and skips every message before the last one it reads. A result is returned only from a message with a matching id, a result and no error. An error is raised from a matching message carrying an error, which takes precedence over a result. The connection counts as closed only at the end of the stream or at an empty message |
| RpcClient.Upto | unity-project/test_py/test_mcp_client_direct_connect_to_tcp.py:64-65 | The sequence 1, 2, ..., n |
| RpcClient.UnityMcpClient.constructor | unity-project/test_py/test_mcp_client_direct_connect_to_tcp.py:6-12 | The counter is 0, the client is not connected and nothing has been sent |
| RpcClient.UnityMcpClient.SendRequest | unity-project/test_py/test_mcp_client_direct_connect_to_tcp.py:62-92 | The counter grows by exactly one, and the request sent carries it, so the request ids stay 1, 2, ...; the read loop computes the scan for that id |
| RpcClient.UnityMcpClient.SendNotification | unity-project/test_py/test_mcp_client_direct_connect_to_tcp.py:94-99 | A notification is sent without an id; the counter and the incoming stream are unchanged |
| RpcClient.UnityMcpClient.Connect | unity-project/test_py/test_mcp_client_direct_connect_to_tcp.py:30-42 | The handshake sends `initialize` and, only once it returned, the `notifications/initialized` notification, and then counts as connected |
| RpcClient.UnityMcpClient.ListTools | unity-project/test_py/test_mcp_client_direct_connect_to_tcp.py:44-47 | One `tools/list` request without params; the outcome is the result's `tools`, or `[]` when absent |
| RpcClient.UnityMcpClient.CallTool | unity-project/test_py/test_mcp_client_direct_connect_to_tcp.py:49-53 | One `tools/call` request with the name and arguments; the outcome is the scan's |
| RpcClient.CallParams | unity-project/test_py/test_mcp_client_direct_connect_to_tcp.py:51 | Exactly the keys `name` and `arguments`, the arguments being an empty object when none are given |
| RpcClient.ToolsOf | unity-project/test_py/test_mcp_client_direct_connect_to_tcp.py:47 | An error outcome passes through; a result that is an object gives its `tools` member or `[]`; any other result fails on `.get` |
| RpcClient.EncodingShape | unity-project/test_py/test_mcp_client_direct_connect_to_tcp.py:67-98 | A message carries an id if and only if it is a request, and `params` if and only if they are non-empty; `jsonrpc` is `2.0` |
| RpcClient.CallParamsAlwaysSent | unity-project/test_py/test_mcp_client_direct_connect_to_tcp.py:51-52 | A tool call always sends its params |
| RpcClient.RequestIdsAppend | unity-project/test_py/test_mcp_client_direct_connect_to_tcp.py:64-65 | Sending a message extends the list of request ids by its id exactly when it is a request |
| RpcClient.AwaitStopsAtFirstReply | unity-project/test_py/test_mcp_client_direct_connect_to_tcp.py:78-89 | The first message that is not skipped decides the outcome alone, and nothing after it is read |
| RpcClient.SkippedMessagesIgnored | unity-project/test_py/test_mcp_client_direct_connect_to_tcp.py:91-92 | Messages with other ids, or with neither key, placed before the reply do not change the outcome |

## Left out

- The TCP accept loop and per-connection tasks of `TestMcpStreamServer`, `McpServerRunner`, and the transports and JSON-RPC framing of the MCP SDK are not modelled. What the SDK sends for a `Faulted` handler outcome is not modelled either.
- Thread marshalling (`UniTask.SwitchToMainThread`, `.Forget()`, `UniTask.Yield`, `UniTask.Delay`, coroutines) is replaced by returned avatar commands and by loops over given frame times. Several overlapping smiles or blinks started by successive frames are not modelled.
- The hold between the two fades (`smileDuration`, `blinkDuration`) only waits and writes nothing, so it appears in no contract.
- Expression.RunFade: requires non-negative frame times whose sum reaches the duration. With zero frame times the loop in the source would never end, so the model does not cover that case.
- Float32 rounding is not modelled; weights, samples, times and `Mathf.Lerp` use exact reals.
- Wav.ToAudioClip: `AudioClip.Create` and `SetData` are not modelled. The clip is the data handed to them, so a negative channel count or zero length, which the engine would reject, still counts as decoded.
- The `AvatarController.Instance` singleton and `Awake` are not modelled. Reaching the instance is an input (`AvatarAccess`) of the handler.
- `Debug.Log` and `Debug.LogError` output is not modelled.
- The frame output that `GetOutputData` returns, and the moment a clip ends, are inputs to lip sync.
- `HttpClient`, `Uri.EscapeDataString` and `JsonUtility` are collaborators. Their outcomes are inputs to `Voicevox.GenerateAudio`.
- The .NET regular-expression engine is replaced by the leftmost-shortest deletion it performs on this pattern.
- WindowConfig.Lower: lower-cases ASCII letters only, not the culture-sensitive `ToLower` on other letters.
- The `UNITY_STANDALONE_WIN && !UNITY_EDITOR` guard is an input. So are what `FindWindow`, `GetWindowLong` and `GetSystemMetrics` return, and whether a main camera exists.
- The Python client's socket I/O and `json.loads` are not modelled. The incoming stream is a sequence of decoded JSON objects; a line that decodes to something other than an object is not modelled.
- RpcClient.IdEquals: compares a JSON number to the id exactly; floating-point rounding of large ids is not modelled.
- `VRMLoader.cs`, `Live2DLoader.cs`, `VRMIdleMotionController.cs`, `WindowDragHandler.cs`, the Python bridge `ai_unia_mcp_server.py` and the mock stdio clients are not part of this model.
