# Voice alarm: a Dafny model

This project models the logic of the web-app-ren voice alarm (a Next.js wake-up
app) and proves properties of that model. When the alarm rings, an AI character
talks to the user. If the user stays silent, the character gets louder, and
the user can interrupt it by speaking. The model covers six parts:

- **The voice conversation engine** (`lib/hooks/use-voice-conversation.ts`):
  - The reducer with six statuses is a pure function over a datatype
    (`VoiceMachine`).
  - The hook's refs and callbacks are a class, `VoiceEngine.Engine`, with one
    field per ref and one method per callback. Each method is proved equal to a
    transition function in `VoiceSession`. The properties are proved about those
    functions, in `VoiceSession` and `VoiceProperties`. They cover:
    - the voice-activity gate;
    - silence finalisation;
    - barge-in;
    - short-utterance discard;
    - "latest transcription wins";
    - teardown;
    - an invariant kept by every callback.
- **The alarm page** (`app/alarm/page.tsx`) is the class `AlarmPage.Page`. It
  models:
  - the escalation level and its single re-armable silence timer;
  - the reset of the level after a genuine reply;
  - the playback callbacks;
  - the slide-to-stop gesture.
- **The alarm hook** (`lib/alarm/engine.ts`) is `AlarmEngine`:
  - the display of the remaining time, with a parser proving the shape it takes;
  - the next-alarm roll-over, the countdown clamp and the activation check;
  - stopping, in the class `AlarmEngine.Hook`.
- **The Gemini client** (`lib/gemini-client.ts`):
  - the WAV header writer: an array is written in place, then proved equal to a
    reference byte layout and read back field by field (`Wav`);
  - the role mapping, the system-instruction rule and the default voice
    (`GeminiClient`).
- **The chat endpoint** (`app/api/chat/message/route.ts`) is `ChatRoute`:
  - validation, the user lookup and the escalation instruction;
  - the prompt history window and the memory context;
  - the truncation of what is kept, and the rule that the silence signal skips
    memory and persistence.

  The database, the memory service and the model calls are given as a `World`
  value. What the endpoint asks of them is returned as a list of effects.
- **The character table** (`lib/characters.ts`) is `Characters`. It holds the
  four profiles with their prompts, the lookup with its `normal` fallback, and
  the list.

Conventions used throughout:

- Time is an integer number of milliseconds, passed in with each call.
- The loudness of an audio frame is an integer in thousandths of full scale:
  the base threshold is 20 and the boost while speech plays is 50.
- Inputs from outside are parameters:
  - the microphone outcome;
  - the transcription result;
  - the reply audio;
  - the parsed alarm time;
  - the database and model results.
- JavaScript truthiness of an optional string is `Common.Truthy`.
- `String.prototype.includes` is `Common.Contains`.

## Model

| member | source | states |
|---|---|---|
| Common.Contains | web-app-ren/app/api/chat/message/route.ts:43 | `includes` is true exactly when the substring occurs at some index |
| Common.ParseNatToString | web-app-ren/app/alarm/page.tsx:58 | the decimal text of a number (as interpolated into messages) reads back as that number |
| Common.NatToStringInjective | web-app-ren/app/alarm/page.tsx:58 | different levels give different decimal texts |
| VoiceMachine.Reduce | web-app-ren/lib/hooks/use-voice-conversation.ts:51-127 | for every event, how the mic flag, the playback flag, the transcript and the error change: only mic_start sets the mic flag, only mic_stop/reset clear it; only tts_start sets the playback flag; only stt_success records a transcript; which events set or clear the error; error and mic-off tts_start keep the status (the other events' statuses are stated by the lemmas below) |
| VoiceMachine.StatusTransitions | web-app-ren/lib/hooks/use-voice-conversation.ts:74-107 | silence_detected gives transcribing, ai_request awaiting_ai, ai_reply and tts_start ai_speaking, each only with the mic on; stt_success always gives awaiting_ai; with the mic off the three guarded events change nothing |
| VoiceMachine.StopAndResetYieldInitial | web-app-ren/lib/hooks/use-voice-conversation.ts:43-123 | mic_stop and reset both yield exactly the initial state: idle, no mic, no playback, no transcript, no error |
| VoiceMachine.MicStartEntersVoiceMode | web-app-ren/lib/hooks/use-voice-conversation.ts:53-60 | mic_start yields voice_mode with the mic on and every other field cleared |
| VoiceMachine.AudioActivityGuard | web-app-ren/lib/hooks/use-voice-conversation.ts:69-73 | audio_activity moves to user_speaking and clears the error exactly when the mic is on and not transcribing; otherwise the state is unchanged |
| VoiceMachine.ReturnToRestingStatus | web-app-ren/lib/hooks/use-voice-conversation.ts:86-113 | tts_end and stt_error return to voice_mode with the mic on, else idle; tts_end clears playback, stt_error records its message, nothing else changes |
| VoiceMachine.ErrorAndInterruptFrames | web-app-ren/lib/hooks/use-voice-conversation.ts:114-121 | error changes only the error; user_interrupt only the status (user_speaking) and the playback flag (off) |
| VoiceMachine.MicFlagStable | web-app-ren/lib/hooks/use-voice-conversation.ts:51-126 | any sequence of events without mic_start, mic_stop or reset leaves the mic flag as it was |
| VoiceMachine.EndingWithStopForgets | web-app-ren/lib/hooks/use-voice-conversation.ts:61-123 | any event sequence ending in mic_stop or reset ends in the initial state |
| VoiceSession.Flatten | web-app-ren/lib/hooks/use-voice-conversation.ts:258 | the blob over the chunks is non-empty when the first chunk is |
| VoiceSession.Finish | web-app-ren/lib/hooks/use-voice-conversation.ts:323-326 | a call's `finally` clears the pending ref only when it holds that call, and changes nothing else |
| VoiceSession.InitialSessionInv | web-app-ren/lib/hooks/use-voice-conversation.ts:43-49 | the hook's initial state satisfies the session invariant |
| VoiceSession.CleanupFacts | web-app-ren/lib/hooks/use-voice-conversation.ts:188-238 | cleanup keeps the reducer state, drops the pending call, recorder and capture, and leaves every call in flight aborted |
| VoiceSession.StopVoicePreservesInv | web-app-ren/lib/hooks/use-voice-conversation.ts:534-542 | stopVoice preserves the invariant |
| VoiceSession.StartVoicePreservesInv | web-app-ren/lib/hooks/use-voice-conversation.ts:450-532 | startVoice preserves the invariant for every microphone outcome, including each failure path |
| VoiceSession.RecordedBlobPreservesInv | web-app-ren/lib/hooks/use-voice-conversation.ts:240-273 | handling a recorded utterance preserves the invariant |
| VoiceSession.TranscriptionSettledPreservesInv | web-app-ren/lib/hooks/use-voice-conversation.ts:279-326 | a transcription result preserves the invariant |
| VoiceSession.ReplySettledPreservesInv | web-app-ren/lib/hooks/use-voice-conversation.ts:304-326 | a reply result preserves the invariant |
| VoiceSession.ProcessFramePreservesInv | web-app-ren/lib/hooks/use-voice-conversation.ts:393-448 | an audio frame preserves the invariant |
| VoiceSession.ApplyPreservesInv | web-app-ren/lib/hooks/use-voice-conversation.ts:188-596 | every callback preserves the invariant: mic flag, capture and recorder together; no live call without the mic; every un-aborted call in flight is the pending one |
| VoiceSession.RunPreservesInv | web-app-ren/lib/hooks/use-voice-conversation.ts:188-596 | the invariant holds after any run of callbacks |
| VoiceProperties.IgnoredFrameHasNoEffect | web-app-ren/lib/hooks/use-voice-conversation.ts:397-413 | a frame has no effect with the mic off, while transcribing or awaiting the reply, or inside the suppression window |
| VoiceProperties.ThresholdValues | web-app-ren/lib/hooks/use-voice-conversation.ts:5-6 | the speech threshold is 0.02, and 0.07 while speech plays |
| VoiceProperties.SpeechIffAboveThreshold | web-app-ren/lib/hooks/use-voice-conversation.ts:415-447 | past the gate, a frame counts as speech exactly when it exceeds the threshold: then user_speaking, recording, silence start cleared; otherwise the reducer state, speech start, buffer and pending call unchanged |
| VoiceProperties.PlaybackStartSuppressesFrames | web-app-ren/lib/hooks/use-voice-conversation.ts:552-558 | markTtsStart sets the deadline to now+500, and every frame before it is dropped |
| VoiceProperties.FirstQuietFrameStampsSilence | web-app-ren/lib/hooks/use-voice-conversation.ts:439-441 | while recording, the first quiet frame stamps the silence start and does nothing else |
| VoiceProperties.QuietFrameFinalisesAfterSilence | web-app-ren/lib/hooks/use-voice-conversation.ts:441-445 | a later quiet frame stops the recorder exactly when 2000 ms of silence have passed |
| VoiceProperties.LoudFrameResetsSilence | web-app-ren/lib/hooks/use-voice-conversation.ts:428 | a loud frame clears the silence start |
| VoiceProperties.BargeInIff | web-app-ren/lib/hooks/use-voice-conversation.ts:430-438 | a frame stops the audio exactly when speech plays and speech began at least 600 ms before; the machine then is user_speaking with playback off |
| VoiceProperties.SomeFrameAfterCons | web-app-ren/lib/hooks/use-voice-conversation.ts:430-445 | a frame of a run comes after the gap iff the first one does or one of the rest does |
| VoiceProperties.NoBargeInWithoutPlayback | web-app-ren/lib/hooks/use-voice-conversation.ts:430-438 | with playback off, loud frames never stop the audio and keep user_speaking |
| VoiceProperties.LoudFramesDuringPlayback | web-app-ren/lib/hooks/use-voice-conversation.ts:430-438 | during playback, loud frames stop the audio exactly once, at the first frame 600 ms after speech began |
| VoiceProperties.BargeInFiresOnce | web-app-ren/lib/hooks/use-voice-conversation.ts:419-438 | in ai_speaking, a stream of loud frames stops the audio exactly once iff it lasts 600 ms, never twice |
| VoiceProperties.QuietFramesWhileStopped | web-app-ren/lib/hooks/use-voice-conversation.ts:439-447 | once the recorder is stopped, quiet frames change nothing |
| VoiceProperties.QuietFramesAfterStamp | web-app-ren/lib/hooks/use-voice-conversation.ts:439-445 | with the silence stamped, quiet frames stop the recorder once, at the first frame 2000 ms later |
| VoiceProperties.SilenceFinalisesOnce | web-app-ren/lib/hooks/use-voice-conversation.ts:439-445 | while recording, a run of quiet frames stops the recorder exactly once iff it lasts 2000 ms, and the reducer state never changes |
| VoiceProperties.BeginRecordingFacts | web-app-ren/lib/hooks/use-voice-conversation.ts:354-374 | beginRecording is a no-op while recording, else starts a fresh utterance stamped now |
| VoiceProperties.CleanupResetsRefs | web-app-ren/lib/hooks/use-voice-conversation.ts:188-238 | cleanup empties the buffer, resets both starts, both flags and the deadline (to 0), and aborts the pending call |
| VoiceProperties.ShortUtteranceDiscarded | web-app-ren/lib/hooks/use-voice-conversation.ts:242-256 | an utterance under 600 ms or with no chunks is dropped with no event and no effect, and the buffer is emptied |
| VoiceProperties.UtteranceAccepted | web-app-ren/lib/hooks/use-voice-conversation.ts:258-277 | an accepted utterance gets a fresh token, aborts the call it supersedes, sends all buffered bytes in order and moves to transcribing |
| VoiceProperties.StaleTranscriptionIgnored | web-app-ren/lib/hooks/use-voice-conversation.ts:267-318 | a transcription result of any call but the pending one changes nothing visible |
| VoiceProperties.StaleReplyIgnored | web-app-ren/lib/hooks/use-voice-conversation.ts:267-313 | with the corrected reply step, a reply of any call but the pending one changes nothing visible |
| VoiceProperties.SupersededCallIsSilent | web-app-ren/lib/hooks/use-voice-conversation.ts:267-271 | with the corrected reply step, after a newer utterance the older call's results leave the newer state alone |
| VoiceProperties.FinishClearsOnlyOwnToken | web-app-ren/lib/hooks/use-voice-conversation.ts:323-326 | the pending token is cleared only when it is still the call's own |
| VoiceProperties.StopVoiceTearsDown | web-app-ren/lib/hooks/use-voice-conversation.ts:534-542 | stopVoice yields the initial reducer state, no recorder, capture or pending call, every call in flight aborted, and stops the audio last |
| VoiceProperties.QuiescentWhileMicOff | web-app-ren/lib/hooks/use-voice-conversation.ts:397-399 | with the corrected reply step, frames, recorder events, late results and playback marks have no effect while the mic is off |
| VoiceProperties.NothingObservableAfterStop | web-app-ren/lib/hooks/use-voice-conversation.ts:534-542 | with the corrected reply step, no later input other than a start produces an effect after stopVoice |
| VoiceProperties.AsWrittenPlaysAbortedReply | web-app-ren/lib/hooks/use-voice-conversation.ts:304-313 | as written, the reply of an aborted call still plays; the corrected step drops it |
| VoiceProperties.RunStep | web-app-ren/lib/hooks/use-voice-conversation.ts:188-596 | a run is its first callback followed by the rest |
| VoiceProperties.StartsListening | web-app-ren/lib/hooks/use-voice-conversation.ts:450-532 | a granted start enters voice_mode with a stopped recorder and no call |
| VoiceProperties.LoudFrameStartsUtterance | web-app-ren/lib/hooks/use-voice-conversation.ts:417-427 | a loud frame starts recording an utterance |
| VoiceProperties.ChunkBuffered | web-app-ren/lib/hooks/use-voice-conversation.ts:506-510 | a recorder chunk is buffered |
| VoiceProperties.QuietFrameStamps | web-app-ren/lib/hooks/use-voice-conversation.ts:439-441 | a quiet frame stamps the silence |
| VoiceProperties.SilenceStopsRecorder | web-app-ren/lib/hooks/use-voice-conversation.ts:441-445 | 2000 ms later the recorder is stopped for processing |
| VoiceProperties.StopStartsCall | web-app-ren/lib/hooks/use-voice-conversation.ts:332-352 | the recorder's stop starts call 0 |
| VoiceProperties.TranscriptArrives | web-app-ren/lib/hooks/use-voice-conversation.ts:295-304 | a transcript moves call 0 to waiting for its reply |
| VoiceProperties.StopAbortsCall | web-app-ren/lib/hooks/use-voice-conversation.ts:534-542 | stopping aborts call 0 while it waits for its reply |
| VoiceProperties.AbortedReplyReachable | web-app-ren/lib/hooks/use-voice-conversation.ts:304-313 | a concrete run reaches a stopped engine whose aborted call would still play its reply as written |
| VoiceEngine.Engine.constructor | web-app-ren/lib/hooks/use-voice-conversation.ts:163-186 | the initial reducer state and refs, satisfying the invariant |
| VoiceEngine.Engine.Dispatch | web-app-ren/lib/hooks/use-voice-conversation.ts:51-127 | dispatch applies the reducer and touches nothing else |
| VoiceEngine.Engine.AbortPending | web-app-ren/lib/hooks/use-voice-conversation.ts:189-192 | aborts and clears the pending call |
| VoiceEngine.Engine.DetachRecorder | web-app-ren/lib/hooks/use-voice-conversation.ts:201-214 | stops a recording recorder, ignoring that stop, and detaches it |
| VoiceEngine.Engine.ReleaseCaptureGraph | web-app-ren/lib/hooks/use-voice-conversation.ts:194-230 | releases the processing nodes, context and tracks |
| VoiceEngine.Engine.CleanupResources | web-app-ren/lib/hooks/use-voice-conversation.ts:188-238 | the new state and effects are those of the cleanup step |
| VoiceEngine.Engine.BeginRecording | web-app-ren/lib/hooks/use-voice-conversation.ts:354-374 | agrees with the beginRecording step |
| VoiceEngine.Engine.FinalizeRecording | web-app-ren/lib/hooks/use-voice-conversation.ts:376-391 | agrees with the finalizeRecording step |
| VoiceEngine.Engine.ProcessAudioFrame | web-app-ren/lib/hooks/use-voice-conversation.ts:393-448 | agrees with the frame step and keeps the invariant |
| VoiceEngine.Engine.DataAvailable | web-app-ren/lib/hooks/use-voice-conversation.ts:506-510 | appends a non-empty chunk while a recorder is attached |
| VoiceEngine.Engine.HandleRecordedBlob | web-app-ren/lib/hooks/use-voice-conversation.ts:240-277 | agrees with the recorded-utterance step and keeps the invariant |
| VoiceEngine.Engine.StartCall | web-app-ren/lib/hooks/use-voice-conversation.ts:267-277 | supersedes the pending call with a new token and sends the blob |
| VoiceEngine.Engine.HandleRecorderStop | web-app-ren/lib/hooks/use-voice-conversation.ts:332-352 | agrees with the recorder-stop step and keeps the invariant |
| VoiceEngine.Engine.ClearPending | web-app-ren/lib/hooks/use-voice-conversation.ts:323-326 | the call's `finally` |
| VoiceEngine.Engine.Fail | web-app-ren/lib/hooks/use-voice-conversation.ts:319-326 | reports stt_error, then the `finally` |
| VoiceEngine.Engine.TranscriptionSettled | web-app-ren/lib/hooks/use-voice-conversation.ts:279-326 | agrees with the transcription step: aborted calls end silently, failures report their message, a transcript asks for the reply |
| VoiceEngine.Engine.ReplySettled | web-app-ren/lib/hooks/use-voice-conversation.ts:304-326 | agrees with the corrected reply step: an aborted call's reply is dropped |
| VoiceEngine.Engine.Abandon | web-app-ren/lib/hooks/use-voice-conversation.ts:519-531 | startVoice's catch: cleanup, mic_stop, error |
| VoiceEngine.Engine.StartVoice | web-app-ren/lib/hooks/use-voice-conversation.ts:450-532 | agrees with the start step for every microphone outcome and keeps the invariant |
| VoiceEngine.Engine.StopVoice | web-app-ren/lib/hooks/use-voice-conversation.ts:534-542 | agrees with the stop step and keeps the invariant |
| VoiceEngine.Engine.Toggle | web-app-ren/lib/hooks/use-voice-conversation.ts:544-550 | stops when the mic is on, else starts |
| VoiceEngine.Engine.MarkTtsStart | web-app-ren/lib/hooks/use-voice-conversation.ts:552-558 | tts_start and the 500 ms suppression deadline, only with the mic on |
| VoiceEngine.Engine.MarkTtsEnd | web-app-ren/lib/hooks/use-voice-conversation.ts:560-565 | tts_end, only with the mic on |
| VoiceEngine.Engine.UserIdChanged | web-app-ren/lib/hooks/use-voice-conversation.ts:592-596 | voice mode stops when the user id is gone |
| AlarmPage.EscalateBounded | web-app-ren/app/alarm/page.tsx:53 | one escalation is min(level+1, 3): within 0..3 and never lower |
| AlarmPage.EscalationsCap | web-app-ren/app/alarm/page.tsx:52-58 | n escalations, each stepping up from the level the previous one left, give min(level+n, 3) from a level in range |
| AlarmPage.EscalationsFromZero | web-app-ren/app/alarm/page.tsx:52-58 | from 0, n escalations that each read the current level give min(n, 3), non-decreasing in n |
| AlarmPage.StaleChain | web-app-ren/app/alarm/page.tsx:33-101 | as written, n timeouts post at most n levels |
| AlarmPage.FreshChain | web-app-ren/app/alarm/page.tsx:52-58 | with the current level read, n timeouts post at most n levels |
| AlarmPage.StaleChainStuck | web-app-ren/app/alarm/page.tsx:33-101 | as written, a chain armed at level 0 with a user posts level 1 every time, one armed before the user was read posts nothing, and from two timeouts on it differs from the intended chain |
| AlarmPage.FreshChainClimbs | web-app-ren/app/alarm/page.tsx:52-58 | as intended, the i-th timeout posts min(level+i+1, 3) |
| AlarmPage.EscalationMessageSignalled | web-app-ren/app/alarm/page.tsx:58 | every escalation message carries the silence signal, so its reply never resets the level |
| AlarmPage.ClampProgress | web-app-ren/app/alarm/page.tsx:252 | the slide position is clamped to 0..1 (thousandths), unchanged inside |
| AlarmPage.AtMostOneTimer | web-app-ren/app/alarm/page.tsx:33-42 | pending timers within the held one are at most one |
| AlarmPage.RearmLeavesOneTimer | web-app-ren/app/alarm/page.tsx:33-42 | re-arming keeps the invariant and leaves exactly the new timer pending |
| AlarmPage.StopLeavesNoTimer | web-app-ren/app/alarm/page.tsx:44-50 | stopping keeps the invariant, leaves no timer pending, and is idempotent |
| AlarmPage.Page.constructor | web-app-ren/app/alarm/page.tsx:14-28 | the page's initial state |
| AlarmPage.Page.UserLoaded | web-app-ren/app/alarm/page.tsx:156-175 | the stored user id is recorded |
| AlarmPage.Page.ResetSilenceTimer | web-app-ren/app/alarm/page.tsx:33-42 | clears the held timer, arms a fresh 8-second one, which is then the only one pending |
| AlarmPage.Page.StopSilenceTimer | web-app-ren/app/alarm/page.tsx:44-50 | clears the held timer, none pending afterwards |
| AlarmPage.Page.SendMessage | web-app-ren/app/alarm/page.tsx:103-119 | without a user nothing is sent; otherwise a POST at the given level, or the current one |
| AlarmPage.Page.PlayAudio | web-app-ren/app/alarm/page.tsx:74-101 | stops the silence timer, marks playback for the engine, plays |
| AlarmPage.Page.SendSettled | web-app-ren/app/alarm/page.tsx:120-147 | a failure changes nothing and yields null; a genuine send resets the level and returns the audio; a signal send keeps the level and plays it |
| AlarmPage.Page.HandleEscalation | web-app-ren/app/alarm/page.tsx:52-63 | the corrected escalation: the current level becomes min(level+1, 3) and the signal is sent at the new level for the current user |
| AlarmPage.Page.TimerFired | web-app-ren/app/alarm/page.tsx:38-41 | only the pending timer escalates, once, by the corrected escalation |
| AlarmPage.Page.AudioEnded | web-app-ren/app/alarm/page.tsx:86-92 | playback over, the engine told, the timer re-armed |
| AlarmPage.Page.AudioFailed | web-app-ren/app/alarm/page.tsx:94-98 | playback over, the engine told, no timer |
| AlarmPage.Page.HandleStopAudio | web-app-ren/app/alarm/page.tsx:66-72 | pauses the audio if there is one |
| AlarmPage.Page.StartVoiceInteraction | web-app-ren/app/alarm/page.tsx:178-183 | the engine started and the timer armed |
| AlarmPage.Page.VoiceStatusChanged | web-app-ren/app/alarm/page.tsx:279-283 | entering user_speaking stops the silence timer; other statuses change nothing |
| AlarmPage.Page.TouchMoved | web-app-ren/app/alarm/page.tsx:246-255 | sets the clamped slide position |
| AlarmPage.Page.HandleStopAlarm | web-app-ren/app/alarm/page.tsx:265-276 | stops audio, timer, engine and alarm, and goes home after 500 ms |
| AlarmPage.Page.TouchEnded | web-app-ren/app/alarm/page.tsx:257-263 | past 0.8 the alarm stops, else the slider returns to 0 |
| AlarmEngine.Decompose | web-app-ren/lib/alarm/engine.ts:146-149 | minutes and seconds under 60, and h·3600000+m·60000+s·1000 ≤ ms < that+1000 |
| AlarmEngine.ModOfHour | web-app-ren/lib/alarm/engine.ts:148-149 | the minute position within the hour is that of the whole |
| AlarmEngine.DigitPrefixLength | web-app-ren/lib/alarm/engine.ts:151-157 | the length of the leading run of digits |
| AlarmEngine.DigitPrefixOf | web-app-ren/lib/alarm/engine.ts:151-157 | digits followed by a non-digit have exactly that digit prefix |
| AlarmEngine.ParseRendered | web-app-ren/lib/alarm/engine.ts:151-157 | a rendered number followed by a non-digit reads back |
| AlarmEngine.NumberThenRendered | web-app-ren/lib/alarm/engine.ts:151-157 | a rendered number followed by its unit reads back |
| AlarmEngine.ParseHoursMinutes | web-app-ren/lib/alarm/engine.ts:151-153 | "H時間M分" reads back as hours and minutes |
| AlarmEngine.ParseMinutesSeconds | web-app-ren/lib/alarm/engine.ts:154-155 | "M分S秒" reads back as minutes and seconds |
| AlarmEngine.ParseSecondsOnly | web-app-ren/lib/alarm/engine.ts:157 | "S秒" reads back as seconds |
| AlarmEngine.FormatShowsDecomposition | web-app-ren/lib/alarm/engine.ts:146-158 | the display is "H時間M分" with hours, else "M分S秒" with minutes, else "S秒", with the decomposed numbers |
| AlarmEngine.NextAlarmTime | web-app-ren/lib/alarm/engine.ts:52-57 | the parsed time today, or a day later when not after now; after now for any time of day on the current date |
| AlarmEngine.Countdown | web-app-ren/lib/alarm/engine.ts:78-83 | never negative, zero iff the alarm time has come, otherwise exactly the difference |
| AlarmEngine.CheckActivation | web-app-ren/lib/alarm/engine.ts:95-115 | no check without an alarm or while ringing; ring now iff diff ≤ 0; otherwise after diff > 0 |
| AlarmEngine.StopDefersActivation | web-app-ren/lib/alarm/engine.ts:118-125 | after stopping within the day, the next ring waits for the same time tomorrow |
| AlarmEngine.FormattedTimeUntil | web-app-ren/lib/alarm/engine.ts:133-135 | null iff the countdown is still the Infinity sentinel |
| AlarmEngine.Hook.constructor | web-app-ren/lib/alarm/engine.ts:20-29 | the hook's initial state |
| AlarmEngine.Hook.AlarmFetched | web-app-ren/lib/alarm/engine.ts:32-70 | a found alarm is stored with its rolled-over time; not ok or no alarm clears it; an error keeps it; loading ends |
| AlarmEngine.Hook.UpdateCountdown | web-app-ren/lib/alarm/engine.ts:73-92 | the countdown is max(0, diff) |
| AlarmEngine.Hook.CheckAlarm | web-app-ren/lib/alarm/engine.ts:95-115 | rings now when due, else schedules after diff |
| AlarmEngine.Hook.ActivationFired | web-app-ren/lib/alarm/engine.ts:106-110 | the alarm rings |
| AlarmEngine.Hook.StopAlarm | web-app-ren/lib/alarm/engine.ts:118-125 | silent, and the alarm time moves exactly one day; nothing else changes |
| Wav.Ascii | web-app-ren/lib/gemini-client.ts:128-139 | one byte per ASCII character |
| Wav.TagsAreAscii | web-app-ren/lib/gemini-client.ts:128-139 | the tags are "RIFF", "WAVE", "fmt " and "data" |
| Wav.LE16RoundTrip | web-app-ren/lib/gemini-client.ts:133-138 | a 16-bit little-endian field reads back |
| Wav.LE32RoundTrip | web-app-ren/lib/gemini-client.ts:129-140 | a 32-bit little-endian field reads back |
| Wav.RiffChunk | web-app-ren/lib/gemini-client.ts:128-130 | 12 bytes |
| Wav.FmtChunk | web-app-ren/lib/gemini-client.ts:131-138 | 24 bytes |
| Wav.DataChunk | web-app-ren/lib/gemini-client.ts:139-140 | 8 bytes |
| Wav.FmtError | web-app-ren/lib/gemini-client.ts:134-138 | no error iff every fmt field is in the range its write accepts |
| Wav.ReadWithin | web-app-ren/lib/gemini-client.ts:128-142 | a field read from a chunk inside the file reads the same as in the chunk |
| Wav.RiffChunkReads | web-app-ren/lib/gemini-client.ts:128-130 | "RIFF" at 0, 36+n at 4, "WAVE" at 8 |
| Wav.DataChunkReads | web-app-ren/lib/gemini-client.ts:139-140 | "data" at 0, n at 4 |
| Wav.FmtChunkReads | web-app-ren/lib/gemini-client.ts:131-138 | "fmt ", 16, 1, channels, sample rate, byte rate, block align and bit depth each read back from their offset |
| Wav.EncodeParses | web-app-ren/lib/gemini-client.ts:122-143 | the file is 44 + n bytes, carries every header field at its offset and the payload unchanged after the header |
| Wav.SpeechHeader | web-app-ren/lib/gemini-client.ts:113-126 | for 24000 Hz, mono, 16 bits the header is written, with byte rate 48000 and block align 2 |
| Wav.OversizedPayloadRejected | web-app-ren/lib/gemini-client.ts:129 | a payload too large for the RIFF size field is rejected at offset 4 |
| Wav.Splice | web-app-ren/lib/gemini-client.ts:128-140 | writing at an offset keeps the buffer's length |
| Wav.SpliceAdjacent | web-app-ren/lib/gemini-client.ts:128-140 | two adjacent writes are one write of both |
| Wav.SpliceWhole | web-app-ren/lib/gemini-client.ts:124 | writing the whole buffer gives the written bytes |
| Wav.WriteBytes | web-app-ren/lib/gemini-client.ts:128-139 | the bytes are written at the offset, nothing else changes |
| Wav.WriteUInt32LE | web-app-ren/lib/gemini-client.ts:129 | writes the value little-endian when in 0..2^32-1, else fails without writing |
| Wav.WriteUInt16LE | web-app-ren/lib/gemini-client.ts:133 | writes the value little-endian when in 0..65535, else fails without writing |
| Wav.WriteRiffChunk | web-app-ren/lib/gemini-client.ts:128-130 | writes the RIFF chunk, or fails when the size is out of range |
| Wav.WriteFmtChunk | web-app-ren/lib/gemini-client.ts:131-138 | writes the fmt chunk, or fails at the first field out of range |
| Wav.WriteFmtFields | web-app-ren/lib/gemini-client.ts:134-138 | writes the five caller-supplied fmt fields, or fails at the first one out of range |
| Wav.WriteDataChunk | web-app-ren/lib/gemini-client.ts:139-140 | writes the data chunk header |
| Wav.PcmToWav | web-app-ren/lib/gemini-client.ts:122-143 | the 44-byte header written in place and concatenated with the payload is exactly the reference encoding, including its range errors |
| GeminiClient.GeminiRole | web-app-ren/lib/gemini-client.ts:22 | 'user' stays 'user', anything else becomes 'model' |
| GeminiClient.ToContents | web-app-ren/lib/gemini-client.ts:21-24 | the messages are mapped one for one, in order |
| GeminiClient.ContentsRoundTrip | web-app-ren/lib/gemini-client.ts:21-24 | messages with role user or assistant are recovered from the contents |
| GeminiClient.SystemInstruction | web-app-ren/lib/gemini-client.ts:26-30 | undefined iff both prompt and memories are absent or empty; never empty otherwise |
| GeminiClient.SystemInstructionParts | web-app-ren/lib/gemini-client.ts:26-30 | starts with the prompt and a blank line, ends with the memory heading and memories |
| GeminiClient.GenerateTextRequest | web-app-ren/lib/gemini-client.ts:17-40 | no key is an error; the contents are the mapped messages; the instruction is included iff prompt or memories are present |
| GeminiClient.SelectedVoice | web-app-ren/lib/gemini-client.ts:73 | the given voice, or "Kore" when none or an empty one is given |
| Characters.TableKeyedById | web-app-ren/lib/characters.ts:12-94 | the table holds the four keys, and each profile's id is its key |
| Characters.GetCharacter | web-app-ren/lib/characters.ts:96-98 | the profile stored under the id, else `normal`; its id is always one of the four |
| Characters.CharacterList | web-app-ren/lib/characters.ts:100 | exactly the four profiles, in table order |
| Characters.ListedProfilesAreLookedUp | web-app-ren/lib/characters.ts:96-100 | each listed profile is what its id looks up |
| ChatRoute.TimeNotice | web-app-ren/app/api/chat/message/route.ts:45 | the time notice is never empty |
| ChatRoute.EscalationText | web-app-ren/app/api/chat/message/route.ts:42-54 | empty iff the level is ≤ 0 and there is no signal; otherwise it starts with the time notice |
| ChatRoute.EscalationInstruction | web-app-ren/app/api/chat/message/route.ts:42-54 | the instruction built by assignment and `+=` is the reference text |
| ChatRoute.EscalationTiers | web-app-ren/app/api/chat/message/route.ts:47-53 | levels 1, 2 and ≥ 3 add exactly their tier; a signal at level 0 adds only the notice |
| ChatRoute.DistinctTiersDistinctInstructions | web-app-ren/app/api/chat/message/route.ts:47-53 | levels that select different tiers give different instructions |
| ChatRoute.Reverse | web-app-ren/app/api/chat/message/route.ts:88 | reverses the order |
| ChatRoute.PromptMessages | web-app-ren/app/api/chat/message/route.ts:81-98 | the last 5 of the client history, else up to 5 stored messages oldest first, then the new user turn last |
| ChatRoute.Truncate | web-app-ren/app/api/chat/message/route.ts:129-137 | a prefix of at most the given length, the whole text when shorter |
| ChatRoute.Bullets | web-app-ren/app/api/chat/message/route.ts:64 | the memory list starts with a bullet |
| ChatRoute.FullContext | web-app-ren/app/api/chat/message/route.ts:76-78 | the context is the user context alone iff there are no memories |
| ChatRoute.MemoryContext | web-app-ren/app/api/chat/message/route.ts:58-69 | non-empty iff there is no signal and the retrieval returned memories |
| ChatRoute.EndpointResponse | web-app-ren/app/api/chat/message/route.ts:11-33 | 400 iff userId or content is missing, 404 iff the user is unknown, 500 iff the reply of a known user fails, each with its error text |
| ChatRoute.EndpointEffects | web-app-ren/app/api/chat/message/route.ts:13-35 | no call at all for a bad request; the user lookup first; the lookup alone for an unknown user |
| ChatRoute.ExchangeResponse | web-app-ren/app/api/chat/message/route.ts:102-166 | 500 iff generation fails; else the reply text, the character's name, isTtsError iff no audio iff speech failed, the audio as a data URI, memoryUsed iff memories were used |
| ChatRoute.Gathered | web-app-ren/app/api/chat/message/route.ts:58-92 | before generation only the memory retrieval and the history load can happen |
| ChatRoute.Answered | web-app-ren/app/api/chat/message/route.ts:110-143 | no call after a failed generation, otherwise speech synthesis comes first |
| ChatRoute.PromptSent | web-app-ren/app/api/chat/message/route.ts:95-106 | the generation request carries the windowed messages, the prompt plus the instruction, and the full context |
| ChatRoute.FailureStoresNothing | web-app-ren/app/api/chat/message/route.ts:102-106 | after a failed generation nothing is synthesised, saved or memorised |
| ChatRoute.SignalSkipsMemory | web-app-ren/app/api/chat/message/route.ts:124-143 | with the silence signal no memory is retrieved and nothing is saved or memorised |
| ChatRoute.GenuineExchangeStored | web-app-ren/app/api/chat/message/route.ts:124-143 | without the signal the memories are queried and a reply's two turns are saved, cut to 500, and the exchange memorised |
| ChatRoute.ReplySpoken | web-app-ren/app/api/chat/message/route.ts:110-119 | a reply is synthesised in the character's voice |
| ChatRoute.StoredTextsBounded | web-app-ren/app/api/chat/message/route.ts:124-143 | every saved message is at most 500 characters long |
| ChatRoute.Post | web-app-ren/app/api/chat/message/route.ts:7-167 | the response and the calls made, step by step, are exactly EndpointResponse and EndpointEffects |
| ChatRoute.Converse | web-app-ren/app/api/chat/message/route.ts:35-159 | after a successful lookup, the response and calls are ExchangeResponse and ExchangeEffects with the user's character |
| ChatRoute.Ask | web-app-ren/app/api/chat/message/route.ts:42-106 | the generation request is the reference one, the memory context is the reference one, and the calls made are Gathered |
| ChatRoute.Answer | web-app-ren/app/api/chat/message/route.ts:102-166 | 500 iff generation fails; otherwise the reply's fields, isTtsError iff speech failed; the calls made are Answered |
| ChatRoute.StoredEffects | web-app-ren/app/api/chat/message/route.ts:124-143 | nothing stored iff the signal is present; stored texts ≤ 500 characters |
| ChatRoute.Recall | web-app-ren/app/api/chat/message/route.ts:58-69 | retrieval skipped for the signal; its result is the memory context |
| ChatRoute.LoadHistory | web-app-ren/app/api/chat/message/route.ts:81-92 | the stored history is read only without client history: the 5 most recent, oldest first |
| ChatRoute.Persist | web-app-ren/app/api/chat/message/route.ts:124-143 | the saves and memorisation are as the reference says |

## Left out

- Browser and device APIs are not modelled: getUserMedia, AudioContext, the script processor, MediaRecorder and HTMLAudioElement. Recorder events and microphone outcomes are inputs; starting, stopping and playing are returned effects.
- `computeRms` is not modelled. A frame's loudness is a given integer in thousandths, so the float square root disappears.
- The slide ratio is not modelled as a float. It is an integer in thousandths, and the 0.8 threshold is 800.
- Exceptions thrown by `recorder.start`/`recorder.stop` and the catch of `finalizeRecording` are not modelled (the model assumes these calls succeed).
- The mime type chosen for the recorder is not modelled: it only labels the blob.
- The status-message texts (`setStatusMessage`) are not modelled; they are display only.
- React render timing is not modelled in the page and hook objects: the state ref that lags one render behind the reducer, and the stale closures in the alarm page. Each of their callbacks sees the current state. The one stale closure with a visible consequence, the silence timer's, is modelled on its own (see Findings).
- AlarmPage.EscalationsCap: states the climb for timeouts that read the current level, as intended; as written every timeout re-runs the handleEscalation of the render that armed it and posts that render's level + 1 (AlarmPage.StaleChainStuck).
- AlarmPage.EscalationsFromZero: the same; as written, repeated timeouts after a genuine reply post level 1 each time, and the greeting's first timeout posts nothing and re-arms nothing.
- AlarmPage.Page.HandleEscalation: reads the current level and user (the corrected behaviour); the as-written reading of the arming render's level and user is AlarmPage.StaleChain.
- AlarmPage.Page.TimerFired: the same corrected reading as HandleEscalation.
- The reply phase's catch (web-app-ren/lib/hooks/use-voice-conversation.ts:315-322) is not modelled: the page's handleSendMessage catches every failure of its request and yields null (web-app-ren/app/alarm/page.tsx:107-146), so onSendMessage never rejects; onPlayAudio throws only when a browser API does, and browser APIs are left out.
- fetch, FormData, JSON, async/await and AbortController are not modelled. A call is a token. Its results arrive as separate inputs, and an abort is a set of tokens.
- VoiceSession.SilenceUnset is faithful to the source: a silence start of 0 counts as unset, as the truthiness test in the source makes it. The silence lemmas exclude time 0 for that reason.
- `fetchWakeUpMessage` and `playInitialAudio` in the alarm page are not modelled. They make the first request and play the first reply, and are HTTP and audio plumbing.
- The page's unmount effect is not modelled.
- The date-fns `parse` of the alarm's time of day is not modelled: its result is an integer input. The JST formatting of dates and times, and daylight saving, are left out too.
- AlarmEngine.NextAlarmTime is after now only when the parsed time is within a day before now. This holds for a time of day on the current date.
- The alarm hook's Infinity sentinel is a datatype constructor, not a number.
- In the WAV writer, JavaScript numbers are exact reals: rounding beyond 2^53 is not modelled. Node's range check of the write helpers is modelled; the value stored is the number's floor.
- Buffer base64 encoding is not modelled: the speech data URI takes the base64 text as given. The mime type is the constant `audio/wav`, which `textToSpeech` always returns.
- The HTTP calls in `generateText`, `textToSpeech` and `speechToText` are not modelled, nor is the extraction of the reply text from the response. The missing API key is an input.
- The memory service, Prisma and the language model are not modelled: their answers make up the `World` of the chat endpoint. Failures other than that of text generation (a Prisma error, say) are not told apart: every 500 comes from a failed reply.
- Request fields sent as JSON `null` are treated like absent ones.
- `getCharacter` on inherited property names such as "constructor" is not modelled (they are not keys of the table).
- `substring` counts UTF-16 code units, while the model's strings count characters. The two agree on text without astral characters.
- Console logging and latency measurement are not modelled.

## Findings

| source | as written | input that shows it | evidently intended | confidence | as-written member | corrected member |
|---|---|---|---|---|---|---|
| web-app-ren/lib/hooks/use-voice-conversation.ts:304-313 | after `onSendMessage` resolves, the call dispatches ai_reply and plays the audio without checking whether its controller was aborted in the meantime | start voice, speak for 600 ms or more, stay silent for 2 s, get a transcript, then stop voice before the reply arrives: the reply audio still plays after voice mode has ended; superseding the call by a newer utterance before its reply arrives reaches the same gap, and the older reply plays over the newer turn | the reply of an aborted call is dropped, as its transcription is | medium, not executed | VoiceProperties.AsWrittenPlaysAbortedReply | VoiceSession.ReplySettled |
| web-app-ren/app/alarm/page.tsx:33-63 | resetSilenceTimer is memoised on the level alone; its timer runs the handleEscalation of the render that built it, which steps up from that render's level and posts as that render's user, and the reply's onended re-arms through the same render's resetSilenceTimer | after a genuine reply resets the level to 0, stay silent for 3 × 8 s: every timeout posts level 1; the greeting's first timeout, armed by the first render before the stored user was read, posts nothing and nothing re-arms the timer | every timeout steps up from the current level: 1, 2, 3, 3, … | medium, not executed | AlarmPage.StaleChainStuck | AlarmPage.FreshChainClimbs |
