/**
 * The voice-conversation engine as values: a snapshot of everything the hook
 * keeps between callbacks (the reducer state and the refs), one function per
 * callback that gives the next snapshot and the outward effects, and the
 * properties of those functions.
 *
 * Time is an integer number of milliseconds supplied with each callback, and
 * the loudness of a frame is a given integer in thousandths of full scale.
 */
module VoiceSession {
  import opened Common
  import opened VoiceMachine

  const BaseThreshold: int := 20      // 0.02 of full scale
  const TtsBoost: int := 50           // 0.05 of full scale, added while playback runs
  const SilenceDurationMs: int := 2000
  const TtsSuppressionMs: int := 500
  const TimesliceMs: nat := 250
  const MinUtteranceMs: int := 600

  const NoMicMessage: string := "このブラウザではマイクが利用できません。"
  const DeniedMessage: string := "マイクへのアクセスが許可されませんでした。"
  const StartFailedMessage: string := "音声会話モードの開始に失敗しました。"
  const EmptyAudioMessage: string := "音声が取得できませんでした。"
  const SttHttpMessage: string := "文字起こしエラー"
  const SttEmptyMessage: string := "文字起こし結果が空です"
  const SttDefaultMessage: string := "文字起こしに失敗しました。"

  /** The media recorder: none attached, attached and stopped, or recording. */
  datatype Recorder = NoRecorder | Inactive | Recording

  /** One compressed audio chunk delivered by the recorder. */
  type Chunk = seq<Byte>

  /** What the engine does to the world outside its own state. */
  datatype Effect =
    | StopAudio                              // onStopAudio()
    | PlayAudio(audio: seq<Byte>)            // onPlayAudio(blob)
    | StartRecorder(timesliceMs: nat)        // recorder.start(timeslice)
    | StopRecorder                           // recorder.stop()
    | ReleaseCapture                         // processor, source, context and tracks released
    | AbortCall(token: nat)                  // abort() on the call's controller
    | Transcribe(token: nat, blob: seq<Byte>) // POST of the utterance to the transcription route
    | SendMessage(token: nat, text: string)  // onSendMessage(text)

  /** Everything the hook remembers between callbacks. */
  datatype Session = Session(
    machine: State,
    capture: bool,                  // media stream, audio context and processing nodes held
    recorder: Recorder,
    chunks: seq<Chunk>,
    silenceStartedAt: Option<int>,
    speechStartedAt: Option<int>,
    pendingStopProcessing: bool,
    ignoreNextRecorderStop: bool,
    ttsSuppressionUntil: int,
    pendingCall: Option<nat>,       // the token of the controller held in the pending-abort ref
    nextToken: nat,                 // the token the next transcription call receives
    aborted: set<nat>,              // calls whose controller has been aborted
    transcribing: set<nat>,         // calls waiting for the transcription response
    replying: set<nat>)             // calls waiting for onSendMessage to resolve

  datatype Step = Step(session: Session, effects: seq<Effect>)

  /** How an attempt to open the microphone ends. */
  datatype MicOutcome =
    | Unavailable     // no media devices in this browser
    | Granted         // stream, audio graph and recorder all set up
    | Denied          // getUserMedia rejected with NotAllowedError
    | DeviceFailed    // getUserMedia rejected otherwise
    | SetupFailed     // the stream was opened, then setting up the graph or recorder threw

  /** How the transcription request of one call ends, if it was not aborted. */
  datatype SttOutcome =
    | SttHttpError                     // response not ok
    | SttThrown(message: Option<string>) // fetch or JSON threw; None when not an Error
    | SttText(text: string)            // the JSON's text field; "" when missing or empty

  const InitialSession: Session :=
    Session(Initial, false, NoRecorder, [], None, None, false, false, 0, None, 0, {}, {}, {})

  // ---------------------------------------------------------------------------
  // The callbacks
  // ---------------------------------------------------------------------------

  /** The loudness a frame must exceed to count as speech. */
  function Threshold(ttsPlaying: bool): int
  {
    BaseThreshold + (if ttsPlaying then TtsBoost else 0)
  }

  /** `!silenceStartedAtRef.current`: null and the time 0 both count as unset. */
  predicate SilenceUnset(o: Option<int>)
  {
    o.None? || o.value == 0
  }

  /** A new Blob over the chunks: their bytes, in order. */
  function Flatten(chunks: seq<Chunk>): (r: seq<Byte>)
    ensures |chunks| > 0 && |chunks[0]| > 0 ==> |r| > 0
    decreases |chunks|
  {
    if chunks == [] then [] else chunks[0] + Flatten(chunks[1..])
  }

  /** The `finally` of a call: the pending ref is cleared only if it still holds this call. */
  function Finish(s: Session, token: nat): (r: Session)
    ensures r.pendingCall == (if s.pendingCall == Some(token) then None else s.pendingCall)
    ensures r.(pendingCall := s.pendingCall) == s
  {
    if s.pendingCall == Some(token) then s.(pendingCall := None) else s
  }

  /** cleanupResources: abort the pending call, detach the recorder, release capture, clear the refs. */
  function Cleanup(s: Session): Step
  {
    var aborting := if s.pendingCall.Some? then [AbortCall(s.pendingCall.value)] else [];
    var stopping := if s.recorder == Recording then [StopRecorder] else [];
    var releasing := if s.capture then [ReleaseCapture] else [];
    Step(
      s.(aborted := if s.pendingCall.Some? then s.aborted + {s.pendingCall.value} else s.aborted,
         pendingCall := None,
         capture := false,
         recorder := NoRecorder,
         chunks := [],
         silenceStartedAt := None,
         speechStartedAt := None,
         pendingStopProcessing := false,
         ignoreNextRecorderStop := false,
         ttsSuppressionUntil := 0),
      aborting + stopping + releasing)
  }

  /** beginRecording: a no-op without a recorder or while already recording. */
  function BeginRecording(s: Session, now: int): Step
  {
    if s.recorder != Inactive then Step(s, [])
    else
      Step(s.(chunks := [], silenceStartedAt := None, speechStartedAt := Some(now),
              pendingStopProcessing := false, recorder := Recording),
           [StartRecorder(TimesliceMs)])
  }

  /** finalizeRecording: stop a running recorder and ask for the stop event to be processed. */
  function FinalizeRecording(s: Session): Step
  {
    if s.recorder != Recording then Step(s, [])
    else Step(s.(pendingStopProcessing := true, recorder := Inactive), [StopRecorder])
  }

  /** The frame is dropped before its loudness is looked at. */
  predicate FrameIgnored(s: Session, now: int)
  {
    || !s.machine.isMicActive
    || s.machine.status == Transcribing
    || s.machine.status == AwaitingAi
    || (s.machine.isTtsPlaying && now < s.ttsSuppressionUntil)
  }

  /** processAudioFrame, with the frame's loudness already computed. */
  function ProcessFrame(s: Session, loudness: int, now: int): Step
  {
    var cur := s.machine;
    if FrameIgnored(s, now) then Step(s, [])
    else if loudness > Threshold(cur.isTtsPlaying) then
      var active := s.(machine := Reduce(s.machine, AudioActivity));
      var begun := if active.recorder == Inactive then BeginRecording(active, now) else Step(active, []);
      var voiced := begun.session.(silenceStartedAt := None);
      if cur.isTtsPlaying && voiced.speechStartedAt.Some? && now - voiced.speechStartedAt.value >= MinUtteranceMs then
        Step(voiced.(machine := Reduce(voiced.machine, UserInterrupt)), begun.effects + [StopAudio])
      else
        Step(voiced, begun.effects)
    else if s.recorder == Recording then
      if SilenceUnset(s.silenceStartedAt) then Step(s.(silenceStartedAt := Some(now)), [])
      else if now - s.silenceStartedAt.value >= SilenceDurationMs then FinalizeRecording(s)
      else Step(s, [])
    else Step(s, [])
  }

  /** ondataavailable: a non-empty chunk is appended while a recorder is attached. */
  function ChunkArrived(s: Session, data: Chunk): Step
  {
    if s.recorder != NoRecorder && |data| > 0 then Step(s.(chunks := s.chunks + [data]), []) else Step(s, [])
  }

  /**
   * handleRecordedBlob up to the transcription request: discard a short or
   * empty utterance, otherwise supersede the pending call with a new one.
   */
  function RecordedBlob(s: Session, now: int): Step
  {
    var duration := if s.speechStartedAt.Some? then now - s.speechStartedAt.value else 0;
    var taken := s.chunks;
    var s1 := s.(pendingStopProcessing := false, speechStartedAt := None, chunks := []);
    if duration < MinUtteranceMs || |taken| == 0 then Step(s1, [])
    else
      var blob := Flatten(taken);
      if |blob| == 0 then Step(s1.(machine := Reduce(s1.machine, SttError(EmptyAudioMessage))), [])
      else
        var token := s1.nextToken;
        var aborting := if s1.pendingCall.Some? then [AbortCall(s1.pendingCall.value)] else [];
        Step(
          s1.(aborted := if s1.pendingCall.Some? then s1.aborted + {s1.pendingCall.value} else s1.aborted,
              pendingCall := Some(token),
              nextToken := token + 1,
              transcribing := s1.transcribing + {token},
              machine := Reduce(s1.machine, SilenceDetected)),
          aborting + [Transcribe(token, blob)])
  }

  /** handleRecorderStop: only a stop that finalizeRecording asked for reaches handleRecordedBlob. */
  function RecorderStopped(s: Session, now: int): Step
  {
    if s.recorder == NoRecorder then Step(s, [])
    else if s.ignoreNextRecorderStop then
      Step(s.(ignoreNextRecorderStop := false, chunks := [], pendingStopProcessing := false), [])
    else if !s.pendingStopProcessing then Step(s.(chunks := []), [])
    else RecordedBlob(s, now)
  }

  /** A call whose transcription failed: report the message, then the call's `finally`. */
  function SttFailed(s: Session, token: nat, message: string): Step
  {
    Step(Finish(s.(machine := Reduce(s.machine, SttError(message))), token), [])
  }

  /** The transcription response of call `token` arrives. */
  function TranscriptionSettled(s: Session, token: nat, outcome: SttOutcome): Step
  {
    if token !in s.transcribing then Step(s, [])
    else
      var s0 := s.(transcribing := s.transcribing - {token});
      if token in s.aborted then Step(Finish(s0, token), [])
      else
        match outcome
        case SttHttpError => SttFailed(s0, token, SttHttpMessage)
        case SttThrown(message) => SttFailed(s0, token, if message.Some? then message.value else SttDefaultMessage)
        case SttText(text) =>
          if text == "" then SttFailed(s0, token, SttEmptyMessage)
          else
            Step(s0.(replying := s0.replying + {token},
                     machine := Reduce(Reduce(s0.machine, SttSuccess(text)), AiRequest)),
                 [StopAudio, SendMessage(token, text)])
  }

  /** The reply of call `token` arrives, as the hook is written: no check for an abort. */
  function ReplySettledAsWritten(s: Session, token: nat, audio: Option<seq<Byte>>): Step
  {
    if token !in s.replying then Step(s, [])
    else
      var s0 := s.(replying := s.replying - {token}, machine := Reduce(s.machine, AiReply));
      match audio
      case Some(blob) => Step(Finish(s0, token), [PlayAudio(blob)])
      case None => Step(Finish(s0.(machine := Reduce(s0.machine, TtsEnd)), token), [])
  }

  /** The reply of call `token` arrives; the reply of an aborted call is dropped like its transcription. */
  function ReplySettled(s: Session, token: nat, audio: Option<seq<Byte>>): Step
  {
    if token in s.replying && token in s.aborted then
      Step(Finish(s.(replying := s.replying - {token}), token), [])
    else ReplySettledAsWritten(s, token, audio)
  }

  /** startVoice, with the outcome of opening the microphone supplied. */
  function StartVoice(s: Session, outcome: MicOutcome): Step
  {
    if s.machine.isMicActive then Step(s, [])
    else
      match outcome
      case Unavailable => Step(s.(machine := Reduce(s.machine, Error(NoMicMessage))), [])
      case Granted => Step(s.(capture := true, recorder := Inactive, machine := Reduce(s.machine, MicStart)), [])
      case Denied => StartFailed(s, false, DeniedMessage)
      case DeviceFailed => StartFailed(s, false, StartFailedMessage)
      case SetupFailed => StartFailed(s, true, StartFailedMessage)
  }

  /** The catch of startVoice: tear down whatever was opened, stop, report. */
  function StartFailed(s: Session, captured: bool, message: string): Step
  {
    var c := Cleanup(if captured then s.(capture := true) else s);
    Step(c.session.(machine := Reduce(Reduce(c.session.machine, MicStop), Error(message))), c.effects)
  }

  /** stopVoice: teardown, end playback, mic_stop, stop the audio. */
  function StopVoice(s: Session): Step
  {
    var c := Cleanup(s);
    var ended := if s.machine.isTtsPlaying then Reduce(c.session.machine, TtsEnd) else c.session.machine;
    Step(c.session.(machine := Reduce(ended, MicStop)), c.effects + [StopAudio])
  }

  function Toggle(s: Session, outcome: MicOutcome): Step
  {
    if s.machine.isMicActive then StopVoice(s) else StartVoice(s, outcome)
  }

  /** markTtsStart: playback began; suppress frames for a short window. */
  function MarkTtsStart(s: Session, now: int): Step
  {
    if !s.machine.isMicActive then Step(s, [])
    else Step(s.(machine := Reduce(s.machine, TtsStart), ttsSuppressionUntil := now + TtsSuppressionMs), [])
  }

  function MarkTtsEnd(s: Session): Step
  {
    if !s.machine.isMicActive then Step(s, []) else Step(s.(machine := Reduce(s.machine, TtsEnd)), [])
  }

  /** The effect that stops voice mode once the user id is gone. */
  function UserPresence(s: Session, hasUser: bool): Step
  {
    if !hasUser && s.machine.isMicActive then StopVoice(s) else Step(s, [])
  }

  // ---------------------------------------------------------------------------
  // Runs of callbacks
  // ---------------------------------------------------------------------------

  /** Every callback the outside world can deliver to the engine. */
  datatype Input =
    | AudioFrame(loudness: int, now: int)
    | ChunkAvailable(data: Chunk)
    | RecorderStop(now: int)
    | SttDone(token: nat, outcome: SttOutcome)
    | ReplyDone(token: nat, audio: Option<seq<Byte>>)
    | StartRequested(mic: MicOutcome)
    | StopRequested
    | ToggleRequested(mic: MicOutcome)
    | TtsStarted(now: int)
    | TtsEnded
    | UserIdSeen(hasUser: bool)

  function Apply(s: Session, i: Input): Step
  {
    match i
    case AudioFrame(loudness, now) => ProcessFrame(s, loudness, now)
    case ChunkAvailable(data) => ChunkArrived(s, data)
    case RecorderStop(now) => RecorderStopped(s, now)
    case SttDone(token, outcome) => TranscriptionSettled(s, token, outcome)
    case ReplyDone(token, audio) => ReplySettled(s, token, audio)
    case StartRequested(outcome) => StartVoice(s, outcome)
    case StopRequested => StopVoice(s)
    case ToggleRequested(outcome) => Toggle(s, outcome)
    case TtsStarted(now) => MarkTtsStart(s, now)
    case TtsEnded => MarkTtsEnd(s)
    case UserIdSeen(hasUser) => UserPresence(s, hasUser)
  }

  /** Delivers the inputs one at a time, in order, collecting the effects. */
  function Run(s: Session, inputs: seq<Input>): Step
    decreases |inputs|
  {
    if inputs == [] then Step(s, [])
    else
      var first := Apply(s, inputs[0]);
      var rest := Run(first.session, inputs[1..]);
      Step(rest.session, first.effects + rest.effects)
  }

  // ---------------------------------------------------------------------------
  // The session invariant
  // ---------------------------------------------------------------------------

  /**
   * What every reachable session satisfies: the mic flag, the capture graph and
   * the recorder come and go together; a session without the mic is idle and
   * has no live call; every call the engine ever started has a smaller token
   * than the next one; and every call still in flight that was not aborted is
   * the pending one, so at most one call can still change the state.
   */
  ghost predicate Inv(s: Session)
  {
    && s.machine.isMicActive == s.capture
    && s.machine.isMicActive == (s.recorder != NoRecorder)
    && (!s.machine.isMicActive ==> s.machine.status == Idle && !s.machine.isTtsPlaying && s.pendingCall == None)
    && CallsInv(s)
    && (forall i :: 0 <= i < |s.chunks| ==> |s.chunks[i]| > 0)
  }

  /** The part of the invariant about transcription calls and their tokens. */
  ghost predicate CallsInv(s: Session)
  {
    && (forall t :: t in s.aborted ==> t < s.nextToken)
    && (forall t :: t in s.transcribing ==> t < s.nextToken)
    && (forall t :: t in s.replying ==> t < s.nextToken)
    && s.transcribing !! s.replying
    && (s.pendingCall.Some? ==> s.pendingCall.value !in s.aborted
                                && s.pendingCall.value in s.transcribing + s.replying)
    && (forall t :: t in s.transcribing && t !in s.aborted ==> s.pendingCall == Some(t))
    && (forall t :: t in s.replying && t !in s.aborted ==> s.pendingCall == Some(t))
  }

  lemma InitialSessionInv()
    ensures Inv(InitialSession)
  {
  }

  lemma CleanupFacts(s: Session)
    requires CallsInv(s)
    ensures var r := Cleanup(s).session;
      && r.machine == s.machine
      && r.pendingCall == None && !r.capture && r.recorder == NoRecorder
      && r.transcribing + r.replying <= r.aborted
      && CallsInv(r)
  {
  }

  lemma StopVoicePreservesInv(s: Session)
    requires Inv(s)
    ensures Inv(StopVoice(s).session)
  {
    CleanupFacts(s);
  }

  lemma StartVoicePreservesInv(s: Session, outcome: MicOutcome)
    requires Inv(s)
    ensures Inv(StartVoice(s, outcome).session)
  {
    if !s.machine.isMicActive && outcome.SetupFailed? {
      CleanupFacts(s.(capture := true));
    } else if !s.machine.isMicActive && !outcome.Granted? && !outcome.Unavailable? {
      CleanupFacts(s);
    }
  }

  lemma RecordedBlobPreservesInv(s: Session, now: int)
    requires Inv(s) && s.machine.isMicActive
    ensures Inv(RecordedBlob(s, now).session)
  {
  }

  lemma TranscriptionSettledPreservesInv(s: Session, token: nat, outcome: SttOutcome)
    requires Inv(s)
    ensures Inv(TranscriptionSettled(s, token, outcome).session)
  {
    if token in s.transcribing && token !in s.aborted {
      assert s.pendingCall == Some(token);
      var r := TranscriptionSettled(s, token, outcome).session;
      assert r.pendingCall == None || r.pendingCall == Some(token);
    }
  }

  lemma ReplySettledPreservesInv(s: Session, token: nat, audio: Option<seq<Byte>>)
    requires Inv(s)
    ensures Inv(ReplySettled(s, token, audio).session)
  {
  }

  lemma ProcessFramePreservesInv(s: Session, loudness: int, now: int)
    requires Inv(s)
    ensures Inv(ProcessFrame(s, loudness, now).session)
  {
    if !FrameIgnored(s, now) && loudness > Threshold(s.machine.isTtsPlaying) {
      var active := s.(machine := Reduce(s.machine, AudioActivity));
      assert Inv(active);
      var begun := if active.recorder == Inactive then BeginRecording(active, now) else Step(active, []);
      assert Inv(begun.session.(silenceStartedAt := None));
    }
  }

  lemma ApplyPreservesInv(s: Session, i: Input)
    requires Inv(s)
    ensures Inv(Apply(s, i).session)
  {
    match i
    case AudioFrame(loudness, now) => ProcessFramePreservesInv(s, loudness, now);
    case ChunkAvailable(data) =>
    case RecorderStop(now) =>
      if s.recorder != NoRecorder && !s.ignoreNextRecorderStop && s.pendingStopProcessing {
        RecordedBlobPreservesInv(s, now);
      }
    case SttDone(token, outcome) => TranscriptionSettledPreservesInv(s, token, outcome);
    case ReplyDone(token, audio) => ReplySettledPreservesInv(s, token, audio);
    case StartRequested(outcome) => StartVoicePreservesInv(s, outcome);
    case StopRequested => StopVoicePreservesInv(s);
    case ToggleRequested(outcome) =>
      if s.machine.isMicActive { StopVoicePreservesInv(s); } else { StartVoicePreservesInv(s, outcome); }
    case TtsStarted(now) =>
    case TtsEnded =>
    case UserIdSeen(hasUser) =>
      if !hasUser && s.machine.isMicActive { StopVoicePreservesInv(s); }
  }

  /** The invariant holds after any run of callbacks from a session that satisfies it. */
  lemma {:induction false} RunPreservesInv(s: Session, inputs: seq<Input>)
    requires Inv(s)
    ensures Inv(Run(s, inputs).session)
    decreases |inputs|
  {
    if inputs != [] {
      ApplyPreservesInv(s, inputs[0]);
      RunPreservesInv(Apply(s, inputs[0]).session, inputs[1..]);
    }
  }
}
