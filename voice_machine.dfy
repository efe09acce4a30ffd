/**
 * The conversation state machine of the voice hook: six statuses, the
 * microphone and playback flags, the last transcript and the last error,
 * and a pure transition function over a closed set of events.
 */
module VoiceMachine {
  import opened Common

  datatype Status = Idle | VoiceMode | UserSpeaking | Transcribing | AwaitingAi | AiSpeaking

  datatype State = State(
    status: Status,
    isMicActive: bool,
    isTtsPlaying: bool,
    lastTranscript: Option<string>,
    error: Option<string>)

  datatype Event =
    | MicStart
    | MicStop
    | AudioActivity
    | SilenceDetected
    | SttSuccess(text: string)
    | SttError(message: string)
    | AiRequest
    | AiReply
    | TtsStart
    | TtsEnd
    | UserInterrupt
    | Error(message: string)
    | Reset

  const Initial: State := State(Idle, false, false, None, None)

  /** Where playback end and a transcription failure return to: listening if the mic is on, else idle. */
  function Resting(s: State): Status
  {
    if s.isMicActive then VoiceMode else Idle
  }

  /** Events that rebuild the whole record rather than update a copy of it. */
  predicate Rebuilds(e: Event)
  {
    e.MicStart? || e.MicStop? || e.Reset?
  }

  /**
   * The reducer. Its contract is the frame of every event: which events may
   * change each field, and to what.
   */
  function Reduce(s: State, e: Event): (r: State)
    // the microphone flag: only mic_start sets it, only mic_stop and reset clear it
    ensures r.isMicActive == (if e.MicStart? then true else if e.MicStop? || e.Reset? then false else s.isMicActive)
    // the playback flag: only tts_start sets it; the rebuilding events, tts_end and user_interrupt clear it
    ensures r.isTtsPlaying == (if e.TtsStart? then true
                               else if Rebuilds(e) || e.TtsEnd? || e.UserInterrupt? then false
                               else s.isTtsPlaying)
    // the transcript: only stt_success records one; the rebuilding events forget it
    ensures r.lastTranscript == (if e.SttSuccess? then Some(e.text) else if Rebuilds(e) then None else s.lastTranscript)
    // the error: stt_error and error record their message; accepted audio_activity, stt_success and the rebuilding events clear it
    ensures r.error == (if e.SttError? || e.Error? then Some(e.message)
                        else if Rebuilds(e) || e.SttSuccess? || (e.AudioActivity? && s.isMicActive && s.status != Transcribing) then None
                        else s.error)
    // the status never changes under events that only touch flags or the error
    ensures e.Error? ==> r.status == s.status
    ensures e.TtsStart? && !s.isMicActive ==> r.status == s.status
  {
    match e
    case MicStart => State(VoiceMode, true, false, None, None)
    case MicStop => State(Idle, false, false, None, None)
    case AudioActivity =>
      if s.isMicActive && s.status != Transcribing then s.(status := UserSpeaking, error := None) else s
    case SilenceDetected =>
      if s.isMicActive then s.(status := Transcribing) else s
    case SttSuccess(text) => s.(status := AwaitingAi, lastTranscript := Some(text), error := None)
    case SttError(message) => s.(status := Resting(s), error := Some(message))
    case AiRequest =>
      if s.isMicActive then s.(status := AwaitingAi) else s
    case AiReply =>
      if s.isMicActive then s.(status := AiSpeaking) else s
    case TtsStart => s.(isTtsPlaying := true, status := if s.isMicActive then AiSpeaking else s.status)
    case TtsEnd => s.(isTtsPlaying := false, status := Resting(s))
    case UserInterrupt => s.(isTtsPlaying := false, status := UserSpeaking)
    case Error(message) => s.(error := Some(message))
    case Reset => Initial
  }

  /** mic_stop and reset both yield exactly the initial state, whatever the state was. */
  lemma StopAndResetYieldInitial(s: State)
    ensures Reduce(s, MicStop) == Initial && Reduce(s, Reset) == Initial
    ensures Initial.status == Idle && !Initial.isMicActive && !Initial.isTtsPlaying
    ensures Initial.lastTranscript == None && Initial.error == None
  {
  }

  /** mic_start enters voice mode with the mic on and every other field cleared. */
  lemma MicStartEntersVoiceMode(s: State)
    ensures Reduce(s, MicStart) == State(VoiceMode, true, false, None, None)
  {
  }

  /**
   * audio_activity moves to user_speaking and clears the error exactly when the
   * mic is on and no transcription is running; otherwise nothing changes.
   */
  lemma AudioActivityGuard(s: State)
    ensures s.isMicActive && s.status != Transcribing ==>
              Reduce(s, AudioActivity) == s.(status := UserSpeaking, error := None)
    ensures !(s.isMicActive && s.status != Transcribing) ==> Reduce(s, AudioActivity) == s
  {
  }

  /**
   * The forward steps of a turn: silence_detected to transcribing, ai_request
   * to awaiting_ai, ai_reply and tts_start to ai_speaking, each only while the
   * mic is on; stt_success to awaiting_ai unconditionally. With the mic off,
   * silence_detected, ai_request and ai_reply change nothing.
   */
  lemma StatusTransitions(s: State, text: string)
    ensures Reduce(s, SilenceDetected).status == (if s.isMicActive then Transcribing else s.status)
    ensures Reduce(s, SttSuccess(text)).status == AwaitingAi
    ensures Reduce(s, AiRequest).status == (if s.isMicActive then AwaitingAi else s.status)
    ensures Reduce(s, AiReply).status == (if s.isMicActive then AiSpeaking else s.status)
    ensures Reduce(s, TtsStart).status == (if s.isMicActive then AiSpeaking else s.status)
    ensures !s.isMicActive ==>
      Reduce(s, SilenceDetected) == s && Reduce(s, AiRequest) == s && Reduce(s, AiReply) == s
  {
  }

  /** tts_end and stt_error return to voice mode when the mic is on, else to idle. */
  lemma ReturnToRestingStatus(s: State, message: string)
    ensures Reduce(s, TtsEnd).status == (if s.isMicActive then VoiceMode else Idle)
    ensures Reduce(s, SttError(message)).status == (if s.isMicActive then VoiceMode else Idle)
    ensures Reduce(s, TtsEnd) == s.(isTtsPlaying := false, status := Resting(s))
    ensures Reduce(s, SttError(message)) == s.(status := Resting(s), error := Some(message))
  {
  }

  /** The error event touches only the error; user_interrupt only the status and the playback flag. */
  lemma ErrorAndInterruptFrames(s: State, message: string)
    ensures Reduce(s, Error(message)) == s.(error := Some(message))
    ensures Reduce(s, UserInterrupt) == s.(status := UserSpeaking, isTtsPlaying := false)
  {
  }

  /** Applies a sequence of events in order, as repeated dispatches do. */
  function ReduceAll(s: State, es: seq<Event>): State
    decreases |es|
  {
    if es == [] then s else ReduceAll(Reduce(s, es[0]), es[1..])
  }

  /** An event sequence with no mic_start, mic_stop or reset leaves the mic flag as it was. */
  lemma {:induction false} MicFlagStable(s: State, es: seq<Event>)
    requires forall i :: 0 <= i < |es| ==> !Rebuilds(es[i])
    ensures ReduceAll(s, es).isMicActive == s.isMicActive
    decreases |es|
  {
    if es != [] {
      MicFlagStable(Reduce(s, es[0]), es[1..]);
    }
  }

  /** Ending with mic_stop or reset forgets everything that came before. */
  lemma {:induction false} EndingWithStopForgets(s: State, es: seq<Event>, last: Event)
    requires last.MicStop? || last.Reset?
    ensures ReduceAll(s, es + [last]) == Initial
    decreases |es|
  {
    if es == [] {
      assert es + [last] == [last];
    } else {
      assert (es + [last])[1..] == es[1..] + [last];
      EndingWithStopForgets(Reduce(s, es[0]), es[1..], last);
    }
  }
}
