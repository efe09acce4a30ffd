/**
 * The voice-conversation hook as an object: one field per ref the hook keeps
 * (and one for the reducer state), one method per callback. Each method
 * updates the fields in place, returns the outward effects in the order the
 * hook performs them, and is proved to agree with the callback's function in
 * VoiceSession, so every property proved there holds of the object too.
 */
module VoiceEngine {
  import opened Common
  import opened VoiceMachine
  import opened VoiceSession

  class Engine {
    var machine: State
    var capture: bool
    var recorder: Recorder
    var chunks: seq<Chunk>
    var silenceStartedAt: Option<int>
    var speechStartedAt: Option<int>
    var pendingStopProcessing: bool
    var ignoreNextRecorderStop: bool
    var ttsSuppressionUntil: int
    var pendingCall: Option<nat>
    var nextToken: nat
    var aborted: set<nat>
    var transcribing: set<nat>
    var replying: set<nat>

    /** The fields as a value. */
    function Snapshot(): Session
      reads this
    {
      Session(machine, capture, recorder, chunks, silenceStartedAt, speechStartedAt,
              pendingStopProcessing, ignoreNextRecorderStop, ttsSuppressionUntil,
              pendingCall, nextToken, aborted, transcribing, replying)
    }

    ghost predicate Valid()
      reads this
    {
      Inv(Snapshot())
    }

    /** The hook's initial state: the reducer's initial state and every ref at its initial value. */
    constructor()
      ensures Snapshot() == InitialSession && Valid()
    {
      machine := Initial;
      capture := false;
      recorder := NoRecorder;
      chunks := [];
      silenceStartedAt := None;
      speechStartedAt := None;
      pendingStopProcessing := false;
      ignoreNextRecorderStop := false;
      ttsSuppressionUntil := 0;
      pendingCall := None;
      nextToken := 0;
      aborted := {};
      transcribing := {};
      replying := {};
      InitialSessionInv();
    }

    /** dispatch: the reducer applied to the state, nothing else touched. */
    method Dispatch(e: Event)
      modifies this
      ensures Snapshot() == old(Snapshot()).(machine := Reduce(old(machine), e))
    {
      machine := Reduce(machine, e);
    }

    /** The first part of cleanupResources: abort the pending call and empty the ref. */
    method AbortPending() returns (fx: seq<Effect>)
      modifies this
      ensures fx == if old(pendingCall).Some? then [AbortCall(old(pendingCall).value)] else []
      ensures Snapshot() == old(Snapshot()).(
                aborted := if old(pendingCall).Some? then old(aborted) + {old(pendingCall).value} else old(aborted),
                pendingCall := None)
    {
      fx := [];
      if pendingCall.Some? {
        fx := [AbortCall(pendingCall.value)];
        aborted := aborted + {pendingCall.value};
        pendingCall := None;
      }
    }

    /** Detach the recorder, stopping it first if it is recording and ignoring that stop. */
    method DetachRecorder() returns (fx: seq<Effect>)
      modifies this
      ensures fx == if old(recorder) == Recording then [StopRecorder] else []
      ensures Snapshot() == old(Snapshot()).(
                recorder := NoRecorder,
                ignoreNextRecorderStop := old(ignoreNextRecorderStop) || old(recorder) == Recording)
    {
      fx := [];
      if recorder != NoRecorder {
        if recorder == Recording {
          ignoreNextRecorderStop := true;
          fx := [StopRecorder];
        }
        recorder := NoRecorder;
      }
    }

    /** Disconnect the processing nodes, close the audio context and stop the tracks. */
    method ReleaseCaptureGraph() returns (fx: seq<Effect>)
      modifies this
      ensures fx == if old(capture) then [ReleaseCapture] else []
      ensures Snapshot() == old(Snapshot()).(capture := false)
    {
      fx := [];
      if capture {
        fx := [ReleaseCapture];
        capture := false;
      }
    }

    method CleanupResources() returns (fx: seq<Effect>)
      modifies this
      ensures Step(Snapshot(), fx) == Cleanup(old(Snapshot()))
      ensures old(CallsInv(Snapshot())) ==> CallsInv(Snapshot())
    {
      ghost var s := Snapshot();
      var aborting := AbortPending();
      var stopping := DetachRecorder();
      var releasing := ReleaseCaptureGraph();
      chunks := [];
      silenceStartedAt := None;
      speechStartedAt := None;
      pendingStopProcessing := false;
      ignoreNextRecorderStop := false;
      ttsSuppressionUntil := 0;
      fx := aborting + stopping + releasing;
      if CallsInv(s) {
        CleanupFacts(s);
      }
    }

    method BeginRecording(now: int) returns (fx: seq<Effect>)
      modifies this
      ensures Step(Snapshot(), fx) == VoiceSession.BeginRecording(old(Snapshot()), now)
    {
      if recorder != Inactive {
        return [];
      }
      chunks := [];
      silenceStartedAt := None;
      speechStartedAt := Some(now);
      pendingStopProcessing := false;
      recorder := Recording;
      fx := [StartRecorder(TimesliceMs)];
    }

    method FinalizeRecording() returns (fx: seq<Effect>)
      modifies this
      ensures Step(Snapshot(), fx) == VoiceSession.FinalizeRecording(old(Snapshot()))
    {
      if recorder != Recording {
        return [];
      }
      pendingStopProcessing := true;
      recorder := Inactive;
      fx := [StopRecorder];
    }

    method ProcessAudioFrame(loudness: int, now: int) returns (fx: seq<Effect>)
      requires Valid()
      modifies this
      ensures Step(Snapshot(), fx) == ProcessFrame(old(Snapshot()), loudness, now)
      ensures Valid()
    {
      ghost var s := Snapshot();
      ProcessFramePreservesInv(s, loudness, now);
      var current := machine;
      if !current.isMicActive || current.status == Transcribing || current.status == AwaitingAi {
        return [];
      }
      if current.isTtsPlaying && now < ttsSuppressionUntil {
        return [];
      }
      if loudness > Threshold(current.isTtsPlaying) {
        Dispatch(AudioActivity);
        fx := [];
        if recorder == Inactive {
          fx := BeginRecording(now);
        }
        silenceStartedAt := None;
        if current.isTtsPlaying && speechStartedAt.Some? && now - speechStartedAt.value >= MinUtteranceMs {
          Dispatch(UserInterrupt);
          fx := fx + [StopAudio];
        }
      } else if recorder == Recording {
        if SilenceUnset(silenceStartedAt) {
          silenceStartedAt := Some(now);
          fx := [];
        } else if now - silenceStartedAt.value >= SilenceDurationMs {
          fx := FinalizeRecording();
        } else {
          fx := [];
        }
      } else {
        fx := [];
      }
    }

    /** ondataavailable. */
    method DataAvailable(data: Chunk) returns (fx: seq<Effect>)
      requires Valid()
      modifies this
      ensures Step(Snapshot(), fx) == ChunkArrived(old(Snapshot()), data)
      ensures Valid()
    {
      if recorder != NoRecorder && |data| > 0 {
        chunks := chunks + [data];
      }
      fx := [];
    }

    /**
     * handleRecordedBlob up to the transcription request. It is reached only
     * through an attached recorder, which in a valid engine means the mic is on.
     */
    method HandleRecordedBlob(now: int) returns (fx: seq<Effect>)
      modifies this
      ensures Step(Snapshot(), fx) == RecordedBlob(old(Snapshot()), now)
      ensures old(Valid()) && old(recorder) != NoRecorder ==> Valid()
    {
      ghost var s := Snapshot();
      if Inv(s) && s.recorder != NoRecorder {
        RecordedBlobPreservesInv(s, now);
      }
      pendingStopProcessing := false;
      var duration := if speechStartedAt.Some? then now - speechStartedAt.value else 0;
      speechStartedAt := None;
      var taken := chunks;
      chunks := [];
      if duration < MinUtteranceMs || |taken| == 0 {
        return [];
      }
      var blob := Flatten(taken);
      if |blob| == 0 {
        Dispatch(SttError(EmptyAudioMessage));
        return [];
      }
      fx := StartCall(blob);
    }

    /** A new call supersedes the pending one: abort it, hold the new controller, dispatch silence_detected, send the blob. */
    method StartCall(blob: seq<Byte>) returns (fx: seq<Effect>)
      modifies this
      ensures fx == (if old(pendingCall).Some? then [AbortCall(old(pendingCall).value)] else [])
                    + [Transcribe(old(nextToken), blob)]
      ensures Snapshot() == old(Snapshot()).(
                aborted := if old(pendingCall).Some? then old(aborted) + {old(pendingCall).value} else old(aborted),
                pendingCall := Some(old(nextToken)),
                nextToken := old(nextToken) + 1,
                transcribing := old(transcribing) + {old(nextToken)},
                machine := Reduce(old(machine), SilenceDetected))
    {
      var token := nextToken;
      nextToken := nextToken + 1;
      fx := [];
      if pendingCall.Some? {
        fx := [AbortCall(pendingCall.value)];
        aborted := aborted + {pendingCall.value};
      }
      pendingCall := Some(token);
      transcribing := transcribing + {token};
      Dispatch(SilenceDetected);
      fx := fx + [Transcribe(token, blob)];
    }

    /** onstop of the recorder; does nothing once cleanup has detached the recorder. */
    method HandleRecorderStop(now: int) returns (fx: seq<Effect>)
      requires Valid()
      modifies this
      ensures Step(Snapshot(), fx) == RecorderStopped(old(Snapshot()), now)
      ensures Valid()
    {
      if recorder == NoRecorder {
        return [];
      }
      if ignoreNextRecorderStop {
        ignoreNextRecorderStop := false;
        chunks := [];
        pendingStopProcessing := false;
        return [];
      }
      if !pendingStopProcessing {
        chunks := [];
        return [];
      }
      fx := HandleRecordedBlob(now);
    }

    /** The `finally` of call `token`: clear the pending ref if it still holds this call. */
    method ClearPending(token: nat)
      modifies this
      ensures Snapshot() == Finish(old(Snapshot()), token)
    {
      if pendingCall == Some(token) {
        pendingCall := None;
      }
    }

    /** The catch of call `token`: report the message, then its `finally`. */
    method Fail(token: nat, message: string)
      modifies this
      ensures Snapshot() == SttFailed(old(Snapshot()), token, message).session
    {
      Dispatch(SttError(message));
      ClearPending(token);
    }

    /** The transcription response of call `token`: its catch, or its success path up to onSendMessage. */
    method TranscriptionSettled(token: nat, outcome: SttOutcome) returns (fx: seq<Effect>)
      requires Valid()
      modifies this
      ensures Step(Snapshot(), fx) == VoiceSession.TranscriptionSettled(old(Snapshot()), token, outcome)
      ensures Valid()
    {
      ghost var s := Snapshot();
      TranscriptionSettledPreservesInv(s, token, outcome);
      fx := [];
      if token !in transcribing {
        return;
      }
      transcribing := transcribing - {token};
      if token in aborted {
        ClearPending(token);
        return;
      }
      match outcome
      case SttHttpError =>
        Fail(token, SttHttpMessage);
      case SttThrown(message) =>
        Fail(token, if message.Some? then message.value else SttDefaultMessage);
      case SttText(text) =>
        if text == "" {
          Fail(token, SttEmptyMessage);
        } else {
          Dispatch(SttSuccess(text));
          Dispatch(AiRequest);
          fx := [StopAudio, SendMessage(token, text)];
          replying := replying + {token};
        }
    }

    /** onSendMessage of call `token` resolves; the reply of an aborted call is dropped. */
    method ReplySettled(token: nat, audio: Option<seq<Byte>>) returns (fx: seq<Effect>)
      requires Valid()
      modifies this
      ensures Step(Snapshot(), fx) == VoiceSession.ReplySettled(old(Snapshot()), token, audio)
      ensures Valid()
    {
      ghost var s := Snapshot();
      ReplySettledPreservesInv(s, token, audio);
      fx := [];
      if token !in replying {
        return;
      }
      replying := replying - {token};
      if token !in aborted {
        Dispatch(AiReply);
        if audio.Some? {
          fx := [PlayAudio(audio.value)];
        } else {
          Dispatch(TtsEnd);
        }
      }
      ClearPending(token);
    }

    /** The catch of startVoice: tear down, mic_stop, report the message. */
    method Abandon(message: string) returns (fx: seq<Effect>)
      modifies this
      ensures Step(Snapshot(), fx) == StartFailed(old(Snapshot()), false, message)
    {
      fx := CleanupResources();
      Dispatch(MicStop);
      Dispatch(Error(message));
    }

    /** startVoice, given how opening the microphone ends. */
    method StartVoice(mic: MicOutcome) returns (fx: seq<Effect>)
      requires Valid()
      modifies this
      ensures Step(Snapshot(), fx) == VoiceSession.StartVoice(old(Snapshot()), mic)
      ensures Valid()
    {
      ghost var s := Snapshot();
      StartVoicePreservesInv(s, mic);
      fx := [];
      if machine.isMicActive {
        return;
      }
      match mic
      case Unavailable =>
        Dispatch(Error(NoMicMessage));
      case Granted =>
        capture := true;
        recorder := Inactive;
        Dispatch(MicStart);
      case Denied =>
        fx := Abandon(DeniedMessage);
      case DeviceFailed =>
        fx := Abandon(StartFailedMessage);
      case SetupFailed =>
        capture := true;
        fx := Abandon(StartFailedMessage);
    }

    method StopVoice() returns (fx: seq<Effect>)
      requires Valid()
      modifies this
      ensures Step(Snapshot(), fx) == VoiceSession.StopVoice(old(Snapshot()))
      ensures Valid()
    {
      ghost var s := Snapshot();
      StopVoicePreservesInv(s);
      fx := CleanupResources();
      if machine.isTtsPlaying {
        Dispatch(TtsEnd);
      }
      Dispatch(MicStop);
      fx := fx + [StopAudio];
    }

    method Toggle(mic: MicOutcome) returns (fx: seq<Effect>)
      requires Valid()
      modifies this
      ensures Step(Snapshot(), fx) == VoiceSession.Toggle(old(Snapshot()), mic)
      ensures Valid()
    {
      if machine.isMicActive {
        fx := StopVoice();
      } else {
        fx := StartVoice(mic);
      }
    }

    method MarkTtsStart(now: int) returns (fx: seq<Effect>)
      requires Valid()
      modifies this
      ensures Step(Snapshot(), fx) == VoiceSession.MarkTtsStart(old(Snapshot()), now)
      ensures Valid()
    {
      fx := [];
      if !machine.isMicActive {
        return;
      }
      Dispatch(TtsStart);
      ttsSuppressionUntil := now + TtsSuppressionMs;
    }

    method MarkTtsEnd() returns (fx: seq<Effect>)
      requires Valid()
      modifies this
      ensures Step(Snapshot(), fx) == VoiceSession.MarkTtsEnd(old(Snapshot()))
      ensures Valid()
    {
      fx := [];
      if !machine.isMicActive {
        return;
      }
      Dispatch(TtsEnd);
    }

    /** The effect on the user id: voice mode stops once there is no user. */
    method UserIdChanged(hasUser: bool) returns (fx: seq<Effect>)
      requires Valid()
      modifies this
      ensures Step(Snapshot(), fx) == UserPresence(old(Snapshot()), hasUser)
      ensures Valid()
    {
      fx := [];
      if !hasUser && machine.isMicActive {
        fx := StopVoice();
      }
    }
  }
}
