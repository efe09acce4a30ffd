/**
 * Properties of the voice engine's callbacks: the voice-activity gate, silence
 * finalisation, barge-in, utterance acceptance, supersession of calls and
 * teardown. Lemmas about one callback come first, then lemmas about runs.
 */
module VoiceProperties {
  import opened Common
  import opened VoiceMachine
  import opened VoiceSession

  // ---------------------------------------------------------------------------
  // The voice-activity gate
  // ---------------------------------------------------------------------------

  /** A frame does nothing when the mic is off, while a call is being transcribed or answered, or inside the suppression window. */
  lemma IgnoredFrameHasNoEffect(s: Session, loudness: int, now: int)
    requires !s.machine.isMicActive || s.machine.status == Transcribing || s.machine.status == AwaitingAi
             || (s.machine.isTtsPlaying && now < s.ttsSuppressionUntil)
    ensures ProcessFrame(s, loudness, now) == Step(s, [])
  {
  }

  /** The threshold is the base of 0.02, raised by 0.05 while playback runs. */
  lemma ThresholdValues()
    ensures Threshold(false) == 20 && Threshold(true) == 70
  {
  }

  /**
   * A frame that passes the gate counts as speech exactly when its loudness
   * exceeds the threshold: a loud frame moves to user_speaking, keeps a
   * recording running and clears the silence start; a quiet one leaves the
   * reducer state, the speech start and the playback flag alone.
   */
  lemma SpeechIffAboveThreshold(s: Session, loudness: int, now: int)
    requires Inv(s) && !FrameIgnored(s, now)
    ensures var r := ProcessFrame(s, loudness, now).session;
      if loudness > Threshold(s.machine.isTtsPlaying) then
        && r.machine.status == UserSpeaking && r.machine.error == None
        && r.recorder == Recording && r.silenceStartedAt == None
      else
        && r.machine == s.machine && r.speechStartedAt == s.speechStartedAt
        && r.chunks == s.chunks && r.pendingCall == s.pendingCall
  {
  }

  /** markTtsStart opens a 500 ms window in which every frame is dropped while playback runs. */
  lemma PlaybackStartSuppressesFrames(s: Session, t0: int, loudness: int, now: int)
    requires s.machine.isMicActive && now < t0 + TtsSuppressionMs
    ensures var started := MarkTtsStart(s, t0).session;
      && started.machine.isTtsPlaying && started.ttsSuppressionUntil == t0 + 500
      && ProcessFrame(started, loudness, now) == Step(started, [])
  {
  }

  // ---------------------------------------------------------------------------
  // Silence
  // ---------------------------------------------------------------------------

  /** While recording, the first quiet frame stamps the silence start and does nothing else. */
  lemma FirstQuietFrameStampsSilence(s: Session, loudness: int, now: int)
    requires !FrameIgnored(s, now) && loudness <= Threshold(s.machine.isTtsPlaying)
    requires s.recorder == Recording && SilenceUnset(s.silenceStartedAt)
    ensures ProcessFrame(s, loudness, now) == Step(s.(silenceStartedAt := Some(now)), [])
  {
  }

  /** A later quiet frame finalises the utterance exactly when 2000 ms have passed since the silence began. */
  lemma QuietFrameFinalisesAfterSilence(s: Session, loudness: int, now: int)
    requires !FrameIgnored(s, now) && loudness <= Threshold(s.machine.isTtsPlaying)
    requires s.recorder == Recording && !SilenceUnset(s.silenceStartedAt)
    ensures var step := ProcessFrame(s, loudness, now);
      if now - s.silenceStartedAt.value >= SilenceDurationMs then
        step == Step(s.(pendingStopProcessing := true, recorder := Inactive), [StopRecorder])
      else
        step == Step(s, [])
  {
  }

  /** A loud frame always clears the silence start. */
  lemma LoudFrameResetsSilence(s: Session, loudness: int, now: int)
    requires !FrameIgnored(s, now) && loudness > Threshold(s.machine.isTtsPlaying)
    ensures ProcessFrame(s, loudness, now).session.silenceStartedAt == None
  {
  }

  // ---------------------------------------------------------------------------
  // Barge-in
  // ---------------------------------------------------------------------------

  /** The conditions under which a frame interrupts playback. */
  predicate BargesIn(s: Session, loudness: int, now: int)
  {
    && !FrameIgnored(s, now)
    && loudness > Threshold(s.machine.isTtsPlaying)
    && s.machine.isTtsPlaying
    && s.recorder == Recording
    && s.speechStartedAt.Some?
    && now - s.speechStartedAt.value >= MinUtteranceMs
  }

  /**
   * A frame stops the audio exactly when playback runs and speech began at
   * least 600 ms before; it then dispatches user_interrupt, which leaves the
   * machine in user_speaking with playback off.
   */
  lemma BargeInIff(s: Session, loudness: int, now: int)
    requires Inv(s)
    ensures StopAudio in ProcessFrame(s, loudness, now).effects <==> BargesIn(s, loudness, now)
    ensures BargesIn(s, loudness, now) ==>
              var m := ProcessFrame(s, loudness, now).session.machine;
              m.status == UserSpeaking && !m.isTtsPlaying
  {
  }

  function RunEffects(s: Session, inputs: seq<Input>): seq<Effect>
  {
    Run(s, inputs).effects
  }

  /** Every input is a frame louder than `level` that falls outside the suppression window ending at `until`. */
  predicate LoudFrames(inputs: seq<Input>, level: int, until: int)
  {
    forall i :: 0 <= i < |inputs| ==> inputs[i].AudioFrame? && inputs[i].loudness > level && inputs[i].now >= until
  }

  /** Some frame of the run comes at least `gap` ms after `t0`. */
  predicate SomeFrameAfter(inputs: seq<Input>, t0: int, gap: int)
    requires forall i :: 0 <= i < |inputs| ==> inputs[i].AudioFrame?
  {
    exists i :: 0 <= i < |inputs| && inputs[i].now - t0 >= gap
  }

  lemma SomeFrameAfterCons(inputs: seq<Input>, t0: int, gap: int)
    requires |inputs| > 0 && forall i :: 0 <= i < |inputs| ==> inputs[i].AudioFrame?
    ensures SomeFrameAfter(inputs, t0, gap) <==> inputs[0].now - t0 >= gap || SomeFrameAfter(inputs[1..], t0, gap)
  {
    if SomeFrameAfter(inputs, t0, gap) && inputs[0].now - t0 < gap {
      var i :| 0 <= i < |inputs| && inputs[i].now - t0 >= gap;
      assert inputs[1..][i - 1] == inputs[i];
    }
    if SomeFrameAfter(inputs[1..], t0, gap) {
      var j :| 0 <= j < |inputs[1..]| && inputs[1..][j].now - t0 >= gap;
      assert inputs[j + 1] == inputs[1..][j];
    }
  }

  /** With playback off, frames never stop the audio, and loud ones keep the machine in user_speaking. */
  lemma {:induction false} NoBargeInWithoutPlayback(s: Session, inputs: seq<Input>)
    requires s.machine.isMicActive && !s.machine.isTtsPlaying && s.machine.status == UserSpeaking
    requires LoudFrames(inputs, BaseThreshold, s.ttsSuppressionUntil)
    ensures multiset(RunEffects(s, inputs))[StopAudio] == 0
    ensures Run(s, inputs).session.machine.status == UserSpeaking
    ensures !Run(s, inputs).session.machine.isTtsPlaying
    decreases |inputs|
  {
    if inputs != [] {
      var first := Apply(s, inputs[0]);
      assert StopAudio !in first.effects;
      NoBargeInWithoutPlayback(first.session, inputs[1..]);
    }
  }

  /** While playback runs and speech started at t0, loud frames stop the audio once, at the first frame 600 ms after t0. */
  lemma {:induction false} LoudFramesDuringPlayback(s: Session, inputs: seq<Input>, t0: int)
    requires s.machine.isMicActive && s.machine.isTtsPlaying && s.machine.status == UserSpeaking
    requires s.recorder == Recording && s.speechStartedAt == Some(t0)
    requires LoudFrames(inputs, Threshold(true), s.ttsSuppressionUntil)
    ensures multiset(RunEffects(s, inputs))[StopAudio] == if SomeFrameAfter(inputs, t0, MinUtteranceMs) then 1 else 0
    ensures SomeFrameAfter(inputs, t0, MinUtteranceMs) ==>
              Run(s, inputs).session.machine.status == UserSpeaking && !Run(s, inputs).session.machine.isTtsPlaying
    decreases |inputs|
  {
    if inputs != [] {
      var first := Apply(s, inputs[0]);
      SomeFrameAfterCons(inputs, t0, MinUtteranceMs);
      if inputs[0].now - t0 >= MinUtteranceMs {
        assert first.effects == [StopAudio];
        assert LoudFrames(inputs[1..], BaseThreshold, first.session.ttsSuppressionUntil);
        NoBargeInWithoutPlayback(first.session, inputs[1..]);
      } else {
        assert first.effects == [];
        LoudFramesDuringPlayback(first.session, inputs[1..], t0);
      }
    }
  }

  /**
   * Barge-in: in ai_speaking, a stream of loud frames starts a recording at
   * the first frame and stops the audio exactly once if the stream lasts at
   * least 600 ms, never otherwise; the machine then ends in user_speaking with
   * playback off.
   */
  lemma BargeInFiresOnce(s: Session, inputs: seq<Input>)
    requires Inv(s)
    requires s.machine.isMicActive && s.machine.isTtsPlaying && s.machine.status == AiSpeaking
    requires s.recorder == Inactive
    requires |inputs| > 0 && LoudFrames(inputs, Threshold(true), s.ttsSuppressionUntil)
    ensures multiset(RunEffects(s, inputs))[StopAudio] ==
              if SomeFrameAfter(inputs, inputs[0].now, MinUtteranceMs) then 1 else 0
    ensures SomeFrameAfter(inputs, inputs[0].now, MinUtteranceMs) ==>
              Run(s, inputs).session.machine.status == UserSpeaking && !Run(s, inputs).session.machine.isTtsPlaying
  {
    var t0 := inputs[0].now;
    var first := Apply(s, inputs[0]);
    assert first.effects == [StartRecorder(TimesliceMs)];
    SomeFrameAfterCons(inputs, t0, MinUtteranceMs);
    LoudFramesDuringPlayback(first.session, inputs[1..], t0);
  }

  // ---------------------------------------------------------------------------
  // Silence finalisation over a run of frames
  // ---------------------------------------------------------------------------

  /** Every input is a frame no louder than the base threshold. */
  predicate QuietFrames(inputs: seq<Input>)
  {
    forall i :: 0 <= i < |inputs| ==> inputs[i].AudioFrame? && inputs[i].loudness <= BaseThreshold
  }

  /** The engine listens without playback: quiet frames are looked at. */
  predicate ListeningQuietly(s: Session)
  {
    && s.machine.isMicActive && !s.machine.isTtsPlaying
    && s.machine.status != Transcribing && s.machine.status != AwaitingAi
  }

  /** Once the recorder is stopped, quiet frames change nothing. */
  lemma {:induction false} QuietFramesWhileStopped(s: Session, inputs: seq<Input>)
    requires ListeningQuietly(s) && s.recorder != Recording && QuietFrames(inputs)
    ensures Run(s, inputs) == Step(s, [])
    decreases |inputs|
  {
    if inputs != [] {
      QuietFramesWhileStopped(s, inputs[1..]);
    }
  }

  /** With the silence stamped at t0, quiet frames stop the recorder once, at the first frame 2000 ms after t0. */
  lemma {:induction false} QuietFramesAfterStamp(s: Session, inputs: seq<Input>, t0: int)
    requires ListeningQuietly(s) && s.recorder == Recording
    requires s.silenceStartedAt == Some(t0) && t0 != 0
    requires QuietFrames(inputs)
    ensures RunEffects(s, inputs) == if SomeFrameAfter(inputs, t0, SilenceDurationMs) then [StopRecorder] else []
    ensures Run(s, inputs).session.machine == s.machine
    decreases |inputs|
  {
    if inputs != [] {
      var first := Apply(s, inputs[0]);
      SomeFrameAfterCons(inputs, t0, SilenceDurationMs);
      if inputs[0].now - t0 >= SilenceDurationMs {
        assert first.effects == [StopRecorder];
        QuietFramesWhileStopped(first.session, inputs[1..]);
      } else {
        assert first == Step(s, []);
        QuietFramesAfterStamp(s, inputs[1..], t0);
      }
    }
  }

  /**
   * Silence finalisation: while recording, a run of quiet frames stamps the
   * silence start at its first frame and stops the recorder exactly once if
   * the run lasts at least 2000 ms, never otherwise; the reducer state does
   * not change along the way.
   */
  lemma SilenceFinalisesOnce(s: Session, inputs: seq<Input>)
    requires ListeningQuietly(s) && s.recorder == Recording && SilenceUnset(s.silenceStartedAt)
    requires |inputs| > 0 && QuietFrames(inputs) && inputs[0].now != 0
    ensures RunEffects(s, inputs) ==
              if SomeFrameAfter(inputs, inputs[0].now, SilenceDurationMs) then [StopRecorder] else []
    ensures Run(s, inputs).session.machine == s.machine
  {
    var t0 := inputs[0].now;
    var first := Apply(s, inputs[0]);
    assert first == Step(s.(silenceStartedAt := Some(t0)), []);
    SomeFrameAfterCons(inputs, t0, SilenceDurationMs);
    QuietFramesAfterStamp(first.session, inputs[1..], t0);
  }

  // ---------------------------------------------------------------------------
  // Recording
  // ---------------------------------------------------------------------------

  /** beginRecording is a no-op while already recording, and otherwise starts a fresh utterance. */
  lemma BeginRecordingFacts(s: Session, now: int)
    ensures s.recorder == Recording ==> BeginRecording(s, now) == Step(s, [])
    ensures s.recorder == Inactive ==>
              var r := BeginRecording(s, now).session;
              r.recorder == Recording && r.chunks == [] && r.speechStartedAt == Some(now)
              && r.silenceStartedAt == None && !r.pendingStopProcessing
  {
  }

  /** cleanupResources empties the buffer, resets every timing ref and flag, and aborts the pending call. */
  lemma CleanupResetsRefs(s: Session)
    ensures var r := Cleanup(s).session;
      && r.chunks == [] && r.silenceStartedAt == None && r.speechStartedAt == None
      && !r.pendingStopProcessing && !r.ignoreNextRecorderStop && r.ttsSuppressionUntil == 0
      && r.pendingCall == None && r.recorder == NoRecorder && !r.capture
      && (s.pendingCall.Some? ==> s.pendingCall.value in r.aborted && AbortCall(s.pendingCall.value) in Cleanup(s).effects)
      && r.machine == s.machine
  {
  }

  /** The length of the recorded utterance, as handleRecordedBlob measures it. */
  function Duration(s: Session, now: int): int
  {
    if s.speechStartedAt.Some? then now - s.speechStartedAt.value else 0
  }

  /** A short or empty utterance is dropped: no effect, no event, the buffer emptied. */
  lemma ShortUtteranceDiscarded(s: Session, now: int)
    requires Duration(s, now) < MinUtteranceMs || |s.chunks| == 0
    ensures RecordedBlob(s, now) ==
              Step(s.(pendingStopProcessing := false, speechStartedAt := None, chunks := []), [])
  {
  }

  /**
   * An accepted utterance starts a new call with a fresh token, aborts the
   * call it supersedes, sends all the buffered bytes and moves to
   * transcribing. Empty chunks never reach the buffer, so the empty-blob
   * error is never reported from a reachable session.
   */
  lemma UtteranceAccepted(s: Session, now: int)
    requires Inv(s) && s.machine.isMicActive
    requires Duration(s, now) >= MinUtteranceMs && |s.chunks| > 0
    ensures var step := RecordedBlob(s, now);
      && step.session.pendingCall == Some(s.nextToken)
      && step.session.nextToken == s.nextToken + 1
      && step.session.machine.status == Transcribing
      && step.session.chunks == []
      && step.effects == (if s.pendingCall.Some? then [AbortCall(s.pendingCall.value)] else [])
                         + [Transcribe(s.nextToken, Flatten(s.chunks))]
      && (s.pendingCall.Some? ==> s.pendingCall.value in step.session.aborted)
      && s.nextToken !in s.aborted
  {
    assert |s.chunks[0]| > 0;
  }

  // ---------------------------------------------------------------------------
  // Latest transcription wins
  // ---------------------------------------------------------------------------

  /** The result of a call that is not the pending one changes nothing that can be seen. */
  lemma StaleTranscriptionIgnored(s: Session, token: nat, outcome: SttOutcome)
    requires Inv(s) && s.pendingCall != Some(token)
    ensures var step := TranscriptionSettled(s, token, outcome);
      step.effects == [] && step.session.machine == s.machine && step.session.pendingCall == s.pendingCall
  {
  }

  lemma StaleReplyIgnored(s: Session, token: nat, audio: Option<seq<Byte>>)
    requires Inv(s) && s.pendingCall != Some(token)
    ensures var step := ReplySettled(s, token, audio);
      step.effects == [] && step.session.machine == s.machine && step.session.pendingCall == s.pendingCall
  {
  }

  /** A call superseded by a newer utterance can no longer change the state derived from the newer one. */
  lemma SupersededCallIsSilent(s: Session, now: int, outcome: SttOutcome, audio: Option<seq<Byte>>)
    requires Inv(s) && s.machine.isMicActive && s.pendingCall.Some?
    requires Duration(s, now) >= MinUtteranceMs && |s.chunks| > 0
    ensures var newer := RecordedBlob(s, now).session;
      && TranscriptionSettled(newer, s.pendingCall.value, outcome) ==
           Step(newer.(transcribing := newer.transcribing - {s.pendingCall.value}), [])
      && ReplySettled(newer, s.pendingCall.value, audio).session.machine == newer.machine
      && ReplySettled(newer, s.pendingCall.value, audio).effects == []
  {
    UtteranceAccepted(s, now);
    RecordedBlobPreservesInv(s, now);
    StaleReplyIgnored(RecordedBlob(s, now).session, s.pendingCall.value, audio);
  }

  /** The pending ref is cleared by a call's `finally` only when it still holds that call. */
  lemma FinishClearsOnlyOwnToken(s: Session, token: nat)
    ensures s.pendingCall == Some(token) ==> Finish(s, token).pendingCall == None
    ensures s.pendingCall != Some(token) ==> Finish(s, token) == s
  {
  }

  // ---------------------------------------------------------------------------
  // Teardown
  // ---------------------------------------------------------------------------

  /**
   * stopVoice releases everything: back to the initial reducer state, no
   * recorder, no capture, no pending call, every call in flight aborted, the
   * buffer empty, and the audio stopped last.
   */
  lemma StopVoiceTearsDown(s: Session)
    requires Inv(s)
    ensures var step := StopVoice(s); var r := step.session;
      && r.machine == Initial
      && r.recorder == NoRecorder && !r.capture && r.pendingCall == None && r.chunks == []
      && r.transcribing + r.replying <= r.aborted
      && |step.effects| > 0 && step.effects[|step.effects| - 1] == StopAudio
      && (s.pendingCall.Some? ==> AbortCall(s.pendingCall.value) in step.effects)
      && (StopRecorder in step.effects <==> s.recorder == Recording)
      && (ReleaseCapture in step.effects <==> s.capture)
      && Inv(r)
  {
    StopVoicePreservesInv(s);
  }

  /** Inputs that do not ask to open or close the microphone. */
  predicate Passive(i: Input)
  {
    !i.StartRequested? && !i.ToggleRequested? && !i.StopRequested?
  }

  /**
   * While the mic is off, nothing but a request to start can be observed:
   * frames, recorder events, late call results and playback marks leave the
   * reducer state as it is and have no effect.
   */
  lemma {:induction false} QuiescentWhileMicOff(s: Session, inputs: seq<Input>)
    requires Inv(s) && !s.machine.isMicActive
    requires forall i :: 0 <= i < |inputs| ==> Passive(inputs[i])
    ensures RunEffects(s, inputs) == [] && Run(s, inputs).session.machine == s.machine
    decreases |inputs|
  {
    if inputs != [] {
      ApplyPreservesInv(s, inputs[0]);
      var first := Apply(s, inputs[0]);
      assert first.effects == [] && first.session.machine == s.machine;
      QuiescentWhileMicOff(first.session, inputs[1..]);
    }
  }

  /** After stopVoice, no late result and no frame can produce an effect. */
  lemma NothingObservableAfterStop(s: Session, inputs: seq<Input>)
    requires Inv(s)
    requires forall i :: 0 <= i < |inputs| ==> Passive(inputs[i])
    ensures RunEffects(StopVoice(s).session, inputs) == []
    ensures Run(StopVoice(s).session, inputs).session.machine == Initial
  {
    StopVoiceTearsDown(s);
    QuiescentWhileMicOff(StopVoice(s).session, inputs);
  }

  // ---------------------------------------------------------------------------
  // The reply of an aborted call
  // ---------------------------------------------------------------------------

  /**
   * As written, the reply phase of a call has no abort check: a call aborted
   * after its transcription succeeded still dispatches ai_reply and plays its
   * audio. The corrected reply step drops it.
   */
  lemma AsWrittenPlaysAbortedReply(s: Session, token: nat, blob: seq<Byte>)
    requires token in s.replying && token in s.aborted
    ensures ReplySettledAsWritten(s, token, Some(blob)).effects == [PlayAudio(blob)]
    ensures ReplySettled(s, token, Some(blob)).effects == []
    ensures ReplySettled(s, token, Some(blob)).session.machine == s.machine
  {
  }

  /** The inputs that reach that situation: one utterance, a successful transcription, then stop. */
  const UtteranceThenStop: seq<Input> := [
    StartRequested(Granted),
    AudioFrame(100, 1000),
    ChunkAvailable([1]),
    AudioFrame(0, 1500),
    AudioFrame(0, 3500),
    RecorderStop(3500),
    SttDone(0, SttText("おはよう")),
    StopRequested]

  /** The fields the run below keeps fixed until the stop: mic on, no playback, no call aborted yet. */
  predicate Listening(s: Session)
  {
    && s.machine.isMicActive && s.capture && !s.machine.isTtsPlaying
    && !s.ignoreNextRecorderStop && s.aborted == {}
  }

  /** Recording the utterance that began at 1000 ms, with `chunks` buffered and no call yet. */
  predicate RecordingUtterance(s: Session, chunks: seq<Chunk>, silence: Option<int>)
  {
    && Listening(s) && s.machine.status == UserSpeaking && s.recorder == Recording
    && s.speechStartedAt == Some(1000) && s.silenceStartedAt == silence && s.chunks == chunks
    && !s.pendingStopProcessing && s.pendingCall == None && s.transcribing == {} && s.replying == {}
    && s.nextToken == 0
  }

  lemma RunStep(s: Session, ins: seq<Input>)
    requires |ins| > 0
    ensures Run(s, ins).session == Run(Apply(s, ins[0]).session, ins[1..]).session
  {
  }

  lemma StartsListening()
    ensures var s := Apply(InitialSession, StartRequested(Granted)).session;
      Listening(s) && s.machine.status == VoiceMode && s.recorder == Inactive && s.chunks == []
      && s.nextToken == 0 && s.pendingCall == None && s.transcribing == {} && s.replying == {}
  {
  }

  lemma LoudFrameStartsUtterance(s: Session)
    requires Listening(s) && s.machine.status == VoiceMode && s.recorder == Inactive
    requires s.pendingCall == None && s.transcribing == {} && s.replying == {} && s.nextToken == 0
    ensures RecordingUtterance(Apply(s, AudioFrame(100, 1000)).session, [], None)
  {
  }

  lemma ChunkBuffered(s: Session)
    requires RecordingUtterance(s, [], None)
    ensures RecordingUtterance(Apply(s, ChunkAvailable([1])).session, [[1]], None)
  {
  }

  lemma QuietFrameStamps(s: Session)
    requires RecordingUtterance(s, [[1]], None)
    ensures RecordingUtterance(Apply(s, AudioFrame(0, 1500)).session, [[1]], Some(1500))
  {
  }

  lemma SilenceStopsRecorder(s: Session)
    requires RecordingUtterance(s, [[1]], Some(1500))
    ensures var r := Apply(s, AudioFrame(0, 3500)).session;
      r == s.(recorder := Inactive, pendingStopProcessing := true)
  {
  }

  lemma StopStartsCall(s: Session)
    requires RecordingUtterance(s.(recorder := Recording, pendingStopProcessing := false), [[1]], Some(1500))
    requires s.recorder == Inactive && s.pendingStopProcessing
    ensures var r := Apply(s, RecorderStop(3500)).session;
      Listening(r) && r.machine.status == Transcribing && r.recorder == Inactive
      && r.pendingCall == Some(0) && r.transcribing == {0} && r.replying == {}
  {
    assert Flatten([[1]]) == [1];
  }

  lemma TranscriptArrives(s: Session)
    requires Listening(s) && s.machine.status == Transcribing
    requires s.pendingCall == Some(0) && s.transcribing == {0} && s.replying == {}
    ensures var r := Apply(s, SttDone(0, SttText("おはよう"))).session;
      Listening(r) && r.pendingCall == Some(0) && r.transcribing == {} && r.replying == {0}
  {
  }

  lemma StopAbortsCall(s: Session)
    requires Listening(s) && s.pendingCall == Some(0) && s.replying == {0}
    ensures var r := Apply(s, StopRequested).session;
      !r.machine.isMicActive && 0 in r.replying && 0 in r.aborted
  {
  }

  /**
   * The situation is reachable: after the inputs above the microphone is off,
   * and call 0 is both aborted and waiting for its reply, so the hook as
   * written would play audio after voice mode was stopped.
   */
  lemma AbortedReplyReachable()
    ensures var s := Run(InitialSession, UtteranceThenStop).session;
      && !s.machine.isMicActive && 0 in s.replying && 0 in s.aborted
      && ReplySettledAsWritten(s, 0, Some([7])).effects == [PlayAudio([7])]
      && ReplySettled(s, 0, Some([7])).effects == []
  {
    var ins := UtteranceThenStop;
    var s0 := InitialSession;
    var s1 := Apply(s0, ins[0]).session;
    StartsListening();
    var s2 := Apply(s1, ins[1]).session;
    LoudFrameStartsUtterance(s1);
    var s3 := Apply(s2, ins[2]).session;
    ChunkBuffered(s2);
    var s4 := Apply(s3, ins[3]).session;
    QuietFrameStamps(s3);
    var s5 := Apply(s4, ins[4]).session;
    SilenceStopsRecorder(s4);
    var s6 := Apply(s5, ins[5]).session;
    StopStartsCall(s5);
    var s7 := Apply(s6, ins[6]).session;
    TranscriptArrives(s6);
    var s8 := Apply(s7, ins[7]).session;
    StopAbortsCall(s7);
    RunStep(s0, ins);
    RunStep(s1, ins[1..]);
    RunStep(s2, ins[2..]);
    RunStep(s3, ins[3..]);
    RunStep(s4, ins[4..]);
    RunStep(s5, ins[5..]);
    RunStep(s6, ins[6..]);
    RunStep(s7, ins[7..]);
    assert ins[8..] == [];
    AsWrittenPlaysAbortedReply(s8, 0, [7]);
  }
}
