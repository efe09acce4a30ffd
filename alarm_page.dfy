/**
 * The ringing-alarm page: the silence-escalation rule and its re-armable
 * silence timer, the reset-on-genuine-reply rule, the playback callbacks it
 * hands to the voice engine, and the slide-to-stop gesture.
 *
 * The page is an object whose fields are its state variables and refs; what
 * it does to the browser, the server and the voice engine is returned as a
 * sequence of effects.
 */
module AlarmPage {
  import opened Common
  import opened VoiceMachine

  const SilenceTimeoutMs: nat := 8000
  const MaxEscalationLevel: nat := 3
  const StopNavigationDelayMs: nat := 500
  /** The slide must pass 0.8 of the track, in thousandths. */
  const StopSlideThreshold: int := 800

  const EscalationPrefix: string := SilenceSignal + " ユーザーがまだ起きていません。強制的に起こしてください。現在のレベル: "

  /** The text sent when the silence timer runs out at `level`. */
  function EscalationMessage(level: nat): string
  {
    EscalationPrefix + NatToString(level)
  }

  /** The level after one more timeout: one step up, capped at 3. */
  function Escalate(level: nat): nat
  {
    if level + 1 < MaxEscalationLevel then level + 1 else MaxEscalationLevel
  }

  /** The level after `n` timeouts in a row with no genuine reply in between. */
  function Escalations(level: nat, n: nat): nat
    decreases n
  {
    if n == 0 then level else Escalations(Escalate(level), n - 1)
  }

  /** One escalation keeps the level in 0..3 and never lowers it. */
  lemma EscalateBounded(level: nat)
    requires level <= MaxEscalationLevel
    ensures level <= Escalate(level) <= MaxEscalationLevel
    ensures Escalate(level) == if level < MaxEscalationLevel then level + 1 else level
  {
  }

  /** From a level in range, n timeouts give min(level + n, 3). */
  lemma {:induction false} EscalationsCap(level: nat, n: nat)
    requires level <= MaxEscalationLevel
    ensures Escalations(level, n) == if level + n < MaxEscalationLevel then level + n else MaxEscalationLevel
    decreases n
  {
    if n > 0 {
      EscalationsCap(Escalate(level), n - 1);
    }
  }

  /** From 0, n timeouts give min(n, 3), and one more never gives less. */
  lemma EscalationsFromZero(n: nat)
    ensures Escalations(0, n) == if n < MaxEscalationLevel then n else MaxEscalationLevel
    ensures Escalations(0, n) <= Escalations(0, n + 1)
  {
    EscalationsCap(0, n);
    EscalationsCap(0, n + 1);
  }

  /** Every escalation message carries the signal, so its reply never resets the level. */
  lemma EscalationMessageSignalled(level: nat)
    ensures Contains(EscalationMessage(level), SilenceSignal)
  {
    var m := EscalationMessage(level);
    var rest := " ユーザーがまだ起きていません。強制的に起こしてください。現在のレベル: " + NatToString(level);
    assert m == SilenceSignal + rest;
    assert m[0..|SilenceSignal|] == SilenceSignal;
    assert OccursAt(m, SilenceSignal, 0);
  }

  // ---------------------------------------------------------------------------
  // Chains of silence timeouts: as the page is written, and as intended
  // ---------------------------------------------------------------------------

  /**
   * What the callbacks of one render close over: the escalation level and the
   * user. resetSilenceTimer is rebuilt only when the level changes, so the
   * render whose callbacks a timer runs is the one in which the level last
   * changed, with the user as it was then.
   */
  datatype Render = Render(level: nat, userId: Option<string>)

  /**
   * The levels posted by n silence timeouts in a row, as the page is written,
   * every signalled reply carrying audio. The timer runs the handleEscalation
   * of the render `r` that armed it: the level becomes Escalate(r.level) and
   * that level is posted for r's user, or nothing is posted without one, and
   * then nothing re-arms the timer. The reply is played by r's handlePlayAudio,
   * whose onended re-arms through r's resetSilenceTimer, so the next timeout
   * runs r's handleEscalation again.
   */
  function StaleChain(r: Render, n: nat): (posted: seq<nat>)
    ensures |posted| <= n
    decreases n
  {
    if n == 0 || !Truthy(r.userId) then [] else [Escalate(r.level)] + StaleChain(r, n - 1)
  }

  /**
   * The same chain when every timeout reads the page's current level, the one
   * the previous timeout raised, and the current user.
   */
  function FreshChain(level: nat, userId: Option<string>, n: nat): (posted: seq<nat>)
    ensures |posted| <= n
    decreases n
  {
    if n == 0 || !Truthy(userId) then [] else [Escalate(level)] + FreshChain(Escalate(level), userId, n - 1)
  }

  /**
   * As written, a chain armed after a genuine reply reset the level to 0
   * posts level 1 every time, never 2 or 3; a chain armed by the first
   * render, before the stored user was read, posts nothing at all.
   */
  lemma {:induction false} StaleChainStuck(u: string, n: nat)
    requires u != ""
    ensures StaleChain(Render(0, Some(u)), n) == seq(n, i => 1)
    ensures StaleChain(Render(0, None), n) == []
    ensures n >= 2 ==> StaleChain(Render(0, Some(u)), n) != FreshChain(0, Some(u), n)
    decreases n
  {
    if n > 0 {
      StaleChainStuck(u, n - 1);
      assert StaleChain(Render(0, Some(u)), n) == [1] + seq(n - 1, i => 1);
    }
    if n >= 2 {
      FreshChainClimbs(0, Some(u), n);
      assert FreshChain(0, Some(u), n)[1] == Escalations(0, 2) == 2;
    }
  }

  /** As intended, the i-th of n timeouts from a level in range posts min(level + i + 1, 3). */
  lemma {:induction false} FreshChainClimbs(level: nat, userId: Option<string>, n: nat)
    requires level <= MaxEscalationLevel && Truthy(userId)
    ensures |FreshChain(level, userId, n)| == n
    ensures forall i :: 0 <= i < n ==>
      FreshChain(level, userId, n)[i] == Escalations(level, i + 1)
                                      == if level + i + 1 < MaxEscalationLevel then level + i + 1 else MaxEscalationLevel
    decreases n
  {
    if n > 0 {
      var next := Escalate(level);
      FreshChainClimbs(next, userId, n - 1);
      forall i | 0 <= i < n
        ensures FreshChain(level, userId, n)[i] == Escalations(level, i + 1)
                == if level + i + 1 < MaxEscalationLevel then level + i + 1 else MaxEscalationLevel
      {
        if i > 0 {
          assert FreshChain(level, userId, n)[i] == FreshChain(next, userId, n - 1)[i - 1];
        }
        EscalationsCap(level, i + 1);
      }
    }
  }

  /** The reply the chat route sends back: its text and, when speech synthesis worked, the audio. */
  datatype ChatReply = ChatReply(text: string, audio: Option<seq<Byte>>)

  datatype PageEffect =
    | ClearTimer(timer: nat)                                      // clearTimeout
    | ArmTimer(timer: nat, delayMs: nat)                          // setTimeout(handleEscalation, delay)
    | PostChat(userId: string, content: string, escalationLevel: nat) // POST to the chat route, with an empty history
    | PlayReply(audio: seq<Byte>)                                 // new Audio(...).play()
    | PauseAudio                                                  // pause and rewind the current audio
    | EngineTtsStart                                              // voiceConversation.markTtsStart()
    | EngineTtsEnd                                                // voiceConversation.markTtsEnd()
    | EngineStart                                                 // voiceConversation.start()
    | EngineStop                                                  // voiceConversation.stop()
    | StopAlarm                                                   // the alarm engine's stopAlarm()
    | NavigateHome(delayMs: nat)                                  // router.push('/') after a delay

  /** The slide position as a fraction of the track in thousandths, clamped to 0..1000. */
  function ClampProgress(ratio: int): (r: int)
    ensures 0 <= r <= 1000
    ensures 0 <= ratio <= 1000 ==> r == ratio
    ensures ratio < 0 ==> r == 0
    ensures ratio > 1000 ==> r == 1000
  {
    if ratio < 0 then 0 else if ratio > 1000 then 1000 else ratio
  }

  /** The timer held in the ref, as a set: empty when the ref is null. */
  function HeldTimer(ref: Option<nat>): set<nat>
  {
    if ref.Some? then {ref.value} else {}
  }

  /** A pending-timer set inside the held one has at most one element. */
  lemma AtMostOneTimer(pending: set<nat>, ref: Option<nat>)
    requires pending <= HeldTimer(ref)
    ensures |pending| <= 1
    ensures ref.None? ==> pending == {}
  {
    if ref.Some? {
      assert HeldTimer(ref) == {ref.value};
      if pending != {} {
        assert pending == {ref.value};
      }
    }
  }

  /** The page's state variables and refs as a value. */
  datatype PageState = PageState(
    userId: Option<string>,
    escalationLevel: nat,
    silenceTimer: Option<nat>,
    pendingTimers: set<nat>,
    nextTimerId: nat,
    wakeUpMessage: string,
    hasAudio: bool,
    isPlaying: bool,
    slideProgress: int,
    isStopping: bool)

  /** The page after the held timer is cleared, if any: the ref empty and no timer pending. */
  function TimerStopped(p: PageState): PageState
  {
    p.(silenceTimer := None, pendingTimers := p.pendingTimers - HeldTimer(p.silenceTimer))
  }

  /** The page after a fresh timer is armed in place of the held one. */
  function TimerRearmed(p: PageState): PageState
  {
    p.(silenceTimer := Some(p.nextTimerId),
       pendingTimers := p.pendingTimers - HeldTimer(p.silenceTimer) + {p.nextTimerId},
       nextTimerId := p.nextTimerId + 1)
  }

  /** The effect of clearing the held timer. */
  function ClearHeld(p: PageState): seq<PageEffect>
  {
    if p.silenceTimer.Some? then [ClearTimer(p.silenceTimer.value)] else []
  }

  /**
   * The level stays in 0..3, and the only timer that can still fire is the
   * one the ref holds, so at most one escalation is ever scheduled.
   */
  ghost predicate PageInv(p: PageState)
  {
    && p.escalationLevel <= MaxEscalationLevel
    && p.pendingTimers <= HeldTimer(p.silenceTimer)
    && (forall t :: t in p.pendingTimers ==> t < p.nextTimerId)
    && 0 <= p.slideProgress <= 1000
  }

  /** Re-arming keeps the invariant and leaves exactly the new timer pending. */
  lemma RearmLeavesOneTimer(p: PageState)
    requires PageInv(p)
    ensures PageInv(TimerRearmed(p)) && TimerRearmed(p).pendingTimers == {p.nextTimerId}
    ensures |TimerRearmed(p).pendingTimers| == 1
  {
    AtMostOneTimer(p.pendingTimers, p.silenceTimer);
    if p.silenceTimer.Some? {
      assert p.nextTimerId !in p.pendingTimers;
    }
  }

  /** Stopping keeps the invariant, leaves no timer pending, and a second stop changes nothing. */
  lemma StopLeavesNoTimer(p: PageState)
    requires PageInv(p)
    ensures PageInv(TimerStopped(p)) && TimerStopped(p).pendingTimers == {}
    ensures TimerStopped(TimerStopped(p)) == TimerStopped(p)
  {
    AtMostOneTimer(p.pendingTimers, p.silenceTimer);
  }

  class Page {
    var userId: Option<string>
    var escalationLevel: nat
    var silenceTimer: Option<nat>   // silenceTimerRef: the last timer armed, until stopped
    var pendingTimers: set<nat>     // timers armed and neither fired nor cleared
    var nextTimerId: nat
    var wakeUpMessage: string
    var hasAudio: bool              // audioRef holds an audio element
    var isPlaying: bool
    var slideProgress: int          // thousandths of the track
    var isStopping: bool

    function Snapshot(): PageState
      reads this
    {
      PageState(userId, escalationLevel, silenceTimer, pendingTimers, nextTimerId,
                wakeUpMessage, hasAudio, isPlaying, slideProgress, isStopping)
    }

    ghost predicate Valid()
      reads this
    {
      PageInv(Snapshot())
    }

    constructor()
      ensures Valid()
      ensures Snapshot() == PageState(None, 0, None, {}, 1, "", false, false, 0, false)
    {
      userId := None;
      escalationLevel := 0;
      silenceTimer := None;
      pendingTimers := {};
      nextTimerId := 1;
      wakeUpMessage := "";
      hasAudio := false;
      isPlaying := false;
      slideProgress := 0;
      isStopping := false;
    }

    /** The stored user id was read on mount. */
    method UserLoaded(id: string)
      requires Valid()
      modifies this
      ensures Valid() && Snapshot() == old(Snapshot()).(userId := Some(id))
    {
      userId := Some(id);
    }

    /** resetSilenceTimer: clear the held timer, if any, and arm a fresh 8-second one. */
    method ResetSilenceTimer() returns (fx: seq<PageEffect>)
      requires Valid()
      modifies this
      ensures Valid() && Snapshot() == TimerRearmed(old(Snapshot()))
      ensures fx == ClearHeld(old(Snapshot())) + [ArmTimer(old(nextTimerId), SilenceTimeoutMs)]
      ensures pendingTimers == {old(nextTimerId)}
    {
      RearmLeavesOneTimer(Snapshot());
      fx := [];
      var remaining := pendingTimers;
      if silenceTimer.Some? {
        fx := [ClearTimer(silenceTimer.value)];
        remaining := pendingTimers - {silenceTimer.value};
      }
      var id := nextTimerId;
      fx := fx + [ArmTimer(id, SilenceTimeoutMs)];
      pendingTimers, silenceTimer, nextTimerId := remaining + {id}, Some(id), id + 1;
    }

    /** stopSilenceTimer: clear the held timer, if any; afterwards none is pending. */
    method StopSilenceTimer() returns (fx: seq<PageEffect>)
      requires Valid()
      modifies this
      ensures Valid() && Snapshot() == TimerStopped(old(Snapshot()))
      ensures fx == ClearHeld(old(Snapshot()))
      ensures pendingTimers == {}
    {
      StopLeavesNoTimer(Snapshot());
      fx := [];
      if silenceTimer.Some? {
        fx := [ClearTimer(silenceTimer.value)];
        pendingTimers := pendingTimers - {silenceTimer.value};
        silenceTimer := None;
      }
    }

    /** handleSendMessage up to the request: nothing without a user, else a POST at the given or current level. */
    method SendMessage(text: string, level: Option<nat>) returns (fx: seq<PageEffect>)
      ensures !Truthy(userId) ==> fx == []
      ensures Truthy(userId) ==>
                fx == [PostChat(userId.value, text, if level.Some? then level.value else escalationLevel)]
    {
      if !Truthy(userId) {
        return [];
      }
      var currentLevel := if level.Some? then level.value else escalationLevel;
      fx := [PostChat(userId.value, text, currentLevel)];
    }

    /** handlePlayAudio: stop the silence timer, tell the engine playback started, play. */
    method PlayAudio(audio: seq<Byte>) returns (fx: seq<PageEffect>)
      requires Valid()
      modifies this
      ensures Valid() && Snapshot() == TimerStopped(old(Snapshot())).(hasAudio := true, isPlaying := true)
      ensures fx == ClearHeld(old(Snapshot())) + [EngineTtsStart, PlayReply(audio)]
    {
      hasAudio := true;
      fx := StopSilenceTimer();
      fx := fx + [EngineTtsStart];
      isPlaying := true;
      fx := fx + [PlayReply(audio)];
    }

    /**
     * The settled request of handleSendMessage. A failed request changes
     * nothing and yields null. A successful one shows the reply; a genuine
     * send resets the level to 0 and hands the audio back to the engine,
     * while a system-signal send keeps the level and plays the audio here.
     */
    method SendSettled(text: string, reply: Option<ChatReply>) returns (fx: seq<PageEffect>, result: Option<seq<Byte>>)
      requires Valid()
      modifies this
      ensures Valid()
      ensures reply.None? ==> fx == [] && result == None && Snapshot() == old(Snapshot())
      ensures reply.Some? ==>
                var shown := old(Snapshot()).(
                  wakeUpMessage := reply.value.text,
                  escalationLevel := if Contains(text, SilenceSignal) then old(escalationLevel) else 0);
                if reply.value.audio.Some? && Contains(text, SilenceSignal) then
                  && Snapshot() == TimerStopped(shown).(hasAudio := true, isPlaying := true)
                  && fx == ClearHeld(shown) + [EngineTtsStart, PlayReply(reply.value.audio.value)]
                else
                  Snapshot() == shown && fx == []
      ensures result == if reply.Some? then reply.value.audio else None
    {
      fx := [];
      result := None;
      if reply.None? {
        return;
      }
      wakeUpMessage := reply.value.text;
      var signalled := Contains(text, SilenceSignal);
      if !signalled {
        escalationLevel := 0;
      }
      if reply.value.audio.Some? {
        var blob := reply.value.audio.value;
        if signalled {
          fx := PlayAudio(blob);
        }
        result := Some(blob);
      }
    }

    /** handleEscalation: step the level up, capped at 3, and send the silence signal at the new level. */
    method HandleEscalation() returns (fx: seq<PageEffect>)
      requires Valid()
      modifies this
      ensures Valid() && Snapshot() == old(Snapshot()).(escalationLevel := Escalate(old(escalationLevel)))
      ensures !Truthy(userId) ==> fx == []
      ensures Truthy(userId) ==> fx == [PostChat(userId.value, EscalationMessage(escalationLevel), escalationLevel)]
    {
      var nextLevel := Escalate(escalationLevel);
      escalationLevel := nextLevel;
      fx := SendMessage(EscalationMessage(nextLevel), Some(nextLevel));
    }

    /** A timer fires: only a pending one runs the escalation, and it is no longer pending afterwards. */
    method TimerFired(timer: nat) returns (fx: seq<PageEffect>)
      requires Valid()
      modifies this
      ensures Valid()
      ensures timer !in old(pendingTimers) ==> fx == [] && Snapshot() == old(Snapshot())
      ensures timer in old(pendingTimers) ==>
                && Snapshot() == old(Snapshot()).(escalationLevel := Escalate(old(escalationLevel)),
                                                  pendingTimers := old(pendingTimers) - {timer})
                && fx == (if Truthy(userId) then [PostChat(userId.value, EscalationMessage(escalationLevel), escalationLevel)] else [])
    {
      fx := [];
      if timer !in pendingTimers {
        return;
      }
      pendingTimers := pendingTimers - {timer};
      fx := HandleEscalation();
    }

    /** audio.onended: playback over, tell the engine, re-arm the silence timer. */
    method AudioEnded() returns (fx: seq<PageEffect>)
      requires Valid()
      modifies this
      ensures Valid() && Snapshot() == TimerRearmed(old(Snapshot())).(isPlaying := false)
      ensures fx == [EngineTtsEnd] + ClearHeld(old(Snapshot())) + [ArmTimer(old(nextTimerId), SilenceTimeoutMs)]
    {
      isPlaying := false;
      fx := [EngineTtsEnd];
      var armed := ResetSilenceTimer();
      fx := fx + armed;
    }

    /** audio.onerror: playback over, tell the engine; the silence timer is not re-armed. */
    method AudioFailed() returns (fx: seq<PageEffect>)
      requires Valid()
      modifies this
      ensures Valid() && Snapshot() == old(Snapshot()).(isPlaying := false)
      ensures fx == [EngineTtsEnd]
    {
      isPlaying := false;
      fx := [EngineTtsEnd];
    }

    /** handleStopAudio: pause and rewind the current audio, if there is one. */
    method HandleStopAudio() returns (fx: seq<PageEffect>)
      requires Valid()
      modifies this
      ensures Valid()
      ensures Snapshot() == if old(hasAudio) then old(Snapshot()).(isPlaying := false) else old(Snapshot())
      ensures fx == if old(hasAudio) then [PauseAudio] else []
    {
      fx := [];
      if hasAudio {
        fx := [PauseAudio];
        isPlaying := false;
      }
    }

    /** startVoiceInteraction: playback marked over, the engine started, the silence timer armed. */
    method StartVoiceInteraction() returns (fx: seq<PageEffect>)
      requires Valid()
      modifies this
      ensures Valid() && Snapshot() == TimerRearmed(old(Snapshot())).(isPlaying := false)
      ensures fx == [EngineTtsEnd, EngineStart] + ClearHeld(old(Snapshot())) + [ArmTimer(old(nextTimerId), SilenceTimeoutMs)]
    {
      isPlaying := false;
      fx := [EngineTtsEnd, EngineStart];
      var armed := ResetSilenceTimer();
      fx := fx + armed;
    }

    /** The effect on the engine's status: entering user_speaking stops the silence timer. */
    method VoiceStatusChanged(status: Status) returns (fx: seq<PageEffect>)
      requires Valid()
      modifies this
      ensures Valid()
      ensures status == UserSpeaking ==> Snapshot() == TimerStopped(old(Snapshot())) && fx == ClearHeld(old(Snapshot()))
      ensures status != UserSpeaking ==> Snapshot() == old(Snapshot()) && fx == []
      ensures status == UserSpeaking ==> pendingTimers == {}
    {
      fx := [];
      if status == UserSpeaking {
        fx := StopSilenceTimer();
      }
    }

    /** handleTouchMove, with the slide already measured as a ratio of the track in thousandths. */
    method TouchMoved(ratio: int)
      requires Valid()
      modifies this
      ensures Valid() && Snapshot() == old(Snapshot()).(slideProgress := ClampProgress(ratio))
    {
      slideProgress := ClampProgress(ratio);
    }

    /** handleStopAlarm: stop the audio, the timer and the engine, stop the alarm, go home after 500 ms. */
    method HandleStopAlarm() returns (fx: seq<PageEffect>)
      requires Valid()
      modifies this
      ensures Valid()
      ensures Snapshot() == TimerStopped(old(Snapshot())).(
                isStopping := true,
                isPlaying := old(isPlaying) && !old(hasAudio))
      ensures fx == (if old(hasAudio) then [PauseAudio] else []) + ClearHeld(old(Snapshot()))
                    + [EngineStop, StopAlarm, NavigateHome(StopNavigationDelayMs)]
      ensures pendingTimers == {}
    {
      isStopping := true;
      fx := HandleStopAudio();
      var stopped := StopSilenceTimer();
      fx := fx + stopped + [EngineStop, StopAlarm, NavigateHome(StopNavigationDelayMs)];
    }

    /** handleTouchEnd: past 0.8 of the track the alarm stops; otherwise the slider springs back. */
    method TouchEnded() returns (fx: seq<PageEffect>)
      requires Valid()
      modifies this
      ensures Valid()
      ensures old(slideProgress) > StopSlideThreshold ==>
                && Snapshot() == TimerStopped(old(Snapshot())).(isStopping := true, isPlaying := old(isPlaying) && !old(hasAudio))
                && fx == (if old(hasAudio) then [PauseAudio] else []) + ClearHeld(old(Snapshot()))
                         + [EngineStop, StopAlarm, NavigateHome(StopNavigationDelayMs)]
      ensures old(slideProgress) <= StopSlideThreshold ==> Snapshot() == old(Snapshot()).(slideProgress := 0) && fx == []
    {
      if slideProgress > StopSlideThreshold {
        fx := HandleStopAlarm();
      } else {
        slideProgress := 0;
        fx := [];
      }
    }
  }
}
