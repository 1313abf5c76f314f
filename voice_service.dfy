/**
 * The voice service object: the four flags and two subscriber sets it updates in
 * place, the notifications it publishes, the native calls it issues, the restart
 * timers it leaves pending, and the `tts-finish` listeners `speak` registers.
 *
 * Every handler and every stretch of an async method between two `await`s is one
 * method. Each states its effect as the matching step of the recognition state
 * machine, so whatever is proved about those steps and their runs holds for the
 * object.
 */
module Service {
  import opened Wrappers
  import opened Messages
  import opened Subscribers
  import opened VoiceEngine
  import VoiceText
  import VoiceConversation

  /**
   * The promise one `speak` call returns, with the variables its executor closes
   * over: the `isResolved` guard, whether the safety timer is still armed, the
   * timeout it was armed with, and how the promise settled (true: resolved,
   * false: rejected). A promise settles at most once; later calls of `resolve` or
   * `reject` are ignored.
   */
  class Utterance {
    const improvedText: string
    const timeoutMs: nat
    var isResolved: bool
    var timerArmed: bool
    var settled: Option<bool>

    /** The guard and the promise agree; an armed timer belongs to an unsettled promise. */
    predicate Valid()
      reads this
    {
      && (isResolved ==> settled.Some?)
      && (timerArmed ==> !isResolved && settled.None?)
      && 3000 <= timeoutMs <= 30000
    }

    /** The executor's start: nothing settled, the safety timer armed with the length-based timeout. */
    constructor(improvedText: string)
      ensures this.improvedText == improvedText
      ensures timeoutMs == VoiceText.SpeakTimeout(improvedText)
      ensures !isResolved && timerArmed && settled.None?
      ensures Valid()
    {
      this.improvedText := improvedText;
      timeoutMs := VoiceText.SpeakTimeout(improvedText);
      isResolved := false;
      timerArmed := true;
      settled := None;
    }

    /** `cleanup()`: the safety timer is cleared. */
    method Cleanup()
      modifies this
      ensures !timerArmed && isResolved == old(isResolved) && settled == old(settled)
    {
      timerArmed := false;
    }

    /** `reject(error)`: the promise rejects unless it has already settled. */
    method Reject()
      requires !timerArmed
      modifies this
      ensures settled == Some(old(settled).Or(false))
      ensures isResolved == old(isResolved) && !timerArmed
    {
      if settled.None? {
        settled := Some(false);
      }
    }

    /**
     * `resolveOnce()`: the first call marks the guard, clears the timer and resolves
     * the promise (which keeps an earlier rejection); later calls do nothing.
     */
    method ResolveOnce()
      requires Valid()
      modifies this
      ensures Valid() && isResolved && settled.Some?
      ensures old(isResolved) ==> settled == old(settled) && timerArmed == old(timerArmed)
      ensures !old(isResolved) ==> !timerArmed && settled == Some(old(settled).Or(true))
    {
      if !isResolved {
        isResolved := true;
        Cleanup();
        if settled.None? {
          settled := Some(true);
        }
      }
    }

    /** The `tts-finish` handler: resolves once, if not resolved yet. */
    method Finish()
      requires Valid()
      modifies this
      ensures Valid() && isResolved && settled.Some?
      ensures old(settled).Some? ==> settled == old(settled)
      ensures old(settled).None? ==> settled == Some(true)
    {
      if !isResolved {
        ResolveOnce();
      }
    }

    /** The safety timer fires (only an armed timer can): the promise resolves. */
    method TimeoutFires()
      requires Valid() && timerArmed
      modifies this
      ensures Valid() && isResolved && !timerArmed && settled == Some(true)
    {
      if !isResolved {
        ResolveOnce();
      }
    }
  }

  /** A voice service instance. */
  class VoiceService {
    var isListening: bool
    var recognizedText: string
    var isContinuousListening: bool
    var wakeWordDetected: bool
    var stateCallbacks: seq<CallbackId>
    var wakeCallbacks: seq<CallbackId>

    /** Every `notifyStateChange`/`notifyWakeWord` so far, with the callbacks each invoked. */
    var published: seq<Publication>
    /** Every call into the native speech libraries so far. */
    var calls: seq<NativeCall>
    /** Restart timers scheduled and not yet fired. */
    var timers: seq<Restart>
    /** Every `tts-finish` handler registered so far; none is ever removed. */
    var finishListeners: seq<Utterance>

    /** The flags and subscribers as a state of the recognition state machine. */
    function State(): Engine
      reads this
    {
      Engine(Flags(isListening, recognizedText, isContinuousListening, wakeWordDetected), stateCallbacks, wakeCallbacks)
    }

    /** The object made exactly the given step: its new state, publications, native calls and timer. */
    twostate predicate Took(s: Step)
      reads this
    {
      && State() == s.engine
      && published == old(published) + s.published
      && calls == old(calls) + s.calls
      && timers == old(timers) + (if s.restart.Some? then [s.restart.value] else [])
      && finishListeners == old(finishListeners)
    }

    /** A new service: not listening, no subscribers, nothing published, called or pending. */
    constructor()
      ensures State() == InitialEngine
      ensures published == [] && calls == [] && timers == [] && finishListeners == []
    {
      isListening := false;
      recognizedText := "";
      isContinuousListening := false;
      wakeWordDetected := false;
      stateCallbacks := [];
      wakeCallbacks := [];
      published := [];
      calls := [];
      timers := [];
      finishListeners := [];
    }

    // -------------------------------------------------------------------------
    // Notification

    /** `notifyStateChange(state)`: every state subscriber is invoked in order, even after one throws. */
    method NotifyStateChange(state: AssistantState)
      modifies this
      ensures published == old(published) + [StatePublished(state, stateCallbacks)]
      ensures State() == old(State()) && calls == old(calls) && timers == old(timers)
      ensures finishListeners == old(finishListeners)
    {
      var invoked: seq<CallbackId> := [];
      var i := 0;
      while i < |stateCallbacks|
        invariant 0 <= i <= |stateCallbacks|
        invariant invoked == stateCallbacks[..i]
      {
        invoked := invoked + [stateCallbacks[i]];
        i := i + 1;
      }
      assert invoked == stateCallbacks;
      published := published + [StatePublished(state, invoked)];
    }

    /** `notifyWakeWord()`: every wake subscriber is invoked in order, even after one throws. */
    method NotifyWakeWord()
      modifies this
      ensures published == old(published) + [WakePublished(wakeCallbacks)]
      ensures State() == old(State()) && calls == old(calls) && timers == old(timers)
      ensures finishListeners == old(finishListeners)
    {
      var invoked: seq<CallbackId> := [];
      var i := 0;
      while i < |wakeCallbacks|
        invariant 0 <= i <= |wakeCallbacks|
        invariant invoked == wakeCallbacks[..i]
      {
        invoked := invoked + [wakeCallbacks[i]];
        i := i + 1;
      }
      assert invoked == wakeCallbacks;
      published := published + [WakePublished(invoked)];
    }

    /** Schedules a restart timer. */
    method Schedule(r: Restart)
      modifies this
      ensures timers == old(timers) + [r]
      ensures State() == old(State()) && published == old(published) && calls == old(calls)
      ensures finishListeners == old(finishListeners)
    {
      timers := timers + [r];
    }

    // -------------------------------------------------------------------------
    // Native recognition events

    method OnSpeechStart()
      modifies this
      ensures Took(VoiceEngine.OnSpeechStart(old(State())))
    {
      isListening := true;
      if !isContinuousListening {
        NotifyStateChange(Listening);
      }
    }

    method OnSpeechEnd()
      modifies this
      ensures Took(VoiceEngine.OnSpeechEnd(old(State())))
    {
      isListening := false;
      if isContinuousListening && !wakeWordDetected {
        Schedule(Restart(500, Unconditional));
      }
    }

    method OnSpeechError(ev: SpeechErrorEvent)
      modifies this
      ensures Took(VoiceEngine.OnSpeechError(old(State()), ev))
    {
      var errorCode := ErrorCode(ev);
      isListening := false;
      if isContinuousListening && !wakeWordDetected && errorCode !in IgnorableErrors {
        Schedule(Restart(2000, Unconditional));
      } else if !isContinuousListening {
        NotifyStateChange(Idle);
      }
    }

    /** The wake check of both result handlers. */
    method CheckWake(text: string)
      modifies this
      ensures Took(DetectWake(old(State()), text))
    {
      if isContinuousListening && !wakeWordDetected {
        if VoiceText.IsWakeText(text) {
          wakeWordDetected := true;
          NotifyWakeWord();
        }
      }
    }

    method OnSpeechResults(values: seq<string>)
      modifies this
      ensures Took(VoiceEngine.OnSpeechResults(old(State()), values))
    {
      if |values| > 0 {
        recognizedText := values[0];
        CheckWake(values[0]);
      }
    }

    method OnSpeechPartialResults(values: seq<string>)
      modifies this
      ensures Took(VoiceEngine.OnSpeechPartialResults(old(State()), values))
    {
      if |values| > 0 {
        CheckWake(values[0]);
      }
    }

    // -------------------------------------------------------------------------
    // startContinuousListening, one method per stretch between awaits

    /** Up to the availability check; returns whether the call goes on. */
    method StartContinuousListening() returns (running: bool)
      modifies this
      ensures Took(VoiceEngine.StartContinuousListening(old(State())))
      ensures running <==> VoiceEngine.StartContinuousListening(old(State())).completion == Running
    {
      if isListening {
        return false;
      }
      calls := calls + [CheckAvailable];
      running := true;
    }

    method ContinuousPermissionChecked(granted: bool)
      modifies this
      ensures Took(VoiceEngine.ContinuousPermissionChecked(old(State()), granted))
    {
      if !granted {
        Schedule(Restart(2000, IfContinuous));
        return;
      }
      isContinuousListening := true;
      wakeWordDetected := false;
      recognizedText := "";
      calls := calls + [VoiceCancel];
    }

    /** The 300 ms pause of either entry point has elapsed. */
    method PauseElapsed()
      modifies this
      ensures Took(VoiceEngine.PauseElapsed(old(State())))
    {
      calls := calls + [VoiceStart(Locale)];
    }

    method ContinuousStartSettled(ok: bool)
      modifies this
      ensures Took(VoiceEngine.ContinuousStartSettled(old(State()), ok))
    {
      if !ok {
        Schedule(Restart(2000, IfContinuousWithoutWake));
      }
    }

    /**
     * The pending timer at index `k` fires: it leaves the pending list and, if its
     * guard still holds, `startContinuousListening` begins again.
     */
    method FireTimer(k: nat) returns (running: bool)
      requires k < |timers|
      modifies this
      ensures var s := RestartFired(old(State()), old(timers[k].guard));
        && State() == s.engine && published == old(published) && calls == old(calls) + s.calls
        && timers == old(timers[..k] + timers[k + 1..])
        && (running <==> s.completion == Running)
      ensures finishListeners == old(finishListeners)
    {
      var guard := timers[k].guard;
      timers := timers[..k] + timers[k + 1..];
      if GuardHolds(guard, State().flags) {
        running := StartContinuousListening();
      } else {
        running := false;
      }
    }

    // -------------------------------------------------------------------------
    // startListening

    method StartListening()
      modifies this
      ensures Took(VoiceEngine.StartListening(old(State())))
    {
      calls := calls + [CheckAvailable];
    }

    /** After the availability check: refused rejects with the permission error. */
    method ListeningPermissionChecked(granted: bool) returns (outcome: Result<(), string>)
      modifies this
      ensures Took(VoiceEngine.ListeningPermissionChecked(old(State()), granted))
      ensures outcome.Err? <==> !granted
      ensures outcome.Err? ==> outcome.error == PermissionError
    {
      if !granted {
        return Err(PermissionError);
      }
      recognizedText := "";
      wakeWordDetected := false;
      calls := calls + [VoiceCancel];
      outcome := Ok(());
    }

    /** When `Voice.start` settles: "listening" on success; otherwise the call rejects. */
    method ListeningStartSettled(ok: bool) returns (outcome: Result<(), string>)
      modifies this
      ensures Took(VoiceEngine.ListeningStartSettled(old(State()), ok))
      ensures outcome.Ok? <==> ok
    {
      if !ok {
        return Err(StartError);
      }
      NotifyStateChange(Listening);
      outcome := Ok(());
    }

    // -------------------------------------------------------------------------
    // stopListening, cancelListening, resetWakeWord, subscriptions

    /** `stopListening()`, when `Voice.stop` settles; returns the text heard, or "" on failure. */
    method StopListening(ok: bool) returns (text: string)
      modifies this
      ensures Took(VoiceEngine.StopListening(old(State()), ok))
      ensures text == if ok then old(recognizedText) else ""
    {
      calls := calls + [VoiceStop];
      if ok {
        isListening := false;
        isContinuousListening := false;
        text := recognizedText;
        recognizedText := "";
      } else {
        isContinuousListening := false;
        text := "";
      }
    }

    method CancelListening(ok: bool)
      modifies this
      ensures Took(VoiceEngine.CancelListening(old(State()), ok))
    {
      calls := calls + [VoiceCancel];
      if ok {
        isListening := false;
        isContinuousListening := false;
        wakeWordDetected := false;
        NotifyStateChange(Idle);
      }
    }

    method ResetWakeWord()
      modifies this
      ensures Took(VoiceEngine.ResetWakeWord(old(State())))
    {
      wakeWordDetected := false;
    }

    /** `onStateChange(cb)`; the returned unsubscribe is `RemoveStateCallback(cb)`. */
    method OnStateChange(cb: CallbackId)
      modifies this
      ensures Took(Apply(old(State()), SubscribeState(cb)))
    {
      stateCallbacks := AddCallback(stateCallbacks, cb);
    }

    method RemoveStateCallback(cb: CallbackId)
      modifies this
      ensures Took(Apply(old(State()), UnsubscribeState(cb)))
    {
      stateCallbacks := RemoveCallback(stateCallbacks, cb);
    }

    /** `onWakeWord(cb)`; the returned unsubscribe is `RemoveWakeCallback(cb)`. */
    method OnWakeWord(cb: CallbackId)
      modifies this
      ensures Took(Apply(old(State()), SubscribeWake(cb)))
    {
      wakeCallbacks := AddCallback(wakeCallbacks, cb);
    }

    method RemoveWakeCallback(cb: CallbackId)
      modifies this
      ensures Took(Apply(old(State()), UnsubscribeWake(cb)))
    {
      wakeCallbacks := RemoveCallback(wakeCallbacks, cb);
    }

    // -------------------------------------------------------------------------
    // speak

    /**
     * `speak(text)` up to the point where it returns its promise: the text is
     * improved, then handed to the text-to-speech library as `SpeakImproved` says.
     */
    method Speak(text: string, setup: VoiceConversation.TtsSetup) returns (u: Utterance)
      modifies this
      ensures fresh(u) && u.improvedText == VoiceText.ImproveTextNaturalness(text)
      ensures SpokeAs(u, setup)
    {
      u := SpeakImproved(VoiceText.ImproveTextNaturalness(text), setup);
    }

    /**
     * What `speak` leaves behind for an improved text. A rejected rate or pitch
     * setting rejects before any promise exists; a throwing `addEventListener` clears
     * the timer and rejects without registering a listener; a throwing `Tts.speak`
     * clears the timer and rejects, but its listener stays registered; an accepted
     * utterance is pending with its timer armed.
     */
    twostate predicate SpokeAs(new u: Utterance, setup: VoiceConversation.TtsSetup)
      reads this, u
    {
      && u.Valid()
      && u.timeoutMs == VoiceText.SpeakTimeout(u.improvedText)
      && !u.isResolved
      && u.settled == (if setup.Accepted? then None else Some(false))
      && (u.timerArmed <==> setup.Accepted?)
      && finishListeners == old(finishListeners) + (if VoiceConversation.ReachesTts(setup) then [u] else [])
      && calls == old(calls) + (if VoiceConversation.ReachesTts(setup) then [TtsSpeak(u.improvedText)] else [])
      && State() == old(State()) && published == old(published) && timers == old(timers)
    }

    /** The part of `speak` after the text is improved. */
    method SpeakImproved(improved: string, setup: VoiceConversation.TtsSetup) returns (u: Utterance)
      modifies this
      ensures fresh(u) && u.improvedText == improved
      ensures SpokeAs(u, setup)
    {
      u := new Utterance(improved);
      if setup.RateRejected? || setup.PitchRejected? {
        u.Cleanup();
        u.Reject();
        return;
      }
      if setup.ListenerThrew? {
        u.Cleanup();
        u.Reject();
        return;
      }
      finishListeners := finishListeners + [u];
      calls := calls + [TtsSpeak(improved)];
      if setup.SpeakThrew? {
        u.Cleanup();
        u.Reject();
      }
    }

    /**
     * A `tts-finish` event: every handler ever registered runs, so every earlier
     * utterance is resolved (or stays rejected); none settles twice.
     */
    method TtsFinished()
      requires forall k :: 0 <= k < |finishListeners| ==> finishListeners[k].Valid()
      modifies finishListeners
      ensures forall k :: 0 <= k < |finishListeners| ==>
        finishListeners[k].Valid() && finishListeners[k].isResolved && finishListeners[k].settled.Some?
      ensures forall k :: 0 <= k < |finishListeners| ==>
        (old(finishListeners[k].settled).Some? ==> finishListeners[k].settled == old(finishListeners[k].settled))
      ensures forall k :: 0 <= k < |finishListeners| ==>
        (old(finishListeners[k].settled).None? ==> finishListeners[k].settled == Some(true))
    {
      var i := 0;
      while i < |finishListeners|
        invariant 0 <= i <= |finishListeners|
        invariant forall k :: 0 <= k < |finishListeners| ==> finishListeners[k].Valid()
        invariant forall k :: 0 <= k < i ==> finishListeners[k].isResolved && finishListeners[k].settled.Some?
        invariant forall k :: 0 <= k < |finishListeners| ==>
          (old(finishListeners[k].settled).Some? ==> finishListeners[k].settled == old(finishListeners[k].settled))
        invariant forall k :: 0 <= k < |finishListeners| ==>
          (old(finishListeners[k].settled).None? && finishListeners[k].settled.Some? ==> finishListeners[k].settled == Some(true))
      {
        finishListeners[i].Finish();
        i := i + 1;
      }
    }
  }
}
