/**
 * The recognition state machine of the voice service, as pure functions.
 *
 * Each native recognition event handler, and each stretch of an async entry point
 * between two `await`s, is one step: it takes the engine state and returns the new
 * state, the notifications it published, the native calls it issued, whether the
 * async call is still running, and the restart it scheduled with `setTimeout`.
 * `Run` strings steps together in any order, which covers every interleaving the
 * JavaScript event loop can produce.
 */
module VoiceEngine {
  import opened Wrappers
  import opened Text
  import opened Messages
  import opened Subscribers
  import VoiceText

  /** The four flags of a voice service instance. */
  datatype Flags = Flags(
    isListening: bool,
    recognizedText: string,
    isContinuousListening: bool,
    wakeWordDetected: bool)

  /** The flags and the two subscriber sets (kept in insertion order, as a JavaScript `Set` iterates). */
  datatype Engine = Engine(flags: Flags, stateCallbacks: seq<CallbackId>, wakeCallbacks: seq<CallbackId>)

  /** A freshly constructed service: nothing listening, no subscribers. */
  const InitialEngine := Engine(Flags(false, "", false, false), [], [])

  /**
   * One call of `notifyStateChange` or `notifyWakeWord`, with the callbacks it
   * invoked. Each subscriber is invoked, whether or not an earlier one threw.
   */
  datatype Publication =
    | StatePublished(state: AssistantState, recipients: seq<CallbackId>)
    | WakePublished(recipients: seq<CallbackId>)

  /** Calls into the native speech libraries. */
  datatype NativeCall = CheckAvailable | VoiceStart(locale: string) | VoiceStop | VoiceCancel | TtsSpeak(text: string) | TtsStop

  /** What a scheduled restart re-checks when its timer fires. */
  datatype RestartGuard = Unconditional | IfContinuous | IfContinuousWithoutWake

  /** A `setTimeout` that calls `startContinuousListening` again; the delay is a label, not a clock. */
  datatype Restart = Restart(delayMs: nat, guard: RestartGuard)

  /** How an async call stands after a step. */
  datatype Completion = Running | Finished | Returned(text: string) | Rejected(reason: string)

  /** The effect of one step. */
  datatype Step = Step(
    engine: Engine,
    published: seq<Publication>,
    calls: seq<NativeCall>,
    completion: Completion,
    restart: Option<Restart>)

  /** An error code as the native module reports it: a number or a string. */
  datatype CodeValue = NumberCode(n: int) | TextCode(s: string)

  /** The payload of `onSpeechError`: `e.error.code` and `e.code`, either possibly absent. */
  datatype SpeechErrorEvent = SpeechErrorEvent(nestedCode: Option<CodeValue>, code: Option<CodeValue>)

  /** The locale every recognition session is started with. */
  const Locale := "es-MX"

  /** The errors after which continuous listening is not restarted: 7 (no match) and 9 (cancelled). */
  const IgnorableErrors: seq<string> := ["7", "9"]

  const PermissionError := "No se pueden obtener permisos de reconocimiento de voz"
  const StartError := "Voice.start failed"

  predicate Truthy(c: CodeValue) {
    match c
    case NumberCode(n) => n != 0
    case TextCode(s) => s != ""
  }

  function CodeText(c: CodeValue): (r: string)
    ensures Truthy(c) ==> r != ""
  {
    match c
    case NumberCode(n) => IntToString(n)
    case TextCode(s) => s
  }

  /**
   * `String(e?.error?.code || e?.code || 'unknown')`: the nested code when truthy,
   * then the outer one, then "unknown"; never empty.
   */
  function ErrorCode(ev: SpeechErrorEvent): (r: string)
    ensures r != ""
    ensures ev.nestedCode.Some? && Truthy(ev.nestedCode.value) ==> r == CodeText(ev.nestedCode.value)
    ensures !(ev.nestedCode.Some? && Truthy(ev.nestedCode.value)) && ev.code.Some? && Truthy(ev.code.value)
      ==> r == CodeText(ev.code.value)
    ensures !(ev.nestedCode.Some? && Truthy(ev.nestedCode.value)) && !(ev.code.Some? && Truthy(ev.code.value))
      ==> r == "unknown"
  {
    if ev.nestedCode.Some? && Truthy(ev.nestedCode.value) then CodeText(ev.nestedCode.value)
    else if ev.code.Some? && Truthy(ev.code.value) then CodeText(ev.code.value)
    else "unknown"
  }

  /** A step that changes the engine and nothing else, and completes. */
  function Quiet(e: Engine): Step {
    Step(e, [], [], Finished, None)
  }

  /** `notifyStateChange(s)`: every current state subscriber is invoked. */
  function Notify(e: Engine, s: AssistantState): Publication {
    StatePublished(s, e.stateCallbacks)
  }

  // ---------------------------------------------------------------------------
  // Native recognition events

  /** `onSpeechStart`: listening; "listening" is published only outside continuous mode. */
  function OnSpeechStart(e: Engine): (r: Step)
    ensures r.engine.flags == e.flags.(isListening := true)
    ensures r.published == if e.flags.isContinuousListening then [] else [Notify(e, Listening)]
    ensures r.restart.None? && r.calls == []
  {
    var e' := e.(flags := e.flags.(isListening := true));
    if !e.flags.isContinuousListening then Step(e', [Notify(e, Listening)], [], Finished, None)
    else Quiet(e')
  }

  /**
   * `onSpeechEnd`: not listening any more; a restart after 500 ms is scheduled exactly
   * when continuous listening is on and no wake word was heard. Its timer re-checks nothing.
   */
  function OnSpeechEnd(e: Engine): (r: Step)
    ensures r.engine.flags == e.flags.(isListening := false)
    ensures r.restart.Some? <==> e.flags.isContinuousListening && !e.flags.wakeWordDetected
    ensures r.restart.Some? ==> r.restart.value == Restart(500, Unconditional)
    ensures r.published == [] && r.calls == []
  {
    var e' := e.(flags := e.flags.(isListening := false));
    if e.flags.isContinuousListening && !e.flags.wakeWordDetected then
      Step(e', [], [], Finished, Some(Restart(500, Unconditional)))
    else Quiet(e')
  }

  /**
   * `onSpeechError`: not listening any more. In continuous mode before the wake word,
   * every error except 7 and 9 schedules a restart after 2000 ms; errors 7 and 9 do
   * nothing more. Outside continuous mode, "idle" is published.
   */
  function OnSpeechError(e: Engine, ev: SpeechErrorEvent): (r: Step)
    ensures r.engine.flags == e.flags.(isListening := false)
    ensures ErrorCode(ev) in IgnorableErrors ==> r.restart.None?
    ensures r.restart.Some? <==>
      e.flags.isContinuousListening && !e.flags.wakeWordDetected && ErrorCode(ev) !in IgnorableErrors
    ensures r.restart.Some? ==> r.restart.value == Restart(2000, Unconditional)
    ensures r.published == if e.flags.isContinuousListening then [] else [Notify(e, Idle)]
    ensures r.calls == []
  {
    var e' := e.(flags := e.flags.(isListening := false));
    if e.flags.isContinuousListening && !e.flags.wakeWordDetected && ErrorCode(ev) !in IgnorableErrors then
      Step(e', [], [], Finished, Some(Restart(2000, Unconditional)))
    else if !e.flags.isContinuousListening then
      Step(e', [Notify(e, Idle)], [], Finished, None)
    else Quiet(e')
  }

  /** The wake check shared by final and partial results. */
  function DetectWake(e: Engine, text: string): (r: Step)
    ensures r.engine.stateCallbacks == e.stateCallbacks && r.engine.wakeCallbacks == e.wakeCallbacks
    ensures r.engine.flags.isListening == e.flags.isListening
    ensures r.engine.flags.recognizedText == e.flags.recognizedText
    ensures r.engine.flags.isContinuousListening == e.flags.isContinuousListening
    ensures r.engine.flags.wakeWordDetected <==>
      e.flags.wakeWordDetected || (e.flags.isContinuousListening && VoiceText.IsWakeText(text))
    ensures r.published == if !e.flags.wakeWordDetected && r.engine.flags.wakeWordDetected
      then [WakePublished(e.wakeCallbacks)] else []
    ensures r.calls == [] && r.restart.None? && r.completion == Finished
  {
    if e.flags.isContinuousListening && !e.flags.wakeWordDetected && VoiceText.IsWakeText(text) then
      Step(e.(flags := e.flags.(wakeWordDetected := true)), [WakePublished(e.wakeCallbacks)], [], Finished, None)
    else Quiet(e)
  }

  /** `onSpeechResults`: the first alternative becomes the recognised text, then the wake check. */
  function OnSpeechResults(e: Engine, values: seq<string>): (r: Step)
    ensures |values| > 0 ==> r.engine.flags.recognizedText == values[0]
    ensures |values| == 0 ==> r == Quiet(e)
  {
    if |values| > 0 then DetectWake(e.(flags := e.flags.(recognizedText := values[0])), values[0])
    else Quiet(e)
  }

  /** `onSpeechPartialResults`: only the wake check; the recognised text is not touched. */
  function OnSpeechPartialResults(e: Engine, values: seq<string>): (r: Step)
    ensures r.engine.flags.recognizedText == e.flags.recognizedText
  {
    if |values| > 0 then DetectWake(e, values[0]) else Quiet(e)
  }

  // ---------------------------------------------------------------------------
  // startContinuousListening, split at its awaits

  /**
   * `startContinuousListening()` up to the availability check: a no-op while the
   * recogniser reports that it is listening; otherwise it asks for availability.
   */
  function StartContinuousListening(e: Engine): (r: Step)
    ensures r.engine == e && r.published == [] && r.restart.None?
    ensures e.flags.isListening ==> r.calls == [] && r.completion == Finished
    ensures !e.flags.isListening ==> r.calls == [CheckAvailable] && r.completion == Running
  {
    if e.flags.isListening then Quiet(e)
    else Step(e, [], [CheckAvailable], Running, None)
  }

  /**
   * After the availability check. Refused: no flag changes and a retry after 2000 ms
   * that fires only if still continuous. Granted: continuous on, wake word cleared,
   * text cleared, and any previous session cancelled.
   */
  function ContinuousPermissionChecked(e: Engine, granted: bool): (r: Step)
    ensures !granted ==> (r.engine == e && r.restart == Some(Restart(2000, IfContinuous))
                          && r.completion == Finished && r.calls == [])
    ensures granted ==> (r.engine == e.(flags := e.flags.(isContinuousListening := true, wakeWordDetected := false, recognizedText := ""))
                         && r.restart.None? && r.completion == Running && r.calls == [VoiceCancel])
    ensures r.published == []
  {
    if !granted then Step(e, [], [], Finished, Some(Restart(2000, IfContinuous)))
    else
      var f := e.flags.(isContinuousListening := true, wakeWordDetected := false, recognizedText := "");
      Step(e.(flags := f), [], [VoiceCancel], Running, None)
  }

  /**
   * After the cancel and the 300 ms pause of either entry point: `Voice.start('es-MX')`
   * is issued and nothing else happens; the call is still running.
   */
  function PauseElapsed(e: Engine): (r: Step)
    ensures r.engine == e && r.published == [] && r.restart.None?
    ensures r.calls == [VoiceStart(Locale)] && r.completion == Running
  {
    Step(e, [], [VoiceStart(Locale)], Running, None)
  }

  /**
   * When `Voice.start` settles. The call never rejects: a failure schedules a retry
   * after 2000 ms that fires only if still continuous and no wake word was heard.
   */
  function ContinuousStartSettled(e: Engine, ok: bool): (r: Step)
    ensures r.engine == e && r.published == [] && r.calls == [] && r.completion == Finished
    ensures r.restart == if ok then None else Some(Restart(2000, IfContinuousWithoutWake))
  {
    if ok then Quiet(e) else Step(e, [], [], Finished, Some(Restart(2000, IfContinuousWithoutWake)))
  }

  /** Whether a restart's guard lets it proceed when its timer fires. */
  predicate GuardHolds(g: RestartGuard, f: Flags) {
    match g
    case Unconditional => true
    case IfContinuous => f.isContinuousListening
    case IfContinuousWithoutWake => f.isContinuousListening && !f.wakeWordDetected
  }

  /** A scheduled restart fires: its guard is checked, then `startContinuousListening` runs. */
  function RestartFired(e: Engine, g: RestartGuard): (r: Step)
    ensures GuardHolds(g, e.flags) ==> r == StartContinuousListening(e)
    ensures !GuardHolds(g, e.flags) ==> r == Quiet(e)
  {
    if GuardHolds(g, e.flags) then StartContinuousListening(e) else Quiet(e)
  }

  // ---------------------------------------------------------------------------
  // startListening, split at its awaits

  /** `startListening()` up to the availability check. */
  function StartListening(e: Engine): (r: Step)
    ensures r == Step(e, [], [CheckAvailable], Running, None)
  {
    Step(e, [], [CheckAvailable], Running, None)
  }

  /**
   * After the availability check. Refused: the call rejects and nothing changes.
   * Granted: text and wake word cleared (continuous mode is left as it is) and any
   * previous session cancelled.
   */
  function ListeningPermissionChecked(e: Engine, granted: bool): (r: Step)
    ensures !granted ==> r == Step(e, [], [], Rejected(PermissionError), None)
    ensures granted ==> (r.engine == e.(flags := e.flags.(recognizedText := "", wakeWordDetected := false))
                         && r.calls == [VoiceCancel] && r.completion == Running)
    ensures r.published == [] && r.restart.None?
  {
    if !granted then Step(e, [], [], Rejected(PermissionError), None)
    else Step(e.(flags := e.flags.(recognizedText := "", wakeWordDetected := false)), [], [VoiceCancel], Running, None)
  }

  /** When `Voice.start` settles: "listening" is published on success, the call rejects on failure. */
  function ListeningStartSettled(e: Engine, ok: bool): (r: Step)
    ensures ok ==> r == Step(e, [Notify(e, Listening)], [], Finished, None)
    ensures !ok ==> r == Step(e, [], [], Rejected(StartError), None)
  {
    if ok then Step(e, [Notify(e, Listening)], [], Finished, None)
    else Step(e, [], [], Rejected(StartError), None)
  }

  // ---------------------------------------------------------------------------
  // stopListening, cancelListening, resetWakeWord

  /**
   * `stopListening()`, when `Voice.stop` settles. Success returns the recognised text
   * and clears it, listening and continuous mode. Failure returns "" and clears only
   * continuous mode.
   */
  function StopListening(e: Engine, ok: bool): (r: Step)
    ensures r.calls == [VoiceStop] && r.published == [] && r.restart.None?
    ensures ok ==> (r.completion == Returned(e.flags.recognizedText)
                    && r.engine.flags == e.flags.(isListening := false, isContinuousListening := false, recognizedText := ""))
    ensures !ok ==> (r.completion == Returned("")
                     && r.engine.flags == e.flags.(isContinuousListening := false))
    ensures r.engine.stateCallbacks == e.stateCallbacks && r.engine.wakeCallbacks == e.wakeCallbacks
  {
    if ok then
      var f := e.flags.(isListening := false, isContinuousListening := false, recognizedText := "");
      Step(e.(flags := f), [], [VoiceStop], Returned(e.flags.recognizedText), None)
    else
      Step(e.(flags := e.flags.(isContinuousListening := false)), [], [VoiceStop], Returned(""), None)
  }

  /**
   * `cancelListening()`, when `Voice.cancel` settles. Success clears listening,
   * continuous mode and the wake word, then publishes "idle". Failure changes nothing
   * and publishes nothing.
   */
  function CancelListening(e: Engine, ok: bool): (r: Step)
    ensures r.calls == [VoiceCancel] && r.restart.None? && r.completion == Finished
    ensures ok ==> (r.engine.flags == e.flags.(isListening := false, isContinuousListening := false, wakeWordDetected := false)
                    && r.published == [Notify(e, Idle)])
    ensures !ok ==> r.engine == e && r.published == []
    ensures r.engine.stateCallbacks == e.stateCallbacks && r.engine.wakeCallbacks == e.wakeCallbacks
  {
    if ok then
      var f := e.flags.(isListening := false, isContinuousListening := false, wakeWordDetected := false);
      Step(e.(flags := f), [Notify(e, Idle)], [VoiceCancel], Finished, None)
    else Step(e, [], [VoiceCancel], Finished, None)
  }

  /** `resetWakeWord()`: the wake word may be detected again. */
  function ResetWakeWord(e: Engine): (r: Step)
    ensures r == Quiet(e.(flags := e.flags.(wakeWordDetected := false)))
  {
    Quiet(e.(flags := e.flags.(wakeWordDetected := false)))
  }

  // ---------------------------------------------------------------------------
  // Inputs and runs

  /** Everything that can happen to the service, one atomic step each. */
  datatype Input =
    | SpeechStart
    | SpeechEnd
    | SpeechError(event: SpeechErrorEvent)
    | SpeechResults(values: seq<string>)
    | SpeechPartialResults(values: seq<string>)
    | ContinuousRequested
    | ContinuousPermission(granted: bool)
    | ContinuousPause
    | ContinuousStart(ok: bool)
    | RestartTimer(guard: RestartGuard)
    | ListeningRequested
    | ListeningPermission(granted: bool)
    | ListeningPause
    | ListeningStart(ok: bool)
    | Stop(ok: bool)
    | Cancel(ok: bool)
    | ResetWake
    | SubscribeState(cb: CallbackId)
    | UnsubscribeState(cb: CallbackId)
    | SubscribeWake(cb: CallbackId)
    | UnsubscribeWake(cb: CallbackId)

  /** A call of `subscribe`/`subscribeToWakeWord` or of the function they return. */
  predicate IsSubscription(i: Input) {
    i.SubscribeState? || i.UnsubscribeState? || i.SubscribeWake? || i.UnsubscribeWake?
  }

  /** One step, for any input. Only the subscription inputs change the subscriber sets. */
  function Apply(e: Engine, i: Input): (s: Step)
    ensures !IsSubscription(i) ==> s.engine.stateCallbacks == e.stateCallbacks && s.engine.wakeCallbacks == e.wakeCallbacks
  {
    match i
    case SpeechStart => OnSpeechStart(e)
    case SpeechEnd => OnSpeechEnd(e)
    case SpeechError(ev) => OnSpeechError(e, ev)
    case SpeechResults(v) => OnSpeechResults(e, v)
    case SpeechPartialResults(v) => OnSpeechPartialResults(e, v)
    case ContinuousRequested => StartContinuousListening(e)
    case ContinuousPermission(g) => ContinuousPermissionChecked(e, g)
    case ContinuousPause => PauseElapsed(e)
    case ContinuousStart(ok) => ContinuousStartSettled(e, ok)
    case RestartTimer(g) => RestartFired(e, g)
    case ListeningRequested => StartListening(e)
    case ListeningPermission(g) => ListeningPermissionChecked(e, g)
    case ListeningPause => PauseElapsed(e)
    case ListeningStart(ok) => ListeningStartSettled(e, ok)
    case Stop(ok) => StopListening(e, ok)
    case Cancel(ok) => CancelListening(e, ok)
    case ResetWake => ResetWakeWord(e)
    case SubscribeState(cb) => Quiet(e.(stateCallbacks := AddCallback(e.stateCallbacks, cb)))
    case UnsubscribeState(cb) => Quiet(e.(stateCallbacks := RemoveCallback(e.stateCallbacks, cb)))
    case SubscribeWake(cb) => Quiet(e.(wakeCallbacks := AddCallback(e.wakeCallbacks, cb)))
    case UnsubscribeWake(cb) => Quiet(e.(wakeCallbacks := RemoveCallback(e.wakeCallbacks, cb)))
  }

  /** What a run of steps leaves behind. */
  datatype Trace = Trace(engine: Engine, published: seq<Publication>, calls: seq<NativeCall>, restarts: seq<Restart>)

  /**
   * A run of steps: each schedules at most one restart, and with no subscription
   * input among them the subscriber sets come out as they went in.
   */
  function Run(e: Engine, inputs: seq<Input>): (r: Trace)
    ensures |r.restarts| <= |inputs|
    ensures (forall k :: 0 <= k < |inputs| ==> !IsSubscription(inputs[k])) ==>
      r.engine.stateCallbacks == e.stateCallbacks && r.engine.wakeCallbacks == e.wakeCallbacks
    decreases |inputs|
  {
    if inputs == [] then Trace(e, [], [], [])
    else
      var s := Apply(e, inputs[0]);
      var t := Run(s.engine, inputs[1..]);
      assert forall k :: 0 <= k < |inputs[1..]| ==> inputs[1..][k] == inputs[k + 1];
      Trace(t.engine, s.published + t.published,  s.calls + t.calls,
            (if s.restart.Some? then [s.restart.value] else []) + t.restarts)
  }

  /** The number of wake notifications among some publications. */
  function CountWake(p: seq<Publication>): nat {
    if p == [] then 0 else (if p[0].WakePublished? then 1 else 0) + CountWake(p[1..])
  }

  lemma {:induction false} CountWakeAppend(a: seq<Publication>, b: seq<Publication>)
    ensures CountWake(a + b) == CountWake(a) + CountWake(b)
  {
    if a == [] {
      assert a + b == b;
    } else {
      assert (a + b)[1..] == a[1..] + b;
      CountWakeAppend(a[1..], b);
    }
  }

  /** The steps that clear the wake-word flag (source lines 256, 302, 350 and 600). */
  predicate Rearms(i: Input) {
    i == ContinuousPermission(true) || i == ListeningPermission(true) || i == Cancel(true) || i == ResetWake
  }

  /**
   * Every step publishes a wake notification exactly when it raises the wake-word
   * flag, and only the re-arming steps lower it.
   */
  lemma WakeStep(e: Engine, i: Input)
    ensures var s := Apply(e, i);
      CountWake(s.published) == if !e.flags.wakeWordDetected && s.engine.flags.wakeWordDetected then 1 else 0
    ensures !Rearms(i) && e.flags.wakeWordDetected ==> Apply(e, i).engine.flags.wakeWordDetected
  {
  }

  /**
   * The wake callbacks fire at most once between two re-arming steps, whatever
   * happens in between: none at all if the wake word was already detected.
   */
  lemma {:induction false} WakeAtMostOncePerArming(e: Engine, inputs: seq<Input>)
    requires forall k :: 0 <= k < |inputs| ==> !Rearms(inputs[k])
    ensures CountWake(Run(e, inputs).published) <= if e.flags.wakeWordDetected then 0 else 1
    ensures e.flags.wakeWordDetected ==> Run(e, inputs).engine.flags.wakeWordDetected
    decreases |inputs|
  {
    if inputs != [] {
      var s := Apply(e, inputs[0]);
      WakeStep(e, inputs[0]);
      WakeAtMostOncePerArming(s.engine, inputs[1..]);
      CountWakeAppend(s.published, Run(s.engine, inputs[1..]).published);
    }
  }

  /** The native recognition events. */
  predicate IsRecognitionEvent(i: Input) {
    i.SpeechStart? || i.SpeechEnd? || i.SpeechError? || i.SpeechResults? || i.SpeechPartialResults?
  }

  /** A final or partial result whose first alternative holds a wake phrase. */
  predicate CarriesWakeWord(i: Input) {
    (i.SpeechResults? || i.SpeechPartialResults?) && |i.values| > 0 && VoiceText.IsWakeText(i.values[0])
  }

  /**
   * Wake-word detection in an armed session (continuous, not yet detected): over
   * any run of recognition events, the wake callbacks fire exactly once if some
   * final or partial result carries a wake phrase, and never otherwise.
   */
  lemma {:induction false} WakeFiresOnceIffHeard(e: Engine, inputs: seq<Input>)
    requires e.flags.isContinuousListening && !e.flags.wakeWordDetected
    requires forall k :: 0 <= k < |inputs| ==> IsRecognitionEvent(inputs[k])
    ensures CountWake(Run(e, inputs).published) == if exists k :: 0 <= k < |inputs| && CarriesWakeWord(inputs[k]) then 1 else 0
    decreases |inputs|
  {
    if inputs != [] {
      var i := inputs[0];
      var s := Apply(e, i);
      var rest := inputs[1..];
      WakeStep(e, i);
      ArmedRecognitionStep(e, i);
      CountWakeAppend(s.published, Run(s.engine, rest).published);
      if CarriesWakeWord(i) {
        WakeAtMostOncePerArming(s.engine, rest);
      } else {
        assert forall k :: 0 <= k < |rest| ==> rest[k] == inputs[k + 1];
        WakeFiresOnceIffHeard(s.engine, rest);
        HeardInTail(inputs);
      }
    }
  }

  /**
   * In an armed continuous session a recognition event keeps the session continuous
   * and raises the wake-word flag exactly when it carries a wake phrase.
   */
  lemma ArmedRecognitionStep(e: Engine, i: Input)
    requires e.flags.isContinuousListening && !e.flags.wakeWordDetected && IsRecognitionEvent(i)
    ensures Apply(e, i).engine.flags.isContinuousListening
    ensures Apply(e, i).engine.flags.wakeWordDetected <==> CarriesWakeWord(i)
  {
  }

  /** A wake word is heard in a non-empty trace iff its first event carries one or the rest does. */
  lemma HeardInTail(inputs: seq<Input>)
    requires inputs != []
    ensures (exists k :: 0 <= k < |inputs| && CarriesWakeWord(inputs[k]))
      <==> CarriesWakeWord(inputs[0]) || exists k :: 0 <= k < |inputs[1..]| && CarriesWakeWord(inputs[1..][k])
  {
    var rest := inputs[1..];
    if exists k :: 0 <= k < |inputs| && CarriesWakeWord(inputs[k]) {
      var k :| 0 <= k < |inputs| && CarriesWakeWord(inputs[k]);
      assert k == 0 || CarriesWakeWord(rest[k - 1]);
    }
    if exists k :: 0 <= k < |rest| && CarriesWakeWord(rest[k]) {
      var k :| 0 <= k < |rest| && CarriesWakeWord(rest[k]);
      assert CarriesWakeWord(inputs[k + 1]);
    }
  }

  /**
   * Once the wake word is detected, recognition events never schedule a restart:
   * continuous listening is not resumed by the engine itself.
   */
  lemma {:induction false} NoRestartOnceWoken(e: Engine, inputs: seq<Input>)
    requires e.flags.wakeWordDetected
    requires forall k :: 0 <= k < |inputs| ==> IsRecognitionEvent(inputs[k])
    ensures Run(e, inputs).restarts == []
    ensures Run(e, inputs).calls == []
    ensures Run(e, inputs).engine.flags.wakeWordDetected
    decreases |inputs|
  {
    if inputs != [] {
      var s := Apply(e, inputs[0]);
      assert s.engine.flags.wakeWordDetected && s.restart.None? && s.calls == [];
      NoRestartOnceWoken(s.engine, inputs[1..]);
    }
  }

  /** The first alternative of the last non-empty final result among `inputs`, if any. */
  function LastResult(inputs: seq<Input>, otherwise: string): string
    decreases |inputs|
  {
    if inputs == [] then otherwise
    else
      var i := inputs[|inputs| - 1];
      if i.SpeechResults? && |i.values| > 0 then i.values[0]
      else LastResult(inputs[..|inputs| - 1], otherwise)
  }

  lemma {:induction false} RunAppend(e: Engine, a: seq<Input>, b: seq<Input>)
    ensures Run(e, a + b).engine == Run(Run(e, a).engine, b).engine
    decreases |a|
  {
    if a == [] {
      assert a + b == b;
    } else {
      assert (a + b)[1..] == a[1..] + b;
      RunAppend(Apply(e, a[0]).engine, a[1..], b);
    }
  }

  /**
   * Over recognition events, the recognised text is always the first alternative of
   * the latest final result (partial results never change it), so `stopListening`
   * returns exactly that.
   */
  lemma {:induction false} RecognizedTextIsLastResult(e: Engine, inputs: seq<Input>)
    requires forall k :: 0 <= k < |inputs| ==> IsRecognitionEvent(inputs[k])
    ensures Run(e, inputs).engine.flags.recognizedText == LastResult(inputs, e.flags.recognizedText)
    ensures StopListening(Run(e, inputs).engine, true).completion == Returned(LastResult(inputs, e.flags.recognizedText))
    decreases |inputs|
  {
    if inputs != [] {
      var init := inputs[..|inputs| - 1];
      var last := inputs[|inputs| - 1];
      assert inputs == init + [last];
      RecognizedTextIsLastResult(e, init);
      RunAppend(e, init, [last]);
    }
  }

  /**
   * There is no single-flight guard: the only check is the listening flag, which the
   * native start event sets, not the request. Two back-to-back requests from a
   * service that is not listening both pass the check, and once both are granted
   * each goes on to `Voice.start`.
   */
  lemma TwoRequestsBothStart(e: Engine)
    requires !e.flags.isListening
    ensures var first := Apply(e, ContinuousRequested);
      var second := Apply(first.engine, ContinuousRequested);
      var granted := Apply(Apply(second.engine, ContinuousPermission(true)).engine, ContinuousPermission(true));
      var start1 := Apply(granted.engine, ContinuousPause);
      var start2 := Apply(start1.engine, ContinuousPause);
      && first.calls == [CheckAvailable] && first.completion == Running
      && second.calls == [CheckAvailable] && second.completion == Running
      && start1.calls == [VoiceStart(Locale)] && start2.calls == [VoiceStart(Locale)]
  {
  }

  /**
   * A restart scheduled at speech end is not re-checked when it fires: after a
   * successful stop or cancel, the guarded retries are suppressed but the speech-end
   * restart still starts a new session, and granting it turns continuous mode back on.
   */
  lemma SpeechEndRestartOutlivesStop(e: Engine, ok: bool, stopInstead: bool)
    requires ok
    ensures var e' := if stopInstead then StopListening(e, ok).engine else CancelListening(e, ok).engine;
      && RestartFired(e', IfContinuous) == Quiet(e')
      && RestartFired(e', IfContinuousWithoutWake) == Quiet(e')
      && RestartFired(e', Unconditional).calls == [CheckAvailable]
      && ContinuousPermissionChecked(e', true).engine.flags.isContinuousListening
  {
  }

  /** Cancelling twice leaves the flags as cancelling once; each successful cancel publishes "idle". */
  lemma CancelIdempotent(e: Engine)
    ensures var once := CancelListening(e, true);
      && CancelListening(once.engine, true).engine == once.engine
      && CancelListening(once.engine, true).published == [Notify(e, Idle)]
  {
  }
}
