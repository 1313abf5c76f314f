/**
 * `speak` and `simulateConversation` of the voice service, as pure functions over
 * the recognition engine: the environment's answers (permission, native call
 * outcomes, the events that arrive while the conversation waits) are parameters.
 */
module VoiceConversation {
  import opened Wrappers
  import opened Text
  import opened Messages
  import opened VoiceEngine
  import VoiceText

  /**
   * How the text-to-speech library treats one `speak` call before its promise is
   * built: a rejected rate or pitch setting, a throwing `addEventListener`, a
   * throwing `Tts.speak`, or an accepted utterance.
   */
  datatype TtsSetup = RateRejected | PitchRejected | ListenerThrew | SpeakThrew | Accepted

  /** Whether `speak` gets as far as calling `Tts.speak`. */
  predicate ReachesTts(setup: TtsSetup) {
    setup.SpeakThrew? || setup.Accepted?
  }

  /**
   * Whether the promise `speak` returns resolves. An accepted utterance always
   * resolves, by the finish event or by the safety timer, whichever comes first.
   */
  predicate SpeakResolves(setup: TtsSetup) {
    setup.Accepted?
  }

  /** The branch the conversation takes for what the user said: nothing heard gets the request to repeat. */
  function ReplyKindFor(userText: string): (k: VoiceText.ReplyKind)
    ensures userText == "" <==> k == VoiceText.NotHeard
    ensures userText != "" ==> k == VoiceText.Classify(Lower(userText))
  {
    if userText != "" then VoiceText.Classify(Lower(userText)) else VoiceText.NotHeard
  }

  /** The reply for a transcript, as handed to `speak` and then to `onResponse`. */
  function ReplyTo(userText: string): string {
    VoiceText.ReplyText(ReplyKindFor(userText))
  }

  /** The reply is `generateResponse` of a non-empty transcript, and the cleaned-up request to repeat otherwise. */
  lemma ReplyToBranches(userText: string)
    ensures userText != "" ==> ReplyTo(userText) == VoiceText.GenerateResponse(userText)
    ensures userText == "" ==> ReplyTo(userText) == VoiceText.ReplyText(VoiceText.NotHeard)
  {
  }

  /** Everything the environment decides during one conversation. */
  datatype Script = Script(
    granted: bool,            // `Voice.isAvailable()` inside `startListening`
    startOk: bool,            // `Voice.start` inside `startListening`
    listenWindow: seq<Input>, // what happens during the 5000 ms of listening
    stopOk: bool,             // `Voice.stop`
    thinkWindow: seq<Input>,  // what happens during the 1500 ms of thinking
    tts: TtsSetup,            // how `speak` goes
    responseThrows: bool,     // whether the `onResponse` argument throws
    cancelOk: bool)           // `Voice.cancel` on the error path

  /**
   * The result of one conversation: the engine afterwards, the notifications and
   * native calls of the recognition side in order, the restarts scheduled meanwhile,
   * the states shown to the optional `onStateChange` argument, the transcript
   * `stopListening` returned (absent if listening never started), whether `speak`
   * reached `Tts.speak` with `ReplyTo(transcript)`, whether `onResponse` was called
   * with that reply, and whether the call resolved or rejected (a throwing
   * `onResponse` has been called, yet the call rejects).
   */
  datatype Conversation = Conversation(
    engine: Engine,
    published: seq<Publication>,
    calls: seq<NativeCall>,
    restarts: seq<Restart>,
    observed: seq<AssistantState>,
    transcript: Option<string>,
    spoken: bool,
    responded: bool,
    outcome: Result<(), string>)

  /** The last notification published is "idle". */
  predicate EndsIdle(p: seq<Publication>) {
    |p| > 0 && p[|p| - 1].StatePublished? && p[|p| - 1].state == Idle
  }

  /** The states a present observer would be shown. */
  function Shown(observer: bool, states: seq<AssistantState>): seq<AssistantState> {
    if observer then states else []
  }

  /** The error path: cancel listening, stop speaking, show "idle", and rethrow. */
  function Fail(e: Engine, published: seq<Publication>, calls: seq<NativeCall>, restarts: seq<Restart>,
                shownBefore: seq<AssistantState>, observer: bool, transcript: Option<string>, spoken: bool,
                responded: bool, cancelOk: bool, reason: string): (c: Conversation)
    ensures c.outcome == Err(reason) && c.responded == responded
    ensures c.transcript == transcript && c.spoken == spoken
    ensures c.observed == Shown(observer, shownBefore + [Idle])
    ensures c.calls == calls + [VoiceCancel, TtsStop]
    ensures EndsIdle(c.published) && published < c.published
  {
    var cancel := CancelListening(e, cancelOk);
    var p := published + cancel.published + [Notify(cancel.engine, Idle)];
    assert p[|p| - 1] == Notify(cancel.engine, Idle);
    assert published < p;
    Conversation(cancel.engine, p, calls + [VoiceCancel, TtsStop], restarts,
                 Shown(observer, shownBefore + [Idle]), transcript, spoken, responded, Err(reason))
  }

  /**
   * `simulateConversation(onResponse, onStateChange)`, for one script. A refused
   * permission or a failed start rejects before anything is heard or said;
   * otherwise a transcript is taken.
   */
  function Converse(e: Engine, sc: Script, observer: bool): (c: Conversation)
    ensures !sc.granted || !sc.startOk ==>
      c.outcome.Err? && c.transcript.None? && !c.spoken && !c.responded && c.observed == Shown(observer, [Listening, Idle])
    ensures sc.granted && sc.startOk ==> c.transcript.Some?
  {
    var p0 := [Notify(e, Listening)];
    var begin := StartListening(e);
    var perm := ListeningPermissionChecked(begin.engine, sc.granted);
    if !sc.granted then
      Fail(perm.engine, p0, begin.calls, [], [Listening], observer, None, false, false, sc.cancelOk, PermissionError)
    else
      var pause := PauseElapsed(perm.engine);
      var start := ListeningStartSettled(pause.engine, sc.startOk);
      var calls1 := begin.calls + perm.calls + pause.calls;
      if !sc.startOk then
        Fail(start.engine, p0, calls1, [], [Listening], observer, None, false, false, sc.cancelOk, StartError)
      else
        AfterStart(start.engine, p0 + start.published, calls1, sc, observer)
  }

  /**
   * "thinking" is published and later "speaking", both after the first `from`
   * notifications and before the last one.
   */
  ghost predicate ThinkingThenSpeaking(p: seq<Publication>, from: nat) {
    exists i, j :: from <= i < j < |p| - 1 &&
      p[i].StatePublished? && p[i].state == Thinking && p[j].StatePublished? && p[j].state == Speaking
  }

  /**
   * Publishing "thinking" after `heard` and "speaking" after `thought`, then going on
   * to publish more, publishes them in that order after `before`.
   */
  lemma ThinkingThenSpeakingPublished(before: seq<Publication>, heard: seq<Publication>,
      thinking: Publication, thought: seq<Publication>, speaking: Publication, after: seq<Publication>)
    requires thinking.StatePublished? && thinking.state == Thinking
    requires speaking.StatePublished? && speaking.state == Speaking
    requires before + heard + [thinking] + thought + [speaking] < after
    ensures ThinkingThenSpeaking(after, |before|)
  {
    var p1 := before + heard + [thinking];
    var p2 := p1 + thought + [speaking];
    assert after[|p1| - 1] == p2[|p1| - 1] == thinking;
    assert after[|p2| - 1] == p2[|p2| - 1] == speaking;
  }

  /**
   * The conversation once `startListening` has resolved: listen, stop, think, then
   * speak and answer.
   */
  function AfterStart(e: Engine, published: seq<Publication>, calls: seq<NativeCall>, sc: Script, observer: bool)
    : (c: Conversation)
    requires |published| > 0
    ensures c.outcome.Ok? <==> sc.tts.Accepted? && !sc.responseThrows
    ensures c.responded <==> sc.tts.Accepted?
    ensures c.spoken <==> ReachesTts(sc.tts)
    ensures c.transcript.Some?
    ensures c.observed == Shown(observer, [Listening, Thinking, Speaking, Idle])
    ensures EndsIdle(c.published) && published < c.published
    ensures ThinkingThenSpeaking(c.published, |published|)
    ensures calls <= c.calls
  {
    var listen := Run(e, sc.listenWindow);
    var stop := StopListening(listen.engine, sc.stopOk);
    var thinking := Notify(stop.engine, Thinking);
    var think := Run(stop.engine, sc.thinkWindow);
    var speaking := Notify(think.engine, Speaking);
    var p2 := published + listen.published + [thinking] + think.published + [speaking];
    var heard := stop.completion.text;
    var c := Respond(think.engine, p2, calls + listen.calls + stop.calls + think.calls,
                     listen.restarts + think.restarts, heard, sc, observer);
    ThinkingThenSpeakingPublished(published, listen.published, thinking, think.published, speaking, c.published);
    c
  }

  /**
   * After "speaking" is published: `speak` the reply, then hand it to `onResponse`
   * and publish "idle"; a failing `speak` or a throwing `onResponse` takes the error
   * path.
   */
  function Respond(e: Engine, published: seq<Publication>, calls: seq<NativeCall>, restarts: seq<Restart>,
                   heard: string, sc: Script, observer: bool): (c: Conversation)
    ensures c.outcome.Ok? <==> sc.tts.Accepted? && !sc.responseThrows
    ensures c.responded <==> sc.tts.Accepted?
    ensures c.spoken <==> ReachesTts(sc.tts)
    ensures c.transcript == Some(heard)
    ensures c.observed == Shown(observer, [Listening, Thinking, Speaking, Idle])
    ensures EndsIdle(c.published) && published < c.published
    ensures calls <= c.calls
  {
    if SpeakResolves(sc.tts) && !sc.responseThrows then
      var p := published + [Notify(e, Idle)];
      assert p[|p| - 1] == Notify(e, Idle);
      Conversation(e, p, calls, restarts,
                   Shown(observer, [Listening, Thinking, Speaking, Idle]), Some(heard), true, true, Ok(()))
    else
      Fail(e, published, calls, restarts, [Listening, Thinking, Speaking], observer,
           Some(heard), ReachesTts(sc.tts), SpeakResolves(sc.tts), sc.cancelOk,
           if SpeakResolves(sc.tts) then ResponseError else SpeakError)
  }

  /** Stands for the error `speak` rejects with. */
  const SpeakError := "speak failed"

  /** Stands for the error a throwing `onResponse` raises. */
  const ResponseError := "onResponse threw"

  /**
   * A present observer is shown "listening", "thinking", "speaking", "idle" on
   * success, and on failure a prefix of that followed by "idle"; the reply reaches
   * `onResponse` exactly when the utterance is spoken to its end, the call resolves
   * exactly when in addition `onResponse` returns, and every conversation starts by
   * publishing "listening" and ends by publishing "idle".
   */
  lemma ConversationStates(e: Engine, sc: Script, observer: bool)
    ensures var c := Converse(e, sc, observer);
      && (c.outcome.Ok? <==> sc.granted && sc.startOk && sc.tts.Accepted? && !sc.responseThrows)
      && (c.responded <==> sc.granted && sc.startOk && sc.tts.Accepted?)
      && (c.outcome.Ok? ==> c.responded)
      && (c.spoken ==> c.transcript.Some?)
      && (observer && c.outcome.Ok? ==> c.observed == [Listening, Thinking, Speaking, Idle])
      && (observer && c.outcome.Err? ==>
            c.observed == [Listening, Idle] || c.observed == [Listening, Thinking, Speaking, Idle])
      && (!observer ==> c.observed == [])
      && |c.published| >= 2
      && c.published[0] == StatePublished(Listening, e.stateCallbacks)
      && EndsIdle(c.published)
      && (sc.granted && sc.startOk ==> ThinkingThenSpeaking(c.published, 1))
  {
  }

  /**
   * When listening starts, and only recognition events arrive while it lasts, the
   * transcript the reply is built from is the first alternative of the latest final
   * result in that window, or "" if there was none or the stop failed; so the reply
   * is `generateResponse` of what was heard, or the request to repeat.
   */
  lemma {:induction false} ConversationAnswersWhatWasHeard(e: Engine, sc: Script, observer: bool)
    requires sc.granted && sc.startOk
    requires forall k :: 0 <= k < |sc.listenWindow| ==> IsRecognitionEvent(sc.listenWindow[k])
    ensures Converse(e, sc, observer).transcript
      == Some(if sc.stopOk then LastResult(sc.listenWindow, "") else "")
  {
    var perm := ListeningPermissionChecked(e, true);
    var start := ListeningStartSettled(PauseElapsed(perm.engine).engine, true);
    assert start.engine.flags.recognizedText == "";
    RecognizedTextIsLastResult(start.engine, sc.listenWindow);
  }
}
