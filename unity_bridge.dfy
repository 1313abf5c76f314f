/**
 * The simulated bridge to the Unity avatar view. Every message sent schedules one
 * simulated reply; when its timer fires the reply is delivered to every subscribed
 * callback, and the reply to the initialisation message marks the view ready.
 */
module Unity {
  import opened Wrappers
  import opened Messages
  import opened Subscribers

  /** A reply waiting on its timer, and whether delivering it marks the view ready. */
  datatype ScheduledReply = ScheduledReply(delayMs: nat, reply: UnityToGeorge, marksReady: bool)

  const StateLogPrefix := "Estado cambiado a: "
  const SpeakingLogPrefix := "George está hablando: \""
  const SpeakEndLog := "George terminó de hablar"

  /**
   * The replies `send` schedules: one `if` per message type, each contributing its
   * reply only for its own type.
   */
  function Replies(m: GeorgeToUnity): (r: seq<ScheduledReply>)
    ensures |r| == 1
    ensures r[0].marksReady <==> m.InitAssistant?
    ensures r[0].reply.AssistantReady? <==> m.InitAssistant?
    ensures !r[0].reply.UnityError?
    ensures r[0].delayMs == (if m.InitAssistant? then 500 else 100)
  {
    (if m.InitAssistant? then [ScheduledReply(500, AssistantReady, true)] else [])
    + (if m.SetState? then [ScheduledReply(100, UnityLog(StateLogPrefix + StateName(m.state)), false)] else [])
    + (if m.GeorgeSpeakStart? then [ScheduledReply(100, UnityLog(SpeakingLogPrefix + m.text + "\""), false)] else [])
    + (if m.GeorgeSpeakEnd? then [ScheduledReply(100, UnityLog(SpeakEndLog), false)] else [])
  }

  /** The state a state-change log names, read back from after its prefix. */
  function LoggedState(log: string): Option<AssistantState> {
    if log == StateLogPrefix + "idle" then Some(Idle)
    else if log == StateLogPrefix + "listening" then Some(Listening)
    else if log == StateLogPrefix + "thinking" then Some(Thinking)
    else if log == StateLogPrefix + "speaking" then Some(Speaking)
    else None
  }

  /** The reply to a state change names that state: the state can be read back from the log. */
  lemma SetStateLogNamesState(s: AssistantState)
    ensures Replies(SetState(s))[0].reply.UnityLog?
    ensures LoggedState(Replies(SetState(s))[0].reply.message) == Some(s)
  {
    var prefix := StateLogPrefix;
    assert (prefix + "idle")[|prefix|..] == "idle";
    assert (prefix + "listening")[|prefix|..] == "listening";
    assert (prefix + "thinking")[|prefix|..] == "thinking";
    assert (prefix + "speaking")[|prefix|..] == "speaking";
  }

  /** The reply to the start of speech quotes the text spoken, which can be read back from it. */
  lemma SpeakStartLogQuotesText(text: string)
    ensures var log := Replies(GeorgeSpeakStart(text))[0].reply;
      && log.UnityLog?
      && |log.message| == |SpeakingLogPrefix| + |text| + 1
      && log.message[..|SpeakingLogPrefix|] == SpeakingLogPrefix
      && log.message[|SpeakingLogPrefix|..|log.message| - 1] == text
      && log.message[|log.message| - 1] == '"'
  {
    var msg := SpeakingLogPrefix + text + "\"";
    assert Replies(GeorgeSpeakStart(text)) == [ScheduledReply(100, UnityLog(msg), false)];
    assert msg[..|SpeakingLogPrefix|] == SpeakingLogPrefix;
    assert msg[|SpeakingLogPrefix|..|msg| - 1] == text;
  }

  /** One delivery per subscribed callback, in subscription order. */
  function Deliveries(callbacks: seq<CallbackId>, m: UnityToGeorge): (r: seq<(CallbackId, UnityToGeorge)>)
    ensures |r| == |callbacks|
    ensures forall i :: 0 <= i < |r| ==> r[i] == (callbacks[i], m)
  {
    seq(|callbacks|, i requires 0 <= i < |callbacks| => (callbacks[i], m))
  }

  /** The bridge: its subscribers, its readiness, and the replies whose timers are pending. */
  class UnityBridge {
    var messageCallbacks: seq<CallbackId>
    var isUnityReady: bool
    var pending: seq<ScheduledReply>
    /** The messages sent so far. */
    var sent: seq<GeorgeToUnity>
    /** The replies emitted so far. */
    var emitted: seq<UnityToGeorge>
    /** Each callback invocation, in order. */
    var delivered: seq<(CallbackId, UnityToGeorge)>

    /** Some initialisation message was sent. */
    predicate InitSent()
      reads this
    {
      exists j :: 0 <= j < |sent| && sent[j].InitAssistant?
    }

    /**
     * The callbacks are a set; the view is ready exactly when a ready reply was
     * emitted; only the initialisation reply marks the view ready, and it is only
     * pending or emitted after an initialisation message was sent.
     */
    predicate Valid()
      reads this
    {
      && NoDuplicates(messageCallbacks)
      && (isUnityReady <==> AssistantReady in emitted)
      && (forall k :: 0 <= k < |pending| ==> (pending[k].marksReady <==> pending[k].reply.AssistantReady?))
      && (isUnityReady ==> InitSent())
      && (forall k :: 0 <= k < |pending| && pending[k].marksReady ==> InitSent())
    }

    /** A new bridge: no subscribers, nothing pending, not ready. */
    constructor()
      ensures Valid()
      ensures messageCallbacks == [] && !isUnityReady && pending == []
      ensures sent == [] && emitted == [] && delivered == []
    {
      messageCallbacks := [];
      isUnityReady := false;
      pending := [];
      sent := [];
      emitted := [];
      delivered := [];
    }

    /** `send(message)`: the message's reply is scheduled; nothing is delivered yet. */
    method Send(m: GeorgeToUnity)
      requires Valid()
      modifies this
      ensures Valid()
      ensures sent == old(sent) + [m] && pending == old(pending) + Replies(m)
      ensures messageCallbacks == old(messageCallbacks) && isUnityReady == old(isUnityReady)
      ensures emitted == old(emitted) && delivered == old(delivered)
    {
      if InitSent() {
        var j :| 0 <= j < |sent| && sent[j].InitAssistant?;
        assert (sent + [m])[j] == sent[j];
      }
      sent := sent + [m];
      assert sent[|sent| - 1] == m;
      pending := pending + Replies(m);
    }

    /**
     * The timer of the `k`-th pending reply fires: the initialisation reply first
     * marks the view ready, then the reply is delivered to every callback.
     */
    method FireTimer(k: nat)
      requires Valid() && k < |pending|
      modifies this
      ensures Valid()
      ensures pending == old(pending[..k] + pending[k + 1..])
      ensures isUnityReady == (old(isUnityReady) || old(pending[k]).marksReady)
      ensures emitted == old(emitted) + [old(pending[k]).reply]
      ensures delivered == old(delivered) + Deliveries(messageCallbacks, old(pending[k]).reply)
      ensures messageCallbacks == old(messageCallbacks) && sent == old(sent)
    {
      var due := pending[k];
      pending := pending[..k] + pending[k + 1..];
      assert forall j :: 0 <= j < |pending| ==> pending[j] in old(pending);
      if due.marksReady {
        isUnityReady := true;
      }
      EmitMessage(due.reply);
    }

    /** `emitMessage(message)`: every callback is called in turn; one that throws does not stop the rest. */
    method EmitMessage(m: UnityToGeorge)
      modifies this
      ensures delivered == old(delivered) + Deliveries(messageCallbacks, m)
      ensures emitted == old(emitted) + [m]
      ensures messageCallbacks == old(messageCallbacks) && isUnityReady == old(isUnityReady)
      ensures pending == old(pending) && sent == old(sent)
    {
      var i := 0;
      while i < |messageCallbacks|
        invariant 0 <= i <= |messageCallbacks|
        invariant delivered == old(delivered) + Deliveries(messageCallbacks[..i], m)
        invariant messageCallbacks == old(messageCallbacks) && isUnityReady == old(isUnityReady)
        invariant pending == old(pending) && sent == old(sent) && emitted == old(emitted)
      {
        assert Deliveries(messageCallbacks[..i + 1], m) == Deliveries(messageCallbacks[..i], m) + [(messageCallbacks[i], m)];
        delivered := delivered + [(messageCallbacks[i], m)];
        i := i + 1;
      }
      assert messageCallbacks[..i] == messageCallbacks;
      emitted := emitted + [m];
    }

    /** `onMessage(callback)`: the callback joins the set. */
    method OnMessage(cb: CallbackId)
      requires Valid()
      modifies this
      ensures Valid()
      ensures messageCallbacks == AddCallback(old(messageCallbacks), cb)
      ensures isUnityReady == old(isUnityReady) && pending == old(pending)
      ensures sent == old(sent) && emitted == old(emitted) && delivered == old(delivered)
    {
      SubscriptionsStayDistinct(messageCallbacks, cb);
      messageCallbacks := AddCallback(messageCallbacks, cb);
    }

    /** The unsubscribe function `onMessage` returns: that callback, and only it, leaves the set. */
    method Unsubscribe(cb: CallbackId)
      requires Valid()
      modifies this
      ensures Valid()
      ensures messageCallbacks == RemoveCallback(old(messageCallbacks), cb)
      ensures isUnityReady == old(isUnityReady) && pending == old(pending)
      ensures sent == old(sent) && emitted == old(emitted) && delivered == old(delivered)
    {
      SubscriptionsStayDistinct(messageCallbacks, cb);
      messageCallbacks := RemoveCallback(messageCallbacks, cb);
    }

    /** `isReady()`. */
    function IsReady(): (r: bool)
      reads this
      requires Valid()
      ensures r ==> InitSent() && AssistantReady in emitted
    {
      isUnityReady
    }
  }
}
