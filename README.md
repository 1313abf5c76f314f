# GeorgeAssistant services, modelled in Dafny

GeorgeAssistant is a React Native voice assistant ("George") for air-conditioning
questions. This project models the logic of its five service modules and proves
properties about them:

- **The voice service** (`VoiceService`). This is a speech-recognition state machine:
  - four flags: listening, recognised text, continuous (wake-word) mode, wake word detected;
  - two subscriber sets;
  - the native recognition events and the async entry points `startContinuousListening`, `startListening`, `stopListening` and `cancelListening`;
  - `speak`, with its resolve-once promise and safety timeout;
  - the scripted conversation `simulateConversation`;
  - the pure text functions `improveTextNaturalness` and `generateResponse`.
- **The configuration cache** (`configService`). It loads the API settings from the key-value store with defaults, saves a partial configuration merged into the current one, and provides the "effective" getters.
- **The authenticated API client** (`Api.ts`):
  - the request interceptor that adds the bearer token;
  - the response interceptor that refreshes an expired token once, for every request that waits on it;
  - `clearAuthStorage`;
  - `login`.
- **The Unity bridge stub** (`UnityBridge`). It answers each outbound message with one simulated reply after a timer, and keeps a readiness flag and a subscriber set.
- **The e-mail login stub** (`AuthService.authLogin`). It checks its inputs in order and builds the result record.

How the JavaScript is modelled:

- **Handlers and async steps.** JavaScript runs one handler to completion at a time. Each event handler, and each stretch of an async function between two `await`s, is one step.
  - The voice service's steps are pure functions in `VoiceEngine`.
  - The class `Service.VoiceService` has one method per step. Each method is proved to make exactly that step: `Took(...)`.
  - The token-refresh interceptor is built the same way: the functions are in `Api`, the class is `ApiSession.Interceptor`.
- **Timers.** A `setTimeout` becomes a pending value in a list: a restart with its re-check guard, or a Unity reply. A method fires one of these. Delays are labels only.
- **Native calls and I/O.** The speech libraries, HTTP and the key-value store are parameters: whether a call succeeds, what it returns, and which events arrive. The native calls of voice recognition, and `Tts.speak` and `Tts.stop` in the voice service class, are logged as `NativeCall` values. The conversation function logs recognition calls and the `cancel`/`stop` pair of its error path; it records its `Tts.speak` call only as the flag `spoken`.
- **Callbacks** are numbered. Each notification records which callbacks it invoked.

Files:

| file | module | contents |
|---|---|---|
| `wrappers.dfy` | `Wrappers` | `Option`, `Result` |
| `text.dfy` | `Text` | the JavaScript string operations used: `trim`, `toLowerCase`, `includes`, `replace`, `parseInt`, `String(n)` |
| `messages.dfy` | `Messages` | the assistant states and the two message unions shared with the avatar view |
| `subscribers.dfy` | `Subscribers` | callback sets with JavaScript `Set` semantics |
| `voice_text.dfy` | `VoiceText` | the prosody clean-up, the wake phrases, the canned replies, the speak timeout |
| `voice_engine.dfy` | `VoiceEngine` | the recognition state machine as step functions, runs over event traces, and the lemmas about them |
| `voice_conversation.dfy` | `VoiceConversation` | `simulateConversation` as a function of a script of environment answers |
| `voice_service.dfy` | `Service` | the `VoiceService` class and the pending utterance of `speak` |
| `session.dfy` | `Session` | the session user, the auth storage keys, `clearAuthStorage` |
| `config_service.dfy` | `Config` | the configuration cache |
| `api.dfy` | `Api`, `ApiSession` | the interceptors and `login`, as functions and as the module state object |
| `unity_bridge.dfy` | `Unity` | the Unity bridge |
| `auth_service.dfy` | `Auth` | `authLogin` |

## Model

| member | source | states |
|---|---|---|
| `Text.Utf16Length` | src/services/voice/VoiceService.ts:406 | `.length` counts UTF-16 code units: between one and two per character, exactly one per character iff none lies outside the Basic Multilingual Plane, two per character iff all do |
| `Text.Lower` | src/services/voice/VoiceService.ts:541 | `toLowerCase` keeps the length and lower-cases each character on its own |
| `Text.LowerChar` | src/services/voice/VoiceService.ts:192 | capital ASCII letters become their lower-case letters; characters that are neither ASCII nor Latin-1 capitals are unchanged; white space stays white space |
| `Text.TrimStart` | src/services/auth/AuthService.ts:16 | the result is a suffix with nothing but white space dropped before it, and it does not start with white space |
| `Text.TrimEnd` | src/services/auth/AuthService.ts:27 | the result is a prefix with nothing but white space dropped after it, and it does not end with white space |
| `Text.Trim` | src/services/voice/VoiceService.ts:524 | a non-empty trimmed string begins and ends with a non-white-space character |
| `Text.CollapseWhitespace` | src/services/voice/VoiceService.ts:523 | white space in the result is only single `' '` characters, never two in a row, and the result is empty iff the input is |
| `Text.Contains` | src/services/voice/VoiceService.ts:179 | `includes` holds only for a pattern no longer than the text |
| `Text.ContainsAt` | src/services/voice/VoiceService.ts:179 | `includes` holds whenever the pattern occurs at some position |
| `Text.ReplaceAll` | src/services/voice/VoiceService.ts:507-519 | a text without the pattern comes back unchanged, and a replacement no shorter than the pattern never shortens the text |
| `Text.ReplaceAllSelf` | src/services/voice/VoiceService.ts:517-519 | replacing a pattern by itself (the `' y '` and `' o '` replacements) changes nothing |
| `Text.NatToString` | src/services/configService.ts:56 | the plain decimal notation `String(n)` uses below 10^21: a non-empty string of digits |
| `Text.NumberToString` | src/services/configService.ts:56 | `String(n)` of a natural number starts with a digit, and is all digits exactly when `n < 10^21`; from 10^21 on its first character is the leading digit of `n` and its second is not a digit (the point or the "e" of the exponent notation) |
| `Text.NatToStringLeads` | src/services/configService.ts:56 | the first of the decimal digits of `n` is its leading digit |
| `Text.StripZerosLeads` | src/services/configService.ts:56 | dropping the trailing zeros of the significand keeps the leading digit |
| `Text.IntToString` | src/services/configService.ts:56 | `String(n)` is non-empty, starts with `-` exactly when `n` is negative, and is otherwise all digits exactly when `abs(n) < 10^21` |
| `Text.DigitPrefix` | src/services/configService.ts:35 | the longest run of leading digits: a prefix made of digits, followed by a non-digit or the end |
| `Text.ParseSigned` | src/services/configService.ts:35 | a number is read only from a non-empty string; a negative one only after a leading `-`; a leading digit always gives a non-negative number |
| `Text.ParseInt` | src/services/configService.ts:35 | `parseInt(s, 10)` is NaN exactly when no digit follows the leading white space and optional sign |
| `Text.DigitPrefixOfDigits` | src/services/configService.ts:35 | a string of digits is read whole |
| `Text.NatToStringValue` | src/services/configService.ts:56 | the plain decimal digits of `n` have the value `n` |
| `Text.ParseSignedOfDigits` | src/services/configService.ts:35 | a run of digits, with or without a minus sign, reads back as its signed value |
| `Text.ParseIntOfIntToString` | src/services/configService.ts:56 | `parseInt(String(n), 10)` is `n` when `abs(n) < 10^21`; from 10^21 on it is only the signed leading digit of `n` (`parseInt("1e+21", 10)` is 1) |
| `Text.ParseSignedOfLeadingDigit` | src/services/configService.ts:35 | a digit followed by a non-digit, with or without a minus sign, reads back as that one signed digit |
| `Subscribers.AddCallback` | src/services/voice/VoiceService.ts:567 | `Set.add`: the callback is a member afterwards, and the members are the old ones plus it |
| `Subscribers.RemoveCallback` | src/services/voice/VoiceService.ts:569 | `Set.delete`: the members are the old ones except that callback |
| `Subscribers.RemoveAbsent` | src/services/voice/VoiceService.ts:569 | deleting an absent callback leaves the set as it was |
| `Subscribers.RemoveAppend` | src/services/voice/VoiceService.ts:569 | deletion distributes over concatenation, order preserved |
| `Subscribers.UnsubscribeUndoesSubscribe` | src/services/voice/VoiceService.ts:566-571 | the returned unsubscribe removes exactly the callback added: a new subscriber's unsubscribe restores the set exactly |
| `Subscribers.SubscriptionsStayDistinct` | src/services/voice/VoiceService.ts:16-17 | adding and deleting keep the set free of duplicates |
| `VoiceText.ImproveTextNaturalness` | src/services/voice/VoiceService.ts:503-527 | the cleaned-up text has no leading or trailing white space, white space only as single spaces, and each of `, . : ? !` is last or followed by a space |
| `VoiceText.ShapeOfImproved` | src/services/voice/VoiceService.ts:505-524 | the trimmed, collapsed replacement chain has exactly the three shape properties above |
| `VoiceText.ImproveKeepsNonWhitespace` | src/services/voice/VoiceService.ts:503-527 | the clean-up only moves white space: the non-white-space characters are exactly those of the input, in order |
| `VoiceText.AddPauses` | src/services/voice/VoiceService.ts:505-521 | after the replacement chain, every pause mark is followed by white space |
| `VoiceText.ExpandSpaced` | src/services/voice/VoiceService.ts:507-515 | replacing `c` by `c + ' '` puts white space after every `c` and keeps that property for other marks |
| `VoiceText.NumberDotKeepsSpaced` | src/services/voice/VoiceService.ts:521 | the digit-dot replacement keeps every pause mark followed by white space |
| `VoiceText.SpaceAfterNumberDot` | src/services/voice/VoiceService.ts:521 | the digit-dot replacement only inserts: the result is never shorter and keeps the first character |
| `VoiceText.CollapseKeepsSpaced` | src/services/voice/VoiceService.ts:523 | collapsing white space keeps every pause mark followed by a space |
| `VoiceText.TrimStartKeepsCollapsed` | src/services/voice/VoiceService.ts:524 | trimming the start keeps a collapsed string collapsed |
| `VoiceText.TrimEndKeepsShape` | src/services/voice/VoiceService.ts:524 | trimming the end of a collapsed string gives single spacing, with pauses followed by a space or last |
| `VoiceText.StripConcat` | src/services/voice/VoiceService.ts:503-527 | removing white space distributes over concatenation |
| `VoiceText.StripExpand` | src/services/voice/VoiceService.ts:507-515 | inserting a space after a mark does not change the non-white-space characters |
| `VoiceText.StripNumberDot` | src/services/voice/VoiceService.ts:521 | the digit-dot replacement does not change the non-white-space characters |
| `VoiceText.StripAddPauses` | src/services/voice/VoiceService.ts:505-521 | the whole replacement chain does not change the non-white-space characters |
| `VoiceText.StripTrimStart` | src/services/voice/VoiceService.ts:524 | trimming the start does not change the non-white-space characters |
| `VoiceText.StripTrimEnd` | src/services/voice/VoiceService.ts:524 | trimming the end does not change the non-white-space characters |
| `VoiceText.StripCollapse` | src/services/voice/VoiceService.ts:523 | collapsing white space does not change the non-white-space characters |
| `VoiceText.ContainsWitness` | src/services/voice/VoiceService.ts:179 | `includes` yields a position where the pattern occurs |
| `VoiceText.ContainsTransitive` | src/services/voice/VoiceService.ts:178-179 | a text containing `a` contains everything `a` contains |
| `VoiceText.WakeWordsReduce` | src/services/voice/VoiceService.ts:178-179 | a text has one of the six wake phrases iff it contains "ey geo", "george" or "jorge" |
| `VoiceText.IsWakeText` | src/services/voice/VoiceService.ts:178-179 | a transcript wakes the assistant iff its lower-cased form contains "ey geo", "george" or "jorge" |
| `VoiceText.Classify` | src/services/voice/VoiceService.ts:540-561 | greetings are tested first, then farewells, then "gracias", else the default; each branch is stated both ways |
| `VoiceText.AddClosingPhrase` | src/services/voice/VoiceService.ts:531-534 | no phrase is added: the reply keeps its non-white-space characters in order, is trimmed, single-spaced, and each pause mark is last or followed by a space |
| `VoiceText.GenerateResponse` | src/services/voice/VoiceService.ts:540-561 | the reply has exactly the words of the canned reply of the transcript's branch, single-spaced with pauses followed by a space |
| `VoiceText.LowerIdempotent` | src/services/voice/VoiceService.ts:541 | lower-casing twice is lower-casing once |
| `VoiceText.ResponseIgnoresCase` | src/services/voice/VoiceService.ts:540-561 | `generateResponse` gives the same reply for a transcript and its lower-cased form |
| `VoiceText.SpeakTimeout` | src/services/voice/VoiceService.ts:406-412 | the safety timeout lies in [3000, 30000] ms and is 200 ms per UTF-16 code unit (`Text.Utf16Length`) between the two bounds |
| `VoiceEngine.ErrorCode` | src/services/voice/VoiceService.ts:144 | the nested code when truthy, else the outer code when truthy, else "unknown"; never empty |
| `VoiceEngine.OnSpeechStart` | src/services/voice/VoiceService.ts:115-122 | sets listening and changes no other flag; publishes "listening" only outside continuous mode |
| `VoiceEngine.OnSpeechEnd` | src/services/voice/VoiceService.ts:128-141 | clears listening; a 500 ms restart is scheduled iff continuous and no wake word was heard |
| `VoiceEngine.OnSpeechError` | src/services/voice/VoiceService.ts:143-167 | clears listening. Codes 7 and 9 never restart. A 2000 ms restart happens iff continuous, not woken and the code is another one. "idle" is published iff not continuous |
| `VoiceEngine.DetectWake` | src/services/voice/VoiceService.ts:177-185 | the wake flag rises iff continuous, not yet woken and the lower-cased text holds a wake phrase; the wake callbacks fire exactly when it rises; nothing else changes |
| `VoiceEngine.OnSpeechResults` | src/services/voice/VoiceService.ts:169-188 | a non-empty result sets the recognised text to its first alternative; an empty one changes nothing |
| `VoiceEngine.OnSpeechPartialResults` | src/services/voice/VoiceService.ts:190-207 | partial results never change the recognised text |
| `VoiceEngine.StartContinuousListening` | src/services/voice/VoiceService.ts:233-242 | a no-op while listening; otherwise it asks for availability and goes on |
| `VoiceEngine.ContinuousPermissionChecked` | src/services/voice/VoiceService.ts:242-264 | refused: no flag changes and a 2000 ms retry guarded by continuous mode; granted: continuous on, wake and text cleared, then a cancel |
| `VoiceEngine.PauseElapsed` | src/services/voice/VoiceService.ts:267-269 | after the 300 ms pause of either entry point (also lines 311-312), `Voice.start('es-MX')` is called with the state unchanged |
| `VoiceEngine.ContinuousStartSettled` | src/services/voice/VoiceService.ts:269-287 | never rejects; a failed start schedules a 2000 ms retry guarded by continuous-and-not-woken |
| `VoiceEngine.RestartFired` | src/services/voice/VoiceService.ts:245-251 | a fired timer starts again iff its guard holds, and changes nothing otherwise |
| `VoiceEngine.StartListening` | src/services/voice/VoiceService.ts:293-296 | `startListening` first asks for availability and changes nothing |
| `VoiceEngine.ListeningPermissionChecked` | src/services/voice/VoiceService.ts:296-309 | refused: rejects with the permission error and changes nothing; granted: text and wake cleared, continuous mode untouched, then a cancel |
| `VoiceEngine.ListeningStartSettled` | src/services/voice/VoiceService.ts:312-321 | success publishes "listening"; failure rejects and publishes nothing |
| `VoiceEngine.StopListening` | src/services/voice/VoiceService.ts:327-340 | success returns the recognised text and clears it, listening and continuous; failure returns "" and clears only continuous |
| `VoiceEngine.CancelListening` | src/services/voice/VoiceService.ts:345-355 | success clears listening, continuous and wake, then publishes "idle"; failure changes and publishes nothing |
| `VoiceEngine.ResetWakeWord` | src/services/voice/VoiceService.ts:599-601 | only the wake flag is cleared |
| `VoiceEngine.Apply` | src/services/voice/VoiceService.ts:115-355 | only `subscribe`/`subscribeToWakeWord` and their unsubscribe functions (lines 566-580) change the subscriber sets |
| `VoiceEngine.Run` | src/services/voice/VoiceService.ts:115-355 | a run schedules at most one restart per step, and without subscription calls the subscriber sets come out unchanged |
| `VoiceEngine.CountWakeAppend` | src/services/voice/VoiceService.ts:586-594 | wake notifications over two stretches add up |
| `VoiceEngine.WakeStep` | src/services/voice/VoiceService.ts:183-184 | every step publishes one wake notification iff it raises the wake flag, and only the re-arming steps (lines 256, 302, 350, 600) lower it |
| `VoiceEngine.WakeAtMostOncePerArming` | src/services/voice/VoiceService.ts:177-203 | between two re-arming steps the wake callbacks fire at most once, and never if already woken |
| `VoiceEngine.WakeFiresOnceIffHeard` | src/services/voice/VoiceService.ts:169-207 | in an armed session, over any recognition events, the wake callbacks fire exactly once iff some final or partial result carries a wake phrase |
| `VoiceEngine.ArmedRecognitionStep` | src/services/voice/VoiceService.ts:169-207 | in an armed continuous session a recognition event keeps continuous mode and raises the wake flag iff it carries a wake phrase |
| `VoiceEngine.HeardInTail` | src/services/voice/VoiceService.ts:169-207 | a wake phrase is heard in a trace iff it is in the first event or in the rest |
| `VoiceEngine.NoRestartOnceWoken` | src/services/voice/VoiceService.ts:133-160 | once woken, recognition events schedule no restart, call nothing and keep the wake flag |
| `VoiceEngine.RunAppend` | src/services/voice/VoiceService.ts:115-207 | running two stretches of events is running them one after the other |
| `VoiceEngine.RecognizedTextIsLastResult` | src/services/voice/VoiceService.ts:169-188 | the recognised text is the first alternative of the latest final result, so a successful stop returns it |
| `VoiceEngine.TwoRequestsBothStart` | src/services/voice/VoiceService.ts:233-269 | with no single-flight guard, two back-to-back continuous requests both pass the listening check and both reach `Voice.start` |
| `VoiceEngine.SpeechEndRestartOutlivesStop` | src/services/voice/VoiceService.ts:135-139 | the speech-end restart is not re-checked: after a stop or cancel it still starts a session, while the guarded retries do not |
| `VoiceEngine.CancelIdempotent` | src/services/voice/VoiceService.ts:345-355 | a second successful cancel leaves the flags as the first did, and publishes "idle" again |
| `VoiceConversation.ReplyKindFor` | src/services/voice/VoiceService.ts:471-473 | an empty transcript gets the not-heard reply, and only it; any other is classified lower-cased |
| `VoiceConversation.ReplyToBranches` | src/services/voice/VoiceService.ts:471-473 | the reply is `generateResponse` of a non-empty transcript and the cleaned-up request to repeat otherwise |
| `VoiceConversation.Fail` | src/services/voice/VoiceService.ts:492-497 | the error path cancels, stops speaking, shows and publishes "idle" last, and rejects with the error caught; `onResponse` has run only if it was what threw |
| `VoiceConversation.Converse` | src/services/voice/VoiceService.ts:447-498 | a refused permission or a failed start rejects with no transcript, nothing spoken, no `onResponse`, and shows listening then idle; otherwise a transcript is taken |
| `VoiceConversation.AfterStart` | src/services/voice/VoiceService.ts:457-490 | after listening starts: `onResponse` runs iff the utterance is accepted, and the call resolves iff in addition `onResponse` does not throw; the observer sees listening, thinking, speaking, idle; "thinking" and later "speaking" are published after the notifications before the call, and "idle" is published last; native calls are appended to those before |
| `VoiceConversation.Respond` | src/services/voice/VoiceService.ts:481-497 | after "speaking": `onResponse` runs iff the utterance is accepted, the call resolves iff in addition `onResponse` does not throw, the transcript is kept, and "idle" is published last after what was published before |
| `VoiceConversation.ThinkingThenSpeakingPublished` | src/services/voice/VoiceService.ts:466-479 | publishing "thinking", then more, then "speaking", then more publishes "thinking" before "speaking", both before the last notification |
| `VoiceConversation.ConversationStates` | src/services/voice/VoiceService.ts:447-498 | `onResponse` runs iff permission is granted, listening starts and the utterance is accepted, and the call resolves iff in addition `onResponse` does not throw; the observer sees listening, thinking, speaking, idle on success and listening, idle or the full sequence on failure; publications start with "listening" and end with "idle", and once listening starts "thinking" and later "speaking" are published between them |
| `VoiceConversation.ConversationAnswersWhatWasHeard` | src/services/voice/VoiceService.ts:454-473 | when only recognition events arrive while listening, the transcript the reply is built from is the first alternative of the latest final result, or "" if there was none or the stop failed |
| `Service.Utterance.constructor` | src/services/voice/VoiceService.ts:370-412 | a new utterance is unsettled, with its safety timer armed at the length-based timeout |
| `Service.Utterance.Cleanup` | src/services/voice/VoiceService.ts:375-384 | clears the timer and nothing else |
| `Service.Utterance.Reject` | src/services/voice/VoiceService.ts:421-428 | the promise rejects unless already settled |
| `Service.Utterance.ResolveOnce` | src/services/voice/VoiceService.ts:386-392 | resolves at most once: a second call changes nothing |
| `Service.Utterance.Finish` | src/services/voice/VoiceService.ts:397-402 | the finish handler resolves the promise unless it already settled |
| `Service.Utterance.TimeoutFires` | src/services/voice/VoiceService.ts:407-411 | an armed timer firing resolves the promise |
| `Service.VoiceService.constructor` | src/services/voice/VoiceService.ts:16-21 | a new service is not listening, has no subscribers, and has published, called and scheduled nothing |
| `Service.VoiceService.NotifyStateChange` | src/services/voice/VoiceService.ts:606-614 | every state subscriber is invoked, in order, and nothing else changes |
| `Service.VoiceService.NotifyWakeWord` | src/services/voice/VoiceService.ts:586-594 | every wake subscriber is invoked, in order, and nothing else changes |
| `Service.VoiceService.Schedule` | src/services/voice/VoiceService.ts:135 | a timer joins the pending list and nothing else changes |
| `Service.VoiceService.OnSpeechStart` | src/services/voice/VoiceService.ts:115-122 | makes exactly the step `VoiceEngine.OnSpeechStart` |
| `Service.VoiceService.OnSpeechEnd` | src/services/voice/VoiceService.ts:128-141 | makes exactly the step `VoiceEngine.OnSpeechEnd`, scheduling its restart |
| `Service.VoiceService.OnSpeechError` | src/services/voice/VoiceService.ts:143-167 | makes exactly the step `VoiceEngine.OnSpeechError` |
| `Service.VoiceService.CheckWake` | src/services/voice/VoiceService.ts:177-185 | makes exactly the step `VoiceEngine.DetectWake` |
| `Service.VoiceService.OnSpeechResults` | src/services/voice/VoiceService.ts:169-188 | makes exactly the step `VoiceEngine.OnSpeechResults` |
| `Service.VoiceService.OnSpeechPartialResults` | src/services/voice/VoiceService.ts:190-207 | makes exactly the step `VoiceEngine.OnSpeechPartialResults` |
| `Service.VoiceService.StartContinuousListening` | src/services/voice/VoiceService.ts:233-242 | makes exactly the first step of `startContinuousListening` and reports whether it goes on |
| `Service.VoiceService.ContinuousPermissionChecked` | src/services/voice/VoiceService.ts:242-264 | makes exactly the step after the availability check |
| `Service.VoiceService.PauseElapsed` | src/services/voice/VoiceService.ts:267-269 | makes exactly the step that calls `Voice.start`, for either entry point's pause (also lines 311-312) |
| `Service.VoiceService.ContinuousStartSettled` | src/services/voice/VoiceService.ts:269-287 | makes exactly the step after `Voice.start` settles |
| `Service.VoiceService.FireTimer` | src/services/voice/VoiceService.ts:245-251 | the fired timer leaves the pending list and the service makes the guarded restart step |
| `Service.VoiceService.StartListening` | src/services/voice/VoiceService.ts:293-296 | makes exactly the first step of `startListening` |
| `Service.VoiceService.ListeningPermissionChecked` | src/services/voice/VoiceService.ts:296-309 | makes the step after the availability check; rejects with the permission error iff refused |
| `Service.VoiceService.ListeningStartSettled` | src/services/voice/VoiceService.ts:312-321 | makes the step after `Voice.start` settles; resolves iff it started |
| `Service.VoiceService.StopListening` | src/services/voice/VoiceService.ts:327-340 | makes the stop step and returns the recognised text on success, "" on failure |
| `Service.VoiceService.CancelListening` | src/services/voice/VoiceService.ts:345-355 | makes exactly the cancel step |
| `Service.VoiceService.ResetWakeWord` | src/services/voice/VoiceService.ts:599-601 | makes exactly the reset step |
| `Service.VoiceService.OnStateChange` | src/services/voice/VoiceService.ts:566-568 | adds the callback to the state subscribers |
| `Service.VoiceService.RemoveStateCallback` | src/services/voice/VoiceService.ts:569-570 | removes exactly that callback from the state subscribers |
| `Service.VoiceService.OnWakeWord` | src/services/voice/VoiceService.ts:576-578 | adds the callback to the wake subscribers |
| `Service.VoiceService.RemoveWakeCallback` | src/services/voice/VoiceService.ts:579-580 | removes exactly that callback from the wake subscribers |
| `Service.VoiceService.Speak` | src/services/voice/VoiceService.ts:361-431 | the utterance carries the cleaned-up text and its timeout. It is pending with its timer armed iff accepted, and rejected otherwise. Its finish listener is registered and `Tts.speak` is called iff setup gets that far. Recognition state is untouched |
| `Service.VoiceService.SpeakImproved` | src/services/voice/VoiceService.ts:367-430 | the same, from the cleaned-up text on |
| `Service.VoiceService.TtsFinished` | src/services/voice/VoiceService.ts:397-402 | a finish event resolves every registered utterance still pending and leaves settled ones as they were |
| `Session.ClearAuth` | src/services/api/Api.ts:39-45 | the token, user name and GUID keys are gone and every other key keeps its value |
| `Session.ClearAuthAs` | src/services/api/Api.ts:39-45 | once `clearAuthStorage` settles, the auth keys whose removal succeeded are gone, those whose removal failed keep their values, and other keys are untouched |
| `Config.Get` | src/services/configService.ts:28-31 | `getItem` returns the stored value iff the key is present |
| `Config.TimeoutFrom` | src/services/configService.ts:35 | the loaded timeout is the parsed value unless it is absent, NaN or 0, which give 30000; it is never 0 |
| `Config.FromStorage` | src/services/configService.ts:33-38 | missing base URL or user agent fall back to the defaults; custom config is on iff the stored string is exactly "true" |
| `Config.Merge` | src/services/configService.ts:48-53 | each field comes from the partial argument unless absent, otherwise from the current configuration |
| `Config.Written` | src/services/configService.ts:54-59 | each successful write stores its field's string; other keys are untouched |
| `Config.SaveThenLoad` | src/services/configService.ts:33-58 | loading what a save wrote gives back the base URL, the user agent and the custom flag; the timeout comes back when `abs(timeout) < 10^21`, with 0 read back as 30000, and from 10^21 on only its signed leading digit comes back |
| `Config.TimeoutReadsBack` | src/services/configService.ts:35 | the timeout parsed from `String(n)`: `n` below 10^21 in magnitude (30000 for 0), the signed leading digit of `n` from there on |
| `Config.FullSaveOverrides` | src/services/configService.ts:48-53 | saving every field replaces the whole configuration |
| `Config.EmptySaveKeeps` | src/services/configService.ts:48-53 | saving an empty partial configuration keeps the current one |
| `Config.Effective` | src/services/configService.ts:63-76 | with no cache or custom config off the getters give the default, otherwise the cached field |
| `Config.EffectiveBaseUrl` | src/services/configService.ts:63-66 | the default base URL without a cache or with the custom config off, the cached one otherwise |
| `Config.EffectiveTimeout` | src/services/configService.ts:68-71 | the default timeout without a cache or with the custom config off, the cached one otherwise |
| `Config.EffectiveUserAgent` | src/services/configService.ts:73-76 | the default user agent without a cache or with the custom config off, the cached one otherwise |
| `Config.EffectiveTimeoutOfLoaded` | src/services/configService.ts:68-71 | the effective timeout of a loaded or default configuration is never 0 |
| `Config.ConfigService.constructor` | src/services/configService.ts:22 | nothing is cached at start |
| `Config.ConfigService.LoadConfiguration` | src/services/configService.ts:24-44 | a set cache is returned without reading the store; otherwise the parsed store, or the defaults if reading fails, and either is cached |
| `Config.OverlappingSavesLoseUpdate` | src/services/configService.ts:46-61 | two saves that both load before either writes: the later one writes back the old base URL, so the earlier one's new base URL is lost in the store and on reload |
| `Config.ConfigService.BeginSave` | src/services/configService.ts:47-53 | up to the writes: the configuration is loaded and cached, and the partial one merged into it |
| `Config.ConfigService.CompleteSave` | src/services/configService.ts:54-60 | the successful writes land, and the merged configuration is cached iff all four succeed |
| `Config.ConfigService.SaveConfiguration` | src/services/configService.ts:46-61 | a save with nothing interleaved: the merged configuration is written, and cached only if all four writes succeed |
| `Config.ConfigService.InvalidateConfigCache` | src/services/configService.ts:83-85 | the cache is cleared and the store untouched |
| `Config.ConfigService.GetCachedConfig` | src/services/configService.ts:78-80 | the cached configuration, absent before any load or full save |
| `Config.ConfigService.GetEffectiveBaseUrl` | src/services/configService.ts:63-66 | the default until a configuration with custom settings on is cached, then its base URL |
| `Config.ConfigService.GetEffectiveTimeout` | src/services/configService.ts:68-71 | the default until a configuration with custom settings on is cached, then its timeout |
| `Config.ConfigService.GetEffectiveUserAgent` | src/services/configService.ts:73-76 | the default until a configuration with custom settings on is cached, then its user agent |
| `Api.WithAuthorization` | src/services/api/Api.ts:57-68 | `Authorization: Bearer <token>` iff a non-empty token is stored, no such header otherwise; other headers are kept |
| `Api.Authorize` | src/services/api/Api.ts:57-68 | a failed token read rejects the request with that error; a read token is sent as `Bearer <token>` iff non-empty, and other headers are kept |
| `Api.HeaderCarriesStoredToken` | src/services/api/Api.ts:58-62 | the header written carries exactly the stored token |
| `Api.ResolveAll` | src/services/api/Api.ts:104 | every waiter is re-sent with the new token, in queue order |
| `Api.RejectAll` | src/services/api/Api.ts:109 | every waiter is rejected with the refresh error, in queue order |
| `Api.OnErrorResponse` | src/services/api/Api.ts:72-77 | a non-401 error or an already retried request is rejected unchanged; otherwise the GUID is read |
| `Api.OnGuidRead` | src/services/api/Api.ts:77-100 | a failed read rejects with the storage error. No GUID: the auth keys are cleared and the error rejected unchanged, or with the storage error if clearing fails, leaving the keys not removed. During a refresh: queued, with no second refresh. Otherwise the refresh starts with a post of the GUID |
| `Api.NewToken` | src/services/api/Api.ts:101-102 | the token is `token ?? access_token` and must be non-empty |
| `Api.FailRefresh` | src/services/api/Api.ts:108-110 | on failure every waiter is rejected with the same error and the queue emptied before the store is cleared |
| `Api.OnRefreshAnswered` | src/services/api/Api.ts:96-102 | a usable token goes on to be stored; a failed post or missing token fails the refresh |
| `Api.OnTokenStored` | src/services/api/Api.ts:103-115 | stored: every waiter resolved, queue empty, original re-sent marked as retried, flag lowered; a storage failure fails the refresh |
| `Api.FinalRejection` | src/services/api/Api.ts:110-112 | the original request rejects with the refresh error iff the clearing succeeded, and with the storage error iff it failed |
| `Api.OnAuthCleared` | src/services/api/Api.ts:110-115 | once the clearing settles the original request rejects with `FinalRejection` and the flag is lowered either way; the store loses the keys whose removal succeeded |
| `Api.Apply` | src/services/api/Api.ts:70-118 | single flight: a step posts at most one refresh, and only a GUID read with no refresh in flight posts, starting that request's refresh |
| `Api.ApplyKeepsCoherent` | src/services/api/Api.ts:82-115 | every step keeps the flag up exactly while a refresh is in flight |
| `Api.SecondUnauthorizedWaits` | src/services/api/Api.ts:82-92 | single flight: a 401 during a refresh is queued and posts nothing |
| `Api.RetriedAtMostOnce` | src/services/api/Api.ts:73-76 | a request marked as retried is rejected unchanged, whatever its status |
| `Api.Run` | src/services/api/Api.ts:70-118 | from a coherent state, any run of events ends with the flag up exactly while a refresh is in flight |
| `Api.SettlementsOf` | src/services/api/Api.ts:82-115 | exactly the settlements of one request: every one in the result concerns it, and every one that concerns it is in the result |
| `Api.StrandedWaiter` | src/services/api/Api.ts:108-115 | as written, a 401 queued while a failed refresh clears the store is left queued with the flag down; that refresh never settles it, and only a later refresh can |
| `Api.OnAuthClearedDrained` | src/services/api/Api.ts:108-115 | the corrected failure path also rejects the requests queued during the clearing, then the original with `FinalRejection` |
| `Api.DrainedKeepsNoWaiterBehind` | src/services/api/Api.ts:82-115 | with the corrected failure path, nothing stays queued once the flag is down, and a refresh that ends settles every waiter |
| `Api.RunDrainedNeverStrands` | src/services/api/Api.ts:82-115 | with the corrected failure path, no sequence of events leaves a request queued with no refresh in flight |
| `Api.NoStrandedWaiterWhenDrainedLate` | src/services/api/Api.ts:108-115 | the events of `StrandedWaiter` leave nothing queued under the corrected failure path |
| `Api.LoginGuid` | src/services/api/Api.ts:162 | the GUID is `unique_guid ?? uniqueGUID ?? username`; only absence falls through |
| `Api.Login` | src/services/api/Api.ts:157-172 | fails without a non-empty token. Succeeds iff the request and all three writes succeed. When a write rejects, `login` rejects with that write's error and the GUID is not written. The user is the GUID, the user name and the role or "user". The store gets token, user name and GUID |
| `Api.LoginFeedsInterceptors` | src/services/api/Api.ts:157-172 | after a login the request interceptor sends the new token and the refresh finds the stored GUID |
| `ApiSession.Interceptor.constructor` | src/services/api/Api.ts:25-29 | nothing is refreshing or queued at start |
| `ApiSession.Interceptor.OnErrorResponse` | src/services/api/Api.ts:72-77 | makes exactly the step `Api.OnErrorResponse`, keeping the interceptor's invariant |
| `ApiSession.Interceptor.OnGuidRead` | src/services/api/Api.ts:77-100 | makes exactly the step `Api.OnGuidRead`, storage failures included |
| `ApiSession.Interceptor.ResolveWaiters` | src/services/api/Api.ts:104-105 | the `forEach` drain resolves every waiter in order and empties the queue |
| `ApiSession.Interceptor.RejectWaiters` | src/services/api/Api.ts:109-110 | the `forEach` drain rejects every waiter in order and empties the queue |
| `ApiSession.Interceptor.OnRefreshAnswered` | src/services/api/Api.ts:96-110 | makes exactly the step `Api.OnRefreshAnswered` |
| `ApiSession.Interceptor.OnTokenStored` | src/services/api/Api.ts:103-115 | makes exactly the step `Api.OnTokenStored` |
| `ApiSession.Interceptor.OnAuthCleared` | src/services/api/Api.ts:110-115 | makes exactly the as-written step `Api.OnAuthCleared`, keeping the interceptor's invariant |
| `ApiSession.Interceptor.OnAuthClearedDrained` | src/services/api/Api.ts:108-115 | makes the corrected step `Api.OnAuthClearedDrained`; afterwards nothing waits if nothing waited with the flag down before |
| `Unity.Replies` | src/services/unity/UnityBridge.ts:24-62 | every message schedules exactly one reply; it is the ready reply, after 500 ms, iff the message is the initialisation, otherwise a log after 100 ms; never an error |
| `Unity.SetStateLogNamesState` | src/services/unity/UnityBridge.ts:35-42 | the state-change log is "Estado cambiado a: " plus the state, and the state reads back from it |
| `Unity.SpeakStartLogQuotesText` | src/services/unity/UnityBridge.ts:45-52 | the speaking log quotes the text exactly, after its prefix |
| `Unity.Deliveries` | src/services/unity/UnityBridge.ts:83-89 | one delivery per subscribed callback, in order |
| `Unity.UnityBridge.constructor` | src/services/unity/UnityBridge.ts:12-13 | no subscribers, nothing pending, not ready |
| `Unity.UnityBridge.Send` | src/services/unity/UnityBridge.ts:19-63 | the message's reply joins the pending timers; nothing else changes |
| `Unity.UnityBridge.FireTimer` | src/services/unity/UnityBridge.ts:26-30 | the reply leaves the pending list, readiness rises iff it is the ready reply, and it is delivered to every callback |
| `Unity.UnityBridge.EmitMessage` | src/services/unity/UnityBridge.ts:82-90 | every callback receives the message, in order, even after one throws |
| `Unity.UnityBridge.OnMessage` | src/services/unity/UnityBridge.ts:70-71 | the callback joins the set |
| `Unity.UnityBridge.Unsubscribe` | src/services/unity/UnityBridge.ts:74-76 | exactly that callback leaves the set |
| `Unity.UnityBridge.IsReady` | src/services/unity/UnityBridge.ts:95-97 | ready only after an initialisation message was sent and its ready reply emitted |
| `Auth.TrimStartOfWhitespace` | src/services/auth/AuthService.ts:16 | trimming an all-white-space string leaves nothing |
| `Auth.BlankIffAllWhitespace` | src/services/auth/AuthService.ts:16-21 | a string is blank after `trim` iff every character is white space |
| `Auth.AuthLogin` | src/services/auth/AuthService.ts:15-31 | fails iff the e-mail or password is blank, with the e-mail error first. On success the user's e-mail is the trimmed e-mail, the role is "user", and the token and id are their prefixes plus the timestamps |
| `Auth.LoginCarriesTimestamps` | src/services/auth/AuthService.ts:24-29 | the user's e-mail begins and ends with a non-white-space character; the token starts with "auth-token-" and the id with "user-", and each reads back as its timestamp |

## Left out

- The speech libraries (`Voice`, `Tts`), `checkPermissions` and the HTTP client are foreign calls. What they return, whether they throw, and which recognition events arrive are all parameters.
- The key-value store is a map from key to string. Each storage call of the interceptors and of `login` may fail, and its outcome is a parameter:
  - the request interceptor's token read: `Api.Authorize`;
  - `getStoredUniqueGuid`: the `guid` of `Api.GuidRead`;
  - `setStoredToken`: `Api.OnTokenStored`;
  - `clearAuthStorage`: a `Session.ClearOutcome`, in `Api.OnGuidRead` and `Api.OnAuthCleared`, naming the keys whose removal failed;
  - the three login writes: `Api.Login`.
- `Api.OnGuidRead`: the `await clearAuthStorage()` of the missing-GUID path is not a separate step. The GUID read and that clearing settle together, with no other event between them.
- `Session.ClearAuth`: `logout` is `clearAuthStorage` with every removal succeeding; a failing `logout` is `Session.ClearAuthAs`.
- `Config.ConfigService.LoadConfiguration`: the four concurrent reads are one step with one outcome. A save or an invalidation between them is not modelled.
- `Config.ConfigService.SaveConfiguration`: this is a save with nothing interleaved. Overlapping saves are modelled by calling `BeginSave` and `CompleteSave` separately; `Config.OverlappingSavesLoseUpdate` shows the update that is then lost.
- Real time is left out. The 300/500/1500/2000/5000 ms delays are labels on pending timers or pauses. Which timer fires first is left to the caller.
- `initializeTTS` (voice selection, floating-point rate and pitch), `getMockResponse` (random and unused), `stopSpeaking` and `destroy` are foreign calls only. In the conversation they appear only as the native calls logged.
- `Service.VoiceService.Speak`: the rate and pitch settings and the listener registration are collapsed into one `TtsSetup` parameter. The utterance's state is modelled, not its JavaScript promise object.
- `VoiceConversation.ConversationStates`: the `onStateChange` argument is assumed not to throw. A throw inside the `try` would take the error path early. A throw from `onStateChange('idle')` in the `catch` would skip the final "idle" notification and reject with the observer's error. A throwing `onResponse` is modelled (`Script.responseThrows`).
- `VoiceConversation.AfterStart`: a throwing `onStateChange` is not modelled, as above. The `Tts.speak` call is recorded only by the flag `spoken`, not as a `TtsSpeak` entry of `calls`; `Service.VoiceService.Speak` logs it with its improved text. `simulateConversation` is modelled on values, as a function of a script of environment answers, not as a method of the class. It does not capture interleaving with other calls on the same instance beyond the events in its two windows.
- Console logging is left out everywhere.
- `Text.LowerChar`: `toLowerCase` is modelled for ASCII and Latin-1 capitals only. Other scripts are left unchanged.
- JavaScript numbers are integers here: a configured timeout is any integer, and the loss of precision above 2^53 is not modelled. `String(n)` is modelled as Number::toString writes an integral value, plain digits below 10^21 and exponent notation from there on. `Date.now()` is a parameter within the ECMAScript time range (at most 8.64 × 10^15 ms), so timestamps are always written in plain digits.
- `Auth.AuthLogin`: `null` or `undefined` arguments are not modelled. Strings are always present.
- `Api.Login`: the request path and body are not modelled, only the answer. The three writes are sequential, and the number that succeed is a parameter.
- The base URL, timeout and user agent that `updateApiConfig` and `initApi` copy into the HTTP instances are not modelled. They are not part of the interceptors or of `login`.
- `SessionUser` in src/contexts/SessionContext.tsx:6-9 declares only `id` and an optional `email`. `login` and `authLogin` also set `role`, and the model keeps it as the code writes it.

## Findings

| source | as written | input that shows it | evidently intended | confidence | as-written member | corrected member |
|---|---|---|---|---|---|---|
| src/services/api/Api.ts:108-115 | on a failed refresh the queue is drained before `await clearAuthStorage()`, and `isRefreshing` stays true until `finally` | request 1 gets a 401 and starts a refresh. Request 2 gets a 401. The refresh post fails and the queue is drained. Request 2's GUID read then returns while the store is being cleared, so it is queued. `finally` lowers the flag and request 2 is never settled, at least until some later refresh drains the queue | every request queued during a refresh is settled when that refresh ends, so nothing waits while no refresh is in flight | medium, not executed | `Api.StrandedWaiter` | `Api.RunDrainedNeverStrands` |
