/** The message and state vocabulary shared by the voice service and the avatar bridge. */
module Messages {

  /** What the assistant is doing, as shown by the avatar. */
  datatype AssistantState = Idle | Listening | Thinking | Speaking

  /** The lower-case name of a state, as it travels in messages and logs. */
  function StateName(s: AssistantState): string {
    match s
    case Idle => "idle"
    case Listening => "listening"
    case Thinking => "thinking"
    case Speaking => "speaking"
  }

  /** Messages sent from the app to the avatar view. */
  datatype GeorgeToUnity =
    | InitAssistant(name: string, language: string)
    | GeorgeSpeakStart(text: string)
    | GeorgeSpeakEnd
    | SetState(state: AssistantState)

  /** Messages the avatar view sends back to the app. */
  datatype UnityToGeorge =
    | AssistantReady
    | UnityLog(message: string)
    | UnityError(message: string)
}
