/**
 * What the interpreter asks of the messenger, and why a handler can fail.
 * Whether a messenger call succeeds is decided by a `Net` parameter: a failed
 * call throws in the messenger client, and the interpreter's error handling
 * takes over.
 */
module Effects {
  import opened JsValues
  import opened Sessions

  datatype Effect =
    | Typing(chat: string, millis: int)                         // "typing..." shown for `millis`
    | TypingOnce(chat: string)                                  // one "typing..." notice
    | Send(chat: string, text: string, replies: Option<seq<string>>)
    | SendState(chat: string, state: SessionView)               // the `debug state` dump
    | SendError(chat: string, fault: Fault)                     // "ERROR: " + the fault's message
    | InputCallback(chat: string, event: nat)                   // the input event's `do` callback

  datatype Fault =
    | Transport(call: Effect)         // the messenger call failed
    | UnknownTarget(target: Id)       // "Unable to find event ID ..."
    | UnknownInputEvent(id: Id)       // "Event not found for id ..."
    | NoCurrentEvent                  // reading `if` of `story[-1]`
    | NotAnInputEvent(id: Id)         // reading `exec` of a missing `input`

  /** Which messenger calls succeed. */
  type Net = Effect -> bool
}
