/**
 * A player's session record (one per chat): where the player is in the story
 * and what, if anything, is holding the story back.
 */
module Sessions {
  import opened JsValues

  /** The fields of a session record as values. */
  datatype SessionView = SessionView(
    currentEventID: Option<Id>,
    pendingReplies: Option<seq<string>>,
    pausedUntil: int,
    waitingForInput: Option<Id>,
    userPaused: bool)

  /** A record created as `{}`: every field absent. */
  const Fresh := SessionView(None, None, 0, None, false)

  /** `currentEventID || 0`, the id the interpreter looks the current event up by. */
  function CurrentKey(v: SessionView): Id {
    OrElse(v.currentEventID, Num(0))
  }

  /** The session waits for the player: a prompt is open or an input is expected. */
  predicate Blocked(v: SessionView) {
    v.pendingReplies.Some? || Present(v.waitingForInput)
  }

  /** The mutable session record; the game's commands and the stepper update its fields in place. */
  class SessionState {
    var currentEventID: Option<Id>
    var pendingReplies: Option<seq<string>>
    var pausedUntil: int
    var waitingForInput: Option<Id>
    var userPaused: bool

    constructor ()
      ensures View() == Fresh
    {
      currentEventID := None;
      pendingReplies := None;
      pausedUntil := 0;
      waitingForInput := None;
      userPaused := false;
    }

    function View(): SessionView
      reads this
    {
      SessionView(currentEventID, pendingReplies, pausedUntil, waitingForInput, userPaused)
    }
  }
}
