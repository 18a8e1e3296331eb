/**
 * Handling one message from a player (`handleMessage`, Game.js:155-267): the
 * first command whose pattern matches runs; otherwise an exact answer to the
 * open prompt jumps to the label of that answer; otherwise an expected input
 * is matched against the input event's pattern; otherwise the game replies
 * that the command was not recognised.
 */
module Dispatcher {
  import opened JsValues
  import opened Patterns
  import opened Script
  import opened Sessions
  import opened Effects
  import opened GameCommands

  datatype Outcome =
    | ByCommand(index: nat)        // the command at this index of the table ran
    | ByReply                      // an answer to the open prompt
    | ByInput(matched: bool)       // an expected input, and whether it matched
    | NothingMatched
    | Threw(fault: Fault)

  datatype DispatchResult = DispatchResult(state: SessionView, effects: seq<Effect>, outcome: Outcome)

  /** A regex tests a message without text as the string "undefined". */
  function Subject(text: Option<string>): string {
    if text.Some? then text.value else "undefined"
  }

  /** The first command at or after `from` whose pattern matches, with its match. */
  function FirstCommand(cmds: seq<Command>, subject: string, from: nat): (r: Option<(nat, Match)>)
    ensures r.Some? ==> from <= r.value.0 < |cmds| && Exec(cmds[r.value.0].pattern, subject) == Some(r.value.1)
    ensures r.Some? ==> forall i | from <= i < r.value.0 :: !Matches(cmds[i].pattern, subject)
    ensures r.None? ==> forall i | from <= i < |cmds| :: !Matches(cmds[i].pattern, subject)
    decreases |cmds| - from
  {
    if from >= |cmds| then None
    else match Exec(cmds[from].pattern, subject)
      case Some(m) => Some((from, m))
      case None => FirstCommand(cmds, subject, from + 1)
  }

  /** The text answers the open prompt: it equals one of the replies offered. */
  predicate Answers(s: SessionView, text: Option<string>) {
    s.pendingReplies.Some? && text.Some? && text.value in s.pendingReplies.value
  }

  /** The answer to the open prompt (Game.js:209-236). */
  function Answer(story: seq<Event>, s: SessionView, reply: string): (r: DispatchResult)
    ensures r.state.pendingReplies == None && r.effects == []
    ensures r.state.pausedUntil == s.pausedUntil && r.state.waitingForInput == s.waitingForInput
      && r.state.userPaused == s.userPaused
    ensures match FirstFrom(story, 0, ById(CurrentKey(s)))
      case None => r.outcome == Threw(NoCurrentEvent) && r.state.currentEventID == s.currentEventID
      case Some(k) =>
        r.outcome == ByReply
        && r.state.currentEventID == (match FirstFrom(story, k, ByLabel(reply))
                                      case Some(j) => story[j].id
                                      case None => s.currentEventID)
  {
    var s1 := s.(pendingReplies := None);
    match FirstFrom(story, 0, ById(CurrentKey(s)))
    case None => DispatchResult(s1, [], Threw(NoCurrentEvent))
    case Some(k) =>
      match FirstFrom(story, k, ByLabel(reply))
      case Some(j) => DispatchResult(s1.(currentEventID := story[j].id), [], ByReply)
      case None => DispatchResult(s1, [], ByReply)
  }

  /** The expected input (Game.js:238-263). */
  function Input(story: seq<Event>, chat: string, s: SessionView, text: Option<string>): (r: DispatchResult)
    requires Present(s.waitingForInput)
    ensures r.effects == [] || r.outcome.ByInput?
    ensures r.outcome.Threw? ==> r.state == s
    ensures r.outcome.ByInput? ==>
      r.state.waitingForInput == None && r.state.pendingReplies == s.pendingReplies
      && r.state.pausedUntil == s.pausedUntil && r.state.userPaused == s.userPaused
  {
    match FirstFrom(story, 0, ById(s.waitingForInput.value))
    case None => DispatchResult(s, [], Threw(UnknownInputEvent(s.waitingForInput.value)))
    case Some(j) =>
      var e := story[j];
      if e.input.None? then DispatchResult(s, [], Threw(NotAnInputEvent(s.waitingForInput.value)))
      else
        var hit := Matches(e.input.value, Subject(text));
        var s1 :=
          if hit && Present(e.ifMatched) then s.(currentEventID := Some(JumpTarget(story, e.ifMatched.value)))
          else if !hit && Present(e.otherwise) then s.(currentEventID := Some(JumpTarget(story, e.otherwise.value)))
          else s;
        DispatchResult(s1.(waitingForInput := None), if e.hasCallback then [InputCallback(chat, j)] else [], ByInput(hit))
  }

  /** What handling the message `text` does to the session `s` of chat `chat`. */
  function Dispatch(story: seq<Event>, cmds: seq<Command>, net: Net, chat: string, s: SessionView, text: Option<string>)
    : (r: DispatchResult)
    ensures r.outcome.ByCommand? ==> FirstCommand(cmds, Subject(text), 0).Some?
    ensures r.outcome.ByReply? ==> FirstCommand(cmds, Subject(text), 0).None? && Answers(s, text)
    ensures r.outcome.ByInput? ==>
      FirstCommand(cmds, Subject(text), 0).None? && !Answers(s, text) && Present(s.waitingForInput)
    ensures r.outcome == NothingMatched <==>
      FirstCommand(cmds, Subject(text), 0).None? && !Answers(s, text) && !Present(s.waitingForInput)
    ensures r.outcome == NothingMatched ==> r == DispatchResult(s, [Send(chat, NotRecognized, None)], NothingMatched)
  {
    match FirstCommand(cmds, Subject(text), 0)
    case Some((i, m)) =>
      var c := Perform(story, net, chat, s, cmds[i].action, m);
      DispatchResult(c.state, c.effects, if c.fault.Some? then Threw(c.fault.value) else ByCommand(i))
    case None =>
      if Answers(s, text) then Answer(story, s, text.value)
      else if Present(s.waitingForInput) then Input(story, chat, s, text)
      else DispatchResult(s, [Send(chat, NotRecognized, None)], NothingMatched)
  }

  /** The command loop of Game.js:196-207, without running the action. */
  method FindCommand(cmds: seq<Command>, subject: string) returns (r: Option<(nat, Match)>)
    ensures r == FirstCommand(cmds, subject, 0)
  {
    for i := 0 to |cmds|
      invariant forall j | 0 <= j < i :: !Matches(cmds[j].pattern, subject)
    {
      var m := Exec(cmds[i].pattern, subject);
      if m.Some? {
        FirstCommandIsFirst(cmds, subject, 0, i);
        return Some((i, m.value));
      }
    }
    FirstCommandIsFirst(cmds, subject, 0, |cmds|);
    return None;
  }

  /** When no command before `i` matches, the search from `from` is the search from `i`. */
  lemma {:induction false} FirstCommandIsFirst(cmds: seq<Command>, subject: string, from: nat, i: nat)
    requires from <= i <= |cmds|
    requires forall j | from <= j < i :: !Matches(cmds[j].pattern, subject)
    ensures FirstCommand(cmds, subject, from) == FirstCommand(cmds, subject, i)
    decreases i - from
  {
    if from < i {
      FirstCommandIsFirst(cmds, subject, from + 1, i);
    }
  }

  /** The pending-reply loop of Game.js:209-214: does any offered reply equal the text? */
  method IsAnswer(s: SessionView, text: Option<string>) returns (r: bool)
    ensures r == Answers(s, text)
  {
    var replies := if s.pendingReplies.Some? then s.pendingReplies.value else [];
    for i := 0 to |replies|
      invariant forall j | 0 <= j < i :: text != Some(replies[j])
    {
      if text == Some(replies[i]) {
        return true;
      }
    }
    return false;
  }

  /** The label scan of Game.js:220-231: the first event at or after `k` labelled with the reply. */
  method FindLabel(story: seq<Event>, k: nat, reply: string) returns (r: Option<nat>)
    ensures r == FirstFrom(story, k, ByLabel(reply))
  {
    var i := k;
    while i < |story|
      invariant k <= i
      invariant forall j | k <= j < i && j < |story| :: story[j].ifLabel != Some(reply)
      decreases |story| - i
    {
      if story[i].ifLabel == Some(reply) {
        return Some(i);
      }
      i := i + 1;
    }
    return None;
  }

  /** `handleMessage` on the session record of the sender. */
  method HandleMessage(story: seq<Event>, cmds: seq<Command>, net: Net, chat: string, s: SessionState, text: Option<string>)
    returns (effects: seq<Effect>, outcome: Outcome)
    modifies s
    ensures DispatchResult(s.View(), effects, outcome) == Dispatch(story, cmds, net, chat, old(s.View()), text)
  {
    var eventID := CurrentKey(s.View());
    var command := FindCommand(cmds, Subject(text));
    if command.Some? {
      var (i, m) := command.value;
      var fault;
      effects, fault := RunAction(story, net, chat, s, cmds[i].action, m);
      outcome := if fault.Some? then Threw(fault.value) else ByCommand(i);
      return;
    }
    var answered := IsAnswer(s.View(), text);
    if answered {
      s.pendingReplies := None;
      effects := [];
      var k := FirstFrom(story, 0, ById(eventID));
      if k.None? {
        return effects, Threw(NoCurrentEvent);
      }
      var j := FindLabel(story, k.value, text.value);
      if j.Some? {
        s.currentEventID := story[j.value].id;
      }
      return effects, ByReply;
    }
    if Present(s.waitingForInput) {
      var waiting := s.waitingForInput.value;
      var found := FirstFrom(story, 0, ById(waiting));
      if found.None? {
        return [], Threw(UnknownInputEvent(waiting));
      }
      var e := story[found.value];
      if e.input.None? {
        return [], Threw(NotAnInputEvent(waiting));
      }
      var hit := Exec(e.input.value, Subject(text)).Some?;
      if hit && Present(e.ifMatched) {
        s.currentEventID := Some(JumpTarget(story, e.ifMatched.value));
      } else if !hit && Present(e.otherwise) {
        s.currentEventID := Some(JumpTarget(story, e.otherwise.value));
      }
      effects := if e.hasCallback then [InputCallback(chat, found.value)] else [];
      s.waitingForInput := None;
      return effects, ByInput(hit);
    }
    effects := [Send(chat, NotRecognized, None)];
    outcome := NothingMatched;
  }

  // ---------------------------------------------------------------------------
  // Properties of message handling

  /**
   * Commands come first: when a command matches, its action alone decides the
   * result, whatever prompt or input the session is waiting for.
   */
  lemma CommandsComeFirst(story: seq<Event>, cmds: seq<Command>, net: Net, chat: string, s: SessionView, text: Option<string>, i: nat)
    requires i < |cmds| && Matches(cmds[i].pattern, Subject(text))
    requires forall j | 0 <= j < i :: !Matches(cmds[j].pattern, Subject(text))
    ensures var r := Dispatch(story, cmds, net, chat, s, text);
            var c := Perform(story, net, chat, s, cmds[i].action, Exec(cmds[i].pattern, Subject(text)).value);
            r.state == c.state && r.effects == c.effects && (r.outcome == ByCommand(i) <==> c.fault.None?)
  {
    FirstCommandIsFirst(cmds, Subject(text), 0, i);
  }

  /**
   * An exact answer to the open prompt closes it and moves the story to the
   * first event at or after the current one labelled with that answer; with
   * no such label the story stays where it is.
   */
  lemma AnswerMovesToLabel(story: seq<Event>, cmds: seq<Command>, net: Net, chat: string, s: SessionView, reply: string)
    requires FirstCommand(cmds, reply, 0).None?
    requires s.pendingReplies.Some? && reply in s.pendingReplies.value
    requires FirstFrom(story, 0, ById(CurrentKey(s))).Some?
    ensures var r := Dispatch(story, cmds, net, chat, s, Some(reply));
            var k := FirstFrom(story, 0, ById(CurrentKey(s))).value;
            r.outcome == ByReply && r.effects == [] && r.state.pendingReplies == None
            && (forall j | k <= j < |story| && story[j].ifLabel == Some(reply)
                  && (forall i | k <= i < j :: story[i].ifLabel != Some(reply)) :: r.state.currentEventID == story[j].id)
            && ((forall j | k <= j < |story| :: story[j].ifLabel != Some(reply)) ==> r.state.currentEventID == s.currentEventID)
  {
    var k := FirstFrom(story, 0, ById(CurrentKey(s))).value;
    var found := FirstFrom(story, k, ByLabel(reply));
    if found.Some? {
      forall j | k <= j < |story| && story[j].ifLabel == Some(reply) && (forall i | k <= i < j :: story[i].ifLabel != Some(reply))
        ensures j == found.value
      {
        assert Hits(story[j], ByLabel(reply)) && Hits(story[found.value], ByLabel(reply));
      }
    } else {
      forall j | k <= j < |story| ensures story[j].ifLabel != Some(reply) {
        assert !Hits(story[j], ByLabel(reply));
      }
    }
  }

  /**
   * While a prompt is open, anything that is neither a command nor one of the
   * offered replies is not recognised and leaves the session as it was.
   */
  lemma OtherTextKeepsPrompt(story: seq<Event>, cmds: seq<Command>, net: Net, chat: string, s: SessionView, text: Option<string>)
    requires s.pendingReplies.Some? && !Present(s.waitingForInput)
    requires FirstCommand(cmds, Subject(text), 0).None? && (text.None? || text.value !in s.pendingReplies.value)
    ensures Dispatch(story, cmds, net, chat, s, text) == DispatchResult(s, [Send(chat, NotRecognized, None)], NothingMatched)
  {
  }

  /**
   * An expected input whose event no longer exists throws "Event not found"
   * and leaves the session as it was.
   */
  lemma MissingInputEventThrows(story: seq<Event>, cmds: seq<Command>, net: Net, chat: string, s: SessionView, text: Option<string>)
    requires FirstCommand(cmds, Subject(text), 0).None? && !Answers(s, text) && Present(s.waitingForInput)
    requires FirstFrom(story, 0, ById(s.waitingForInput.value)).None?
    ensures Dispatch(story, cmds, net, chat, s, text) == DispatchResult(s, [], Threw(UnknownInputEvent(s.waitingForInput.value)))
  {
  }

  /**
   * An expected input is matched against the input event's pattern: a match
   * jumps to `ifMatched`, a miss to `else`, an absent target on the branch
   * taken leaves the story where it is, and the session stops waiting.
   */
  lemma InputChoosesBranch(story: seq<Event>, cmds: seq<Command>, net: Net, chat: string, s: SessionView, text: Option<string>)
    requires FirstCommand(cmds, Subject(text), 0).None? && !Answers(s, text) && Present(s.waitingForInput)
    requires var j := FirstFrom(story, 0, ById(s.waitingForInput.value));
             j.Some? && story[j.value].input.Some?
    ensures var e := story[FirstFrom(story, 0, ById(s.waitingForInput.value)).value];
            var hit := Matches(e.input.value, Subject(text));
            var r := Dispatch(story, cmds, net, chat, s, text);
            r.outcome == ByInput(hit) && r.state.waitingForInput == None
            && (hit && Present(e.ifMatched) ==> r.state.currentEventID == Some(JumpTarget(story, e.ifMatched.value)))
            && (!hit && Present(e.otherwise) ==> r.state.currentEventID == Some(JumpTarget(story, e.otherwise.value)))
            && ((hit && !Present(e.ifMatched)) || (!hit && !Present(e.otherwise)) ==> r.state.currentEventID == s.currentEventID)
  {
  }
}
