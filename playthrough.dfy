/**
 * The interpreter running the game's own story: the riddle, the end of the
 * story, and `restart` while a prompt is open. The last two do not behave as
 * the game evidently intends; each is shown as written and then corrected
 * (a story that carries the event "END", and a restart that clears the prompt).
 *
 * The theorems about the story are proved from lemmas about any story that
 * has the relevant shape, so that the solver works on the concrete story
 * only to check that shape.
 */
module Playthrough {
  import opened JsValues
  import opened Patterns
  import opened Script
  import opened Sessions
  import opened Effects
  import opened GameCommands
  import opened Stepper
  import opened GameStory
  import D = Dispatcher
  import Interpreter

  // ---------------------------------------------------------------------------
  // Facts about the command table

  /** A pattern cannot occur in a text shorter than its literal. */
  lemma TooShortToMatch(p: Pattern, text: string)
    requires |text| < |p.literal|
    ensures !Matches(p, text)
  {
  }

  /** A pattern cannot occur in a text that lacks its first letter, in either case. */
  lemma FirstLetterMissing(p: Pattern, text: string)
    requires |p.literal| > 0 && forall j | 0 <= j < |text| :: Fold(text[j]) != Fold(p.literal[0])
    ensures !Matches(p, text)
  {
    assert forall j :: OccursAt(text, p.literal, j) ==> Fold(text[j + 0]) == Fold(p.literal[0]);
  }

  /** The restart command as the game has it, and as corrected: it also clears what blocks the story. */
  const CorrectedCommands: seq<Command> := Commands[1 := Command(Pattern("restart", false), RestartAfresh)]

  /** "restart" is not `help` (the table's first entry), so both tables pick their second entry for it. */
  lemma RestartIsSecondCommand(cmds: seq<Command>)
    requires cmds == Commands || cmds == CorrectedCommands
    ensures D.FirstCommand(cmds, "restart", 0) == Some((1, Match(0, "")))
  {
    FirstLetterMissing(cmds[0].pattern, "restart");
    assert OccursAt("restart", cmds[1].pattern.literal, 0);
    assert IndexOf("restart", cmds[1].pattern.literal, 0) == Some(0);
  }

  /** A command that matches first and does not throw decides the result of the dispatch. */
  lemma CommandDecides(story: seq<Event>, cmds: seq<Command>, net: Net, chat: string, v: SessionView, text: string,
                       i: nat, m: Match, c: CommandResult)
    requires D.FirstCommand(cmds, text, 0) == Some((i, m)) && c.fault.None?
    requires Perform(story, net, chat, v, cmds[i].action, m) == c
    ensures D.Dispatch(story, cmds, net, chat, v, Some(text)) == D.DispatchResult(c.state, c.effects, D.ByCommand(i))
  {
  }

  /**
   * The game's `restart` moves the session to the first event of a prepared
   * story when that event has no id of its own, and keeps the rest of the
   * session.
   */
  lemma RestartPerform(s: seq<Event>, net: Net, chat: string, v: SessionView, m: Match)
    requires |s| > 0 && !Present(s[0].id) && net(Send(chat, Restarting, None))
    ensures Perform(Prepared(s), net, chat, v, Restart, m)
      == CommandResult(v.(currentEventID := Some(Num(0))), [Send(chat, Restarting, None)], None)
  {
    JumpToZero(s);
  }

  /** The corrected `restart` does the same but also clears the prompt, the input and the pause until a time. */
  lemma RestartAfreshPerform(s: seq<Event>, net: Net, chat: string, v: SessionView, m: Match)
    requires |s| > 0 && !Present(s[0].id) && net(Send(chat, Restarting, None))
    ensures Perform(Prepared(s), net, chat, v, RestartAfresh, m)
      == CommandResult(SessionView(Some(Num(0)), None, 0, None, v.userPaused), [Send(chat, Restarting, None)], None)
  {
    JumpToZero(s);
  }

  /** The game's table sends "restart" to `Restart`. */
  lemma RestartOnCommands(s: seq<Event>, chat: string, v: SessionView, net: Net)
    requires |s| > 0 && !Present(s[0].id) && net(Send(chat, Restarting, None))
    ensures D.Dispatch(Prepared(s), Commands, net, chat, v, Some("restart"))
      == D.DispatchResult(v.(currentEventID := Some(Num(0))), [Send(chat, Restarting, None)], D.ByCommand(1))
  {
    RestartIsSecondCommand(Commands);
    assert Commands[1].action == Restart;
    RestartPerform(s, net, chat, v, Match(0, ""));
    CommandDecides(Prepared(s), Commands, net, chat, v, "restart", 1, Match(0, ""),
                   CommandResult(v.(currentEventID := Some(Num(0))), [Send(chat, Restarting, None)], None));
  }

  /** The corrected table sends "restart" to `RestartAfresh`. */
  lemma RestartAfreshOnCommands(s: seq<Event>, chat: string, v: SessionView, net: Net)
    requires |s| > 0 && !Present(s[0].id) && net(Send(chat, Restarting, None))
    ensures D.Dispatch(Prepared(s), CorrectedCommands, net, chat, v, Some("restart"))
      == D.DispatchResult(SessionView(Some(Num(0)), None, 0, None, v.userPaused), [Send(chat, Restarting, None)], D.ByCommand(1))
  {
    RestartIsSecondCommand(CorrectedCommands);
    RestartAfreshPerform(s, net, chat, v, Match(0, ""));
    CommandDecides(Prepared(s), CorrectedCommands, net, chat, v, "restart", 1, Match(0, ""),
                   CommandResult(SessionView(Some(Num(0)), None, 0, None, v.userPaused), [Send(chat, Restarting, None)], None));
  }

  /** "Ok." is shorter than every pattern of the table, so it is no command. */
  lemma OkIsNoCommand()
    ensures D.FirstCommand(Commands, "Ok.", 0) == None
  {
    forall j | 0 <= j < |Commands|
      ensures !Matches(Commands[j].pattern, "Ok.")
    {
      TooShortToMatch(Commands[j].pattern, "Ok.");
    }
    D.FirstCommandIsFirst(Commands, "Ok.", 0, |Commands|);
  }

  // ---------------------------------------------------------------------------
  // Steps of a story whose authored ids are names

  /** The scan from any point up to a hit finds the same hit as the scan from the start. */
  lemma FoundFromStart(s: seq<Event>, from: nat, key: Key, i: nat)
    requires FirstFrom(s, 0, key) == Some(i) && from <= i
    ensures FirstFrom(s, from, key) == Some(i)
  {
    FoundAt(s, from, key, i);
  }

  /** A session waiting for the player gets nothing from a step. */
  lemma WaitingYields(s: seq<Event>, speed: int, chat: string, v: SessionView, now: int, waitNow: int, net: Net)
    requires Blocked(v)
    ensures Step(s, speed, chat, v, now, waitNow, net) == StepResult(v, [], Yielded)
  {
  }

  /**
   * A step at an unnamed text event that neither waits, jumps nor asks for
   * input sends its text (after the typing notice), opens its replies and
   * moves the story to the next event, itself unnamed.
   */
  lemma TextStepAdvances(s: seq<Event>, speed: int, chat: string, v: SessionView, now: int, waitNow: int, net: Net, k: nat)
    requires NamedIds(s) && k + 1 < |s| && s[k].id.None? && s[k + 1].id.None?
    requires HasText(s[k]) && s[k].wait == 0 && s[k].typing != Some(true) && s[k].input.None?
    requires !Present(s[k].goto) && !Present(s[k].next)
    requires CurrentKey(v) == Num(k) && !Blocked(v) && !v.userPaused && (v.pausedUntil == 0 || v.pausedUntil <= now)
    requires forall e: Effect :: net(e)
    ensures Step(Prepared(s), speed, chat, v, now, waitNow, net)
      == StepResult(v.(currentEventID := Some(Num(k + 1)), pendingReplies := s[k].replies),
                    TypingBefore(s[k], speed, chat) + [Send(chat, s[k].text.value, s[k].replies)], Advanced)
  {
    NumberedLookup(s, k);
    PreparedNexts(s, k);
    PreparedIds(s, k + 1);
  }

  /**
   * A step at an unnamed `goto` event whose target no event carries throws
   * "Unable to find event ID" and leaves the session as it was.
   */
  lemma UnresolvedGotoThrows(s: seq<Event>, speed: int, chat: string, v: SessionView, now: int, waitNow: int, net: Net,
                             k: nat, t: string)
    requires NamedIds(s) && 0 < k < |s| && s[k] == Goto(t)
    requires t != "" && ToNumber(t) == None && Misses(s, ByIdOrLabel(Str(t)))
    requires v.currentEventID == Some(Num(k)) && !Blocked(v) && !v.userPaused && (v.pausedUntil == 0 || v.pausedUntil <= now)
    ensures Step(Prepared(s), speed, chat, v, now, waitNow, net) == StepResult(v, [], Threw(UnknownTarget(Str(t))))
  {
    NumberedLookup(s, k);
    MissesFindNothing(s, 0, ByIdOrLabel(Str(t)));
    MissesFindNothing(s, k, ByIdOrLabel(Str(t)));
    PreparedKeepsTextLookups(s, 0, ByIdOrLabel(Str(t)));
    PreparedKeepsTextLookups(s, k, ByIdOrLabel(Str(t)));
  }

  /**
   * An answer to the open prompt, given at the unnamed event `k`, moves the
   * session to the unnamed event `j` the label scan from `k` finds.
   */
  lemma AnswerLeadsTo(s: seq<Event>, cmds: seq<Command>, net: Net, chat: string, v: SessionView, reply: string, k: nat, j: nat)
    requires NamedIds(s) && k < |s| && s[k].id.None? && CurrentKey(v) == Num(k)
    requires v.pendingReplies.Some? && reply in v.pendingReplies.value && D.FirstCommand(cmds, reply, 0).None?
    requires FirstFrom(s, k, ByLabel(reply)) == Some(j) && s[j].id.None?
    ensures D.Dispatch(Prepared(s), cmds, net, chat, v, Some(reply))
      == D.DispatchResult(v.(currentEventID := Some(Num(j)), pendingReplies := None), [], D.ByReply)
  {
    NumberedLookup(s, k);
    PreparedKeepsTextLookups(s, k, ByLabel(reply));
    PreparedIds(s, j);
  }

  /**
   * In a story whose ids are names, a player awaited by the unnamed input
   * event `k` is sent to the event named by `ifMatched` when the text matches
   * the event's pattern, and to the one named by `else` when it does not.
   */
  lemma InputLeadsTo(s: seq<Event>, cmds: seq<Command>, net: Net, chat: string, v: SessionView, text: Option<string>,
                     k: nat, yes: string, jy: nat, no: string, jn: nat)
    requires NamedIds(s) && 0 < k < |s| && s[k].id.None? && s[k].input.Some? && !s[k].hasCallback
    requires s[k].ifMatched == Some(Str(yes)) && s[k].otherwise == Some(Str(no))
    requires yes != "" && no != "" && ToNumber(yes) == None && ToNumber(no) == None
    requires FirstFrom(s, 0, ByIdOrLabel(Str(yes))) == Some(jy) && s[jy].id == Some(Str(yes))
    requires FirstFrom(s, 0, ByIdOrLabel(Str(no))) == Some(jn) && s[jn].id == Some(Str(no))
    requires v.waitingForInput == Some(Num(k)) && !D.Answers(v, text) && D.FirstCommand(cmds, D.Subject(text), 0).None?
    ensures var hit := Matches(s[k].input.value, D.Subject(text));
            D.Dispatch(Prepared(s), cmds, net, chat, v, text)
            == D.DispatchResult(v.(currentEventID := Some(Str(if hit then yes else no)), waitingForInput := None), [], D.ByInput(hit))
  {
    NumberedLookup(s, k);
    PreparedKeepsTextLookups(s, 0, ByIdOrLabel(Str(yes)));
    PreparedKeepsTextLookups(s, 0, ByIdOrLabel(Str(no)));
    PreparedIds(s, jy);
    PreparedIds(s, jn);
  }

  // ---------------------------------------------------------------------------
  // The riddle (game.js:320-336)

  /** ROT13 on one character: a letter moves 13 places round its alphabet, anything else stays. */
  function Rot13(c: char): (r: char)
    ensures ('A' <= c <= 'Z') == ('A' <= r <= 'Z') && ('a' <= c <= 'z') == ('a' <= r <= 'z')
  {
    if 'A' <= c <= 'Z' then ((c as int - 'A' as int + 13) % 26 + 'A' as int) as char
    else if 'a' <= c <= 'z' then ((c as int - 'a' as int + 13) % 26 + 'a' as int) as char
    else c
  }

  /** ROT13 on a text, character by character. */
  function Rot13Text(s: string): (r: string)
    ensures |r| == |s|
  {
    if s == [] then [] else [Rot13(s[0])] + Rot13Text(s[1..])
  }

  /** Rotating a letter by 13 twice gives it back. */
  lemma Rot13Twice(c: char)
    ensures Rot13(Rot13(c)) == c
  {
  }

  /** Rotating a text by 13 twice gives it back: the cipher is its own inverse. */
  lemma {:induction false} Rot13Involution(s: string)
    ensures Rot13Text(Rot13Text(s)) == s
  {
    if s != [] {
      Rot13Twice(s[0]);
      Rot13Involution(s[1..]);
      assert Rot13Text(s)[1..] == Rot13Text(s[1..]);
    }
  }

  /** The note by the riddle's door reads "ROTATE BY 13, PASSWORD: UNLOCK". */
  lemma RiddlePassword()
    ensures Rot13Text("UNLOCK") == "HAYBPX"
  {
    var r := Rot13Text("UNLOCK");
    assert r[0] == 'H' && r[1] == 'A' && r[2] == 'Y' && r[3] == 'B' && r[4] == 'P' && r[5] == 'X';
  }

  /** The riddle's pattern accepts the password rotated by 13, as the note asks... */
  lemma RiddleAcceptsRotated()
    ensures Matches(Pattern("haybpx", false), Rot13Text("UNLOCK"))
  {
    RiddlePassword();
    assert OccursAt("HAYBPX", "haybpx", 0);
  }

  /** ... in either case... */
  lemma RiddleAcceptsLowerCase()
    ensures Matches(Pattern("haybpx", false), "haybpx")
  {
    assert OccursAt("haybpx", "haybpx", 0);
  }

  /** ... but not the password itself. */
  lemma RiddleRejectsPassword()
    ensures !Matches(Pattern("haybpx", false), "UNLOCK")
  {
    FirstLetterMissing(Pattern("haybpx", false), "UNLOCK");
  }

  /**
   * At the riddle (the input event 108) a text that contains the answer leads
   * to "ROT13 CORRECT", any other text to "ROT13 WRONG"; the session stops
   * waiting either way.
   */
  lemma RiddleBranches(net: Net, chat: string, v: SessionView, text: Option<string>)
    requires v.waitingForInput == Some(Num(108)) && v.pendingReplies == None
    requires D.FirstCommand(Commands, D.Subject(text), 0).None?
    ensures var hit := Matches(Pattern("haybpx", false), D.Subject(text));
            D.Dispatch(Story, Commands, net, chat, v, text)
            == D.DispatchResult(v.(currentEventID := Some(Str(if hit then RiddleSolved else "ROT13 WRONG")), waitingForInput := None),
                                [], D.ByInput(hit))
  {
    RiddleTargets();
    AuthoredNamed();
    RiddleInput(Authored, Commands, net, chat, v, text);
  }

  /** The riddle's branches in any story with its shape around event 108. */
  lemma RiddleInput(s: seq<Event>, cmds: seq<Command>, net: Net, chat: string, v: SessionView, text: Option<string>)
    requires NamedIds(s) && 112 < |s|
    requires s[108] == Input(Pattern("haybpx", false), RiddleSolved, "ROT13 WRONG")
    requires s[109] == Mark("ROT13 WRONG") && s[112] == Mark(RiddleSolved)
    requires FirstFrom(s, 0, ByIdOrLabel(Str("ROT13 WRONG"))) == Some(109) && FirstFrom(s, 0, ByIdOrLabel(Str(RiddleSolved))) == Some(112)
    requires v.waitingForInput == Some(Num(108)) && v.pendingReplies == None
    requires D.FirstCommand(cmds, D.Subject(text), 0).None?
    ensures var hit := Matches(Pattern("haybpx", false), D.Subject(text));
            D.Dispatch(Prepared(s), cmds, net, chat, v, text)
            == D.DispatchResult(v.(currentEventID := Some(Str(if hit then RiddleSolved else "ROT13 WRONG")), waitingForInput := None),
                                [], D.ByInput(hit))
  {
    NameIsNoNumber(RiddleSolved);
    NameIsNoNumber("ROT13 WRONG");
    InputLeadsTo(s, cmds, net, chat, v, text, 108, RiddleSolved, 112, "ROT13 WRONG", 109);
  }

  // ---------------------------------------------------------------------------
  // The end of the story, as written and as corrected

  /**
   * Both jumps to "END" (events 224 and 241) fail: every step there throws
   * and leaves the session where it was, so each tick of the loop sends the
   * player "ERROR: Unable to find event ID END" again.
   */
  lemma EndingThrows(speed: int, chat: string, v: SessionView, now: int, waitNow: int, net: Net, k: nat)
    requires k == 224 || k == 241
    requires v.currentEventID == Some(Num(k)) && !Blocked(v) && !v.userPaused && (v.pausedUntil == 0 || v.pausedUntil <= now)
    ensures var r := Step(Story, speed, chat, v, now, waitNow, net);
            r == StepResult(v, [], Threw(UnknownTarget(Str("END"))))
            && Interpreter.StepEffects(r, chat) == [SendError(chat, UnknownTarget(Str("END")))]
  {
    EndGotos();
    AuthoredNamed();
    NoEnding();
    NameIsNoNumber("END");
    UnresolvedGotoThrows(Authored, speed, chat, v, now, waitNow, net, k, "END");
  }

  /** `s` with an event named `t` at its end, as the story needs for its jumps to "END". */
  function WithMark(s: seq<Event>, t: string): (r: seq<Event>)
    ensures |r| == |s| + 1 && r[|s|] == Mark(t) && r[..|s|] == s
  {
    s + [Mark(t)]
  }

  /** Appending a named event keeps the ids names, and its name is found exactly there. */
  lemma WithMarkFindsMark(s: seq<Event>, t: string, key: Key)
    requires NamedIds(s) && t != "" && ToNumber(t) == None && Misses(s, key)
    requires key == ById(Str(t)) || key == ByIdOrLabel(Str(t))
    ensures NamedIds(WithMark(s, t))
    ensures forall k | 0 <= k <= |s| :: FirstFrom(WithMark(s, t), k, key) == Some(|s|)
  {
    var c := WithMark(s, t);
    assert c == s + [Mark(t)];
    forall j | 0 <= j < |c|
      ensures NamedId(c[j])
    {
      if j < |s| {
        assert c[j] == s[j];
        assert NamedId(s[j]);
      }
    }
    forall k | 0 <= k <= |s|
      ensures FirstFrom(c, k, key) == Some(|s|)
    {
      MissesFindNothing(s, k, key);
      FirstFromAppend(s, [Mark(t)], k, key);
      assert Hits([Mark(t)][0], key);
    }
  }

  /**
   * With an event named `t` appended, the jump to `t` at the unnamed event
   * `k` lands on it.
   */
  lemma GotoReachesMark(s: seq<Event>, speed: int, chat: string, v: SessionView, now: int, waitNow: int, net: Net,
                        k: nat, t: string)
    requires NamedIds(s) && 0 < k < |s| && s[k] == Goto(t)
    requires t != "" && ToNumber(t) == None && Misses(s, ByIdOrLabel(Str(t)))
    requires v.currentEventID == Some(Num(k)) && !Blocked(v) && !v.userPaused && (v.pausedUntil == 0 || v.pausedUntil <= now)
    ensures Step(Prepared(WithMark(s, t)), speed, chat, v, now, waitNow, net)
      == StepResult(v.(currentEventID := Some(Str(t))), [], Advanced)
  {
    var c := WithMark(s, t);
    WithMarkFindsMark(s, t, ByIdOrLabel(Str(t)));
    assert c[k] == s[k];
    NumberedLookup(c, k);
    PreparedKeepsTextLookups(c, k, ByIdOrLabel(Str(t)));
    PreparedIds(c, |s|);
  }

  /**
   * The appended event named `t` has no successor of its own, so a step there
   * moves to "end", the id preparation gives the successor of the last event.
   */
  lemma MarkMovesToFinale(s: seq<Event>, speed: int, chat: string, v: SessionView, now: int, waitNow: int, net: Net, t: string)
    requires NamedIds(s) && t != "" && ToNumber(t) == None && Misses(s, ById(Str(t)))
    requires v.currentEventID == Some(Str(t)) && !Blocked(v) && !v.userPaused && (v.pausedUntil == 0 || v.pausedUntil <= now)
    ensures Step(Prepared(WithMark(s, t)), speed, chat, v, now, waitNow, net)
      == StepResult(v.(currentEventID := Some(Str("end"))), [], Advanced)
  {
    var c := WithMark(s, t);
    WithMarkFindsMark(s, t, ById(Str(t)));
    PreparedKeepsTextLookups(c, 0, ById(Str(t)));
    PreparedNexts(c, |s|);
  }

  /** No event of the prepared story is named "end" when none is so authored: a session there is held back for good. */
  lemma FinaleIsQuiet(s: seq<Event>, speed: int, chat: string, v: SessionView, now: int, waitNow: int, net: Net, t: string)
    requires t != "end" && Misses(s, ById(Str("end")))
    requires v.currentEventID == Some(Str("end"))
    ensures Step(Prepared(WithMark(s, t)), speed, chat, v, now, waitNow, net) == StepResult(v, [], Yielded)
  {
    var c := WithMark(s, t);
    forall j | 0 <= j < |c|
      ensures !Hits(c[j], ById(Str("end")))
    {
      if j < |s| {
        assert c[j] == s[j];
      }
    }
    NameIsNoNumber("end");
    MissesFindNothing(c, 0, ById(Str("end")));
    PreparedKeepsTextLookups(c, 0, ById(Str("end")));
  }

  /** The story as evidently intended: with an event named "END" after the last one. */
  const Completed: seq<Event> := WithMark(Authored, "END")

  /**
   * In the completed story both jumps to "END" land on the new last event;
   * from there the story moves to "end", which no event carries, and every
   * later step does nothing: the story stops quietly.
   */
  lemma CompletedEndingStops(speed: int, chat: string, v: SessionView, now: int, waitNow: int, net: Net, k: nat)
    requires k == 224 || k == 241
    requires v.currentEventID == Some(Num(k)) && !Blocked(v) && !v.userPaused && (v.pausedUntil == 0 || v.pausedUntil <= now)
    ensures var r1 := Step(Prepared(Completed), speed, chat, v, now, waitNow, net);
            var r2 := Step(Prepared(Completed), speed, chat, r1.state, now, waitNow, net);
            r1 == StepResult(v.(currentEventID := Some(Str("END"))), [], Advanced)
            && r2 == StepResult(v.(currentEventID := Some(Str("end"))), [], Advanced)
            && forall later: int, laterWait: int ::
                 Step(Prepared(Completed), speed, chat, r2.state, later, laterWait, net) == StepResult(r2.state, [], Yielded)
  {
    EndGotos();
    AuthoredNamed();
    NoEnding();
    NameIsNoNumber("END");
    GotoReachesMark(Authored, speed, chat, v, now, waitNow, net, k, "END");
    assert Misses(Authored, ById(Str("END"))) by {
      forall j | 0 <= j < |Authored|
        ensures !Hits(Authored[j], ById(Str("END")))
      {
        assert !Hits(Authored[j], End);
      }
    }
    MarkMovesToFinale(Authored, speed, chat, v.(currentEventID := Some(Str("END"))), now, waitNow, net, "END");
    forall later: int, laterWait: int
      ensures Step(Prepared(Completed), speed, chat, v.(currentEventID := Some(Str("end"))), later, laterWait, net)
              == StepResult(v.(currentEventID := Some(Str("end"))), [], Yielded)
    {
      FinaleIsQuiet(Authored, speed, chat, v.(currentEventID := Some(Str("end"))), later, laterWait, net, "END");
    }
  }

  // ---------------------------------------------------------------------------
  // Restarting while a prompt is open, as written and as corrected

  /** A new player's session asked by event 66, with the next event (67) current. */
  const AtPrompt: SessionView := SessionView(Some(Num(67)), Some(["Ok.", "Be safe."]), 0, None, false)

  /** The story reaches `AtPrompt`: the step at event 66 sends its question and opens its two replies. */
  lemma PromptAt66(speed: int, chat: string, now: int, waitNow: int, net: Net)
    requires forall e: Effect :: net(e)
    ensures Step(Story, speed, chat, SessionView(Some(Num(66)), None, 0, None, false), now, waitNow, net).state == AtPrompt
  {
    OkPrompt();
    AuthoredNamed();
    TextStepAdvances(Authored, speed, chat, SessionView(Some(Num(66)), None, 0, None, false), now, waitNow, net, 66);
  }

  /**
   * The game's `restart` (with the message sent) moves the session to event 0
   * but leaves its prompt open: the next step sends nothing.
   */
  lemma RestartKeepsPrompt(speed: int, chat: string, now: int, waitNow: int, net: Net)
    requires forall e: Effect :: net(e)
    ensures var d := D.Dispatch(Story, Commands, net, chat, AtPrompt, Some("restart"));
            d == D.DispatchResult(AtPrompt.(currentEventID := Some(Num(0))), [Send(chat, Restarting, None)], D.ByCommand(1))
            && Step(Story, speed, chat, d.state, now, waitNow, net) == StepResult(d.state, [], Yielded)
  {
    RestartMovesToStart(chat, AtPrompt, net);
    WaitingYields(Story, speed, chat, AtPrompt.(currentEventID := Some(Num(0))), now, waitNow, net);
  }

  /** The story's first event has no id, so a restart's jump to 0 lands on it. */
  lemma StartsUnnamed()
    ensures |Authored| > 0 && !Present(Authored[0].id)
  {
    Opening();
  }

  /** The game's `restart` moves any session to event 0 and leaves the rest of it as it was. */
  lemma RestartMovesToStart(chat: string, v: SessionView, net: Net)
    requires net(Send(chat, Restarting, None))
    ensures D.Dispatch(Story, Commands, net, chat, v, Some("restart"))
      == D.DispatchResult(v.(currentEventID := Some(Num(0))), [Send(chat, Restarting, None)], D.ByCommand(1))
  {
    StartsUnnamed();
    RestartOnCommands(Authored, chat, v, net);
  }

  /**
   * After the game's `restart`, answering the open prompt with "Ok." puts the
   * player exactly where answering without the restart would (event 69): the
   * restart is undone.
   */
  lemma RestartIsUndone(chat: string, net: Net)
    ensures var restarted := AtPrompt.(currentEventID := Some(Num(0)));
            D.Dispatch(Story, Commands, net, chat, restarted, Some("Ok.")).state
            == D.Dispatch(Story, Commands, net, chat, AtPrompt, Some("Ok.")).state
            == AtPrompt.(currentEventID := Some(Num(69)), pendingReplies := None)
  {
    OkPrompt();
    Opening();
    AuthoredNamed();
    OkIsNoCommand();
    FoundFromStart(Authored, 67, OkReply, 69);
    AnswerLeadsTo(Authored, Commands, net, chat, AtPrompt.(currentEventID := Some(Num(0))), "Ok.", 0, 69);
    AnswerLeadsTo(Authored, Commands, net, chat, AtPrompt, "Ok.", 67, 69);
  }

  /**
   * With the corrected `restart`, whatever the session was doing, the next
   * step is a new player's first step: it sends the opening notice and moves
   * to event 1.
   */
  lemma CorrectedRestartStartsOver(speed: int, chat: string, v: SessionView, now: int, waitNow: int, net: Net)
    requires forall e: Effect :: net(e)
    requires !v.userPaused
    ensures var d := D.Dispatch(Story, CorrectedCommands, net, chat, v, Some("restart"));
            d.outcome == D.ByCommand(1) && d.state == SessionView(Some(Num(0)), None, 0, None, false)
            && Step(Story, speed, chat, d.state, now, waitNow, net) == Step(Story, speed, chat, Fresh, now, waitNow, net)
            == StepResult(SessionView(Some(Num(1)), None, 0, None, false), [Send(chat, Prose(41), None)], Advanced)
  {
    CorrectedRestartClears(chat, v, net);
    OpeningStep(speed, chat, now, waitNow, net);
  }

  /** The corrected `restart` leaves a session that is not paused by the player at event 0 with nothing pending. */
  lemma CorrectedRestartClears(chat: string, v: SessionView, net: Net)
    requires net(Send(chat, Restarting, None)) && !v.userPaused
    ensures D.Dispatch(Story, CorrectedCommands, net, chat, v, Some("restart"))
      == D.DispatchResult(SessionView(Some(Num(0)), None, 0, None, false), [Send(chat, Restarting, None)], D.ByCommand(1))
  {
    StartsUnnamed();
    RestartAfreshOnCommands(Authored, chat, v, net);
  }

  /** A new player's first step, and a step from event 0 with nothing pending, send the opening notice and move to event 1. */
  lemma OpeningStep(speed: int, chat: string, now: int, waitNow: int, net: Net)
    requires forall e: Effect :: net(e)
    ensures Step(Story, speed, chat, SessionView(Some(Num(0)), None, 0, None, false), now, waitNow, net)
      == Step(Story, speed, chat, Fresh, now, waitNow, net)
      == StepResult(SessionView(Some(Num(1)), None, 0, None, false), [Send(chat, Prose(41), None)], Advanced)
  {
    Opening();
    AuthoredNamed();
    TextStepAdvances(Authored, speed, chat, SessionView(Some(Num(0)), None, 0, None, false), now, waitNow, net, 0);
    TextStepAdvances(Authored, speed, chat, Fresh, now, waitNow, net, 0);
  }

  /** The game's `restart` does not give that guarantee: at `AtPrompt` its next step differs from a new player's. */
  lemma RestartDoesNotStartOver(speed: int, chat: string, now: int, waitNow: int, net: Net)
    requires forall e: Effect :: net(e)
    ensures var d := D.Dispatch(Story, Commands, net, chat, AtPrompt, Some("restart"));
            Step(Story, speed, chat, d.state, now, waitNow, net) != Step(Story, speed, chat, Fresh, now, waitNow, net)
  {
    RestartKeepsPrompt(speed, chat, now, waitNow, net);
    OpeningStep(speed, chat, now, waitNow, net);
  }
}
