/**
 * One step of a session's story (`handleEventLoop`, Game.js:271-374): look up
 * the current event, hold back while the session is paused or waits for the
 * player, otherwise perform the event (text, wait, typing notice, input
 * request) and move to the event after it, to where its `goto` leads, or stop.
 */
module Stepper {
  import opened JsValues
  import opened Script
  import opened Sessions
  import opened Effects

  /**
   * How a step ended: `Yielded` is `return false`, `Advanced` is `return true`,
   * `FellThrough` is reaching the end of the function, `Threw` an exception.
   */
  datatype StepOutcome = Yielded | Advanced | FellThrough | Threw(fault: Fault)

  datatype StepResult = StepResult(state: SessionView, effects: seq<Effect>, outcome: StepOutcome)

  /** Why a step does nothing (Game.js:279-294), in the order the interpreter checks. */
  predicate HeldBack(story: seq<Event>, s: SessionView, now: int) {
    FirstFrom(story, 0, ById(CurrentKey(s))).None?
    || (s.pausedUntil != 0 && s.pausedUntil > now)
    || Blocked(s)
    || s.userPaused
  }

  predicate HasText(e: Event) {
    e.text.Some? && e.text.value != ""
  }

  /** How long "typing..." is shown before a text (game.js:101-103 gives the formula). */
  function TypingMillis(text: string, speed: int): int {
    |text| * 100 * speed
  }

  /** The typing notice shown before a text, if any (Game.js:300-307). */
  function TypingBefore(e: Event, speed: int, chat: string): (r: seq<Effect>)
    requires HasText(e)
    ensures r == [] || r == [Typing(chat, |e.text.value| * 100 * speed)]
    ensures r != [] <==> e.typing != Some(false) && TypingMillis(e.text.value, speed) > 0
  {
    var millis := TypingMillis(e.text.value, speed);
    if e.typing != Some(false) && millis > 0 then [Typing(chat, millis)] else []
  }

  /**
   * The text part of an event (Game.js:297-313): the typing notice, then the
   * message with its reply keyboard; the open prompt is recorded before the
   * message is sent.
   */
  function TextPart(e: Event, speed: int, chat: string, s: SessionView, net: Net): (r: StepResult)
    ensures r.outcome.Yielded? || r.outcome.Threw?
    ensures !HasText(e) ==> r == StepResult(s, [], Yielded)
    ensures HasText(e) && r.outcome.Yielded? ==>
      r.state == s.(pendingReplies := e.replies) && r.effects != [] && r.effects[|r.effects| - 1] == Send(chat, e.text.value, e.replies)
  {
    if !HasText(e) then StepResult(s, [], Yielded)
    else
      var typing := TypingBefore(e, speed, chat);
      if typing != [] && !net(typing[0]) then StepResult(s, typing, Threw(Transport(typing[0])))
      else
        var m := Send(chat, e.text.value, e.replies);
        StepResult(s.(pendingReplies := e.replies), typing + [m], if net(m) then Yielded else Threw(Transport(m)))
  }

  /** Where the event sends the story next (Game.js:333-372), the wait and typing parts done. */
  function Continue(story: seq<Event>, k: nat, s: SessionView): (r: StepResult)
    requires k < |story|
    ensures r.effects == []
    ensures r.outcome.Advanced? ==> r.state == s.(currentEventID := r.state.currentEventID)
    ensures story[k].input.Some? ==> r == StepResult(s.(waitingForInput := story[k].id), [], Yielded)
    ensures story[k].input.None? && Present(story[k].goto) ==>
      match ResolveGoto(story, k, story[k].goto.value)
      case Some(j) => r == StepResult(s.(currentEventID := story[j].id), [], Advanced)
      case None => r == StepResult(s, [], Threw(UnknownTarget(story[k].goto.value)))
    ensures story[k].input.None? && !Present(story[k].goto) && Present(story[k].next) ==>
      r == StepResult(s.(currentEventID := story[k].next), [], Advanced)
    ensures r.outcome.FellThrough? <==> story[k].input.None? && !Present(story[k].goto) && !Present(story[k].next)
  {
    var e := story[k];
    if e.input.Some? then StepResult(s.(waitingForInput := e.id), [], Yielded)
    else if Present(e.goto) then
      match ResolveGoto(story, k, e.goto.value)
      case Some(j) => StepResult(s.(currentEventID := story[j].id), [], Advanced)
      case None => StepResult(s, [], Threw(UnknownTarget(e.goto.value)))
    else if Present(e.next) then StepResult(s.(currentEventID := e.next), [], Advanced)
    else StepResult(s, [], FellThrough)
  }

  /** Performing the event at index `k`; `waitNow` is the clock after the message went out. */
  function RunEvent(story: seq<Event>, speed: int, chat: string, k: nat, s: SessionView, waitNow: int, net: Net): (r: StepResult)
    requires k < |story|
    ensures r.state.userPaused == s.userPaused
    ensures HasText(story[k]) && !r.outcome.Threw? ==> r.state.pendingReplies == story[k].replies
    ensures !HasText(story[k]) ==> r.state.pendingReplies == s.pendingReplies
  {
    var e := story[k];
    var t := TextPart(e, speed, chat, s, net);
    if t.outcome.Threw? then t
    else
      var s1 := if e.wait != 0 then t.state.(pausedUntil := waitNow + e.wait) else t.state;
      if e.typing == Some(true) && !net(TypingOnce(chat)) then
        StepResult(s1, t.effects + [TypingOnce(chat)], Threw(Transport(TypingOnce(chat))))
      else
        var c := Continue(story, k, s1);
        StepResult(c.state, t.effects + (if e.typing == Some(true) then [TypingOnce(chat)] else []), c.outcome)
  }

  /** One step of the session `chat`: `now` is the clock when the step starts. */
  function Step(story: seq<Event>, speed: int, chat: string, s: SessionView, now: int, waitNow: int, net: Net): (r: StepResult)
    ensures HeldBack(story, s, now) ==> r == StepResult(s, [], Yielded)
  {
    if HeldBack(story, s, now) then StepResult(s, [], Yielded)
    else RunEvent(story, speed, chat, FirstFrom(story, 0, ById(CurrentKey(s))).value, s, waitNow, net)
  }

  /** The forward scan of Game.js:345-358, then the fallback lookup of Game.js:361. */
  method ResolveGotoScan(story: seq<Event>, k: nat, target: Id) returns (r: Option<nat>)
    ensures r == ResolveGoto(story, k, target)
  {
    var i := k;
    while i < |story|
      invariant k <= i
      invariant forall j | k <= j < i && j < |story| :: !Hits(story[j], ByIdOrLabel(target))
      decreases |story| - i
    {
      if Hits(story[i], ByIdOrLabel(target)) {
        return Some(i);
      }
      i := i + 1;
    }
    r := FirstFrom(story, 0, ByIdOrLabel(target));
  }

  /** `handleEventLoop` on the session record. */
  method HandleEventLoop(story: seq<Event>, speed: int, chat: string, s: SessionState, now: int, waitNow: int, net: Net)
    returns (effects: seq<Effect>, outcome: StepOutcome)
    modifies s
    ensures StepResult(s.View(), effects, outcome) == Step(story, speed, chat, old(s.View()), now, waitNow, net)
  {
    effects := [];
    var found := FirstFrom(story, 0, ById(CurrentKey(s.View())));
    if found.None? {
      return [], Yielded;
    }
    if s.pausedUntil != 0 && s.pausedUntil > now {
      return [], Yielded;
    }
    if s.pendingReplies.Some? || Present(s.waitingForInput) {
      return [], Yielded;
    }
    if s.userPaused {
      return [], Yielded;
    }
    var k := found.value;
    var e := story[k];
    effects, outcome := SendText(e, speed, chat, s, net);
    if outcome.Threw? {
      return;
    }
    if e.wait != 0 {
      s.pausedUntil := waitNow + e.wait;
    }
    if e.typing == Some(true) {
      effects := effects + [TypingOnce(chat)];
      if !net(TypingOnce(chat)) {
        return effects, Threw(Transport(TypingOnce(chat)));
      }
    }
    outcome := Advance(story, k, s);
  }

  /** The text part of an event on the session record (Game.js:297-313). */
  method SendText(e: Event, speed: int, chat: string, s: SessionState, net: Net)
    returns (effects: seq<Effect>, outcome: StepOutcome)
    modifies s
    ensures StepResult(s.View(), effects, outcome) == TextPart(e, speed, chat, old(s.View()), net)
  {
    effects, outcome := [], Yielded;
    if HasText(e) {
      if e.typing != Some(false) {
        var millis := TypingMillis(e.text.value, speed);
        if millis > 0 {
          effects := [Typing(chat, millis)];
          if !net(Typing(chat, millis)) {
            return effects, Threw(Transport(Typing(chat, millis)));
          }
        }
      }
      s.pendingReplies := e.replies;
      var m := Send(chat, e.text.value, e.replies);
      effects := effects + [m];
      if !net(m) {
        return effects, Threw(Transport(m));
      }
    }
  }

  /** Where the story goes after the event at `k`, on the session record (Game.js:333-372). */
  method Advance(story: seq<Event>, k: nat, s: SessionState) returns (outcome: StepOutcome)
    requires k < |story|
    modifies s
    ensures StepResult(s.View(), [], outcome) == Continue(story, k, old(s.View()))
  {
    var e := story[k];
    if e.input.Some? {
      s.waitingForInput := e.id;
      return Yielded;
    }
    if Present(e.goto) {
      var j := ResolveGotoScan(story, k, e.goto.value);
      if j.None? {
        return Threw(UnknownTarget(e.goto.value));
      }
      s.currentEventID := story[j.value].id;
      return Advanced;
    }
    if Present(e.next) {
      s.currentEventID := e.next;
      return Advanced;
    }
    return FellThrough;
  }

  // ---------------------------------------------------------------------------
  // Properties of a step

  /** On a prepared story a step never falls off the end of the function: every event has a successor. */
  lemma PreparedNeverFallsThrough(s: seq<Event>, speed: int, chat: string, v: SessionView, now: int, waitNow: int, net: Net)
    ensures !Step(Prepared(s), speed, chat, v, now, waitNow, net).outcome.FellThrough?
  {
    var p := Prepared(s);
    if !HeldBack(p, v, now) {
      var k := FirstFrom(p, 0, ById(CurrentKey(v))).value;
      PreparedNexts(s, k);
    }
  }

  /**
   * With every messenger call succeeding, an event that neither asks for
   * input nor jumps does all its parts in one step: it opens its prompt (a
   * text event), starts its pause (a wait event) and still moves to its `next`.
   */
  lemma EventThenNext(story: seq<Event>, speed: int, chat: string, v: SessionView, now: int, waitNow: int, net: Net)
    requires !HeldBack(story, v, now) && forall c: Effect :: net(c)
    requires var e := story[FirstFrom(story, 0, ById(CurrentKey(v))).value];
             e.input.None? && !Present(e.goto) && Present(e.next)
    ensures var e := story[FirstFrom(story, 0, ById(CurrentKey(v))).value];
            Step(story, speed, chat, v, now, waitNow, net)
            == StepResult(v.(currentEventID := e.next,
                             pendingReplies := if HasText(e) then e.replies else v.pendingReplies,
                             pausedUntil := if e.wait != 0 then waitNow + e.wait else v.pausedUntil),
                          (if HasText(e) then TypingBefore(e, speed, chat) + [Send(chat, e.text.value, e.replies)] else [])
                          + (if e.typing == Some(true) then [TypingOnce(chat)] else []),
                          Advanced)
  {
  }

  /**
   * With every messenger call succeeding, an input event records that the
   * session waits for it and stays where it is.
   */
  lemma InputEventWaits(story: seq<Event>, speed: int, chat: string, v: SessionView, now: int, waitNow: int, net: Net)
    requires !HeldBack(story, v, now) && forall c: Effect :: net(c)
    requires story[FirstFrom(story, 0, ById(CurrentKey(v))).value].input.Some?
    ensures var e := story[FirstFrom(story, 0, ById(CurrentKey(v))).value];
            var r := Step(story, speed, chat, v, now, waitNow, net);
            r.outcome == Yielded && r.state.currentEventID == v.currentEventID && r.state.waitingForInput == e.id
            && r.state.pendingReplies == (if HasText(e) then e.replies else v.pendingReplies)
            && r.state.pausedUntil == (if e.wait != 0 then waitNow + e.wait else v.pausedUntil)
  {
  }

  /** A step that leaves a prompt open or an input expected is followed by steps that do nothing. */
  lemma BlockedStaysQuiet(story: seq<Event>, speed: int, chat: string, v: SessionView, now: int, waitNow: int, net: Net,
                          later: int, laterWait: int)
    requires Blocked(Step(story, speed, chat, v, now, waitNow, net).state)
    ensures var w := Step(story, speed, chat, v, now, waitNow, net).state;
            Step(story, speed, chat, w, later, laterWait, net) == StepResult(w, [], Yielded)
  {
  }

  /**
   * A text event with replies opens a prompt: the session holds back until the
   * player answers, even when the message itself fails to go out, since the
   * prompt is recorded before the message is sent.
   */
  lemma PromptOpensOnSend(story: seq<Event>, speed: int, chat: string, v: SessionView, now: int, waitNow: int, net: Net)
    requires !HeldBack(story, v, now)
    requires var e := story[FirstFrom(story, 0, ById(CurrentKey(v))).value];
             HasText(e) && e.replies.Some?
             && (e.typing != Some(false) && TypingMillis(e.text.value, speed) > 0 ==> net(Typing(chat, TypingMillis(e.text.value, speed))))
    ensures var r := Step(story, speed, chat, v, now, waitNow, net);
            r.state.pendingReplies.Some? && Send(chat, story[FirstFrom(story, 0, ById(CurrentKey(v))).value].text.value,
                                                 story[FirstFrom(story, 0, ById(CurrentKey(v))).value].replies) in r.effects
  {
    var k := FirstFrom(story, 0, ById(CurrentKey(v))).value;
    var t := TextPart(story[k], speed, chat, v, net);
    assert t.effects[|t.effects| - 1] in t.effects;
  }

  /** A wait event holds the session back until its time has passed. */
  lemma WaitHoldsUntilDue(story: seq<Event>, speed: int, chat: string, v: SessionView, now: int, waitNow: int, net: Net,
                          later: int, laterWait: int)
    requires !HeldBack(story, v, now)
    requires var e := story[FirstFrom(story, 0, ById(CurrentKey(v))).value]; !HasText(e) && e.wait > 0 && e.typing != Some(true)
    requires 0 <= waitNow && later < waitNow + story[FirstFrom(story, 0, ById(CurrentKey(v))).value].wait
    ensures var w := Step(story, speed, chat, v, now, waitNow, net).state;
            Step(story, speed, chat, w, later, laterWait, net) == StepResult(w, [], Yielded)
  {
  }

  /**
   * A `goto` step moves to an event that carries the target as its id or
   * label, looking forward from the current event first.
   */
  lemma GotoLandsOnTarget(story: seq<Event>, speed: int, chat: string, v: SessionView, now: int, waitNow: int, net: Net)
    requires !HeldBack(story, v, now)
    requires var e := story[FirstFrom(story, 0, ById(CurrentKey(v))).value];
             e.input.None? && Present(e.goto) && (HasText(e) ==> net(Send(chat, e.text.value, e.replies)))
             && (HasText(e) && e.typing != Some(false) && TypingMillis(e.text.value, speed) > 0 ==> net(Typing(chat, TypingMillis(e.text.value, speed))))
             && (e.typing == Some(true) ==> net(TypingOnce(chat)))
    ensures var k := FirstFrom(story, 0, ById(CurrentKey(v))).value;
            var r := Step(story, speed, chat, v, now, waitNow, net);
            match ResolveGoto(story, k, story[k].goto.value)
            case Some(j) => r.outcome == Advanced && r.state.currentEventID == story[j].id
                            && Hits(story[j], ByIdOrLabel(story[k].goto.value))
            case None => r.outcome == Threw(UnknownTarget(story[k].goto.value))
  {
  }

  /**
   * A `goto` whose target no event carries throws without changing the
   * session, so every later step throws the same way.
   */
  lemma UnknownTargetRepeats(story: seq<Event>, speed: int, chat: string, v: SessionView, now: int, waitNow: int, net: Net,
                             later: int, laterWait: int)
    requires !HeldBack(story, v, now)
    requires var e := story[FirstFrom(story, 0, ById(CurrentKey(v))).value];
             !HasText(e) && e.wait == 0 && e.typing != Some(true) && e.input.None? && Present(e.goto)
             && ResolveGoto(story, FirstFrom(story, 0, ById(CurrentKey(v))).value, e.goto.value).None?
    requires !HeldBack(story, v, later)
    ensures var r := Step(story, speed, chat, v, now, waitNow, net);
            r.state == v && r.effects == [] && r.outcome.Threw?
            && Step(story, speed, chat, r.state, later, laterWait, net) == r
  {
  }
}
