/**
 * The game's configuration apart from its story (game.js:1-92): the typing
 * speed, the reply to an unrecognised message, and the command table with
 * what each command's action does to the session record.
 */
module GameCommands {
  import opened JsValues
  import opened Patterns
  import opened Script
  import opened Sessions
  import opened Effects

  /** The typing speed multiplier (game.js:9). */
  const TypingSpeed: int := 1

  /** What `onNothingMatched` says (game.js:15). */
  const NotRecognized: string := "`Command not recognized.`"

  const HelpText: string :=
    "You can type these commands: \n\n`help` - This menu\n`start` - Start the game\n`restart` - Restart from the beginning\n`pause` - Pause the game\n`resume` - Resume the game\n`skip time` - If you're impatient"

  const Restarting: string := "`restarting...`"
  const TimeSkip: string := "`Time skip in progress...`"
  const TimeStopped: string := "`Time stopped.`"
  const TimeReleased: string := "`Time released.`"

  /** What `debug goto` says once it has set the id to `id` (game.js:61). */
  function SettingId(id: string): string {
    "`Setting event ID to " + id + "`"
  }

  /**
   * The actions of the command table. `RestartAfresh` is not in the game: it is
   * the restart that also clears what blocks the story (see `Findings`).
   */
  datatype Action = Help | Restart | Start | DebugState | DebugGoto | SkipTime | Pause | Resume | RestartAfresh

  datatype Command = Command(pattern: Pattern, action: Action)

  /** The command table, in the order the interpreter tries it (game.js:20-92). */
  const Commands: seq<Command> := [
    Command(Pattern("help", false), Help),
    Command(Pattern("restart", false), Restart),
    Command(Pattern("start", false), Start),
    Command(Pattern("debug state", false), DebugState),
    Command(Pattern("debug goto ", true), DebugGoto),
    Command(Pattern("skip time", false), SkipTime),
    Command(Pattern("pause", false), Pause),
    Command(Pattern("resume", false), Resume)
  ]

  /** The state after an action, what it sent, and the fault it threw, if any. */
  datatype CommandResult = CommandResult(state: SessionView, effects: seq<Effect>, fault: Option<Fault>)

  /** `await ctx.say(text)` after the state has become `s`. */
  function Say(net: Net, chat: string, s: SessionView, text: string): CommandResult {
    var e := Send(chat, text, None);
    CommandResult(s, [e], if net(e) then None else Some(Transport(e)))
  }

  /** What the action of a command does, given the regex match that selected it. */
  function Perform(story: seq<Event>, net: Net, chat: string, s: SessionView, action: Action, m: Match): (r: CommandResult)
    ensures action == Start ==> r == CommandResult(s, [], None)
    ensures action in {Pause, Resume} ==> r.state == s.(userPaused := action == Pause)
    ensures action == SkipTime ==> r.state == s.(pausedUntil := 0)
    ensures action in {Help, DebugState} ==> r.state == s
    ensures action == DebugGoto ==>
      r.state == SessionView(Some(Str(m.group)), None, 0, None, s.userPaused)
    ensures action == Restart ==>
      r.state == (if r.fault.None? then s.(currentEventID := Some(JumpTarget(story, Num(0)))) else s)
    ensures action == RestartAfresh ==>
      r.state == (if r.fault.None? then SessionView(Some(JumpTarget(story, Num(0))), None, 0, None, s.userPaused) else s)
    ensures action != Start ==> |r.effects| == 1 && (r.fault.Some? <==> !net(r.effects[0]))
    ensures action == Help ==> r.effects == [Send(chat, HelpText, None)]
    ensures action in {Restart, RestartAfresh} ==> r.effects == [Send(chat, Restarting, None)]
    ensures action == DebugState ==> r.effects == [SendState(chat, s)]
    ensures action == DebugGoto ==> r.effects == [Send(chat, SettingId(m.group), None)]
    ensures action == SkipTime ==> r.effects == [Send(chat, TimeSkip, None)]
    ensures action == Pause ==> r.effects == [Send(chat, TimeStopped, None)]
    ensures action == Resume ==> r.effects == [Send(chat, TimeReleased, None)]
  {
    match action
    case Help => Say(net, chat, s, HelpText)
    case Restart =>
      var said := Say(net, chat, s, Restarting);
      if said.fault.Some? then said
      else said.(state := s.(currentEventID := Some(JumpTarget(story, Num(0)))))
    case Start => CommandResult(s, [], None)
    case DebugState =>
      var e := SendState(chat, s);
      CommandResult(s, [e], if net(e) then None else Some(Transport(e)))
    case DebugGoto =>
      var s1 := s.(currentEventID := Some(Str(m.group)), pendingReplies := None, pausedUntil := 0, waitingForInput := None);
      Say(net, chat, s1, SettingId(m.group))
    case SkipTime => Say(net, chat, s.(pausedUntil := 0), TimeSkip)
    case Pause => Say(net, chat, s.(userPaused := true), TimeStopped)
    case Resume => Say(net, chat, s.(userPaused := false), TimeReleased)
    case RestartAfresh =>
      var said := Say(net, chat, s, Restarting);
      if said.fault.Some? then said
      else said.(state := s.(currentEventID := Some(JumpTarget(story, Num(0))), pendingReplies := None,
                             pausedUntil := 0, waitingForInput := None))
  }

  /** `ctx.say(text)`: one message to the chat, without a reply keyboard. */
  method SayTo(net: Net, chat: string, text: string) returns (effects: seq<Effect>, fault: Option<Fault>)
    ensures effects == [Send(chat, text, None)]
    ensures fault == if net(Send(chat, text, None)) then None else Some(Transport(Send(chat, text, None)))
  {
    var e := Send(chat, text, None);
    effects := [e];
    fault := if net(e) then None else Some(Transport(e));
  }

  /** Runs a command's action on the session record (the `action` closures of game.js:20-92). */
  method RunAction(story: seq<Event>, net: Net, chat: string, s: SessionState, action: Action, m: Match)
    returns (effects: seq<Effect>, fault: Option<Fault>)
    modifies s
    ensures CommandResult(s.View(), effects, fault) == Perform(story, net, chat, old(s.View()), action, m)
  {
    match action {
      case Help =>
        effects, fault := SayTo(net, chat, HelpText);
      case Restart =>
        effects, fault := SayTo(net, chat, Restarting);
        if fault.None? {
          s.currentEventID := Some(JumpTarget(story, Num(0)));
        }
      case Start =>
        effects, fault := [], None;
      case DebugState =>
        var e := SendState(chat, s.View());
        effects := [e];
        fault := if net(e) then None else Some(Transport(e));
      case DebugGoto =>
        s.currentEventID := Some(Str(m.group));
        s.pendingReplies := None;
        s.pausedUntil := 0;
        s.waitingForInput := None;
        effects, fault := SayTo(net, chat, SettingId(m.group));
      case SkipTime =>
        s.pausedUntil := 0;
        effects, fault := SayTo(net, chat, TimeSkip);
      case Pause =>
        s.userPaused := true;
        effects, fault := SayTo(net, chat, TimeStopped);
      case Resume =>
        s.userPaused := false;
        effects, fault := SayTo(net, chat, TimeReleased);
      case RestartAfresh =>
        effects, fault := SayTo(net, chat, Restarting);
        if fault.None? {
          s.currentEventID := Some(JumpTarget(story, Num(0)));
          s.pendingReplies := None;
          s.pausedUntil := 0;
          s.waitingForInput := None;
        }
    }
  }

  /** Pausing or resuming twice is the same as once. */
  lemma PauseResumeIdempotent(story: seq<Event>, net: Net, chat: string, s: SessionView, action: Action, m: Match)
    requires action in {Pause, Resume}
    ensures var once := Perform(story, net, chat, s, action, m).state;
            Perform(story, net, chat, once, action, m).state == once
  {
  }
}
