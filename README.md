# Stuck Inside: a model of the story interpreter

This project models the interpreter of a Telegram story game ("Stuck
Inside"), together with the game's own command table and its story.

Each player has a session record. The record holds:
- the current event id;
- the replies the player is offered;
- a pause until a time;
- the input event the story waits for;
- a flag for a pause the player asked for.

Once a second the interpreter runs one tick of `loop`. A tick does two things:
- It fetches the messenger's updates and hands each message to
  `handleMessage`. That function tries the commands first, then an exact
  answer to the open prompt, then an expected input.
- It then starts a step (`handleEventLoop`) for every session that has no step
  still in flight.

A step looks up the current event. It holds back while the session is paused
or waits for the player. Otherwise it performs the event's text, wait, typing
notice and input request, and moves on to the event's `next` or to the target
of its `goto`. At startup, events without an id get their index as id, and
every event gets a `next`.

Modules, in dependency order:
- `JsValues` (values.dfy): ids that are numbers or strings, JavaScript loose
  `==` between them with `Number` of a string, `x || y` and truthiness.
- `Patterns` (patterns.dfy): the game's regular expressions. Each is a literal
  searched for case-insensitively; one of them captures the rest of the line.
- `Script` (script.dfy): events, the lookups the interpreter makes over the
  story, preparation at startup (a function, and the in-place method on an
  array), and `goto` resolution.
- `Sessions` (session.dfy): the session record, as a class and as a value.
- `Effects` (effects.dfy): messenger calls as effects, and faults.
- `GameCommands` (commands.dfy): the command table of game.js and its actions,
  as functions and as methods that update the record in place.
- `Stepper` (stepper.dfy): `handleEventLoop`, as a function and as a method on
  the record.
- `Dispatcher` (dispatcher.dfy): `handleMessage`, as a function and as a method
  on the record.
- `Interpreter` (game.dfy): the `Game` object. It holds the map of session
  records, the update offset and the registry of sessions in flight. A tick is
  modelled both as a method on that object and as a function on values.
- `GameStory` (story.dfy): the 242 events of the story and where its jumps land.
- `Playthrough` (playthrough.dfy): the interpreter running that story: the
  riddle, the end of the story, and `restart` while a prompt is open.

Every method is proved equal to the function that specifies it. The
properties are proved about those functions.

## Model

| member | source | states |
|---|---|---|
| JsValues.OrElse | src/Game.js:167 | `x \|\| fallback` is the value when it is truthy and the fallback otherwise |
| JsValues.LooseEq | src/Game.js:168 | `==` between ids: two numbers or two strings compare directly; a number and a string compare as the number and `Number` of the string |
| JsValues.ToNumber | src/Game.js:280 | `Number` of a string id, as `==` applies it: surrounding white space dropped, the empty text 0, a `0x`/`0o`/`0b` literal, or a signed decimal with point and exponent; NaN and non-integers are none |
| JsValues.NotANumber | src/Game.js:168 | a text whose first character is neither white space, a digit, a sign nor a point reads as none, whatever follows: NaN, or Infinity for the text "Infinity", which equals no integer |
| JsValues.ToNumberReads | src/Game.js:168 | the quick test on the first character never changes the reading |
| JsValues.DigitsAreTheirValue | game.js:55-57 | a run of decimal digits, such as the text of `debug goto 12`, reads as its value |
| JsValues.SpaceAroundIsIgnored | game.js:55-57 | white space of the whole JavaScript set around a text does not change its number |
| JsValues.PlusDigits | game.js:55-57 | a plus sign before decimal digits reads as their value |
| JsValues.MinusNegates | game.js:55-57 | a minus sign gives the negation of what a plus sign gives |
| JsValues.ExponentScales | game.js:55-57 | digits, `e` and digits read as the first value times ten to the power of the second |
| JsValues.RadixDigits | game.js:55-57 | `0x`, `0o` or `0b` (either case) before digits of that base reads as their value in that base |
| JsValues.ExponentExample | game.js:55-57 | "1e1" reads as 10 |
| JsValues.PlusExample | game.js:55-57 | "+5" reads as 5 |
| JsValues.HexExample | game.js:55-57 | "0x5" reads as 5 |
| JsValues.SpaceExample | game.js:55-57 | an ideographic space alone reads as 0 |
| Patterns.IndexOf | src/Game.js:199 | the leftmost occurrence of the literal, ignoring case, at or after a position; none exists when it returns none |
| Patterns.LineRest | game.js:55 | the `(.*)` capture: the longest prefix without a line terminator |
| Patterns.Exec | src/Game.js:199 | `exec` matches exactly when the literal occurs, at the leftmost occurrence; a capturing pattern captures the rest of that line |
| Patterns.MatchesInside | game.js:328 | a pattern matches every text that contains its literal in any case |
| Script.FirstFrom | src/Game.js:168 | `find`/`findIndex` from a position: the index found is hit and nothing before it is; nothing is found exactly when nothing is hit |
| Script.Prepared | src/Game.js:40-45 | preparation keeps the length and prepares every event from the authored story |
| Script.Prepare | src/Game.js:40-45 | the two in-place passes over the array leave exactly `Prepared` of its old contents |
| Script.PreparedIds | src/Game.js:40-41 | after preparation every event has an id: the authored truthy one, else its index |
| Script.PreparedNexts | src/Game.js:44-45 | after preparation every `next` is truthy: the authored one, else the following event's id, else "end" for the last |
| Script.PreparedIsIdempotent | src/Game.js:40-45 | preparing a prepared story changes nothing |
| Script.ImplicitNextIsFollowingEvent | src/Game.js:44-45 | with distinct ids, the filled-in `next` of an event is looked up at the very next index |
| Script.PreparedKeepsTextLookups | src/Game.js:40-41 | a key no number can equal (a name, a reply) finds the same events before and after preparation |
| Script.NumberedLookup | src/Game.js:279-280 | in a story whose ids are names, the index given to an unnamed event finds exactly that event |
| Script.ResolveGoto | src/Game.js:342-364 | `goto` lands on the first event at or after the current one with that id or label, else on the first in the story; none exists when it finds none |
| Script.JumpTarget | src/Game.js:186-191 | the id `gotoStoryEvent` stores: the target when no event has it as id or label, else `event.id \|\| target` of the first event that has it |
| Script.JumpTargetIsFound | src/Game.js:186-191 | the id `gotoStoryEvent` stores is found by the next lookup, unless the hit is an unnamed first event |
| Script.JumpToZero | game.js:35 | `gotoStoryEvent(0)` stores 0, and the lookup of 0 finds the first event when that event has no id of its own |
| Script.GotoInPart | src/Game.js:345-358 | in a story made of parts of ten events, a jump whose target follows it in the same part resolves there |
| Script.GotoIntoNextPart | src/Game.js:345-358 | in such a story, a jump whose target is missing from the rest of its part resolves on the first hit of the next part |
| Script.GotoBack | src/Game.js:359-364 | in such a story, a jump whose target only precedes it finds nothing forward and resolves by the lookup from the start |
| Sessions.SessionState.constructor | src/Game.js:160-161 | a new record has every field absent |
| GameCommands.Perform | game.js:20-92 | each action's new state: restart sets only the current id, debug goto sets the id and clears prompt, input and pause, skip time sets only the pause, pause/resume set only the flag, start does nothing; each other action sends its own one message (the help text, "restarting...", the state, "Setting event ID to …", "Time skip in progress...", "Time stopped.", "Time released.") and throws exactly when it fails |
| GameCommands.SayTo | src/Game.js:183 | `ctx.say` sends one message and faults exactly when the messenger fails |
| GameCommands.RunAction | game.js:20-92 | the actions on the session record leave exactly the state `Perform` gives |
| GameCommands.PauseResumeIdempotent | game.js:76-89 | pausing or resuming twice gives the same state as once |
| Stepper.HeldBack | src/Game.js:279-294 | a step holds back when the current event is missing, a pause has not run out, a prompt is open or an input is expected, or the player paused |
| Stepper.TypingBefore | src/Game.js:300-307 | the one possible notice is "typing..." for `length * 100 * speed` milliseconds, shown exactly when `typing` is not false and that duration is positive |
| Stepper.TextPart | src/Game.js:297-313 | an event without text sends nothing; a text event records its replies and sends its text last |
| Stepper.Continue | src/Game.js:333-372 | an input event records that the session waits for it; a `goto` lands where `ResolveGoto` says or throws "Unable to find event ID"; else a truthy `next` becomes the current id; only an event without any of these falls through |
| Stepper.RunEvent | src/Game.js:297-372 | a step never changes the player's pause; a text event's replies become the open prompt unless the step threw |
| Stepper.Step | src/Game.js:271-294 | a step that is held back (no such event, paused until later, waiting for the player, paused by the player) changes nothing and sends nothing |
| Stepper.ResolveGotoScan | src/Game.js:345-361 | the forward scan, then the lookup from the start, compute `ResolveGoto` |
| Stepper.HandleEventLoop | src/Game.js:271-374 | the step on the session record leaves exactly the state and effects of `Step` |
| Stepper.SendText | src/Game.js:297-313 | the text part on the record equals `TextPart` |
| Stepper.Advance | src/Game.js:333-372 | the move on the record equals `Continue` |
| Stepper.PreparedNeverFallsThrough | src/Game.js:369-374 | on a prepared story a step never reaches the end of the function without a result |
| Stepper.EventThenNext | src/Game.js:297-372 | with every call succeeding, a text or wait event opens its prompt, starts its pause and still moves to `next` in the same step |
| Stepper.InputEventWaits | src/Game.js:333-339 | an input event records the session as waiting for it and leaves the current id alone |
| Stepper.BlockedStaysQuiet | src/Game.js:289-290 | after a step that leaves a prompt open or an input expected, every later step does nothing |
| Stepper.PromptOpensOnSend | src/Game.js:310-311 | a text with replies opens the prompt even when sending it fails, since the prompt is recorded first |
| Stepper.WaitHoldsUntilDue | src/Game.js:285-322 | after a wait event, steps before the wait is over do nothing |
| Stepper.GotoLandsOnTarget | src/Game.js:342-364 | a `goto` step moves to an event carrying the target as id or label, or throws for an unknown target |
| Stepper.UnknownTargetRepeats | src/Game.js:359-361 | a `goto` to an unknown target throws without changing the session, so the next step throws the same |
| Dispatcher.Subject | src/Game.js:199 | the text the patterns are run on: the message text, or "undefined" for a message without one |
| Dispatcher.FirstCommand | src/Game.js:196-207 | the first command of the table whose pattern matches, with nothing matching before it; none exists when nothing matches |
| Dispatcher.Answer | src/Game.js:209-236 | an answer closes the prompt, sends nothing and leaves the pauses and input alone; it moves to the first event at or after the current one labelled with the reply, stays without one, and throws when the current event is missing |
| Dispatcher.Input | src/Game.js:238-263 | an expected input stops the waiting and keeps the prompt; a missing event throws without changing the session |
| Dispatcher.Dispatch | src/Game.js:155-268 | the order commands, then an exact answer, then the expected input; "Command not recognized" exactly when none applies, leaving the session as it was |
| Dispatcher.FindCommand | src/Game.js:196-207 | the command loop finds `FirstCommand` |
| Dispatcher.FirstCommandIsFirst | src/Game.js:196-202 | skipping commands that do not match does not change the search |
| Dispatcher.IsAnswer | src/Game.js:210-214 | the reply loop succeeds exactly when the text equals an offered reply |
| Dispatcher.FindLabel | src/Game.js:220-231 | the label loop finds the first event at or after the current one with that label |
| Dispatcher.HandleMessage | src/Game.js:155-268 | `handleMessage` on the record leaves exactly the state, effects and outcome of `Dispatch` |
| Dispatcher.CommandsComeFirst | src/Game.js:196-207 | a matching command alone decides the result, whatever the session waits for |
| Dispatcher.AnswerMovesToLabel | src/Game.js:209-236 | an exact answer clears the prompt and moves to the first event at or after the current one labelled with it; without such a label the story stays |
| Dispatcher.OtherTextKeepsPrompt | src/Game.js:209-266 | while a prompt is open, text that is neither a command nor an offered reply is not recognised and changes nothing |
| Dispatcher.MissingInputEventThrows | src/Game.js:242-244 | an expected input whose event is missing throws "Event not found" without changing the session |
| Dispatcher.InputChoosesBranch | src/Game.js:239-262 | a match jumps to `ifMatched`, a miss to `else`, an absent target leaves the story where it is, and the waiting always stops |
| Interpreter.Deliver | src/Game.js:98-125 | a non-message update changes nothing; a message raises the offset to at least its id plus one, adds the sender's session and leaves every other session alone |
| Interpreter.DeliverAll | src/Game.js:98-125 | the update loop on values: each update delivered in order, their effects in order, stopping after the first whose error reply fails; its properties are the lemmas below |
| Interpreter.Settle | src/Game.js:110-123 | a handled message stores the sender's new session and the new offset |
| Interpreter.OffsetNeverDecreases | src/Game.js:104-107 | the update loop never moves the offset back |
| Interpreter.OffsetPassesHandledMessages | src/Game.js:104-107 | after a completed update loop the offset lies past every message update handled |
| Interpreter.NonMessagesChangeNothing | src/Game.js:100-102 | updates without a message change nothing, not even the offset |
| Interpreter.OnlySendersChange | src/Game.js:157-161 | the session of a chat that sent nothing is kept unchanged |
| Interpreter.SessionsAreKept | src/Game.js:159-161 | the update loop never removes a session |
| Interpreter.StepAll | src/Game.js:127-150 | the stepping phase keeps the set of sessions and leaves sessions in flight alone |
| Interpreter.StepSent | src/Game.js:127-150 | only sessions not in flight send anything |
| Interpreter.SecondPhaseStepsNothing | src/Game.js:130-132 | while every session is in flight, a stepping phase changes and sends nothing |
| Interpreter.TickOf | src/Game.js:92-152 | a failed fetch changes nothing; the offset never decreases; sessions are kept; the registry grows by the stepped sessions |
| Interpreter.InFlightSessionIsLeftAlone | src/Game.js:128-132 | a session in flight whose chat sent nothing is neither changed nor stepped by a tick |
| Interpreter.Game.constructor | src/Game.js:10-57 | startup prepares the story in place, with no sessions, offset 0 and nothing in flight |
| Interpreter.Game.SessionOf | src/Game.js:158-161 | the chat's record, created empty when missing; the other records are kept |
| Interpreter.Game.Receive | src/Game.js:155-161 | handling a message changes only the sender's session, as `Dispatch` says |
| Interpreter.Game.HandleOn | src/Game.js:155-268 | `handleMessage` on an existing record changes only that session, as `Dispatch` says |
| Interpreter.Game.HandleUpdate | src/Game.js:98-125 | one iteration of the update loop on the object equals `Deliver` |
| Interpreter.Game.HandleMessageUpdate | src/Game.js:104-123 | the offset, the handling and the error reply equal `Settle` of `Dispatch` |
| Interpreter.Game.ReplyOnError | src/Game.js:115-123 | a thrown error is replied to the chat, and the tick aborts exactly when that reply fails |
| Interpreter.Game.HandleUpdates | src/Game.js:98-125 | the update loop on the object equals `DeliverAll` |
| Interpreter.Game.StepOne | src/Game.js:135-148 | one session's step, with its error reply, equals that session's entry of `StepAll` and `StepSent` |
| Interpreter.Game.StepIdle | src/Game.js:127-150 | the stepping phase equals `StepAll`/`StepSent` and registers every session as in flight |
| Interpreter.Game.StepSessions | src/Game.js:128-150 | stepping the idle sessions one at a time, in any order, gives `StepAll` and `StepSent` |
| Interpreter.Game.Tick | src/Game.js:92-152 | one call of `loop` on the object equals `TickOf` |
| Interpreter.Game.Finish | src/Game.js:143-148 | a finished step removes exactly its session from the registry |
| GameStory.AuthoredLength | game.js:123-529 | the story has 242 events |
| GameStory.AuthoredNamed | game.js:123-529 | every authored id is a name, none numeric |
| GameStory.NoEnding | game.js:123-529 | no event carries the id or label "END", and none the id "end" |
| GameStory.EndIsNowhere | game.js:506 | a jump to "END" resolves nowhere, from any event |
| GameStory.PassageGotoAt30 | game.js:186-200 | the jump at event 30 lands on the label "What's down the passage?" (event 38) |
| GameStory.PassageGotoAt33 | game.js:191-200 | the jump at event 33 lands on the same label |
| GameStory.ForestGotoAt86 | game.js:284-295 | the jump at event 86 lands on the id "FOREST" (event 91) |
| GameStory.ForestGotoAt90 | game.js:291-295 | the jump at event 90 lands on the id "FOREST" |
| GameStory.RiddleGotoAt111 | game.js:327-332 | the jump back to "ROT13 ASK" (event 111) lands on event 107, found by the lookup from the start |
| GameStory.PlaneGotoAt136 | game.js:369-376 | the jump at event 136 lands on the id "PLANE PUZZLE" (event 139) |
| GameStory.DarkRoomGotoAt182 | game.js:448-459 | the jump at event 182 lands on the id "DARK ROOM" (event 189) |
| GameStory.DarkRoomGotoAt188 | game.js:456-459 | the jump at event 188 lands on the id "DARK ROOM" |
| GameStory.EndGotos | game.js:506-527 | events 224 and 241 are the jumps to "END" |
| GameStory.RiddleTargets | game.js:327-334 | event 108 is the riddle's input; its branches name events 112 ("ROT13 CORRECT") and 109 ("ROT13 WRONG"), the first events with those ids |
| GameStory.Opening | game.js:126-127 | the story opens with a notice without typing, then a wait of four seconds |
| GameStory.OkPrompt | game.js:249-257 | event 66 offers "Ok." and "Be safe."; the label "Be safe." follows it, and the first "Ok." label is event 69 |
| Playthrough.RestartIsSecondCommand | game.js:31-43 | "restart" is picked by the restart entry, not by `start` |
| Playthrough.OkIsNoCommand | game.js:20-92 | "Ok." matches no command |
| Playthrough.TextStepAdvances | src/Game.js:297-372 | in a story whose ids are names, a plain text event sends its text, opens its replies and moves to the next event |
| Playthrough.UnresolvedGotoThrows | src/Game.js:359-361 | a jump to a name no event carries throws and leaves the session unchanged |
| Playthrough.AnswerLeadsTo | src/Game.js:209-236 | an answer at an unnamed event moves to the unnamed event the label scan finds |
| Playthrough.InputLeadsTo | src/Game.js:239-262 | an input event whose branches name events leads to one or the other, as the text matches |
| Playthrough.Rot13Involution | game.js:322 | the cipher the riddle's note names is its own inverse |
| Playthrough.RiddlePassword | game.js:322 | ROT13 of "UNLOCK" is "HAYBPX" |
| Playthrough.RiddleAcceptsRotated | game.js:328 | the riddle's pattern accepts the rotated password |
| Playthrough.RiddleAcceptsLowerCase | game.js:328 | it accepts "haybpx" in lower case too |
| Playthrough.RiddleRejectsPassword | game.js:328 | it rejects the password "UNLOCK" itself |
| Playthrough.RiddleBranches | game.js:327-334 | at the riddle a matching text leads to "ROT13 CORRECT", any other to "ROT13 WRONG", and the waiting stops |
| Playthrough.EndingThrows | game.js:506-527 | at either jump to "END" each step throws and is replied to as "ERROR: Unable to find event ID END" |
| Playthrough.WithMarkFindsMark | game.js:506 | an event named "END" at the end is found by every scan from inside the story |
| Playthrough.GotoReachesMark | game.js:506 | with that event added, a jump to "END" lands on it |
| Playthrough.MarkMovesToFinale | src/Game.js:44-45 | from the added last event the story moves to "end" |
| Playthrough.FinaleIsQuiet | src/Game.js:279-282 | no event is named "end", so a session there does nothing |
| Playthrough.CompletedEndingStops | game.js:506-527 | with "END" added, both jumps land on it, the story moves to "end" and every later step does nothing |
| Playthrough.PromptAt66 | game.js:249 | the step at event 66 opens the prompt "Ok."/"Be safe." with event 67 current |
| Playthrough.RestartMovesToStart | game.js:32-36 | the game's restart moves any session to event 0 and keeps the rest of it |
| Playthrough.RestartKeepsPrompt | game.js:32-36 | a restart with a prompt open sends its notice, but the next step does nothing |
| Playthrough.RestartIsUndone | game.js:32-36 | after such a restart, answering "Ok." lands on event 69, exactly where answering without the restart does |
| Playthrough.RestartDoesNotStartOver | game.js:32-36 | after such a restart the next step differs from a new player's first step |
| Playthrough.CorrectedRestartClears | game.js:32-36 | the corrected restart leaves event 0 current with nothing pending |
| Playthrough.OpeningStep | game.js:126 | a new player's first step sends the opening notice and moves to event 1 |
| Playthrough.CorrectedRestartStartsOver | game.js:32-36 | after the corrected restart, from any session not paused by the player, the next step is a new player's first step |

## Left out

- The messenger is not modelled. Its HTTP client, its MarkdownV2 escaping and its `getUpdates` are out. Each messenger call is an effect, and a parameter `net` says for each one whether it succeeds. A failed fetch is an absent update list.
- Concurrency is not modelled. A step still in flight and `handleMessage` cannot interleave on one record here; the registry of steps in flight is a set, and a step is atomic.
- Persistence is left out: loading and saving the state file, the 30-second save timer, and the endless loop of `start` with its one-second sleep (src/Game.js:47-53, 59-90).
- The loop showing "typing..." until a deadline (src/Game.js:300-307) is one `Typing` effect carrying the duration.
- Clocks are parameters. `now` is the clock when a step starts, and `waitNow` is the clock once its message has gone out. Every session's step in a tick sees the same two values.
- The input event's `do` callback and the text of `debug state` are opaque effects (`InputCallback`, `SendState`). No event of the story has a `do`.
- `onNothingMatched` is modelled as the one message the game gives it.
- Patterns.Exec: regular expressions are modelled only as far as the game uses them. Each is a literal searched case-insensitively, with at most one trailing `(.*)`. Case folding covers ASCII letters only, and text lengths count characters rather than UTF-16 units.
- JsValues.ToNumber: numbers are exact integers, not doubles. A text whose value is no integer (a fraction, `Infinity`) reads as none, since ids are compared only with integers; this differs from JavaScript only where rounding to a double would turn it into an integer. Values beyond 2^53 are exact here but rounded in JavaScript, and an exponent so small that JavaScript underflows to 0 (`1e-400`) gives none here.
- The order of the session keys (`Object.keys`) is left unfixed. The stepping phase is proved correct for any order.
- Chat ids are the strings the session map is keyed by (`chat.id + ""`).
- GameStory: texts are placeholders of the same length as the authored texts. Ids, jump targets, waits, typing flags and the replies "Ok.", "Be safe." and "What's down the passage?" are the authored ones. Every other reply, in the offered lists and in the labels, is a stand-in `Reply(n)`, one per distinct authored reply and named after it. The interpreter compares replies with labels and with messages for equality, and the stand-ins keep exactly the authored equalities. An answer is also first tried against the command patterns (src/Game.js:196-207); no authored reply contains any command's literal (help, restart, start, debug state, debug goto, skip time, pause, resume), and no stand-in does either, so that step picks no command for either. Writing all of them out as literals made the verification of the whole-story lemmas too costly.
- Playthrough.Rot13: the cipher is not part of the interpreter. It is the rotation the riddle's note names (game.js:322), and the model uses it only to check the riddle's answer.
- The `Telegram` client, the bootstrap in `src/main.js` and `src/SessionContext.js` are not part of this model.

## Findings

| source | as written | input that shows it | evidently intended | confidence | as-written member | corrected member |
|---|---|---|---|---|---|---|
| game.js:506-527 | both endings jump to "END", which no event carries; the jump throws, the session stays put, and every tick sends "ERROR: Unable to find event ID END" again | a session at event 224 or 241 | the story stops quietly at its end, e.g. with an event `{ id: "END" }` after the last one | not executed; proved on the model | Playthrough.EndingThrows | Playthrough.CompletedEndingStops |
| game.js:32-36 | `restart` sets only the current event and keeps the prompt, the expected input and the pause; with a prompt open nothing happens, and answering it lands back where the player was | "restart" sent while event 66's prompt ("Ok."/"Be safe.") is open, then "Ok." | restart from the beginning, as a new player: clear the prompt, the input and the pause as `debug goto` does (game.js:57-60) | not executed; proved on the model | Playthrough.RestartIsUndone | Playthrough.CorrectedRestartStartsOver |
