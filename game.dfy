/**
 * The interpreter object (Game.js:7-152): the prepared story, the session
 * records by chat, the messenger offset, and the registry of sessions whose
 * step is still in flight. One tick of `loop` delivers the fetched updates to
 * `handleMessage` in order, then starts a step for every session that has none
 * in flight.
 */
module Interpreter {
  import opened JsValues
  import opened Script
  import opened Sessions
  import opened Effects
  import opened GameCommands
  import opened Dispatcher
  import opened Stepper

  /** A fetched message: the chat it came from (as the string key of its session) and its text, if any. */
  datatype Message = Message(chat: string, text: Option<string>)

  /** A fetched update; only message updates are handled. */
  datatype Update = Update(updateId: int, message: Option<Message>)

  /** The records `loop` works on, as values. */
  datatype World = World(sessions: map<string, SessionView>, offset: int)

  /** What delivering one update did: the new world, what was sent, and whether the tick was aborted. */
  datatype Delivery = Delivery(world: World, effects: seq<Effect>, aborted: bool)

  /**
   * One iteration of the update loop (Game.js:98-125): skip a non-message,
   * otherwise raise the offset past the update, handle the message on the
   * sender's session (created empty if missing) and reply with the error if
   * handling threw. The tick aborts when that error reply fails.
   */
  function Deliver(story: seq<Event>, cmds: seq<Command>, net: Net, w: World, u: Update): (d: Delivery)
    ensures u.message.None? ==> d == Delivery(w, [], false)
    ensures u.message.Some? ==> d.world.offset == if w.offset < u.updateId + 1 then u.updateId + 1 else w.offset
    ensures u.message.Some? ==> d.world.sessions.Keys == w.sessions.Keys + {u.message.value.chat}
    ensures forall c | c in w.sessions && (u.message.None? || c != u.message.value.chat) :: d.world.sessions[c] == w.sessions[c]
  {
    if u.message.None? then Delivery(w, [], false)
    else
      var chat := u.message.value.chat;
      var r := Dispatch(story, cmds, net, chat, SessionFor(w, chat), u.message.value.text);
      Settle(net, w, chat, if w.offset < u.updateId + 1 then u.updateId + 1 else w.offset, r)
  }

  /** The session a message is handled on: the chat's own, or a fresh one. */
  function SessionFor(w: World, chat: string): SessionView {
    if chat in w.sessions then w.sessions[chat] else Fresh
  }

  /** Records the outcome of a handled message, replying with the error if it threw. */
  function Settle(net: Net, w: World, chat: string, offset: int, r: DispatchResult): (d: Delivery)
    ensures d.world == World(w.sessions[chat := r.state], offset)
  {
    var w1 := World(w.sessions[chat := r.state], offset);
    if r.outcome.Threw? then
      var e := SendError(chat, r.outcome.fault);
      Delivery(w1, r.effects + [e], !net(e))
    else Delivery(w1, r.effects, false)
  }

  /** `Deliver` on a message, once its handling is known. */
  lemma DeliverMessage(story: seq<Event>, cmds: seq<Command>, net: Net, w: World, u: Update, r: DispatchResult)
    requires u.message.Some?
    requires r == Dispatch(story, cmds, net, u.message.value.chat, SessionFor(w, u.message.value.chat), u.message.value.text)
    ensures Deliver(story, cmds, net, w, u)
      == Settle(net, w, u.message.value.chat, if w.offset < u.updateId + 1 then u.updateId + 1 else w.offset, r)
  {
  }

  /** What the update loop still owes after sending `sent`: the rest of the updates delivered from `w`. */
  function Owed(story: seq<Event>, cmds: seq<Command>, net: Net, w: World, us: seq<Update>, sent: seq<Effect>): Delivery {
    var d := DeliverAll(story, cmds, net, w, us);
    Delivery(d.world, sent + d.effects, d.aborted)
  }

  /** Delivering the first of the remaining updates: the tick ends when it aborts, else the rest is owed. */
  lemma DeliverNext(story: seq<Event>, cmds: seq<Command>, net: Net, w: World, us: seq<Update>, sent: seq<Effect>)
    requires us != []
    ensures var first := Deliver(story, cmds, net, w, us[0]);
            Owed(story, cmds, net, w, us, sent)
            == if first.aborted then Delivery(first.world, sent + first.effects, true)
               else Owed(story, cmds, net, first.world, us[1..], sent + first.effects)
  {
    var first := Deliver(story, cmds, net, w, us[0]);
    if !first.aborted {
      var rest := DeliverAll(story, cmds, net, first.world, us[1..]);
      assert sent + (first.effects + rest.effects) == (sent + first.effects) + rest.effects;
    }
  }

  /** A map that differs from `m` only at `k`, where it holds `v`, is `m[k := v]`. */
  lemma MapChangedAt<K, V>(m: map<K, V>, n: map<K, V>, k: K, v: V)
    requires n.Keys == m.Keys + {k} && n[k] == v
    requires forall c | c in m && c != k :: n[c] == m[c]
    ensures n == m[k := v]
  {
  }

  lemma UpdateTwice<K, V>(m: map<K, V>, k: K, a: V, b: V)
    ensures m[k := a][k := b] == m[k := b]
  {
  }

  /** The whole update loop: updates in order, stopping at an aborting one. */
  function DeliverAll(story: seq<Event>, cmds: seq<Command>, net: Net, w: World, us: seq<Update>): (d: Delivery)
    decreases |us|
  {
    if us == [] then Delivery(w, [], false)
    else
      var first := Deliver(story, cmds, net, w, us[0]);
      if first.aborted then first
      else
        var rest := DeliverAll(story, cmds, net, first.world, us[1..]);
        Delivery(rest.world, first.effects + rest.effects, rest.aborted)
  }

  /** The offset never moves back. */
  lemma {:induction false} OffsetNeverDecreases(story: seq<Event>, cmds: seq<Command>, net: Net, w: World, us: seq<Update>)
    ensures DeliverAll(story, cmds, net, w, us).world.offset >= w.offset
    decreases |us|
  {
    if us != [] {
      var first := Deliver(story, cmds, net, w, us[0]);
      if !first.aborted {
        OffsetNeverDecreases(story, cmds, net, first.world, us[1..]);
      }
    }
  }

  /**
   * Once the tick has run the update loop to the end, the offset lies past
   * every message update it handled, so none of them is fetched again.
   */
  lemma {:induction false} OffsetPassesHandledMessages(story: seq<Event>, cmds: seq<Command>, net: Net, w: World, us: seq<Update>)
    requires !DeliverAll(story, cmds, net, w, us).aborted
    ensures forall i | 0 <= i < |us| && us[i].message.Some? :: DeliverAll(story, cmds, net, w, us).world.offset > us[i].updateId
    decreases |us|
  {
    if us != [] {
      var first := Deliver(story, cmds, net, w, us[0]);
      OffsetPassesHandledMessages(story, cmds, net, first.world, us[1..]);
      OffsetNeverDecreases(story, cmds, net, first.world, us[1..]);
      forall i | 1 <= i < |us| && us[i].message.Some?
        ensures DeliverAll(story, cmds, net, w, us).world.offset > us[i].updateId
      {
        assert us[1..][i - 1] == us[i];
      }
    }
  }

  /** Updates that are not messages change nothing, not even the offset. */
  lemma {:induction false} NonMessagesChangeNothing(story: seq<Event>, cmds: seq<Command>, net: Net, w: World, us: seq<Update>)
    requires forall i | 0 <= i < |us| :: us[i].message.None?
    ensures DeliverAll(story, cmds, net, w, us) == Delivery(w, [], false)
    decreases |us|
  {
    if us != [] {
      NonMessagesChangeNothing(story, cmds, net, w, us[1..]);
    }
  }

  /** Only the sessions of chats that sent a message change, and sessions are never removed. */
  lemma {:induction false} OnlySendersChange(story: seq<Event>, cmds: seq<Command>, net: Net, w: World, us: seq<Update>, c: string)
    requires c in w.sessions
    requires forall i | 0 <= i < |us| :: us[i].message.None? || us[i].message.value.chat != c
    ensures c in DeliverAll(story, cmds, net, w, us).world.sessions
    ensures DeliverAll(story, cmds, net, w, us).world.sessions[c] == w.sessions[c]
    decreases |us|
  {
    if us != [] {
      var first := Deliver(story, cmds, net, w, us[0]);
      if !first.aborted {
        OnlySendersChange(story, cmds, net, first.world, us[1..], c);
      }
    }
  }

  /** The effects of one session's step, with the error reply when it threw (Game.js:135-148). */
  function StepEffects(r: StepResult, chat: string): seq<Effect> {
    if r.outcome.Threw? then r.effects + [SendError(chat, r.outcome.fault)] else r.effects
  }

  /**
   * The stepping phase of a tick (Game.js:127-150): every session without a
   * step in flight takes one step; busy sessions are left alone. Steps of
   * different sessions touch different records, so their order does not matter.
   */
  function StepAll(story: seq<Event>, speed: int, net: Net, views: map<string, SessionView>, busy: set<string>,
                   now: int, waitNow: int): (r: map<string, SessionView>)
    ensures r.Keys == views.Keys
    ensures forall c | c in views && c in busy :: r[c] == views[c]
  {
    map c | c in views :: if c in busy then views[c] else Step(story, speed, c, views[c], now, waitNow, net).state
  }

  /** What the stepping phase sends, by chat: only sessions not in flight take a step. */
  function StepSent(story: seq<Event>, speed: int, net: Net, views: map<string, SessionView>, busy: set<string>,
                    now: int, waitNow: int): (r: map<string, seq<Effect>>)
    ensures r.Keys == views.Keys - busy
  {
    map c | c in views && c !in busy :: StepEffects(Step(story, speed, c, views[c], now, waitNow, net), c)
  }

  /** `m` with the entries of the keys in `t` taken from `b` instead. */
  function Overlay<K, V>(m: map<K, V>, b: map<K, V>, t: set<K>): map<K, V>
    requires m.Keys == b.Keys
  {
    map k | k in m :: if k in t then b[k] else m[k]
  }

  lemma OverlayShrinks<K, V>(m: map<K, V>, b: map<K, V>, t: set<K>, c: K)
    requires m.Keys == b.Keys && c in t && c in m
    ensures Overlay(m, b, t - {c}) == Overlay(m, b, t)[c := m[c]]
  {
  }

  /** Overlaying every key where `m` and `b` differ gives `b`. */
  lemma OverlayFull<K, V>(m: map<K, V>, b: map<K, V>, t: set<K>)
    requires m.Keys == b.Keys
    requires forall k | k in m && k !in t :: m[k] == b[k]
    ensures Overlay(m, b, t) == b
  {
  }

  lemma OverlayEmpty<K, V>(m: map<K, V>, b: map<K, V>)
    requires m.Keys == b.Keys
    ensures Overlay(m, b, {}) == m
  {
  }

  /** `m` without the keys in `t`. */
  function Without<K, V>(m: map<K, V>, t: set<K>): map<K, V> {
    map k | k in m && k !in t :: m[k]
  }

  lemma WithoutShrinks<K, V>(m: map<K, V>, t: set<K>, c: K)
    requires c in t && c in m
    ensures Without(m, t - {c}) == Without(m, t)[c := m[c]]
  {
  }

  lemma WithoutEmpty<K, V>(m: map<K, V>)
    ensures Without(m, {}) == m
  {
  }

  /** A second stepping phase before any step has finished steps nothing. */
  lemma SecondPhaseStepsNothing(story: seq<Event>, speed: int, net: Net, views: map<string, SessionView>, busy: set<string>,
                                now: int, waitNow: int)
    requires views.Keys <= busy
    ensures StepAll(story, speed, net, views, busy, now, waitNow) == views
    ensures StepSent(story, speed, net, views, busy, now, waitNow) == map[]
  {
  }

  /** Sessions are never removed by the update loop. */
  lemma {:induction false} SessionsAreKept(story: seq<Event>, cmds: seq<Command>, net: Net, w: World, us: seq<Update>)
    ensures w.sessions.Keys <= DeliverAll(story, cmds, net, w, us).world.sessions.Keys
    decreases |us|
  {
    if us != [] {
      var first := Deliver(story, cmds, net, w, us[0]);
      if !first.aborted {
        SessionsAreKept(story, cmds, net, first.world, us[1..]);
      }
    }
  }

  /** The records after a tick, the in-flight registry, what the update loop sent and what each step sent. */
  datatype TickResult = TickResult(world: World, busy: set<string>, effects: seq<Effect>, sent: map<string, seq<Effect>>)

  /**
   * One call of `loop` (Game.js:92-152). `fetched` is `None` when fetching the
   * updates failed: `loop` throws before touching anything. A failed error
   * reply in the update loop throws out of `loop` too, so no step is started.
   */
  function TickOf(story: seq<Event>, cmds: seq<Command>, speed: int, net: Net, w: World, busy: set<string>,
                fetched: Option<seq<Update>>, now: int, waitNow: int): (r: TickResult)
    ensures fetched.None? ==> r == TickResult(w, busy, [], map[])
    ensures r.world.offset >= w.offset && w.sessions.Keys <= r.world.sessions.Keys
    ensures r.busy == busy || r.busy == busy + r.world.sessions.Keys
    ensures r.sent.Keys == r.busy - busy
  {
    match fetched
    case None => TickResult(w, busy, [], map[])
    case Some(us) =>
      var d := DeliverAll(story, cmds, net, w, us);
      OffsetNeverDecreases(story, cmds, net, w, us);
      SessionsAreKept(story, cmds, net, w, us);
      if d.aborted then TickResult(d.world, busy, d.effects, map[])
      else
        TickResult(World(StepAll(story, speed, net, d.world.sessions, busy, now, waitNow), d.world.offset),
                   busy + d.world.sessions.Keys, d.effects, StepSent(story, speed, net, d.world.sessions, busy, now, waitNow))
  }

  /**
   * A session whose step is still in flight is not stepped again: if its chat
   * sent nothing, a tick leaves it as it was.
   */
  lemma InFlightSessionIsLeftAlone(story: seq<Event>, cmds: seq<Command>, speed: int, net: Net, w: World, busy: set<string>,
                                   us: seq<Update>, now: int, waitNow: int, c: string)
    requires c in busy && c in w.sessions
    requires forall i | 0 <= i < |us| :: us[i].message.None? || us[i].message.value.chat != c
    ensures TickOf(story, cmds, speed, net, w, busy, Some(us), now, waitNow).world.sessions[c] == w.sessions[c]
    ensures c !in TickOf(story, cmds, speed, net, w, busy, Some(us), now, waitNow).sent
  {
    OnlySendersChange(story, cmds, net, w, us, c);
  }

  class Game {
    /** The story as prepared at startup. */
    const story: seq<Event>
    const commands: seq<Command>
    const typingSpeed: int
    var sessions: map<string, SessionState>
    var offset: int
    /** Sessions whose step has started and not yet finished (`userThreads`). */
    var busy: set<string>

    /** Distinct chats have distinct session records. */
    predicate Valid()
      reads this
    {
      forall a, b | a in sessions && b in sessions && a != b :: sessions[a] != sessions[b]
    }

    function Views(): map<string, SessionView>
      reads this`sessions, sessions.Values
    {
      map c | c in sessions :: sessions[c].View()
    }

    function Current(): World
      reads this, sessions.Values
    {
      World(Views(), offset)
    }

    /** Startup (Game.js:10-57): prepares the story in place; no sessions yet, offset 0. */
    constructor (authored: array<Event>, commands: seq<Command>, typingSpeed: int)
      modifies authored
      ensures Valid() && story == Prepared(old(authored[..]))
      ensures this.commands == commands && this.typingSpeed == typingSpeed
      ensures sessions == map[] && offset == 0 && busy == {}
    {
      Prepare(authored);
      story := authored[..];
      this.commands := commands;
      this.typingSpeed := typingSpeed;
      sessions := map[];
      offset := 0;
      busy := {};
    }

    /** The session record of a chat, created empty if missing. */
    method SessionOf(chat: string) returns (s: SessionState)
      requires Valid()
      modifies this
      ensures Valid() && chat in sessions && s == sessions[chat]
      ensures chat in old(sessions) ==> sessions == old(sessions)
      ensures chat !in old(sessions) ==> fresh(s) && sessions == old(sessions)[chat := s] && s.View() == Fresh
      ensures offset == old(offset) && busy == old(busy)
      ensures s.View() == SessionFor(old(Current()), chat) && Views() == old(Views())[chat := s.View()]
    {
      ghost var before := Views();
      if chat in sessions {
        s := sessions[chat];
        assert before == before[chat := s.View()];
      } else {
        s := new SessionState();
        sessions := sessions[chat := s];
        ghost var after := Views();
        forall c | c in before && c != chat
          ensures after[c] == before[c]
        {
        }
        MapChangedAt(before, after, chat, s.View());
      }
    }

    /** `handleMessage` on the session of `chat`, created empty if missing (Game.js:155-161). */
    method Receive(chat: string, text: Option<string>, net: Net) returns (r: DispatchResult)
      requires Valid()
      modifies this, sessions.Values
      ensures Valid() && busy == old(busy) && offset == old(offset)
      ensures forall c | c in sessions :: (c in old(sessions) && sessions[c] == old(sessions[c])) || fresh(sessions[c])
      ensures forall c | c in old(sessions) :: c in sessions && sessions[c] == old(sessions[c])
      ensures r == Dispatch(story, commands, net, chat, SessionFor(old(Current()), chat), text)
      ensures Views() == old(Views())[chat := r.state]
    {
      ghost var before := Views();
      var s := SessionOf(chat);
      ghost var v := s.View();
      ghost var mid := Views();
      assert mid == before[chat := v];
      r := HandleOn(chat, text, net);
      assert r == Dispatch(story, commands, net, chat, v, text);
      assert Views() == mid[chat := r.state];
      UpdateTwice(before, chat, v, r.state);
    }

    /** `handleMessage` on the existing session record of `chat`. */
    method HandleOn(chat: string, text: Option<string>, net: Net) returns (r: DispatchResult)
      requires Valid() && chat in sessions
      modifies sessions[chat]
      ensures r == Dispatch(story, commands, net, chat, old(sessions[chat].View()), text)
      ensures Views() == old(Views())[chat := r.state]
    {
      var s := sessions[chat];
      var effects, outcome := HandleMessage(story, commands, net, chat, s, text);
      r := DispatchResult(s.View(), effects, outcome);
      OneSessionChanged(chat);
    }

    /** When only the record of `c` changed, so did only the view of `c`. */
    twostate lemma OneSessionChanged(c: string)
      requires Valid() && c in sessions && sessions == old(sessions)
      requires forall d | d in sessions && d != c :: unchanged(sessions[d])
      ensures Views() == old(Views())[c := sessions[c].View()]
    {
      forall d | d in sessions && d != c
        ensures Views()[d] == old(Views())[d]
      {
      }
    }

    /** One iteration of the update loop of `loop` (Game.js:98-125). */
    method HandleUpdate(u: Update, net: Net) returns (effects: seq<Effect>, aborted: bool)
      requires Valid()
      modifies this, sessions.Values
      ensures Valid() && busy == old(busy)
      ensures forall c | c in sessions :: (c in old(sessions) && sessions[c] == old(sessions[c])) || fresh(sessions[c])
      ensures forall c | c in old(sessions) :: c in sessions && sessions[c] == old(sessions[c])
      ensures Delivery(Current(), effects, aborted) == Deliver(story, commands, net, old(Current()), u)
    {
      if u.message.None? {
        return [], false;
      }
      ghost var r;
      effects, aborted, r := HandleMessageUpdate(u, net);
      DeliverMessage(story, commands, net, old(Current()), u, r);
    }

    /** A message update: the offset, the handling on the sender's session, and the error reply. */
    method HandleMessageUpdate(u: Update, net: Net) returns (effects: seq<Effect>, aborted: bool, ghost r: DispatchResult)
      requires Valid() && u.message.Some?
      modifies this, sessions.Values
      ensures Valid() && busy == old(busy)
      ensures forall c | c in sessions :: (c in old(sessions) && sessions[c] == old(sessions[c])) || fresh(sessions[c])
      ensures forall c | c in old(sessions) :: c in sessions && sessions[c] == old(sessions[c])
      ensures r == Dispatch(story, commands, net, u.message.value.chat, SessionFor(old(Current()), u.message.value.chat), u.message.value.text)
      ensures Delivery(Current(), effects, aborted)
        == Settle(net, old(Current()), u.message.value.chat, if old(offset) < u.updateId + 1 then u.updateId + 1 else old(offset), r)
    {
      ghost var before := Current();
      var newOffset := u.updateId + 1;
      if offset < newOffset {
        offset := newOffset;
      }
      var chat := u.message.value.chat;
      assert Views() == before.sessions;
      assert SessionFor(Current(), chat) == SessionFor(before, chat);
      var handled := Receive(chat, u.message.value.text, net);
      assert Views() == before.sessions[chat := handled.state];
      r := handled;
      effects, aborted := ReplyOnError(net, chat, handled.effects, handled.outcome);
      ghost var w1 := World(before.sessions[chat := r.state], offset);
      assert Current() == w1;
      assert Settle(net, before, chat, offset, r) == Delivery(w1, effects, aborted);
    }

    /** The error reply of Game.js:115-123 when handling threw. */
    static method ReplyOnError(net: Net, chat: string, handled: seq<Effect>, outcome: Outcome)
      returns (effects: seq<Effect>, aborted: bool)
      ensures outcome.Threw? ==> effects == handled + [SendError(chat, outcome.fault)] && aborted == !net(SendError(chat, outcome.fault))
      ensures !outcome.Threw? ==> effects == handled && !aborted
    {
      if outcome.Threw? {
        var e := SendError(chat, outcome.fault);
        effects := handled + [e];
        aborted := !net(e);
      } else {
        effects, aborted := handled, false;
      }
    }

    /** The update loop: `None` is a failed fetch, which ends the tick at once. */
    method HandleUpdates(updates: seq<Update>, net: Net) returns (effects: seq<Effect>, aborted: bool)
      requires Valid()
      modifies this, sessions.Values
      ensures Valid() && busy == old(busy)
      ensures forall c | c in sessions :: (c in old(sessions) && sessions[c] == old(sessions[c])) || fresh(sessions[c])
      ensures Delivery(Current(), effects, aborted) == DeliverAll(story, commands, net, old(Current()), updates)
    {
      effects, aborted := [], false;
      var i := 0;
      while i < |updates|
        invariant 0 <= i <= |updates| && Valid() && busy == old(busy)
        invariant DeliverAll(story, commands, net, old(Current()), updates)
          == Owed(story, commands, net, Current(), updates[i..], effects)
        invariant forall c | c in sessions :: (c in old(sessions) && sessions[c] == old(sessions[c])) || fresh(sessions[c])
        decreases |updates| - i
      {
        assert updates[i..][1..] == updates[i + 1..];
        DeliverNext(story, commands, net, Current(), updates[i..], effects);
        var more, stop := HandleUpdate(updates[i], net);
        if stop {
          return effects + more, true;
        }
        effects := effects + more;
        i := i + 1;
      }
      assert updates[i..] == [] && effects + [] == effects;
    }
  
    /**
     * One session's step, with the error reply when it threw (Game.js:135-148):
     * the session `c` of the stepping phase that started from `before`.
     */
    method StepOne(c: string, now: int, waitNow: int, net: Net, ghost before: map<string, SessionView>)
      returns (effects: seq<Effect>)
      requires Valid() && c in sessions && c in before && c !in busy && sessions[c].View() == before[c]
      modifies sessions[c]
      ensures Views() == old(Views())[c := StepAll(story, typingSpeed, net, before, busy, now, waitNow)[c]]
      ensures effects == StepSent(story, typingSpeed, net, before, busy, now, waitNow)[c]
    {
      ghost var views := Views();
      var s := sessions[c];
      var outcome;
      effects, outcome := HandleEventLoop(story, typingSpeed, c, s, now, waitNow, net);
      if outcome.Threw? {
        effects := effects + [SendError(c, outcome.fault)];
      }
      forall d | d in views && d != c
        ensures Views()[d] == views[d]
      {
        assert sessions[d] != s;
      }
      MapChangedAt(views, Views(), c, s.View());
    }

    /**
     * The stepping phase of `loop` (Game.js:127-150): starts one step for every
     * session with none in flight and registers it as in flight. A step's error
     * is replied to the chat; a failure of that reply is ignored.
     */
    method StepIdle(now: int, waitNow: int, net: Net) returns (sent: map<string, seq<Effect>>)
      requires Valid()
      modifies this`busy, sessions.Values
      ensures Valid() && busy == old(busy) + sessions.Keys
      ensures Views() == StepAll(story, typingSpeed, net, old(Views()), old(busy), now, waitNow)
      ensures sent == StepSent(story, typingSpeed, net, old(Views()), old(busy), now, waitNow)
    {
      sent := StepSessions(now, waitNow, net);
      busy := busy + sessions.Keys;
    }

    /** The loop of Game.js:133-149 over the sessions with no step in flight, in any order. */
    method StepSessions(now: int, waitNow: int, net: Net) returns (sent: map<string, seq<Effect>>)
      requires Valid()
      modifies sessions.Values
      ensures Views() == StepAll(story, typingSpeed, net, old(Views()), busy, now, waitNow)
      ensures sent == StepSent(story, typingSpeed, net, old(Views()), busy, now, waitNow)
    {
      ghost var before := Views();
      ghost var target := StepAll(story, typingSpeed, net, before, busy, now, waitNow);
      ghost var targetSent := StepSent(story, typingSpeed, net, before, busy, now, waitNow);
      var idle := sessions.Keys - busy;
      var todo := idle;
      OverlayFull(target, before, todo);
      sent := map[];
      while todo != {}
        invariant todo <= idle
        invariant Views() == Overlay(target, before, todo)
        invariant sent == Without(targetSent, todo)
        decreases todo
      {
        var c :| c in todo;
        var effects := StepOne(c, now, waitNow, net, before);
        OverlayShrinks(target, before, todo, c);
        WithoutShrinks(targetSent, todo, c);
        sent := sent[c := effects];
        todo := todo - {c};
      }
      OverlayEmpty(target, before);
      WithoutEmpty(targetSent);
    }

    /** One call of `loop`: the update loop, then, unless it threw, the stepping phase. */
    method Tick(fetched: Option<seq<Update>>, now: int, waitNow: int, net: Net)
      returns (effects: seq<Effect>, sent: map<string, seq<Effect>>)
      requires Valid()
      modifies this, sessions.Values
      ensures Valid()
      ensures TickResult(Current(), busy, effects, sent)
        == TickOf(story, commands, typingSpeed, net, old(Current()), old(busy), fetched, now, waitNow)
    {
      if fetched.None? {
        return [], map[];
      }
      var aborted;
      effects, aborted := HandleUpdates(fetched.value, net);
      if aborted {
        return effects, map[];
      }
      sent := StepIdle(now, waitNow, net);
    }

    /** A step has finished, whatever its outcome: the session may be stepped again (Game.js:145-150). */
    method Finish(c: string)
      modifies this`busy
      ensures busy == old(busy) - {c}
    {
      busy := busy - {c};
    }
  }
}
