/**
 * The story script: an ordered sequence of event records, the lookups the
 * interpreter performs on it (`find`, `findIndex` and its forward scans), the
 * preparation that fills in missing ids and successors at startup, and the
 * resolution of a `goto` target.
 */
module Script {
  import opened JsValues
  import opened Patterns

  /**
   * One event of the story. A property the author left out is `None`; `wait`
   * is 0 when absent. `ifLabel` is the `if` property (the reply that leads
   * here), `otherwise` the `else` property, `hasCallback` whether there is a
   * `do` callback.
   */
  datatype Event = Event(
    id: Option<Id>,
    ifLabel: Option<string>,
    text: Option<string>,
    replies: Option<seq<string>>,
    typing: Option<bool>,
    wait: int,
    goto: Option<Id>,
    input: Option<Pattern>,
    ifMatched: Option<Id>,
    otherwise: Option<Id>,
    hasCallback: bool,
    next: Option<Id>)

  /** What a lookup compares an event against. */
  datatype Key =
    | ById(id: Id)              // e.id == id
    | ByIdOrLabel(target: Id)   // e.id == target || e.if == target
    | ByLabel(reply: string)    // e.if == reply

  /** `undefined == x` is false for every number and string `x`. */
  predicate IdIs(o: Option<Id>, x: Id) {
    o.Some? && LooseEq(o.value, x)
  }

  predicate LabelIs(e: Event, x: Id) {
    e.ifLabel.Some? && LooseEq(Str(e.ifLabel.value), x)
  }

  predicate Hits(e: Event, key: Key) {
    match key
    case ById(x) => IdIs(e.id, x)
    case ByIdOrLabel(x) => IdIs(e.id, x) || LabelIs(e, x)
    case ByLabel(r) => e.ifLabel == Some(r)
  }

  /** The index of the first event at or after `from` that the key hits. */
  function FirstFrom(story: seq<Event>, from: nat, key: Key): (r: Option<nat>)
    ensures r.Some? ==> from <= r.value < |story| && Hits(story[r.value], key)
    ensures r.Some? ==> forall j | from <= j < r.value :: !Hits(story[j], key)
    ensures r.None? ==> forall j | from <= j < |story| :: !Hits(story[j], key)
    decreases |story| - from
  {
    if from >= |story| then None
    else if Hits(story[from], key) then Some(from)
    else FirstFrom(story, from + 1, key)
  }

  /** An index found in the second part of a concatenation, as an index into the whole. */
  function Shifted(r: Option<nat>, d: nat): Option<nat> {
    if r.Some? then Some(r.value + d) else None
  }

  /** A scan that starts in the first part of `a + b` finds its hit there, or else the first hit in `b`. */
  lemma {:induction false} FirstFromAppend(a: seq<Event>, b: seq<Event>, i: nat, key: Key)
    requires i <= |a|
    ensures FirstFrom(a + b, i, key)
      == if FirstFrom(a, i, key).Some? then FirstFrom(a, i, key) else Shifted(FirstFrom(b, 0, key), |a|)
    decreases |a| - i
  {
    if i < |a| {
      assert (a + b)[i] == a[i];
      if !Hits(a[i], key) {
        FirstFromAppend(a, b, i + 1, key);
      }
    } else {
      FirstFromSkip(a, b, 0, key);
    }
  }

  /** A scan that starts in the second part of `a + b` is a scan of `b`. */
  lemma {:induction false} FirstFromSkip(a: seq<Event>, b: seq<Event>, j: nat, key: Key)
    requires j <= |b|
    ensures FirstFrom(a + b, |a| + j, key) == Shifted(FirstFrom(b, j, key), |a|)
    decreases |b| - j
  {
    if j < |b| {
      assert (a + b)[|a| + j] == b[j];
      if !Hits(b[j], key) {
        FirstFromSkip(a, b, j + 1, key);
      }
    }
  }

  // ---------------------------------------------------------------------------
  // Preparation (Game.js:40-45)

  /** `story[i].id || i` */
  function PreparedId(s: seq<Event>, i: nat): Id
    requires i < |s|
  {
    OrElse(s[i].id, Num(i))
  }

  /** `story[i].next || (story[i+1] && story[i+1].id) || "end"`, with `story[i+1].id` already prepared. */
  function PreparedNext(s: seq<Event>, i: nat): Id
    requires i < |s|
  {
    if Present(s[i].next) then s[i].next.value
    else if i + 1 < |s| && Truthy(PreparedId(s, i + 1)) then PreparedId(s, i + 1)
    else Str("end")
  }

  function PrepareEvent(s: seq<Event>, i: nat): Event
    requires i < |s|
  {
    s[i].(id := Some(PreparedId(s, i)), next := Some(PreparedNext(s, i)))
  }

  /** The story as the interpreter sees it after startup. */
  function Prepared(s: seq<Event>): (r: seq<Event>)
    ensures |r| == |s|
    ensures forall i | 0 <= i < |s| :: r[i] == PrepareEvent(s, i)
  {
    seq(|s|, i requires 0 <= i < |s| => PrepareEvent(s, i))
  }

  /** The two passes of Game.js:40-45, in place: first every id, then every successor. */
  method Prepare(a: array<Event>)
    modifies a
    ensures a[..] == Prepared(old(a[..]))
  {
    ghost var s := a[..];
    for i := 0 to a.Length
      invariant forall j | 0 <= j < i :: a[j] == s[j].(id := Some(PreparedId(s, j)))
      invariant forall j | i <= j < a.Length :: a[j] == s[j]
    {
      a[i] := a[i].(id := Some(OrElse(a[i].id, Num(i))));
    }
    for i := 0 to a.Length
      invariant forall j | 0 <= j < i :: a[j] == PrepareEvent(s, j)
      invariant forall j | i <= j < a.Length :: a[j] == s[j].(id := Some(PreparedId(s, j)))
    {
      var next;
      if Present(a[i].next) {
        next := a[i].next.value;
      } else if i + 1 < a.Length && Present(a[i + 1].id) {
        next := a[i + 1].id.value;
      } else {
        next := Str("end");
      }
      a[i] := a[i].(next := Some(next));
    }
  }

  /**
   * After preparation every event has an id, truthy except `0` on an unnamed
   * first event, and an authored truthy id is kept.
   */
  lemma PreparedIds(s: seq<Event>, i: nat)
    requires i < |s|
    ensures Prepared(s)[i].id.Some?
    ensures i > 0 || Present(s[i].id) ==> Present(Prepared(s)[i].id)
    ensures Present(s[i].id) ==> Prepared(s)[i].id == s[i].id
    ensures !Present(s[i].id) ==> Prepared(s)[i].id == Some(Num(i))
  {
  }

  /**
   * After preparation every event has a truthy successor: the authored one,
   * else the id of the following event, else "end" for the last event.
   */
  lemma PreparedNexts(s: seq<Event>, i: nat)
    requires i < |s|
    ensures Present(Prepared(s)[i].next)
    ensures Present(s[i].next) ==> Prepared(s)[i].next == s[i].next
    ensures !Present(s[i].next) && i + 1 < |s| ==> Prepared(s)[i].next == Prepared(s)[i + 1].id
    ensures !Present(s[i].next) && i + 1 == |s| ==> Prepared(s)[i].next == Some(Str("end"))
  {
  }

  /** Preparing a prepared story changes nothing. */
  lemma PreparedIsIdempotent(s: seq<Event>)
    ensures Prepared(Prepared(s)) == Prepared(s)
  {
    var p := Prepared(s);
    forall i | 0 <= i < |s|
      ensures Prepared(p)[i] == p[i]
    {
      PreparedIds(s, i);
      PreparedNexts(s, i);
    }
  }

  /**
   * With loosely distinct ids, the implicit successor of an event is found by
   * the interpreter's lookup at the very next index.
   */
  lemma ImplicitNextIsFollowingEvent(s: seq<Event>, i: nat)
    requires i + 1 < |s| && !Present(s[i].next)
    requires forall j, k | 0 <= j < k < |s| :: !LooseEq(Prepared(s)[j].id.value, Prepared(s)[k].id.value)
    ensures FirstFrom(Prepared(s), 0, ById(Prepared(s)[i].next.value)) == Some(i + 1)
  {
    var p := Prepared(s);
    var x := p[i].next.value;
    assert x == p[i + 1].id.value;
    assert LooseEq(x, x) && Hits(p[i + 1], ById(x));
    forall j | 0 <= j < i + 1
      ensures !Hits(p[j], ById(x))
    {
      assert !LooseEq(p[j].id.value, p[i + 1].id.value);
    }
  }

  /** A key that no number can satisfy: a reply, or a string id that is not numeric. */
  predicate TextKey(key: Key) {
    match key
    case ById(x) => x.Str? && ToNumber(x.s) == None
    case ByIdOrLabel(x) => x.Str? && ToNumber(x.s) == None
    case ByLabel(_) => true
  }

  /**
   * A key that no number can satisfy finds the same events before and after
   * preparation: the ids preparation fills in are numbers, and labels are kept.
   */
  lemma {:induction false} PreparedKeepsTextLookups(s: seq<Event>, from: nat, key: Key)
    requires TextKey(key)
    ensures FirstFrom(Prepared(s), from, key) == FirstFrom(s, from, key)
    decreases |s| - from
  {
    if from < |s| {
      assert Hits(Prepared(s)[from], key) == Hits(s[from], key);
      PreparedKeepsTextLookups(s, from + 1, key);
    }
  }

  /** The authored id is absent or a string that is not numeric. */
  predicate NamedId(e: Event) {
    e.id.None? || (e.id.value.Str? && ToNumber(e.id.value.s) == None)
  }

  /** Every authored id is a name, as in a story whose ids are words. */
  predicate NamedIds(s: seq<Event>) {
    forall j | 0 <= j < |s| :: NamedId(s[j])
  }

  /** No event of `s` is hit by the key. */
  predicate Misses(s: seq<Event>, key: Key) {
    forall j | 0 <= j < |s| :: !Hits(s[j], key)
  }

  /** The scan stops at the first hit: at `i` when nothing from `from` up to it is hit. */
  lemma {:induction false} FoundAt(s: seq<Event>, from: nat, key: Key, i: nat)
    requires from <= i < |s| && Hits(s[i], key)
    requires forall j | from <= j < i :: !Hits(s[j], key)
    ensures FirstFrom(s, from, key) == Some(i)
    decreases i - from
  {
    if from < i {
      FoundAt(s, from + 1, key, i);
    }
  }

  /** The scan from the start finds the first event the key hits, whichever it is. */
  lemma FirstHitIsFound(s: seq<Event>, key: Key)
    ensures forall i | 0 <= i < |s| && Hits(s[i], key) && (forall j | 0 <= j < i :: !Hits(s[j], key)) ::
      FirstFrom(s, 0, key) == Some(i)
  {
    forall i | 0 <= i < |s| && Hits(s[i], key) && (forall j | 0 <= j < i :: !Hits(s[j], key))
      ensures FirstFrom(s, 0, key) == Some(i)
    {
      FoundAt(s, 0, key, i);
    }
  }

  /** The scan finds nothing when nothing from `from` on is hit. */
  lemma {:induction false} FoundNone(s: seq<Event>, from: nat, key: Key)
    requires forall j | from <= j < |s| :: !Hits(s[j], key)
    ensures FirstFrom(s, from, key) == None
    decreases |s| - from
  {
    if from < |s| {
      FoundNone(s, from + 1, key);
    }
  }

  lemma MissesFindNothing(s: seq<Event>, from: nat, key: Key)
    requires Misses(s, key)
    ensures FirstFrom(s, from, key) == None
  {
  }

  /** A scan from the start of `a + b` that `a` cannot satisfy is a scan of `b`. */
  lemma PassOver(a: seq<Event>, b: seq<Event>, key: Key)
    requires Misses(a, key)
    ensures FirstFrom(a + b, 0, key) == Shifted(FirstFrom(b, 0, key), |a|)
  {
    MissesFindNothing(a, 0, key);
    FirstFromAppend(a, b, 0, key);
  }

  // ---------------------------------------------------------------------------
  // A story written as consecutive parts of ten events

  function Concat(ps: seq<seq<Event>>): (r: seq<Event>)
    decreases |ps|
  {
    if ps == [] then [] else ps[0] + Concat(ps[1..])
  }

  /** Every part before part `k` has ten events. */
  predicate Tens(ps: seq<seq<Event>>, k: nat) {
    k <= |ps| && forall i | 0 <= i < k :: |ps[i]| == 10
  }

  /** A scan that starts in part `k` is a scan of the parts from `k` on, shifted by the parts before. */
  lemma {:induction false} SkipParts(ps: seq<seq<Event>>, k: nat, j: nat, key: Key)
    requires Tens(ps, k) && j <= |Concat(ps[k..])|
    ensures |Concat(ps)| == 10 * k + |Concat(ps[k..])|
    ensures FirstFrom(Concat(ps), 10 * k + j, key) == Shifted(FirstFrom(Concat(ps[k..]), j, key), 10 * k)
    ensures j < |Concat(ps[k..])| ==> Concat(ps)[10 * k + j] == Concat(ps[k..])[j]
  {
    ConcatSplit(ps, k);
    var front := Concat(ps[..k]);
    var back := Concat(ps[k..]);
    FirstFromSkip(front, back, j, key);
    if j < |back| {
      assert (front + back)[|front| + j] == back[j];
    }
  }

  /** The parts before `k` hold `10 * k` events, and the story is them followed by the rest. */
  lemma {:induction false} ConcatSplit(ps: seq<seq<Event>>, k: nat)
    requires Tens(ps, k)
    ensures Concat(ps) == Concat(ps[..k]) + Concat(ps[k..])
    ensures |Concat(ps[..k])| == 10 * k
  {
    if k == 0 {
      assert ps[..0] == [] && ps[0..] == ps;
    } else {
      var rest := ps[1..];
      assert Tens(rest, k - 1) by {
        forall i | 0 <= i < k - 1 ensures |rest[i]| == 10 {
          assert rest[i] == ps[i + 1];
        }
      }
      ConcatSplit(rest, k - 1);
      assert ps[..k][1..] == rest[..k - 1] && ps[..k][0] == ps[0];
      assert rest[k - 1..] == ps[k..];
      assert Concat(ps[..k]) == ps[0] + Concat(rest[..k - 1]);
      assert Concat(ps) == ps[0] + Concat(rest);
    }
  }

  /** A scan from the start that the first `k` parts cannot satisfy is a scan of the parts from `k` on. */
  lemma {:induction false} PassParts(ps: seq<seq<Event>>, k: nat, key: Key)
    requires Tens(ps, k) && forall i | 0 <= i < k :: Misses(ps[i], key)
    ensures FirstFrom(Concat(ps), 0, key) == Shifted(FirstFrom(Concat(ps[k..]), 0, key), 10 * k)
    decreases k
  {
    if k == 0 {
      assert ps[0..] == ps;
      if FirstFrom(Concat(ps), 0, key).Some? {
        assert Shifted(FirstFrom(Concat(ps), 0, key), 0) == FirstFrom(Concat(ps), 0, key);
      }
    } else {
      var rest := ps[1..];
      assert rest[k - 1..] == ps[k..];
      assert Misses(ps[0], key);
      PassOver(ps[0], Concat(rest), key);
      forall i | 0 <= i < k - 1
        ensures Misses(rest[i], key)
      {
        assert rest[i] == ps[i + 1];
      }
      PassParts(rest, k - 1, key);
    }
  }

  /** The parts from `k` on are part `k` followed by the parts after it. */
  lemma EnterPart(ps: seq<seq<Event>>, k: nat, j: nat, key: Key)
    requires k < |ps| && j <= |ps[k]|
    ensures Concat(ps[k..]) == ps[k] + Concat(ps[k + 1..])
    ensures FirstFrom(Concat(ps[k..]), j, key)
      == if FirstFrom(ps[k], j, key).Some? then FirstFrom(ps[k], j, key)
         else Shifted(FirstFrom(Concat(ps[k + 1..]), 0, key), |ps[k]|)
  {
    assert ps[k..][1..] == ps[k + 1..];
    FirstFromAppend(ps[k], Concat(ps[k + 1..]), j, key);
  }

  /** The event at index `j` of part `k` is event `10k + j` of the story. */
  lemma EventInPart(ps: seq<seq<Event>>, k: nat, j: nat)
    requires Tens(ps, k) && k < |ps| && j < |ps[k]|
    ensures 10 * k + j < |Concat(ps)| && Concat(ps)[10 * k + j] == ps[k][j]
  {
    EnterPart(ps, k, j, ById(Num(0)));
    SkipParts(ps, k, j, ById(Num(0)));
  }

  /** The story has ten events per part, and the last part's events after them. */
  lemma PartsLength(ps: seq<seq<Event>>)
    requires ps != [] && Tens(ps, |ps| - 1)
    ensures |Concat(ps)| == 10 * (|ps| - 1) + |ps[|ps| - 1]|
  {
    var k := |ps| - 1;
    EnterPart(ps, k, 0, ById(Num(0)));
    SkipParts(ps, k, 0, ById(Num(0)));
    assert ps[k + 1..] == [];
  }

  /** A scan from index `j` of part `k` that finds its hit in part `k`. */
  lemma ScanInPart(ps: seq<seq<Event>>, k: nat, j: nat, key: Key, i: nat)
    requires Tens(ps, k) && k < |ps| && j <= |ps[k]|
    requires FirstFrom(ps[k], j, key) == Some(i)
    ensures FirstFrom(Concat(ps), 10 * k + j, key) == Some(10 * k + i)
  {
    EnterPart(ps, k, j, key);
    var found := FirstFrom(Concat(ps[k..]), j, key);
    assert found == Some(i);
    SkipParts(ps, k, j, key);
    assert FirstFrom(Concat(ps), 10 * k + j, key) == Shifted(found, 10 * k);
  }

  /** A scan from index `j` of part `k` that finds nothing there and its hit in the next part. */
  lemma ScanIntoNextPart(ps: seq<seq<Event>>, k: nat, j: nat, key: Key, i: nat)
    requires Tens(ps, k + 1) && k + 1 < |ps| && j <= |ps[k]|
    requires FirstFrom(ps[k], j, key) == None && FirstFrom(ps[k + 1], 0, key) == Some(i)
    ensures FirstFrom(Concat(ps), 10 * k + j, key) == Some(10 * (k + 1) + i)
  {
    FoundInNextPart(ps, k, j, key, i);
    SkipParts(ps, k, j, key);
    assert 10 * k + (10 + i) == 10 * (k + 1) + i;
  }

  /** From part `k` on, a scan that misses the rest of part `k` finds the next part's hit, shifted by ten. */
  lemma FoundInNextPart(ps: seq<seq<Event>>, k: nat, j: nat, key: Key, i: nat)
    requires Tens(ps, k + 1) && k + 1 < |ps| && j <= |ps[k]|
    requires FirstFrom(ps[k], j, key) == None && FirstFrom(ps[k + 1], 0, key) == Some(i)
    ensures j <= |Concat(ps[k..])| && FirstFrom(Concat(ps[k..]), j, key) == Some(10 + i)
  {
    EnterPart(ps, k, j, key);
    EnterPart(ps, k + 1, 0, key);
    assert FirstFrom(Concat(ps[k + 1..]), 0, key) == Some(i);
  }

  /** A scan from the start that the parts before part `k` cannot satisfy, with its hit in part `k`. */
  lemma ScanFromStart(ps: seq<seq<Event>>, k: nat, key: Key, i: nat)
    requires Tens(ps, k) && k < |ps| && forall m | 0 <= m < k :: Misses(ps[m], key)
    requires FirstFrom(ps[k], 0, key) == Some(i)
    ensures FirstFrom(Concat(ps), 0, key) == Some(10 * k + i)
  {
    PassParts(ps, k, key);
    EnterPart(ps, k, 0, key);
  }

  /** A scan from index `j` of part `k` that no later part can satisfy finds nothing. */
  lemma ScanPastEnd(ps: seq<seq<Event>>, k: nat, j: nat, key: Key)
    requires Tens(ps, k) && k < |ps| && j <= |ps[k]|
    requires forall m | k <= m < |ps| :: Misses(ps[m], key)
    ensures FirstFrom(Concat(ps), 10 * k + j, key) == None
  {
    var rest := ps[k..];
    forall m | 0 <= m < |rest|
      ensures Misses(rest[m], key)
    {
      assert rest[m] == ps[k + m];
    }
    MissesParts(rest, key);
    MissesFindNothing(Concat(rest), j, key);
    EnterPart(ps, k, j, key);
    SkipParts(ps, k, j, key);
  }

  /** A key that misses every part misses the whole story. */
  lemma {:induction false} MissesParts(ps: seq<seq<Event>>, key: Key)
    requires forall i | 0 <= i < |ps| :: Misses(ps[i], key)
    ensures Misses(Concat(ps), key)
    decreases |ps|
  {
    if ps != [] {
      assert Misses(ps[0], key);
      forall i | 0 <= i < |ps| - 1
        ensures Misses(ps[1..][i], key)
      {
        assert ps[1..][i] == ps[i + 1];
      }
      MissesParts(ps[1..], key);
    }
  }

  /** When every part names its ids, so does the whole story. */
  lemma {:induction false} NamedParts(ps: seq<seq<Event>>)
    requires forall i | 0 <= i < |ps| :: NamedIds(ps[i])
    ensures NamedIds(Concat(ps))
    decreases |ps|
  {
    if ps != [] {
      assert NamedIds(ps[0]);
      forall i | 0 <= i < |ps| - 1
        ensures NamedIds(ps[1..][i])
      {
        assert ps[1..][i] == ps[i + 1];
      }
      NamedParts(ps[1..]);
    }
  }

  /**
   * When the authored ids are names, the number preparation gives an unnamed
   * event is found by the interpreter's lookup exactly at that event.
   */
  lemma NumberedLookup(s: seq<Event>, k: nat)
    requires NamedIds(s) && k < |s| && s[k].id.None?
    ensures FirstFrom(Prepared(s), 0, ById(Num(k))) == Some(k)
  {
    var p := Prepared(s);
    assert LooseEq(Num(k), Num(k)) && Hits(p[k], ById(Num(k)));
    forall j | 0 <= j < k
      ensures !Hits(p[j], ById(Num(k)))
    {
      assert NamedId(s[j]);
      if s[j].id.Some? {
        assert ToNumber(s[j].id.value.s) == None;
        assert s[j].id.value.s != "";
      }
    }
  }

  // ---------------------------------------------------------------------------
  // Jumps

  /**
   * Where a `goto` on the event at index `k` lands (Game.js:345-364): the first
   * event at or after `k` whose id or `if` label equals the target, else the
   * first such event of the whole story; `None` when there is none at all.
   */
  function ResolveGoto(story: seq<Event>, k: nat, target: Id): (r: Option<nat>)
    ensures r.Some? ==> r.value < |story| && Hits(story[r.value], ByIdOrLabel(target))
    ensures r.Some? && k <= r.value ==> forall j | k <= j < r.value :: !Hits(story[j], ByIdOrLabel(target))
    ensures r.Some? && r.value < k ==>
      (forall j | k <= j < |story| :: !Hits(story[j], ByIdOrLabel(target)))
      && (forall j | 0 <= j < r.value :: !Hits(story[j], ByIdOrLabel(target)))
    ensures r.None? <==> forall j | 0 <= j < |story| :: !Hits(story[j], ByIdOrLabel(target))
  {
    var forward := FirstFrom(story, k, ByIdOrLabel(target));
    if forward.Some? then forward else FirstFrom(story, 0, ByIdOrLabel(target))
  }

  /**
   * The id `ctx.gotoStoryEvent(target)` stores (Game.js:186-191): the id of the
   * first event whose id or label equals the target, or the target itself when
   * there is no such event or its id is falsy.
   */
  function JumpTarget(story: seq<Event>, target: Id): (r: Id)
    ensures (forall j | 0 <= j < |story| :: !Hits(story[j], ByIdOrLabel(target))) ==> r == target
    ensures forall j | 0 <= j < |story| && Hits(story[j], ByIdOrLabel(target))
      && (forall i | 0 <= i < j :: !Hits(story[i], ByIdOrLabel(target))) :: r == OrElse(story[j].id, target)
  {
    FirstHitIsFound(story, ByIdOrLabel(target));
    match FirstFrom(story, 0, ByIdOrLabel(target))
    case Some(j) => OrElse(story[j].id, target)
    case None => target
  }

  /**
   * In a prepared story, a jump to a target that some event carries stores an
   * id the lookup finds, unless the event hit is an unnamed first event (its
   * id 0 is falsy, so the target itself is stored).
   */
  lemma JumpTargetIsFound(s: seq<Event>, target: Id)
    requires exists j | 0 <= j < |s| :: Hits(Prepared(s)[j], ByIdOrLabel(target))
    requires Present(s[0].id) || !Hits(Prepared(s)[0], ByIdOrLabel(target))
    ensures FirstFrom(Prepared(s), 0, ById(JumpTarget(Prepared(s), target))).Some?
  {
    var p := Prepared(s);
    var j := FirstFrom(p, 0, ByIdOrLabel(target)).value;
    PreparedIds(s, j);
    var x := JumpTarget(p, target);
    assert x == p[j].id.value;
    assert LooseEq(x, x) && Hits(p[j], ById(x));
  }

  /** A jump to 0, as `restart` makes, lands on the first event when it has no id of its own. */
  lemma JumpToZero(s: seq<Event>)
    requires |s| > 0 && !Present(s[0].id)
    ensures JumpTarget(Prepared(s), Num(0)) == Num(0)
    ensures FirstFrom(Prepared(s), 0, ById(OrElse(Some(JumpTarget(Prepared(s), Num(0))), Num(0)))) == Some(0)
  {
    PreparedIds(s, 0);
    assert Hits(Prepared(s)[0], ById(Num(0)));
  }

  /**
   * A jump at index `j` of part `k` to a name the scan finds later in the
   * same part, at index `i`: the prepared story resolves it there.
   */
  lemma GotoInPart(ps: seq<seq<Event>>, k: nat, j: nat, target: string, i: nat)
    requires Tens(ps, k) && k < |ps| && j < |ps[k]| && ToNumber(target) == None
    requires FirstFrom(ps[k], j, ByIdOrLabel(Str(target))) == Some(i)
    ensures 10 * k + j < |Concat(ps)| && Concat(ps)[10 * k + j] == ps[k][j]
    ensures ResolveGoto(Prepared(Concat(ps)), 10 * k + j, Str(target)) == Some(10 * k + i)
  {
    EventInPart(ps, k, j);
    ScanInPart(ps, k, j, ByIdOrLabel(Str(target)), i);
    PreparedKeepsTextLookups(Concat(ps), 10 * k + j, ByIdOrLabel(Str(target)));
  }

  /** A jump at index `j` of part `k` to a name the scan finds at index `i` of the next part. */
  lemma GotoIntoNextPart(ps: seq<seq<Event>>, k: nat, j: nat, target: string, i: nat)
    requires Tens(ps, k + 1) && k + 1 < |ps| && j < |ps[k]| && ToNumber(target) == None
    requires FirstFrom(ps[k], j, ByIdOrLabel(Str(target))) == None
    requires FirstFrom(ps[k + 1], 0, ByIdOrLabel(Str(target))) == Some(i)
    ensures 10 * k + j < |Concat(ps)| && Concat(ps)[10 * k + j] == ps[k][j]
    ensures ResolveGoto(Prepared(Concat(ps)), 10 * k + j, Str(target)) == Some(10 * (k + 1) + i)
  {
    EventInPart(ps, k, j);
    ScanIntoNextPart(ps, k, j, ByIdOrLabel(Str(target)), i);
    PreparedKeepsTextLookups(Concat(ps), 10 * k + j, ByIdOrLabel(Str(target)));
  }

  /**
   * A jump at index `j` of part `k` to a name that no part from `k` on has,
   * and that part `m` is the first to have, at index `i`: the prepared story
   * resolves it backwards, there.
   */
  lemma GotoBack(ps: seq<seq<Event>>, k: nat, j: nat, target: string, m: nat, i: nat)
    requires Tens(ps, k) && k < |ps| && j < |ps[k]| && ToNumber(target) == None && m < k
    requires forall n | k <= n < |ps| :: Misses(ps[n], ByIdOrLabel(Str(target)))
    requires forall n | 0 <= n < m :: Misses(ps[n], ByIdOrLabel(Str(target)))
    requires FirstFrom(ps[m], 0, ByIdOrLabel(Str(target))) == Some(i)
    ensures 10 * k + j < |Concat(ps)| && Concat(ps)[10 * k + j] == ps[k][j]
    ensures FirstFrom(Prepared(Concat(ps)), 10 * k + j, ByIdOrLabel(Str(target))) == None
    ensures ResolveGoto(Prepared(Concat(ps)), 10 * k + j, Str(target)) == Some(10 * m + i)
  {
    EventInPart(ps, k, j);
    ScanPastEnd(ps, k, j, ByIdOrLabel(Str(target)));
    ScanFromStart(ps, m, ByIdOrLabel(Str(target)), i);
    PreparedKeepsTextLookups(Concat(ps), 10 * k + j, ByIdOrLabel(Str(target)));
    PreparedKeepsTextLookups(Concat(ps), 0, ByIdOrLabel(Str(target)));
  }
}
