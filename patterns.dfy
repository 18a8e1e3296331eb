/**
 * The regular expressions the game's commands and input events use. Each one
 * is a case-insensitive literal (`/help/i`), possibly followed by a group that
 * captures the rest of the line (`/debug goto (.*)/i`). `Exec` is `RegExp.exec`
 * for these shapes: the leftmost occurrence of the literal, and the group.
 */
module Patterns {
  import opened JsValues

  datatype Pattern = Pattern(literal: string, capturesRest: bool)

  /** The outcome of a successful `exec`: where the match starts and `match[1]`. */
  datatype Match = Match(at: nat, group: string)

  /** Case folding of the `i` flag, on ASCII letters. */
  function Fold(c: char): char {
    if 'a' <= c <= 'z' then (c as int - 32) as char else c
  }

  /** The literal occurs at index `j` of `text`, ignoring case. */
  predicate OccursAt(text: string, lit: string, j: nat) {
    j + |lit| <= |text| && forall k | 0 <= k < |lit| :: Fold(text[j + k]) == Fold(lit[k])
  }

  /** The leftmost occurrence of `lit` in `text` at or after `from`. */
  function IndexOf(text: string, lit: string, from: nat): (r: Option<nat>)
    ensures r.Some? ==> from <= r.value && OccursAt(text, lit, r.value)
    ensures r.Some? ==> forall j | from <= j < r.value :: !OccursAt(text, lit, j)
    ensures r.None? ==> forall j | from <= j :: !OccursAt(text, lit, j)
    decreases |text| - from
  {
    if from + |lit| > |text| then None
    else if OccursAt(text, lit, from) then Some(from)
    else IndexOf(text, lit, from + 1)
  }

  /** The characters `.` does not match. */
  predicate IsLineTerminator(c: char) {
    c == '\n' || c == '\r' || c == '\U{2028}' || c == '\U{2029}'
  }

  /** What a greedy `(.*)` captures: everything up to the first line terminator. */
  function LineRest(s: string): (r: string)
    ensures |r| <= |s| && r == s[..|r|]
    ensures forall k | 0 <= k < |r| :: !IsLineTerminator(r[k])
    ensures |r| < |s| ==> IsLineTerminator(s[|r|])
  {
    if s == [] || IsLineTerminator(s[0]) then "" else [s[0]] + LineRest(s[1..])
  }

  /** `p.exec(text)`. The group is empty for a pattern without one. */
  function Exec(p: Pattern, text: string): (r: Option<Match>)
    ensures r.Some? <==> exists j :: OccursAt(text, p.literal, j)
    ensures r.Some? ==> OccursAt(text, p.literal, r.value.at)
    ensures r.Some? ==> forall j | 0 <= j < r.value.at :: !OccursAt(text, p.literal, j)
    ensures r.Some? && p.capturesRest ==>
      r.value.group == LineRest(text[r.value.at + |p.literal|..])
  {
    match IndexOf(text, p.literal, 0)
    case None => None
    case Some(at) =>
      Some(Match(at, if p.capturesRest then LineRest(text[at + |p.literal|..]) else ""))
  }

  /** `p.test(text)`: the literal occurs somewhere in the text, ignoring case. */
  predicate Matches(p: Pattern, text: string) {
    Exec(p, text).Some?
  }

  /** A pattern matches any text that contains its literal, in any case. */
  lemma {:induction false} MatchesInside(p: Pattern, before: string, middle: string, after: string)
    requires |middle| == |p.literal|
    requires forall k | 0 <= k < |middle| :: Fold(middle[k]) == Fold(p.literal[k])
    ensures Matches(p, before + middle + after)
  {
    var text := before + middle + after;
    assert forall k | 0 <= k < |middle| :: text[|before| + k] == middle[k];
    assert OccursAt(text, p.literal, |before|);
  }
}
