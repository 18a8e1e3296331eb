/**
 * The JavaScript values the story interpreter compares and tests: event ids,
 * jump targets and labels, with the loose equality (`==`) and truthiness
 * (`x || y`, `if (x)`) the interpreter relies on.
 */
module JsValues {

  datatype Option<+T> = None | Some(value: T)

  /** An event id or jump target: either a number (an index filled in at startup) or a string. */
  datatype Id = Num(n: int) | Str(s: string)

  /** The white space and line terminators that `Number(s)` strips from both ends of its argument. */
  predicate IsSpace(c: char) {
    c == '\t' || c == '\n' || c == '\U{B}' || c == '\U{C}' || c == '\r' || c == ' ' || c == '\U{A0}'
    || c == '\U{1680}' || ('\U{2000}' <= c <= '\U{200A}') || c == '\U{2028}' || c == '\U{2029}'
    || c == '\U{202F}' || c == '\U{205F}' || c == '\U{3000}' || c == '\U{FEFF}'
  }

  predicate IsDigit(c: char) {
    '0' <= c <= '9'
  }

  /** The value of `c` as a digit of base 2, 8, 10 or 16, or 16 when it is none. */
  function DigitValue(c: char): (r: nat)
    ensures r < 10 <==> IsDigit(c)
    ensures r <= 16
  {
    if IsDigit(c) then c as int - '0' as int
    else if 'a' <= c <= 'f' then c as int - 'a' as int + 10
    else if 'A' <= c <= 'F' then c as int - 'A' as int + 10
    else 16
  }

  predicate AllDigitsIn(s: string, radix: nat) {
    forall i | 0 <= i < |s| :: DigitValue(s[i]) < radix
  }

  predicate AllDigits(s: string) {
    AllDigitsIn(s, 10)
  }

  /** The value of the digits `s` in base `radix`, most significant first. */
  function Value(s: string, radix: nat): nat
    requires AllDigitsIn(s, radix)
  {
    if s == [] then 0
    else
      var init := s[..|s| - 1];
      assert AllDigitsIn(init, radix) by {
        forall i | 0 <= i < |init| ensures DigitValue(init[i]) < radix {
          assert init[i] == s[i];
        }
      }
      var high: nat := Value(init, radix);
      var low: nat := DigitValue(s[|s| - 1]);
      assert radix * high >= 0 by { NatProduct(radix, high); }
      radix * high + low
  }

  /** A product of two naturals is a natural (kept out of `Value`'s own proof, where it is costly). */
  lemma NatProduct(a: nat, b: nat)
    ensures a * b >= 0
  {
  }

  /** The first index at or after `i` that does not hold white space. */
  function SkipSpace(s: string, i: nat): (r: nat)
    requires i <= |s|
    ensures i <= r <= |s|
    ensures forall k | i <= k < r :: IsSpace(s[k])
    ensures r < |s| ==> !IsSpace(s[r])
    decreases |s| - i
  {
    if i < |s| && IsSpace(s[i]) then SkipSpace(s, i + 1) else i
  }

  /** The end of `s[lo..j]` once its trailing white space is dropped. */
  function BackSpace(s: string, lo: nat, j: nat): (r: nat)
    requires lo <= j <= |s|
    ensures lo <= r <= j
    ensures forall k | r <= k < j :: IsSpace(s[k])
    ensures r > lo ==> !IsSpace(s[r - 1])
  {
    if j > lo && IsSpace(s[j - 1]) then BackSpace(s, lo, j - 1) else j
  }

  /** `s` without its leading and trailing white space (`String.prototype.trim`). */
  function Trim(s: string): string {
    var a := SkipSpace(s, 0);
    s[a..BackSpace(s, a, |s|)]
  }

  /** The first index at or after `i` holding one of `stop`, or `|s|`. */
  function Until(s: string, i: nat, stop: set<char>): (r: nat)
    requires i <= |s|
    ensures i <= r <= |s|
    ensures forall k | i <= k < r :: s[k] !in stop
    ensures r < |s| ==> s[r] in stop
    decreases |s| - i
  {
    if i < |s| && s[i] !in stop then Until(s, i + 1, stop) else i
  }

  function Pow10(n: nat): (r: nat)
    ensures r > 0
  {
    if n == 0 then 1 else 10 * Pow10(n - 1)
  }

  /** `m` times ten to the `e`, when that is an integer. */
  function Scaled(m: nat, e: int): Option<int> {
    if e >= 0 then Some(m * Pow10(e))
    else if m % Pow10(-e) == 0 then Some(m / Pow10(-e))
    else None
  }

  function Negated(o: Option<int>): Option<int> {
    if o.Some? then Some(-o.value) else None
  }

  /**
   * A decimal mantissa (`12`, `1.5`, `.5`, `5.`) as the integer of all its
   * digits and the number of digits after the point; it needs one digit.
   */
  function Mantissa(m: string): Option<(nat, nat)> {
    var p := Until(m, 0, {'.'});
    var whole := m[..p];
    var fraction := if p < |m| then m[p + 1..] else "";
    if AllDigits(whole) && AllDigits(fraction) && whole + fraction != "" then
      assert AllDigits(whole + fraction) by {
        forall i | 0 <= i < |whole + fraction| ensures DigitValue((whole + fraction)[i]) < 10 {
          if i >= |whole| {
            assert (whole + fraction)[i] == fraction[i - |whole|];
          }
        }
      }
      Some((Value(whole + fraction, 10), |fraction|))
    else None
  }

  /** The exponent after `e` or `E`: digits with an optional sign. */
  function Exponent(x: string): Option<int> {
    if x != [] && (x[0] == '+' || x[0] == '-') && x[1..] != [] && AllDigits(x[1..]) then
      var v: int := Value(x[1..], 10);
      Some(if x[0] == '-' then -v else v)
    else if x != [] && AllDigits(x) then Some(Value(x, 10))
    else None
  }

  /** An unsigned decimal literal: a mantissa and an optional exponent, when it denotes an integer. */
  function UnsignedDecimal(u: string): Option<int> {
    var e := Until(u, 0, {'e', 'E'});
    var m := Mantissa(u[..e]);
    var x := if e < |u| then Exponent(u[e + 1..]) else Some(0);
    if m.None? || x.None? then None else Scaled(m.value.0, x.value - m.value.1)
  }

  /** The base a `0x`, `0o` or `0b` prefix (in either case) names, or 0 for none. */
  function Radix(t: string): nat {
    if |t| >= 2 && t[0] == '0' then
      if t[1] == 'x' || t[1] == 'X' then 16
      else if t[1] == 'o' || t[1] == 'O' then 8
      else if t[1] == 'b' || t[1] == 'B' then 2
      else 0
    else 0
  }

  /**
   * `Number(s)` for a string operand of `==`, as an integer: white space only
   * gives 0; otherwise the trimmed text is a `0x`/`0o`/`0b` literal, or a decimal
   * literal with an optional sign, a point and an exponent. `None` stands for
   * NaN and for every value that is no integer (a fraction, `Infinity`), since
   * the ids it is compared with are integers.
   */
  function ReadNumber(s: string): Option<int> {
    var t := Trim(s);
    if t == "" then Some(0)
    else if Radix(t) != 0 then
      var digits := t[2..];
      if digits != "" && AllDigitsIn(digits, Radix(t)) then Some(Value(digits, Radix(t))) else None
    else if t[0] == '+' then UnsignedDecimal(t[1..])
    else if t[0] == '-' then Negated(UnsignedDecimal(t[1..]))
    else UnsignedDecimal(t)
  }

  /**
   * No numeric literal starts with `c`: it is neither white space, a digit, a
   * sign nor a point. A text that starts with it is NaN, or Infinity when it is
   * the text `Infinity`; neither equals an integer.
   */
  predicate CannotStartNumber(c: char) {
    !IsSpace(c) && !IsDigit(c) && c != '+' && c != '-' && c != '.'
  }

  /**
   * `Number(s)` as `==` uses it: a text whose first character cannot start a
   * numeric literal reads as none at once (NaN, or Infinity for `Infinity`),
   * and any other is read in full; the two agree (`ToNumberReads`).
   */
  function ToNumber(s: string): Option<int> {
    if s != [] && CannotStartNumber(s[0]) then None else ReadNumber(s)
  }

  /** JavaScript `a == b` on two ids: a number and a string compare as numbers. */
  predicate LooseEq(a: Id, b: Id) {
    match (a, b)
    case (Num(x), Num(y)) => x == y
    case (Str(x), Str(y)) => x == y
    case (Num(x), Str(y)) => ToNumber(y) == Some(x)
    case (Str(x), Num(y)) => ToNumber(x) == Some(y)
  }

  /** JavaScript truthiness of an id: `0` and `""` are falsy. */
  predicate Truthy(a: Id) {
    match a
    case Num(n) => n != 0
    case Str(s) => s != ""
  }

  /** Truthiness of a property that may be absent (`undefined` is falsy). */
  predicate Present(o: Option<Id>) {
    o.Some? && Truthy(o.value)
  }

  /** `x || fallback` for a property that may be absent. */
  function OrElse(o: Option<Id>, fallback: Id): (r: Id)
    ensures Present(o) ==> r == o.value
    ensures !Present(o) ==> r == fallback
  {
    if Present(o) then o.value else fallback
  }

  /**
   * A text that starts with a character no numeric literal starts with reads as
   * none: NaN, or Infinity for the text `Infinity`, which equals no integer.
   */
  lemma NotANumber(s: string)
    requires s != [] && CannotStartNumber(s[0])
    ensures ReadNumber(s) == None
  {
    var t := Trim(s);
    var b := BackSpace(s, 0, |s|);
    assert SkipSpace(s, 0) == 0 && b > 0;
    assert t != [] && t[0] == s[0];
    var e := Until(t, 0, {'e', 'E'});
    if e > 0 {
      var m := t[..e];
      var p := Until(m, 0, {'.'});
      assert p > 0 && m[..p][0] == s[0];
      assert !AllDigits(m[..p]);
    }
  }

  /** A name, a text starting with a character no number starts with, equals no number. */
  lemma NameIsNoNumber(s: string)
    requires s != [] && CannotStartNumber(s[0])
    ensures ToNumber(s) == None
  {
  }

  /** The quick test of `ToNumber` never changes the reading. */
  lemma ToNumberReads(s: string)
    ensures ToNumber(s) == ReadNumber(s)
  {
    if s != [] && CannotStartNumber(s[0]) {
      NotANumber(s);
    }
  }

  /** A run of decimal digits reads as its value. */
  lemma {:induction false} DigitsAreTheirValue(s: string)
    requires s != [] && AllDigits(s)
    ensures ToNumber(s) == Some(Value(s, 10))
  {
    DigitsTrimToThemselves(s);
    assert |s| >= 2 ==> DigitValue(s[1]) < 10;
    assert Radix(s) == 0;
    assert DigitValue(s[0]) < 10;
    assert s[0] != '+' && s[0] != '-';
    MantissaOfDigits(s);
    UntilNone(s, 0, {'e', 'E'});
    assert s[..|s|] == s;
  }

  /** Digits hold no white space, so trimming keeps them. */
  lemma {:induction false} DigitsTrimToThemselves(s: string)
    requires s != [] && AllDigits(s)
    ensures Trim(s) == s
  {
    assert DigitValue(s[0]) < 10 && DigitValue(s[|s| - 1]) < 10;
    assert SkipSpace(s, 0) == 0 && BackSpace(s, 0, |s|) == |s|;
  }

  /** Digits alone are a mantissa with nothing after the point. */
  lemma {:induction false} MantissaOfDigits(s: string)
    requires s != [] && AllDigits(s)
    ensures Mantissa(s) == Some((Value(s, 10), 0))
  {
    UntilNone(s, 0, {'.'});
    assert s[..|s|] == s && s + "" == s;
  }

  /** `Until` finds nothing in a text without any of `stop`. */
  lemma UntilNone(s: string, i: nat, stop: set<char>)
    requires i <= |s| && AllDigits(s) && forall c | c in stop :: DigitValue(c) >= 10
    ensures Until(s, i, stop) == |s|
    decreases |s| - i
  {
    if i < |s| {
      assert DigitValue(s[i]) < 10;
      UntilNone(s, i + 1, stop);
    }
  }

  /** `SkipSpace` passes over a run of white space in front of the text. */
  lemma SkipLeading(a: string, s: string, i: nat)
    requires i <= |a| && forall k | 0 <= k < |a| :: IsSpace(a[k])
    ensures SkipSpace(a + s, i) == |a| + SkipSpace(s, 0)
    decreases |a| - i
  {
    if i < |a| {
      assert (a + s)[i] == a[i];
      SkipLeading(a, s, i + 1);
    } else {
      SkipFrom(a, s, 0);
    }
  }

  /** Past the prefix `a`, `SkipSpace` on `a + s` is `SkipSpace` on `s`, shifted. */
  lemma SkipFrom(a: string, s: string, i: nat)
    requires i <= |s|
    ensures SkipSpace(a + s, |a| + i) == |a| + SkipSpace(s, i)
    decreases |s| - i
  {
    if i < |s| {
      assert (a + s)[|a| + i] == s[i];
      SkipFrom(a, s, i + 1);
    }
  }

  /** `BackSpace` passes over a run of white space behind the text. */
  lemma BackTrailing(t: string, b: string, lo: nat, j: nat)
    requires lo <= |t| <= j <= |t| + |b| && forall k | 0 <= k < |b| :: IsSpace(b[k])
    ensures BackSpace(t + b, lo, j) == BackSpace(t, lo, |t|)
    decreases j
  {
    if j > |t| {
      assert (t + b)[j - 1] == b[j - 1 - |t|];
      BackTrailing(t, b, lo, j - 1);
    } else {
      BackWithin(t, b, lo, j);
    }
  }

  /** Inside `t`, `BackSpace` on `t + b` is `BackSpace` on `t`. */
  lemma BackWithin(t: string, b: string, lo: nat, j: nat)
    requires lo <= j <= |t|
    ensures BackSpace(t + b, lo, j) == BackSpace(t, lo, j)
  {
    if j > lo {
      assert (t + b)[j - 1] == t[j - 1];
      BackWithin(t, b, lo, j - 1);
    }
  }

  /** White space around the text changes nothing: `Number` trims it first. */
  lemma {:induction false} SpaceAroundIsIgnored(a: string, s: string, b: string)
    requires forall k | 0 <= k < |a| :: IsSpace(a[k])
    requires forall k | 0 <= k < |b| :: IsSpace(b[k])
    ensures ToNumber(a + s + b) == ToNumber(s)
  {
    TrimAround(a, s, b);
    assert ReadNumber(a + s + b) == ReadNumber(s);
    ToNumberReads(a + s + b);
    ToNumberReads(s);
  }

  /** Trimming drops white space added on either side. */
  lemma {:induction false} TrimAround(a: string, s: string, b: string)
    requires forall k | 0 <= k < |a| :: IsSpace(a[k])
    requires forall k | 0 <= k < |b| :: IsSpace(b[k])
    ensures Trim(a + s + b) == Trim(s)
  {
    if SkipSpace(s, 0) < |s| {
      TrimAroundText(a, s, b);
    } else {
      TrimAroundSpace(a, s, b);
    }
  }

  /** The case of a text that is not all white space. */
  lemma {:induction false} TrimAroundText(a: string, s: string, b: string)
    requires forall k | 0 <= k < |a| :: IsSpace(a[k])
    requires forall k | 0 <= k < |b| :: IsSpace(b[k])
    requires SkipSpace(s, 0) < |s|
    ensures Trim(a + s + b) == Trim(s)
  {
    SkipAround(a, s, b);
    BackAround(a, s, b, SkipSpace(s, 0));
    assert SkipSpace(a + s + b, 0) == |a| + SkipSpace(s, 0);
    assert BackSpace(a + s + b, |a| + SkipSpace(s, 0), |a + s + b|) == |a| + BackSpace(s, SkipSpace(s, 0), |s|);
    TrimShifted(a, s, b);
  }

  /** When both ends of the text move by `|a|`, trimming gives the same text. */
  lemma {:induction false} TrimShifted(a: string, s: string, b: string)
    requires SkipSpace(a + s + b, 0) == |a| + SkipSpace(s, 0)
    requires BackSpace(a + s + b, |a| + SkipSpace(s, 0), |a + s + b|) == |a| + BackSpace(s, SkipSpace(s, 0), |s|)
    ensures Trim(a + s + b) == Trim(s)
  {
    var i0 := SkipSpace(s, 0);
    SliceInMiddle(a, s, b, i0, BackSpace(s, i0, |s|));
  }

  /** A slice of the middle part of `a + s + b`. */
  lemma {:induction false} SliceInMiddle(a: string, s: string, b: string, i: nat, j: nat)
    requires i <= j <= |s|
    ensures (a + s + b)[|a| + i..|a| + j] == s[i..j]
  {
    var w := a + s + b;
    forall k | i <= k < j ensures w[|a| + k] == s[k] {
      assert w[|a| + k] == (a + s)[|a| + k];
    }
  }

  /** Leading white space moves the start of the text by its length. */
  lemma {:induction false} SkipAround(a: string, s: string, b: string)
    requires forall k | 0 <= k < |a| :: IsSpace(a[k])
    requires SkipSpace(s, 0) < |s|
    ensures SkipSpace(a + s + b, 0) == |a| + SkipSpace(s, 0)
  {
    assert a + s + b == a + (s + b);
    SkipLeading(a, s + b, 0);
    SkipPrefix(s, b, 0);
  }

  /** Trailing white space leaves the end of the text where it was, shifted by the leading part. */
  lemma {:induction false} BackAround(a: string, s: string, b: string, i0: nat)
    requires forall k | 0 <= k < |b| :: IsSpace(b[k])
    requires i0 <= |s|
    ensures BackSpace(a + s + b, |a| + i0, |a + s + b|) == |a| + BackSpace(s, i0, |s|)
  {
    BackTrailing(a + s, b, |a| + i0, |a + s + b|);
    BackShift(a, s, i0, |s|);
  }

  /** The case of a text of white space only. */
  lemma {:induction false} TrimAroundSpace(a: string, s: string, b: string)
    requires forall k | 0 <= k < |a| :: IsSpace(a[k])
    requires forall k | 0 <= k < |b| :: IsSpace(b[k])
    requires SkipSpace(s, 0) == |s|
    ensures Trim(a + s + b) == Trim(s)
  {
    var w := a + s + b;
    forall k | 0 <= k < |w| ensures IsSpace(w[k]) {
      if k < |a| { assert w[k] == a[k]; }
      else if k < |a| + |s| { assert w[k] == s[k - |a|]; }
      else { assert w[k] == b[k - |a| - |s|]; }
    }
    AllSpaceTrims(w);
    AllSpaceTrims(s);
  }

  /** On `s + b`, `SkipSpace` stops where it stops on `s`, or past all of `s`. */
  lemma SkipPrefix(s: string, b: string, i: nat)
    requires i <= |s|
    ensures SkipSpace(s, i) < |s| ==> SkipSpace(s + b, i) == SkipSpace(s, i)
    decreases |s| - i
  {
    if i < |s| {
      assert (s + b)[i] == s[i];
      SkipPrefix(s, b, i + 1);
    }
  }

  /** `BackSpace` on `a + s` over the part holding `s` is `BackSpace` on `s`, shifted. */
  lemma BackShift(a: string, s: string, lo: nat, j: nat)
    requires lo <= j <= |s|
    ensures BackSpace(a + s, |a| + lo, |a| + j) == |a| + BackSpace(s, lo, j)
  {
    if j > lo {
      assert (a + s)[|a| + j - 1] == s[j - 1];
      BackShift(a, s, lo, j - 1);
    }
  }

  /** Text of white space only trims to nothing. */
  lemma AllSpaceTrims(s: string)
    requires forall k | 0 <= k < |s| :: IsSpace(s[k])
    ensures Trim(s) == ""
  {
    assert SkipSpace(s, 0) == |s|;
  }

  /** A text that neither starts nor ends with white space is its own trim. */
  lemma {:induction false} TrimmedAlready(t: string)
    requires t != [] && !IsSpace(t[0]) && !IsSpace(t[|t| - 1])
    ensures Trim(t) == t
  {
    assert SkipSpace(t, 0) == 0 && BackSpace(t, 0, |t|) == |t|;
  }

  /** A minus sign negates what a plus sign gives. */
  lemma {:induction false} MinusNegates(u: string)
    requires u == [] || !IsSpace(u[|u| - 1])
    ensures ToNumber("-" + u) == Negated(ToNumber("+" + u))
  {
    var minus := "-" + u;
    var plus := "+" + u;
    assert minus[|minus| - 1] == (if u == [] then '-' else u[|u| - 1]);
    assert plus[|plus| - 1] == (if u == [] then '+' else u[|u| - 1]);
    TrimmedAlready(minus);
    TrimmedAlready(plus);
    assert minus[1..] == u && plus[1..] == u;
  }

  /** Digits, `e` and digits: the first digits times ten to the power of the second. */
  lemma {:induction false} ExponentScales(d: string, x: string)
    requires d != [] && AllDigits(d) && x != [] && AllDigits(x)
    ensures ToNumber(d + "e" + x) == Some(Value(d, 10) * Pow10(Value(x, 10)))
  {
    var t := d + "e" + x;
    assert t[0] == d[0] && t[|t| - 1] == x[|x| - 1];
    assert DigitValue(t[0]) < 10 && DigitValue(t[|t| - 1]) < 10;
    TrimmedAlready(t);
    assert |t| >= 2 ==> t[1] == (if |d| >= 2 then d[1] else 'e');
    assert Radix(t) == 0;
    UntilFirstExponent(d, x);
    assert t[..|d|] == d && t[|d| + 1..] == x;
    MantissaOfDigits(d);
    assert x[0] != '+' && x[0] != '-';
  }

  /** In digits, `e` and more, the first `e` is the one after the digits. */
  lemma UntilFirstExponent(d: string, x: string)
    requires AllDigits(d)
    ensures Until(d + "e" + x, 0, {'e', 'E'}) == |d|
  {
    var t := d + "e" + x;
    assert t[|d|] == 'e';
  }

  /** A plus sign before digits changes nothing. */
  lemma {:induction false} PlusDigits(d: string)
    requires d != [] && AllDigits(d)
    ensures ToNumber("+" + d) == Some(Value(d, 10))
  {
    var t := "+" + d;
    assert t[|t| - 1] == d[|d| - 1] && DigitValue(d[|d| - 1]) < 10;
    TrimmedAlready(t);
    assert t[1..] == d;
    DigitsAreTheirValue(d);
    DigitsTrimToThemselves(d);
    assert Radix(d) == 0 by {
      assert |d| >= 2 ==> DigitValue(d[1]) < 10;
    }
    assert DigitValue(d[0]) < 10;
  }

  /** `0x`, `0o` or `0b` and digits of that base: their value in that base. */
  lemma {:induction false} RadixDigits(c: char, d: string)
    requires c in {'x', 'X', 'o', 'O', 'b', 'B'}
    requires d != [] && AllDigitsIn(d, Radix(['0', c]))
    ensures ToNumber(['0', c] + d) == Some(Value(d, Radix(['0', c])))
  {
    var t := ['0', c] + d;
    assert t[|t| - 1] == d[|d| - 1] && DigitValue(d[|d| - 1]) < 16;
    assert !IsSpace(d[|d| - 1]);
    TrimmedAlready(t);
    assert t[2..] == d && Radix(t) == Radix(['0', c]);
  }

  /** `Number("1e1")` is 10. */
  lemma ExponentExample()
    ensures ToNumber("1e1") == Some(10)
  {
    assert Value("1", 10) == 1;
    ExponentScales("1", "1");
    assert "1" + "e" + "1" == "1e1";
  }

  /** `Number("+5")` is 5. */
  lemma PlusExample()
    ensures ToNumber("+5") == Some(5)
  {
    assert Value("5", 10) == 5;
    PlusDigits("5");
    assert "+" + "5" == "+5";
  }

  /** `Number("0x5")` is 5. */
  lemma HexExample()
    ensures ToNumber("0x5") == Some(5)
  {
    assert Value("5", 16) == 5;
    RadixDigits('x', "5");
    assert ['0', 'x'] + "5" == "0x5";
  }

  /** `Number("\u3000")`, an ideographic space, is 0. */
  lemma SpaceExample()
    ensures ToNumber("\U{3000}") == Some(0)
  {
    SpaceAroundIsIgnored("\U{3000}", "", "");
    assert "\U{3000}" + "" + "" == "\U{3000}";
  }
}
