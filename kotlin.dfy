/** The few pieces of Kotlin's standard library that the controller relies on:
    nullable values, `firstOrNull`, `isBlank`, `startsWith`, `endsWith`,
    `contains`, `orEmpty`, string templates of nullable values and
    `Long.toString`. */
module Kotlin {

  /** A Kotlin nullable value `T?`. */
  datatype Option<+T> = None | Some(value: T) {
    /** The elvis operator `this ?: default`. */
    function GetOr(default: T): (v: T) {
      match this
      case Some(v) => v
      case None => default
    }
  }

  /** `s.orEmpty()` and `s ?: ""`. */
  function OrEmpty(s: Option<string>): (r: string)
    ensures s.Some? ==> r == s.value
    ensures s.None? ==> r == ""
  {
    s.GetOr("")
  }

  /** The text a string template such as "${x}" produces for a nullable string. */
  function Templated(s: Option<string>): (r: string)
    ensures s.Some? ==> r == s.value
    ensures s.None? ==> r == "null"
  {
    s.GetOr("null")
  }

  /** `Char.isWhitespace()` on the JVM: `Character.isWhitespace` or
      `Character.isSpaceChar`, spelled out as the set of code points it accepts. */
  predicate IsWhitespace(c: char) {
    || c == '\t' || c == '\n' || c == '\U{000B}' || c == '\U{000C}' || c == '\r'
    || ('\U{001C}' <= c <= '\U{001F}')
    || c == ' ' || c == '\U{00A0}' || c == '\U{1680}'
    || ('\U{2000}' <= c <= '\U{200A}')
    || c == '\U{2028}' || c == '\U{2029}' || c == '\U{202F}' || c == '\U{205F}' || c == '\U{3000}'
  }

  /** `s.isBlank()`: every character is whitespace, so the empty string is blank. */
  predicate Blank(s: string) {
    forall i :: 0 <= i < |s| ==> IsWhitespace(s[i])
  }

  /** Which characters count: the ASCII controls tab to carriage return, the no-break
      and ideographic spaces do; the zero-width space, the next-line control and
      letters do not. */
  lemma JvmWhitespace()
    ensures IsWhitespace(' ') && IsWhitespace('\t') && IsWhitespace('\r')
    ensures IsWhitespace('\U{00A0}') && IsWhitespace('\U{3000}')
    ensures !IsWhitespace('\U{200B}') && !IsWhitespace('\U{0085}') && !IsWhitespace('a')
  {
  }

  /** A concatenation is blank exactly when both parts are. */
  lemma BlankConcat(s: string, t: string)
    ensures Blank(s + t) <==> Blank(s) && Blank(t)
  {
    if Blank(s + t) {
      forall i | 0 <= i < |s| ensures IsWhitespace(s[i]) {
        assert (s + t)[i] == s[i];
      }
      forall i | 0 <= i < |t| ensures IsWhitespace(t[i]) {
        assert (s + t)[|s| + i] == t[i];
      }
    }
  }

  /** `s.isNullOrBlank()`. */
  predicate IsNullOrBlank(s: Option<string>) {
    s.None? || Blank(s.value)
  }

  /** `s.startsWith(p)`. */
  predicate StartsWith(s: string, p: string) {
    |p| <= |s| && s[..|p|] == p
  }

  /** `s.endsWith(p)`. */
  predicate EndsWith(s: string, p: string) {
    |p| <= |s| && s[|s| - |p|..] == p
  }

  /** `s.contains(p)`, computed by trying every start position in turn. */
  predicate Contains(s: string, p: string)
    decreases |s|
  {
    StartsWith(s, p) || (|s| > 0 && Contains(s[1..], p))
  }

  /** Each test finds its pattern where it was put: at the start, at the end, and
      anywhere in between. */
  lemma AffixesFound(p: string, u: string, v: string)
    ensures StartsWith(p + v, p)
    ensures EndsWith(u + p, p)
    ensures Contains(u + p + v, p)
  {
    assert (p + v)[..|p|] == p;
    assert (u + p)[|u + p| - |p|..] == p;
    ContainsIffOccurs(u + p + v, p);
    assert (u + p + v)[|u|..|u| + |p|] == p;
    assert OccursAt(u + p + v, p, |u|);
  }

  /** `p` occurs in `s` starting at position `i`. */
  ghost predicate OccursAt(s: string, p: string, i: int) {
    0 <= i && i + |p| <= |s| && s[i..i + |p|] == p
  }

  /** Dropping the first character moves every occurrence one place to the left. */
  lemma OccursShift(s: string, p: string, i: nat)
    requires |s| > 0
    ensures OccursAt(s[1..], p, i) <==> OccursAt(s, p, i + 1)
  {
    if i + 1 + |p| <= |s| {
      assert s[1..][i..i + |p|] == s[i + 1..i + 1 + |p|];
    }
  }

  /** `Contains` finds `p` exactly when `p` occurs somewhere in `s`. */
  lemma {:induction false} ContainsIffOccurs(s: string, p: string)
    ensures Contains(s, p) <==> exists i :: OccursAt(s, p, i)
    decreases |s|
  {
    if StartsWith(s, p) {
      assert OccursAt(s, p, 0);
    } else if |s| == 0 {
      assert forall i :: !OccursAt(s, p, i);
    } else {
      ContainsIffOccurs(s[1..], p);
      if Contains(s[1..], p) {
        var i :| OccursAt(s[1..], p, i);
        OccursShift(s, p, i);
      } else {
        forall i | OccursAt(s, p, i) ensures false {
          if i > 0 {
            OccursShift(s, p, i - 1);
          }
        }
      }
    }
  }

  /** The place of the first element satisfying `p`; `list.firstOrNull(p)` is the
      element at that place, or null when there is none. */
  function FirstIndex<T>(s: seq<T>, p: T -> bool): (r: Option<nat>)
    ensures r.Some? ==> r.value < |s| && p(s[r.value])
    ensures r.Some? ==> forall k :: 0 <= k < r.value ==> !p(s[k])
    ensures r.None? <==> forall k :: 0 <= k < |s| ==> !p(s[k])
  {
    if |s| == 0 then None
    else if p(s[0]) then Some(0)
    else match FirstIndex(s[1..], p)
         case None => None
         case Some(i) => Some(i + 1)
  }

  /** `i` is the first place in `s` where `p` holds. */
  ghost predicate IsFirst<T>(s: seq<T>, p: T -> bool, i: int) {
    0 <= i < |s| && p(s[i]) && forall k :: 0 <= k < i ==> !p(s[k])
  }

  /** The first place is the only place that satisfies `IsFirst`, and it is the one
      `FirstIndex` finds. */
  lemma FirstIndexUnique<T>(s: seq<T>, p: T -> bool, i: int)
    requires FirstIndex(s, p) == Some(i)
    ensures forall k :: IsFirst(s, p, k) <==> k == i
  {
  }

  /** The decimal digit for `d`. */
  function DigitChar(d: int): (c: char)
    requires 0 <= d < 10
    ensures '0' <= c <= '9'
  {
    ['0', '1', '2', '3', '4', '5', '6', '7', '8', '9'][d]
  }

  /** The value of a decimal digit. */
  function DigitValue(c: char): (d: nat)
    ensures '0' <= c <= '9' ==> d < 10 && DigitChar(d) == c
  {
    if '0' <= c <= '9' then (c as int) - ('0' as int) else 0
  }

  predicate IsDigit(c: char) {
    '0' <= c <= '9'
  }

  /** The shortest decimal numeral of `n`. */
  function NatToString(n: nat): (s: string)
    ensures |s| > 0 && forall i :: 0 <= i < |s| ==> IsDigit(s[i])
    ensures |s| > 1 ==> s[0] != '0'
  {
    if n < 10 then [DigitChar(n)] else NatToString(n / 10) + [DigitChar(n % 10)]
  }

  /** The value of a numeral (digits only). */
  function ParseNat(s: string): (n: nat) {
    if |s| == 0 then 0 else ParseNat(s[..|s| - 1]) * 10 + DigitValue(s[|s| - 1])
  }

  /** `Long.toString()`: a minus sign before the digits of a negative number.
      The Long width is not modelled: no arithmetic is done on these values. */
  function LongToString(n: int): (s: string)
    ensures |s| > 0
    ensures (s[0] == '-') <==> n < 0
  {
    if n < 0 then "-" + NatToString(-n) else NatToString(n)
  }

  /** Reading back a `Long.toString()` numeral. */
  function ParseLong(s: string): (n: int) {
    if |s| > 0 && s[0] == '-' then 0 - ParseNat(s[1..]) as int else ParseNat(s)
  }

  /** `NatToString` and `ParseNat` are inverse. */
  lemma {:induction false} ParseNatToString(n: nat)
    ensures ParseNat(NatToString(n)) == n
  {
    var s := NatToString(n);
    if n >= 10 {
      ParseNatToString(n / 10);
      assert s[..|s| - 1] == NatToString(n / 10);
    }
  }

  /** `Long.toString()` is reversible, so distinct numbers give distinct text. */
  lemma LongToStringRoundTrip(n: int)
    ensures ParseLong(LongToString(n)) == n
  {
    if n < 0 {
      ParseNatToString(-n);
      assert LongToString(n)[1..] == NatToString(-n);
    } else {
      ParseNatToString(n);
    }
  }

  /** `Option<Long>.toString()`: "null" when absent. */
  function OptionLongToString(n: Option<int>): (s: string)
    ensures n.None? ==> s == "null"
    ensures n.Some? ==> ParseLong(s) == n.value
  {
    match n
    case None => "null"
    case Some(v) => LongToStringRoundTrip(v); LongToString(v)
  }
}
