/** String operations of Python and JavaScript that the backend and frontend
    rely on: `str.strip()`, `str.startswith`, `in`, `str.replace(old, new, 1)`,
    `str.split(sep)[0]`, and the decimal rendering of integers in f-strings and
    `Number.prototype.toString`. Strings are sequences of Unicode scalar values. */
module Text {
  import opened Wrappers

  /** Python's `str.isspace()`: the characters that `str.strip()` removes. */
  predicate IsSpace(c: char) {
    || ('\t' <= c <= '\r')
    || ('\U{1C}' <= c <= ' ')
    || c == '\U{85}' || c == '\U{A0}' || c == '\U{1680}'
    || ('\U{2000}' <= c <= '\U{200A}')
    || c == '\U{2028}' || c == '\U{2029}' || c == '\U{202F}' || c == '\U{205F}' || c == '\U{3000}'
  }

  predicate AllSpace(s: string) {
    forall i :: 0 <= i < |s| ==> IsSpace(s[i])
  }

  /** The number of leading characters of `s` in `space`. */
  function LeadingCount(s: string, space: char -> bool): (n: nat)
    ensures n <= |s|
    ensures forall k :: 0 <= k < n ==> space(s[k])
    ensures n == |s| || !space(s[n])
  {
    if s != [] && space(s[0]) then 1 + LeadingCount(s[1..], space) else 0
  }

  /** The length of `s` without its trailing characters in `space`. */
  function TrailingStart(s: string, space: char -> bool): (n: nat)
    ensures n <= |s|
    ensures forall k :: n <= k < |s| ==> space(s[k])
    ensures n == 0 || !space(s[n - 1])
  {
    if s != [] && space(s[|s| - 1]) then TrailingStart(s[..|s| - 1], space) else |s|
  }

  /** `s` without its leading characters in `space`. */
  function TrimLeft(s: string, space: char -> bool): string {
    s[LeadingCount(s, space)..]
  }

  /** `s` without its trailing characters in `space`. */
  function TrimRight(s: string, space: char -> bool): string {
    s[..TrailingStart(s, space)]
  }

  /** `s.strip()`: both ends trimmed of whitespace. */
  function Strip(s: string): string {
    TrimRight(TrimLeft(s, IsSpace), IsSpace)
  }

  /** What trimming both ends returns: the characters of `s` from the first
      one outside `space` to the last one, and only such characters cut away
      on either side. */
  lemma {:induction false} TrimBothIsInfix(s: string, space: char -> bool)
    ensures var l := TrimLeft(s, space); var r, i := TrimRight(l, space), |s| - |l|;
      && 0 <= i <= |s| - |r|
      && (forall k :: 0 <= k < |r| ==> r[k] == s[i + k])
      && (forall k :: 0 <= k < i ==> space(s[k]))
      && (forall k :: i + |r| <= k < |s| ==> space(s[k]))
      && (r == [] || (!space(r[0]) && !space(r[|r| - 1])))
  {
    var l := TrimLeft(s, space);
    var r := TrimRight(l, space);
    var i := |s| - |l|;
    forall k | i + |r| <= k < |s|
      ensures space(s[k])
    {
      assert s[k] == l[k - i];
    }
    if r != [] {
      assert r[0] == l[0];
    }
  }

  /** What `strip` returns: the characters of `s` from its first to its last
      non-whitespace character, so only whitespace is cut away on either side. */
  lemma {:induction false} StripIsTrimmedInfix(s: string)
    ensures var r, i := Strip(s), |s| - |TrimLeft(s, IsSpace)|;
      && 0 <= i <= |s| - |r|
      && (forall k :: 0 <= k < |r| ==> r[k] == s[i + k])
      && (forall k :: 0 <= k < i ==> IsSpace(s[k]))
      && (forall k :: i + |r| <= k < |s| ==> IsSpace(s[k]))
      && (r == [] || (!IsSpace(r[0]) && !IsSpace(r[|r| - 1])))
  {
    TrimBothIsInfix(s, IsSpace);
  }

  /** Trimming both ends twice is trimming them once. */
  lemma {:induction false} TrimBothIdempotent(s: string, space: char -> bool)
    ensures var r := TrimRight(TrimLeft(s, space), space);
      TrimRight(TrimLeft(r, space), space) == r
  {
    var r := TrimRight(TrimLeft(s, space), space);
    TrimBothIsInfix(s, space);
    assert LeadingCount(r, space) == 0;
    assert TrimLeft(r, space) == r;
    assert TrailingStart(r, space) == |r|;
  }

  /** `strip` is idempotent. */
  lemma {:induction false} StripIdempotent(s: string)
    ensures Strip(Strip(s)) == Strip(s)
  {
    TrimBothIdempotent(s, IsSpace);
  }

  /** Trimming both ends leaves nothing exactly when every character is cut. */
  lemma {:induction false} TrimBothEmptyIffAllCut(s: string, space: char -> bool)
    ensures TrimRight(TrimLeft(s, space), space) == [] <==> forall k :: 0 <= k < |s| ==> space(s[k])
  {
    TrimBothIsInfix(s, space);
    var l := TrimLeft(s, space);
    if l != [] {
      assert l[0] == s[|s| - |l|];
    }
  }

  /** `s.strip()` is empty exactly when `s` is blank (empty or all whitespace). */
  lemma {:induction false} StripEmptyIffBlank(s: string)
    ensures Strip(s) == [] <==> AllSpace(s)
  {
    TrimBothEmptyIffAllCut(s, IsSpace);
  }

  /** `s.startswith(p)`. */
  predicate StartsWith(s: string, p: string) {
    |p| <= |s| && s[..|p|] == p
  }

  predicate OccursAt(s: string, p: string, i: nat) {
    i + |p| <= |s| && s[i..i + |p|] == p
  }

  /** `s.find(p)` as an option: the first position at which `p` occurs in `s`. */
  function IndexOf(s: string, p: string, from: nat := 0): (r: Option<nat>)
    requires from <= |s|
    ensures r.Some? ==> from <= r.value && OccursAt(s, p, r.value)
    ensures forall j :: from <= j && (r.None? || j < r.value) ==> !OccursAt(s, p, j)
    decreases |s| - from
  {
    if OccursAt(s, p, from) then Some(from)
    else if from + |p| >= |s| then None
    else IndexOf(s, p, from + 1)
  }

  /** Python's `p in s` on strings. */
  predicate Contains(s: string, p: string) {
    IndexOf(s, p).Some?
  }

  /** `s.replace(target, replacement, 1)`: the first occurrence of `target` is replaced. */
  function ReplaceFirst(s: string, target: string, replacement: string): (r: string)
    ensures IndexOf(s, target).None? ==> r == s
    ensures IndexOf(s, target).Some? ==>
      var i := IndexOf(s, target).value;
      r == s[..i] + replacement + s[i + |target|..] && forall j :: 0 <= j < i ==> !OccursAt(s, target, j)
  {
    match IndexOf(s, target)
    case None => s
    case Some(i) => s[..i] + replacement + s[i + |target|..]
  }

  /** `s.split(sep)[0]`: everything before the first `sep`, or all of `s`. */
  function BeforeFirst(s: string, sep: char): (r: string)
    ensures StartsWith(s, r) && sep !in r
    ensures |r| < |s| ==> s[|r|] == sep
  {
    if s == [] || s[0] == sep then [] else [s[0]] + BeforeFirst(s[1..], sep)
  }

  /** `sep.join(parts)`. */
  function Join(parts: seq<string>, sep: string): string {
    if parts == [] then []
    else if |parts| == 1 then parts[0]
    else parts[0] + sep + Join(parts[1..], sep)
  }

  function Digit(d: nat): (c: char)
    requires d < 10
    ensures '0' <= c <= '9'
  {
    ('0' as int + d) as char
  }

  /** Decimal rendering of a natural number without leading zeros. */
  function NatToString(n: nat): (r: string)
    ensures 1 <= |r| && forall i :: 0 <= i < |r| ==> '0' <= r[i] <= '9'
    ensures |r| > 1 ==> r[0] != '0'
  {
    if n < 10 then [Digit(n)] else NatToString(n / 10) + [Digit(n % 10)]
  }

  /** `str(n)` in Python and `n.toString()` in JavaScript for an integer. */
  function IntToString(n: int): (r: string)
    ensures 1 <= |r|
  {
    if n < 0 then "-" + NatToString(-n) else NatToString(n)
  }

  lemma {:induction false} NatToStringInjective(a: nat, b: nat)
    requires NatToString(a) == NatToString(b)
    ensures a == b
  {
    var ra, rb := NatToString(a), NatToString(b);
    if 10 <= a && 10 <= b {
      var pa, pb := NatToString(a / 10), NatToString(b / 10);
      assert ra == pa + [Digit(a % 10)] && rb == pb + [Digit(b % 10)];
      assert |pa| == |pb|;
      assert pa == ra[..|ra| - 1] == rb[..|rb| - 1] == pb;
      NatToStringInjective(a / 10, b / 10);
      assert Digit(a % 10) == ra[|ra| - 1] == rb[|rb| - 1] == Digit(b % 10);
    }
  }

  /** Distinct integers render as distinct strings. */
  lemma {:induction false} IntToStringInjective(a: int, b: int)
    requires IntToString(a) == IntToString(b)
    ensures a == b
  {
    var ra, rb := IntToString(a), IntToString(b);
    if a < 0 && b < 0 {
      assert ra[1..] == NatToString(-a);
      assert rb[1..] == NatToString(-b);
      NatToStringInjective(-a, -b);
    } else if 0 <= a && 0 <= b {
      NatToStringInjective(a, b);
    }
  }

  /** Python's `str.lower()` on one character, as far as it can matter when
      the lowered text is compared with a lower-case ASCII word: ASCII capitals
      and the KELVIN SIGN (U+212A) lower to ASCII; every other character lowers
      to something that is not ASCII or is itself unchanged. */
  function FoldChar(c: char): char {
    if 'A' <= c <= 'Z' then (c as int + 32) as char
    else if c == '\U{212A}' then 'k'
    else c
  }

  function Fold(s: string): (r: string)
    ensures |r| == |s| && forall i :: 0 <= i < |s| ==> r[i] == FoldChar(s[i])
  {
    if s == [] then [] else [FoldChar(s[0])] + Fold(s[1..])
  }
}
