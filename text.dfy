/**
 * The JavaScript string operations the lookup form and the proxy route rely on:
 * the `\s` character class, `String.prototype.trim`, `toUpperCase`,
 * `replace(/\s+/g, "")`, the `||` fallback on strings and the decimal
 * rendering of a number inside a template literal.
 */
module Text {
  import opened Wrappers

  // ---------------------------------------------------------------------------
  // Characters
  // ---------------------------------------------------------------------------

  /** The characters matched by JavaScript's `\s` (the same set `trim` removes). */
  predicate IsWhitespace(c: char) {
    c == ' ' || c == '\t' || c == '\n' || c == '\U{B}' || c == '\U{C}' || c == '\r'
    || c == '\U{A0}' || c == '\U{1680}' || ('\U{2000}' <= c <= '\U{200A}')
    || c == '\U{2028}' || c == '\U{2029}' || c == '\U{202F}' || c == '\U{205F}'
    || c == '\U{3000}' || c == '\U{FEFF}'
  }

  predicate IsLower(c: char) {
    'a' <= c <= 'z'
  }

  /** Upper-casing of one character, for the ASCII letters. */
  function ToUpper(c: char): (u: char)
    ensures !IsLower(u)
    ensures IsWhitespace(u) <==> IsWhitespace(c)
    ensures !IsLower(c) ==> u == c
    ensures IsLower(c) ==> 'A' <= u <= 'Z' && u as int - 'A' as int == c as int - 'a' as int
  {
    if IsLower(c) then (c as int - ('a' as int - 'A' as int)) as char else c
  }

  predicate NoWhitespace(s: string) {
    forall i :: 0 <= i < |s| ==> !IsWhitespace(s[i])
  }

  predicate NoLower(s: string) {
    forall i :: 0 <= i < |s| ==> !IsLower(s[i])
  }

  // ---------------------------------------------------------------------------
  // String operations
  // ---------------------------------------------------------------------------

  /** `s.toUpperCase()`: every character upper-cased, length kept. */
  function Upper(s: string): (r: string)
    ensures |r| == |s|
    ensures forall i :: 0 <= i < |s| ==> r[i] == ToUpper(s[i])
    ensures NoLower(r)
  {
    if s == [] then [] else [ToUpper(s[0])] + Upper(s[1..])
  }

  /** Leading white space removed: what is left is a suffix of `s` that does not start with white space. */
  function TrimStart(s: string): (r: string)
    ensures |r| <= |s| && r == s[|s| - |r|..]
    ensures forall i :: 0 <= i < |s| - |r| ==> IsWhitespace(s[i])
    ensures r == [] || !IsWhitespace(r[0])
  {
    if s != [] && IsWhitespace(s[0]) then TrimStart(s[1..]) else s
  }

  /** Trailing white space removed: what is left is a prefix of `s` that does not end with white space. */
  function TrimEnd(s: string): (r: string)
    ensures |r| <= |s| && r == s[..|r|]
    ensures forall i :: |r| <= i < |s| ==> IsWhitespace(s[i])
    ensures r == [] || !IsWhitespace(r[|r| - 1])
  {
    if s != [] && IsWhitespace(s[|s| - 1]) then TrimEnd(s[..|s| - 1]) else s
  }

  /** `s.trim()`. */
  function Trim(s: string): (r: string)
    ensures |r| <= |s|
    ensures r == [] || (!IsWhitespace(r[0]) && !IsWhitespace(r[|r| - 1]))
  {
    TrimEnd(TrimStart(s))
  }

  /** `s.replace(/\s+/g, "")`: every run of white space deleted, the other characters kept in order. */
  function StripWhitespace(s: string): (r: string)
    ensures |r| <= |s|
    ensures NoWhitespace(r)
    ensures NoLower(s) ==> NoLower(r)
  {
    if s == [] then []
    else if IsWhitespace(s[0]) then StripWhitespace(s[1..])
    else [s[0]] + StripWhitespace(s[1..])
  }

  /** `trim` drops only white space, and only at the two ends: the result is the slice of `s` from `k` on. */
  lemma TrimKeepsInterior(s: string) returns (k: nat)
    ensures k + |Trim(s)| <= |s|
    ensures Trim(s) == s[k..k + |Trim(s)|]
    ensures forall i :: 0 <= i < k ==> IsWhitespace(s[i])
    ensures forall i :: k + |Trim(s)| <= i < |s| ==> IsWhitespace(s[i])
  {
    var t := TrimStart(s);
    k := |s| - |t|;
    MiddleSlice(s, t, TrimEnd(t));
  }

  /** A prefix `e` of a suffix `t` of `s` is a slice of `s`, and what lies after it in `s` lies after it in `t`. */
  lemma MiddleSlice(s: string, t: string, e: string)
    requires |t| <= |s| && t == s[|s| - |t|..]
    requires |e| <= |t| && e == t[..|e|]
    requires forall i :: |e| <= i < |t| ==> IsWhitespace(t[i])
    ensures e == s[|s| - |t|..|s| - |t| + |e|]
    ensures forall i :: |s| - |t| + |e| <= i < |s| ==> IsWhitespace(s[i])
  {
    var k := |s| - |t|;
    forall i | k + |e| <= i < |s|
      ensures IsWhitespace(s[i])
    {
      assert s[i] == t[i - k];
    }
  }

  /** `a || b` where `a` is a string that may be absent: the empty string counts as absent. */
  function OrElse(a: Option<string>, b: string): (r: string)
    ensures r == b || Some(r) == a
    ensures a.Some? && a.value != "" ==> r == a.value
    ensures b != "" ==> r != ""
  {
    if a.Some? && a.value != "" then a.value else b
  }

  // ---------------------------------------------------------------------------
  // Lemmas about the string operations
  // ---------------------------------------------------------------------------

  lemma {:induction false} StripConcat(a: string, b: string)
    ensures StripWhitespace(a + b) == StripWhitespace(a) + StripWhitespace(b)
  {
    if a == [] {
      assert a + b == b;
    } else {
      assert (a + b)[1..] == a[1..] + b;
      StripConcat(a[1..], b);
    }
  }

  /** One white-space character anywhere in the string is deleted. */
  lemma StripSkips(a: string, w: char, b: string)
    requires IsWhitespace(w)
    ensures StripWhitespace(a + [w] + b) == StripWhitespace(a + b)
  {
    StripConcat(a + [w], b);
    StripConcat(a, [w]);
    StripConcat(a, b);
    assert StripWhitespace([w]) == [];
  }

  /** Deleting white space from a string without any leaves it as it is. */
  lemma {:induction false} StripNoWhitespace(s: string)
    requires NoWhitespace(s)
    ensures StripWhitespace(s) == s
  {
    if s != [] {
      StripNoWhitespace(s[1..]);
    }
  }

  /** A string of white space only is deleted entirely. */
  lemma {:induction false} StripAllWhitespace(s: string)
    requires forall i :: 0 <= i < |s| ==> IsWhitespace(s[i])
    ensures StripWhitespace(s) == []
  {
    if s != [] {
      StripAllWhitespace(s[1..]);
    }
  }

  /** Trimming first does not change what deleting all white space gives. */
  lemma StripTrim(s: string)
    ensures StripWhitespace(Trim(s)) == StripWhitespace(s)
  {
    StripTrimStart(s);
    StripTrimEnd(TrimStart(s));
  }

  lemma StripTrimStart(s: string)
    ensures StripWhitespace(TrimStart(s)) == StripWhitespace(s)
  {
    var t := TrimStart(s);
    StripWhitespacePrefix(s, |s| - |t|);
  }

  /** Deleting white space ignores a leading run of white space. */
  lemma StripWhitespacePrefix(s: string, k: nat)
    requires k <= |s|
    requires forall i :: 0 <= i < k ==> IsWhitespace(s[i])
    ensures StripWhitespace(s[k..]) == StripWhitespace(s)
  {
    assert s == s[..k] + s[k..];
    StripConcat(s[..k], s[k..]);
    StripAllWhitespace(s[..k]);
  }

  lemma StripTrimEnd(s: string)
    ensures StripWhitespace(TrimEnd(s)) == StripWhitespace(s)
  {
    var e := TrimEnd(s);
    assert s == e + s[|e|..];
    StripConcat(e, s[|e|..]);
    StripAllWhitespace(s[|e|..]);
  }

  /** Upper-casing and deleting white space commute, because upper-casing keeps white space white space. */
  lemma {:induction false} StripUpper(s: string)
    ensures StripWhitespace(Upper(s)) == Upper(StripWhitespace(s))
  {
    if s != [] {
      assert Upper(s)[1..] == Upper(s[1..]);
      StripUpper(s[1..]);
    }
  }

  /** Upper-casing a string without lower-case letters leaves it as it is. */
  lemma UpperNoLower(s: string)
    requires NoLower(s)
    ensures Upper(s) == s
  {
  }

  /** Trimming a string without white space leaves it as it is. */
  lemma TrimNoWhitespace(s: string)
    requires NoWhitespace(s)
    ensures Trim(s) == s
  {
  }

  // ---------------------------------------------------------------------------
  // Decimal rendering of a status code
  // ---------------------------------------------------------------------------

  predicate IsDigit(c: char) {
    '0' <= c <= '9'
  }

  function DigitChar(d: nat): (c: char)
    requires d < 10
    ensures IsDigit(c) && c as int - '0' as int == d
  {
    (d + '0' as int) as char
  }

  /** The decimal numeral of `n`, as `${n}` renders a non-negative integer. */
  function Decimal(n: nat): (s: string)
    ensures |s| >= 1
    ensures forall i :: 0 <= i < |s| ==> IsDigit(s[i])
    ensures s[0] == '0' ==> n == 0
  {
    if n < 10 then [DigitChar(n)] else Decimal(n / 10) + [DigitChar(n % 10)]
  }

  /** The value of a numeral: the partner of `Decimal`. */
  function DecimalValue(s: string): nat
    requires forall i :: 0 <= i < |s| ==> IsDigit(s[i])
  {
    if s == [] then 0
    else
      assert IsDigit(s[|s| - 1]);
      10 * DecimalValue(s[..|s| - 1]) + (s[|s| - 1] as int - '0' as int)
  }

  /** Rendering a status code loses nothing: reading the numeral back gives the code. */
  lemma {:induction false} DecimalRoundTrip(n: nat)
    ensures DecimalValue(Decimal(n)) == n
  {
    if n >= 10 {
      var s := Decimal(n);
      assert s[..|s| - 1] == Decimal(n / 10);
      DecimalRoundTrip(n / 10);
    }
  }
}
