/** String operations of the Java and JavaScript standard libraries that the
    modelled code relies on, over `seq<char>`, and Java's 32-bit `int`. */
module Text {
  import opened Wrappers

  /** `Character.isWhitespace`: the characters `String.isBlank` skips (the
      Unicode space separators except the three no-break spaces, and the
      ASCII controls U+0009-U+000D and U+001C-U+001F). */
  predicate IsJavaWhitespace(c: char)
  {
    ('\t' <= c <= '\r') || ('\U{1C}' <= c <= ' ') || c == '\U{1680}'
    || ('\U{2000}' <= c <= '\U{2006}') || ('\U{2008}' <= c <= '\U{200A}')
    || c == '\U{2028}' || c == '\U{2029}' || c == '\U{205F}' || c == '\U{3000}'
  }

  /** `String.isBlank`: empty or only whitespace. */
  predicate IsBlank(s: string)
  {
    forall i :: 0 <= i < |s| ==> IsJavaWhitespace(s[i])
  }

  /** `s == null || s.isBlank()`. */
  predicate NullOrBlank(s: Option<string>)
  {
    s.None? || IsBlank(s.value)
  }

  /** The characters JavaScript's `String.prototype.trim` removes
      (WhiteSpace and LineTerminator of ECMAScript). */
  predicate IsJsWhitespace(c: char)
  {
    ('\t' <= c <= '\r') || c == ' ' || c == '\U{A0}' || c == '\U{1680}'
    || ('\U{2000}' <= c <= '\U{200A}') || c == '\U{2028}' || c == '\U{2029}'
    || c == '\U{202F}' || c == '\U{205F}' || c == '\U{3000}' || c == '\U{FEFF}'
  }

  /** Drops JavaScript whitespace from the front. */
  function TrimStart(s: string): (r: string)
    ensures |r| <= |s| && r == s[|s| - |r|..]
    ensures r == [] || !IsJsWhitespace(r[0])
    ensures forall i :: 0 <= i < |s| - |r| ==> IsJsWhitespace(s[i])
  {
    if s == [] || !IsJsWhitespace(s[0]) then s else TrimStart(s[1..])
  }

  /** Drops JavaScript whitespace from the back. */
  function TrimEnd(s: string): (r: string)
    ensures |r| <= |s| && r == s[..|r|]
    ensures r == [] || !IsJsWhitespace(r[|r| - 1])
    ensures forall i :: |r| <= i < |s| ==> IsJsWhitespace(s[i])
  {
    if s == [] || !IsJsWhitespace(s[|s| - 1]) then s else TrimEnd(s[..|s| - 1])
  }

  /** `String.prototype.trim`. */
  function Trim(s: string): string
  {
    TrimEnd(TrimStart(s))
  }

  /** A string trims to '' exactly when every character is whitespace. */
  lemma {:induction false} TrimEmptyIffAllWhitespace(s: string)
    ensures Trim(s) == [] <==> forall i :: 0 <= i < |s| ==> IsJsWhitespace(s[i])
  {
    var t := TrimStart(s);
    if Trim(s) == [] {
      forall i | 0 <= i < |s| ensures IsJsWhitespace(s[i]) {
        if i >= |s| - |t| {
          assert s[i] == t[i - (|s| - |t|)];
        }
      }
    } else {
      var r := Trim(s);
      assert !IsJsWhitespace(r[0]);
      assert r[0] == t[0] == s[|s| - |t|];
    }
  }

  predicate StartsWith(s: string, prefix: string)
  {
    |prefix| <= |s| && s[..|prefix|] == prefix
  }

  predicate EndsWith(s: string, suffix: string)
  {
    |suffix| <= |s| && s[|s| - |suffix|..] == suffix
  }

  /** `indexOf(pattern, from)`: the first position at or after `from` where
      `pattern` starts, or -1. */
  function IndexOfFrom(s: string, pattern: string, from: nat): (r: int)
    requires from <= |s|
    ensures r == -1 || from <= r <= |s| - |pattern|
    ensures r >= 0 ==> StartsWith(s[r..], pattern)
    ensures forall k :: from <= k <= |s| && (r == -1 || k < r) ==> !StartsWith(s[k..], pattern)
    decreases |s| - from
  {
    if StartsWith(s[from..], pattern) then from
    else if from == |s| then -1
    else IndexOfFrom(s, pattern, from + 1)
  }

  /** `indexOf(pattern)`: the first occurrence of `pattern`, or -1. */
  function IndexOf(s: string, pattern: string): (r: int)
    ensures r == -1 || 0 <= r <= |s| - |pattern|
    ensures r >= 0 ==> StartsWith(s[r..], pattern)
    ensures forall k :: 0 <= k <= |s| && (r == -1 || k < r) ==> !StartsWith(s[k..], pattern)
  {
    IndexOfFrom(s, pattern, 0)
  }

  /** `lastIndexOf(c)`: the last position of `c`, or -1. */
  function LastIndexOfChar(s: string, c: char): (r: int)
    ensures -1 <= r < |s|
    ensures r >= 0 ==> s[r] == c
    ensures forall k :: r < k < |s| ==> s[k] != c
  {
    if s == [] then -1
    else if s[|s| - 1] == c then |s| - 1
    else LastIndexOfChar(s[..|s| - 1], c)
  }

  /** `split(separator)` for a non-empty separator. */
  function Split(s: string, separator: string): (parts: seq<string>)
    requires separator != []
    ensures |parts| >= 1
    ensures forall i :: 0 <= i < |parts| ==> IndexOf(parts[i], separator) == -1
    decreases |s|
  {
    var k := IndexOf(s, separator);
    if k == -1 then [s]
    else
      SplitHead(s, separator, k);
      [s[..k]] + Split(s[k + |separator|..], separator)
  }

  lemma SplitHead(s: string, separator: string, k: int)
    requires separator != [] && k == IndexOf(s, separator) && k >= 0
    ensures IndexOf(s[..k], separator) == -1
  {
    var h := s[..k];
    forall j | 0 <= j <= |h| ensures !StartsWith(h[j..], separator) {
      if j < k {
        assert !StartsWith(s[j..], separator);
      }
    }
  }

  /** `c` does not occur in `s`. */
  predicate Lacks(s: string, c: char)
  {
    forall i :: 0 <= i < |s| ==> s[i] != c
  }

  lemma LacksConcat(a: string, b: string, c: char)
    ensures Lacks(a + b, c) <==> Lacks(a, c) && Lacks(b, c)
  {
    if Lacks(a, c) && Lacks(b, c) {
      forall i | |a| <= i < |a + b| ensures (a + b)[i] != c {
        assert (a + b)[i] == b[i - |a|];
      }
    }
    if Lacks(a + b, c) {
      forall i | 0 <= i < |a| ensures a[i] != c {
        assert (a + b)[i] == a[i];
      }
      forall i | 0 <= i < |b| ensures b[i] != c {
        assert (a + b)[|a| + i] == b[i];
      }
    }
  }

  /** A pattern whose first character a prefix does not contain, placed right
      after that prefix, is found there. */
  lemma IndexOfAfterPrefix(a: string, pattern: string, b: string)
    requires pattern != []
    requires Lacks(a, pattern[0])
    ensures IndexOf(a + pattern + b, pattern) == |a|
  {
    var s := a + pattern + b;
    assert s[|a|..] == pattern + b;
    forall k | 0 <= k < |a| ensures !StartsWith(s[k..], pattern) {
      assert s[k..][0] == a[k];
    }
  }

  /** A string without the first character of a pattern does not contain it. */
  lemma IndexOfAbsent(s: string, pattern: string)
    requires pattern != []
    requires Lacks(s, pattern[0])
    ensures IndexOf(s, pattern) == -1
  {
    forall k | 0 <= k <= |s| ensures !StartsWith(s[k..], pattern) {
      if k < |s| {
        assert s[k..][0] == s[k];
      }
    }
  }

  /** A string that starts with `p + [c]` contains `c`. */
  lemma ContainsAfterPrefix(s: string, p: string, c: char)
    requires StartsWith(s, p + [c])
    ensures IndexOf(s, [c]) >= 0
  {
    assert s[..|p| + 1][|p|] == (p + [c])[|p|];
    assert StartsWith(s[|p|..], [c]);
  }

  /** Splitting at that separator peels the prefix off. */
  lemma SplitAfterPrefix(a: string, separator: string, b: string)
    requires separator != []
    requires Lacks(a, separator[0])
    ensures Split(a + separator + b, separator) == [a] + Split(b, separator)
  {
    var s := a + separator + b;
    IndexOfAfterPrefix(a, separator, b);
    assert s[..|a|] == a && s[|a| + |separator|..] == b;
  }

  /** A string without the separator's first character is one part. */
  lemma SplitAbsent(s: string, separator: string)
    requires separator != []
    requires Lacks(s, separator[0])
    ensures Split(s, separator) == [s]
  {
    IndexOfAbsent(s, separator);
  }

  /** The first part of a split ends at the first separator. */
  lemma SplitFirst(s: string, separator: string)
    requires separator != []
    ensures var k := IndexOf(s, separator);
      Split(s, separator)[0] == if k == -1 then s else s[..k]
  {
  }

  /** A string holding the separator splits into at least two parts. */
  lemma SplitHasSecond(s: string, separator: string)
    requires separator != [] && IndexOf(s, separator) >= 0
    ensures |Split(s, separator)| >= 2
  {
  }

  /** `join(separator)`. */
  function Join(parts: seq<string>, separator: string): string
  {
    if |parts| <= 1 then (if parts == [] then [] else parts[0])
    else parts[0] + separator + Join(parts[1..], separator)
  }

  lemma JoinCons(head: string, tail: seq<string>, separator: string)
    requires |tail| >= 1
    ensures Join([head] + tail, separator) == head + separator + Join(tail, separator)
  {
    assert ([head] + tail)[1..] == tail;
  }

  lemma SpliceAt(s: string, pattern: string, k: nat)
    requires k <= |s| && StartsWith(s[k..], pattern)
    ensures s == s[..k] + pattern + s[k + |pattern|..]
  {
    assert s[k..][..|pattern|] == s[k..k + |pattern|];
  }

  /** Splitting and joining again gives back the string. */
  lemma {:induction false} JoinSplit(s: string, separator: string)
    requires separator != []
    ensures Join(Split(s, separator), separator) == s
    decreases |s|
  {
    var k := IndexOf(s, separator);
    if k != -1 {
      var rest := s[k + |separator|..];
      var tail := Split(rest, separator);
      assert Split(s, separator) == [s[..k]] + tail;
      JoinCons(s[..k], tail, separator);
      JoinSplit(rest, separator);
      SpliceAt(s, separator, k);
    }
  }

  /** `String.prototype.replace(pattern, replacement)` with a string pattern:
      only the first occurrence is replaced. */
  function ReplaceFirst(s: string, pattern: string, replacement: string): string
  {
    var k := IndexOf(s, pattern);
    if k == -1 then s else s[..k] + replacement + s[k + |pattern|..]
  }

  /** The replacement is spliced in at the first occurrence; without one the
      string is unchanged. */
  lemma ReplaceFirstSplice(s: string, pattern: string, replacement: string)
    ensures var r := ReplaceFirst(s, pattern, replacement);
      var k := IndexOf(s, pattern);
      (k == -1 ==> r == s)
      && (k >= 0 ==>
        |r| == |s| - |pattern| + |replacement| && r[..k] == s[..k]
        && r[k..k + |replacement|] == replacement && r[k + |replacement|..] == s[k + |pattern|..])
  {
  }

  /** The first occurrence, right after a prefix without its first character,
      is the one replaced. */
  lemma ReplaceAfterPrefix(a: string, pattern: string, b: string, replacement: string)
    requires pattern != [] && Lacks(a, pattern[0])
    ensures ReplaceFirst(a + pattern + b, pattern, replacement) == a + replacement + b
  {
    var s := a + pattern + b;
    IndexOfAfterPrefix(a, pattern, b);
    assert s[..|a|] == a && s[|a| + |pattern|..] == b;
  }

  /** A string without the pattern's first character is left as it is. */
  lemma ReplaceAbsent(s: string, pattern: string, replacement: string)
    requires pattern != [] && Lacks(s, pattern[0])
    ensures ReplaceFirst(s, pattern, replacement) == s
  {
    IndexOfAbsent(s, pattern);
  }

  function DigitChar(d: nat): (c: char)
    requires d < 10
    ensures '0' <= c <= '9'
  {
    (('0' as int) + d) as char
  }

  function DigitValue(c: char): (d: nat)
    requires '0' <= c <= '9'
    ensures d < 10 && DigitChar(d) == c
  {
    (c as int) - ('0' as int)
  }

  predicate IsDigits(s: string)
  {
    forall i :: 0 <= i < |s| ==> '0' <= s[i] <= '9'
  }

  /** The decimal digits of `n`, without leading zeros (`String.valueOf`). */
  function NatToString(n: nat): (s: string)
    ensures |s| >= 1 && IsDigits(s)
    ensures |s| > 1 ==> s[0] != '0'
  {
    if n < 10 then [DigitChar(n)] else NatToString(n / 10) + [DigitChar(n % 10)]
  }

  /** `String.valueOf(int)` / `Integer.toString`. */
  function IntToString(i: int): (s: string)
    ensures i < 0 <==> (|s| > 0 && s[0] == '-')
  {
    if i < 0 then "-" + NatToString(-i) else NatToString(i)
  }

  /** Reads back a run of decimal digits. */
  function ParseDigits(s: string): nat
    requires IsDigits(s)
  {
    if s == [] then 0 else 10 * ParseDigits(s[..|s| - 1]) + DigitValue(s[|s| - 1])
  }

  lemma {:induction false} ParseNatToString(n: nat)
    ensures ParseDigits(NatToString(n)) == n
  {
    var s := NatToString(n);
    if n >= 10 {
      assert s[..|s| - 1] == NatToString(n / 10);
      assert s[|s| - 1] == DigitChar(n % 10);
      ParseNatToString(n / 10);
    }
  }

  /** `String(n).padStart(2, '0')`. */
  function Pad2(n: nat): (s: string)
    ensures |s| >= 2 && IsDigits(s)
  {
    var d := NatToString(n);
    if |d| < 2 then "0" + d else d
  }

  /** Java's `int` arithmetic: the low 32 bits, as a signed value (also
      `Number.intValue()` on a wider value). */
  function IntValue(x: int): (r: int)
    ensures -0x8000_0000 <= r < 0x8000_0000
    ensures -0x8000_0000 <= x < 0x8000_0000 ==> r == x
  {
    (x + 0x8000_0000) % 0x1_0000_0000 - 0x8000_0000
  }
}
