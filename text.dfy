/**
 * String helpers shared by the model: decimal digits and numbers, splitting
 * and joining on a one-character delimiter (JavaScript `split`/template
 * concatenation), the first pieces of a split on a multi-character separator,
 * and whitespace trimming as JavaScript's `Number()` does it.
 */
module Text {
  import opened Wrappers

  // ---------------------------------------------------------------------------
  // Digits and decimal numbers

  predicate IsDigit(c: char) {
    '0' <= c <= '9'
  }

  predicate AllDigits(s: string) {
    forall i :: 0 <= i < |s| ==> IsDigit(s[i])
  }

  function DigitChar(d: nat): (c: char)
    requires d < 10
    ensures IsDigit(c)
  {
    ('0' as int + d) as char
  }

  /** The value of a string of decimal digits (leading zeros allowed). */
  function DecimalValue(s: string): nat
    requires AllDigits(s)
  {
    if s == [] then 0 else 10 * DecimalValue(s[..|s| - 1]) + (s[|s| - 1] as int - '0' as int)
  }

  /** The decimal rendering of a natural number, as `${n}` in a template literal. */
  function NatToString(n: nat): (s: string)
    ensures |s| > 0 && AllDigits(s)
  {
    if n < 10 then [DigitChar(n)] else NatToString(n / 10) + [DigitChar(n % 10)]
  }

  /** The decimal rendering of an integer, with a leading `-` when negative. */
  function IntToString(i: int): (s: string)
    ensures |s| > 0
  {
    if i < 0 then "-" + NatToString(-i) else NatToString(i)
  }

  /** Reads an optionally signed decimal integer; `None` for anything else. */
  function ParseInt(s: string): (r: Option<int>)
    ensures r.Some? ==> |s| > 0
  {
    if |s| > 1 && s[0] == '-' && AllDigits(s[1..]) then Some(-(DecimalValue(s[1..]) as int))
    else if |s| > 0 && AllDigits(s) then Some(DecimalValue(s))
    else None
  }

  lemma {:induction false} DecimalValueOfNatToString(n: nat)
    ensures DecimalValue(NatToString(n)) == n
  {
    var s := NatToString(n);
    if n >= 10 {
      assert s[..|s| - 1] == NatToString(n / 10);
      DecimalValueOfNatToString(n / 10);
    }
  }

  /** Rendering an integer and reading it back gives the integer. */
  lemma ParseIntOfIntToString(i: int)
    ensures ParseInt(IntToString(i)) == Some(i)
  {
    if i < 0 {
      var s := IntToString(i);
      assert s[1..] == NatToString(-i);
      DecimalValueOfNatToString(-i);
    } else {
      DecimalValueOfNatToString(i);
    }
  }

  /** A boolean in a template literal: `true` or `false`. */
  function BoolToString(b: bool): (r: string)
    ensures r == "true" || r == "false"
    ensures r == "true" <==> b
  {
    if b then "true" else "false"
  }

  // ---------------------------------------------------------------------------
  // Split and join on one delimiter character

  /** `s.split(sep)` for a one-character separator: the pieces between the separators. */
  function Split(s: string, sep: char): (parts: seq<string>)
    ensures |parts| >= 1
    ensures sep in s ==> |parts| >= 2
    ensures sep !in s ==> parts == [s]
    ensures forall k :: 0 <= k < |parts| ==> sep !in parts[k]
  {
    if s == [] then [""]
    else
      var rest := Split(s[1..], sep);
      if s[0] == sep then [""] + rest
      else
        assert sep !in s ==> [s[0]] + s[1..] == s;
        [[s[0]] + rest[0]] + rest[1..]
  }

  /** The pieces joined back with the separator between them. */
  function Join(parts: seq<string>, sep: char): string
    requires |parts| >= 1
  {
    if |parts| == 1 then parts[0] else parts[0] + [sep] + Join(parts[1..], sep)
  }

  predicate NoneContains(parts: seq<string>, sep: char) {
    forall k :: 0 <= k < |parts| ==> sep !in parts[k]
  }

  lemma {:induction false} SplitPrefix(a: string, b: string, sep: char)
    requires sep !in a
    ensures Split(a + [sep] + b, sep) == [a] + Split(b, sep)
  {
    if a == [] {
      assert a + [sep] + b == [sep] + b;
      assert ([sep] + b)[1..] == b;
    } else {
      assert (a + [sep] + b)[1..] == a[1..] + [sep] + b;
      SplitPrefix(a[1..], b, sep);
      assert [a[0]] + a[1..] == a;
    }
  }

  /** Joining pieces free of the separator and splitting again recovers the pieces. */
  lemma {:induction false} SplitJoin(parts: seq<string>, sep: char)
    requires |parts| >= 1
    requires NoneContains(parts, sep)
    ensures Split(Join(parts, sep), sep) == parts
  {
    if |parts| > 1 {
      SplitJoin(parts[1..], sep);
      SplitPrefix(parts[0], Join(parts[1..], sep), sep);
    }
  }

  /** Splitting and joining again gives back the string. */
  lemma {:induction false} JoinSplit(s: string, sep: char)
    ensures Join(Split(s, sep), sep) == s
  {
    if s != [] {
      JoinSplit(s[1..], sep);
      var rest := Split(s[1..], sep);
      if s[0] != sep {
        var parts := Split(s, sep);
        assert parts[1..] == rest[1..];
        if |rest| > 1 {
          assert Join(rest, sep) == rest[0] + [sep] + Join(rest[1..], sep);
        }
      }
    }
  }

  // ---------------------------------------------------------------------------
  // Occurrences of a multi-character pattern

  predicate OccursAt(s: string, pat: string, i: int) {
    0 <= i && i + |pat| <= |s| && s[i..i + |pat|] == pat
  }

  /** The index of the leftmost occurrence of `pat` in `s` at or after `from`. */
  function IndexFrom(s: string, pat: string, from: nat): (r: Option<nat>)
    ensures r.Some? ==> from <= r.value && OccursAt(s, pat, r.value)
    decreases |s| - from
  {
    if from + |pat| > |s| then None
    else if s[from..from + |pat|] == pat then Some(from)
    else IndexFrom(s, pat, from + 1)
  }

  /** `s.indexOf(pat)`, `None` for -1. */
  function IndexOf(s: string, pat: string): (r: Option<nat>)
    ensures r.Some? ==> OccursAt(s, pat, r.value)
  {
    IndexFrom(s, pat, 0)
  }

  lemma {:induction false} IndexFromLeftmost(s: string, pat: string, from: nat)
    ensures var r := IndexFrom(s, pat, from);
      && (r.Some? ==> forall j :: from <= j < r.value ==> !OccursAt(s, pat, j))
      && (r.None? ==> forall j :: from <= j ==> !OccursAt(s, pat, j))
    decreases |s| - from
  {
    if from + |pat| <= |s| && s[from..from + |pat|] != pat {
      IndexFromLeftmost(s, pat, from + 1);
    }
  }

  /** `indexOf` finds the leftmost occurrence, and finds one whenever there is one. */
  lemma IndexOfLeftmost(s: string, pat: string)
    ensures IndexOf(s, pat).Some? ==> forall j :: 0 <= j < IndexOf(s, pat).value ==> !OccursAt(s, pat, j)
    ensures IndexOf(s, pat).None? ==> forall j :: !OccursAt(s, pat, j)
  {
    IndexFromLeftmost(s, pat, 0);
  }

  /** `s.split(pat)[0]` for a non-empty separator: the text before its first occurrence. */
  function SplitHead(s: string, pat: string): string {
    match IndexOf(s, pat)
    case None => s
    case Some(i) => s[..i]
  }

  /**
   * `s.split(pat)[1]` for a non-empty separator: the text between the first
   * and the second occurrence (or the end); `None` (JavaScript `undefined`)
   * when `pat` does not occur.
   */
  function SplitSecond(s: string, pat: string): Option<string> {
    match IndexOf(s, pat)
    case None => None
    case Some(i) => Some(SplitHead(s[i + |pat|..], pat))
  }

  /** `${v}` for a value that may be `undefined`. */
  function OrUndefined(v: Option<string>): string {
    match v
    case Some(s) => s
    case None => "undefined"
  }

  // ---------------------------------------------------------------------------
  // Character replacement and whitespace

  /** `s.replace(/<from>/g, to)` for a one-character pattern. */
  function ReplaceAll(s: string, from: char, to: char): (r: string)
    ensures |r| == |s|
    ensures forall i :: 0 <= i < |s| ==> r[i] == (if s[i] == from then to else s[i])
  {
    if s == [] then [] else [if s[0] == from then to else s[0]] + ReplaceAll(s[1..], from, to)
  }

  /** The whitespace and line terminators JavaScript's `Number()` trims (ASCII ones). */
  predicate IsSpace(c: char) {
    c == ' ' || c == '\t' || c == '\n' || c == '\r' || c == '\U{B}' || c == '\U{C}'
  }

  predicate AllSpace(s: string) {
    forall i :: 0 <= i < |s| ==> IsSpace(s[i])
  }

  function TrimStart(s: string): (r: string)
    ensures |r| <= |s|
    ensures r == s[|s| - |r|..]
    ensures r == [] || !IsSpace(r[0])
    ensures AllSpace(s[..|s| - |r|])
  {
    if s != [] && IsSpace(s[0]) then TrimStart(s[1..]) else s
  }

  function TrimEnd(s: string): (r: string)
    ensures |r| <= |s|
    ensures r == s[..|r|]
    ensures r == [] || !IsSpace(r[|r| - 1])
    ensures AllSpace(s[|r|..])
  {
    if s != [] && IsSpace(s[|s| - 1]) then TrimEnd(s[..|s| - 1]) else s
  }

  function Trim(s: string): string {
    TrimEnd(TrimStart(s))
  }

  lemma {:induction false} TrimEndSpaces(a: string, ws: string)
    requires a == [] || !IsSpace(a[|a| - 1])
    requires AllSpace(ws)
    ensures TrimEnd(a + ws) == a
  {
    if ws != [] {
      assert (a + ws)[..|a + ws| - 1] == a + ws[..|ws| - 1];
      TrimEndSpaces(a, ws[..|ws| - 1]);
    } else {
      assert a + ws == a;
    }
  }

  /** Trailing whitespace after a string of digits is trimmed away. */
  lemma TrimDigitsThenSpaces(d: string, ws: string)
    requires |d| > 0 && AllDigits(d)
    requires AllSpace(ws)
    ensures Trim(d + ws) == d
  {
    assert TrimStart(d + ws) == d + ws;
    TrimEndSpaces(d, ws);
  }
}
