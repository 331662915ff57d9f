/**
 * Shared vocabulary: Option and Result, bytes, and the handful of Python
 * `str` operations the core relies on (`strip`, `split()`, `splitlines`,
 * `lower`, `startswith`, decimal formatting of integers).
 */
module Common {

  datatype Option<+T> = None | Some(value: T)

  datatype Result<+T, +E> = Ok(value: T) | Err(error: E)

  newtype byte = x: int | 0 <= x < 256

  type Bytes = seq<byte>

  // ---------------------------------------------------------------------
  // Characters

  /** Python's `str.isspace` on the characters it accepts (ASCII and Unicode spaces). */
  predicate IsSpace(c: char)
  {
    c == ' ' || c == '\t' || c == '\n' || c == '\r' || c == '\U{000B}' || c == '\U{000C}'
    || c == '\U{001C}' || c == '\U{001D}' || c == '\U{001E}' || c == '\U{001F}'
    || c == '\U{0085}' || c == '\U{00A0}' || c == '\U{1680}'
    || ('\U{2000}' <= c <= '\U{200A}')
    || c == '\U{2028}' || c == '\U{2029}' || c == '\U{202F}' || c == '\U{205F}' || c == '\U{3000}'
  }

  /** The line boundaries of Python's `str.splitlines` ("\r\n" is handled in BreakLine). */
  predicate IsLineBoundary(c: char)
  {
    c == '\n' || c == '\r' || c == '\U{000B}' || c == '\U{000C}'
    || c == '\U{001C}' || c == '\U{001D}' || c == '\U{001E}'
    || c == '\U{0085}' || c == '\U{2028}' || c == '\U{2029}'
  }

  lemma LineBoundaryIsSpace(c: char)
    ensures IsLineBoundary(c) ==> IsSpace(c)
  {
  }

  predicate IsDigit(c: char)
  {
    '0' <= c <= '9'
  }

  /** ASCII lower-casing, the part of `str.lower` the compared literals depend on. */
  function LowerChar(c: char): char
  {
    if 'A' <= c <= 'Z' then (c as int + 32) as char else c
  }

  function Lower(s: string): (r: string)
    ensures |r| == |s|
    ensures forall i :: 0 <= i < |s| ==> r[i] == LowerChar(s[i])
  {
    if s == [] then [] else [LowerChar(s[0])] + Lower(s[1..])
  }

  /** No element occurs twice. */
  predicate Distinct<T(==)>(s: seq<T>)
  {
    forall i, j :: 0 <= i < j < |s| ==> s[i] != s[j]
  }

  predicate StartsWith(s: string, prefix: string)
  {
    |prefix| <= |s| && s[..|prefix|] == prefix
  }

  // ---------------------------------------------------------------------
  // strip()

  function LStrip(s: string): (r: string)
    ensures |r| <= |s| && r == s[|s| - |r|..]
    ensures r != [] ==> !IsSpace(r[0])
    ensures forall i :: 0 <= i < |s| - |r| ==> IsSpace(s[i])
  {
    if s != [] && IsSpace(s[0]) then LStrip(s[1..]) else s
  }

  function RStrip(s: string): (r: string)
    ensures |r| <= |s| && r == s[..|r|]
    ensures r != [] ==> !IsSpace(r[|r| - 1])
    ensures forall i :: |r| <= i < |s| ==> IsSpace(s[i])
  {
    if s != [] && IsSpace(s[|s| - 1]) then RStrip(s[..|s| - 1]) else s
  }

  /** `str.strip()` with no argument. */
  function Strip(s: string): string
  {
    RStrip(LStrip(s))
  }

  /** `s.strip()` is empty exactly when every character of `s` is whitespace. */
  lemma StripEmptyIffBlank(s: string)
    ensures Strip(s) == [] <==> forall i :: 0 <= i < |s| ==> IsSpace(s[i])
  {
  }

  /** A stripped string neither starts nor ends with whitespace. */
  lemma StripTrims(s: string)
    ensures Strip(s) != [] ==> !IsSpace(Strip(s)[0]) && !IsSpace(Strip(s)[|Strip(s)| - 1])
  {
    var l := LStrip(s);
    var r := RStrip(l);
    if r != [] {
      assert r == l[..|r|];
      assert r[0] == l[0];
    }
  }

  // ---------------------------------------------------------------------
  // split() with no argument: maximal runs of non-whitespace

  /** Index of the first whitespace character of `s`, or |s|. */
  function WordEnd(s: string): (n: nat)
    ensures n <= |s|
    ensures forall i :: 0 <= i < n ==> !IsSpace(s[i])
    ensures n < |s| ==> IsSpace(s[n])
  {
    if s == [] || IsSpace(s[0]) then 0 else 1 + WordEnd(s[1..])
  }

  /** A non-empty run of non-whitespace characters. */
  predicate Word(w: string)
  {
    w != [] && forall i :: 0 <= i < |w| ==> !IsSpace(w[i])
  }

  /** `str.split()` with no argument: the words of `s`, in order. */
  function SplitWhitespace(s: string): (parts: seq<string>)
    ensures forall k :: 0 <= k < |parts| ==> Word(parts[k])
    decreases |s|
  {
    if s == [] then []
    else if IsSpace(s[0]) then SplitWhitespace(s[1..])
    else
      var n := WordEnd(s);
      WordAtStart(s);
      [s[..n]] + SplitWhitespace(s[n..])
  }

  /** A string that starts with a non-whitespace character starts with a word ending at `WordEnd`. */
  lemma WordAtStart(t: string)
    requires t != [] && !IsSpace(t[0])
    ensures 0 < WordEnd(t) && Word(t[..WordEnd(t)])
  {
    var n := WordEnd(t);
    forall i | 0 <= i < n
      ensures !IsSpace(t[..n][i])
    {
      assert t[..n][i] == t[i];
    }
  }

  // ---------------------------------------------------------------------
  // splitlines()

  /** The first line of `s` and what follows its boundary ("\r\n" counts as one). */
  function BreakLine(s: string): (r: (string, string))
    requires s != []
    ensures |r.1| < |s|
    ensures forall i :: 0 <= i < |r.0| ==> !IsLineBoundary(r.0[i])
    ensures StartsWith(s, r.0)
  {
    if IsLineBoundary(s[0]) then
      if s[0] == '\r' && |s| >= 2 && s[1] == '\n' then ([], s[2..]) else ([], s[1..])
    else if |s| == 1 then
      (s, [])
    else
      var (line, rest) := BreakLine(s[1..]);
      ([s[0]] + line, rest)
  }

  /** `str.splitlines()`: a final boundary does not open an empty last line. */
  function SplitLines(s: string): (lines: seq<string>)
    ensures forall k, i :: 0 <= k < |lines| && 0 <= i < |lines[k]| ==> !IsLineBoundary(lines[k][i])
    decreases |s|
  {
    if s == [] then []
    else
      var (line, rest) := BreakLine(s);
      [line] + SplitLines(rest)
  }

  // ---------------------------------------------------------------------
  // Decimal formatting, as `str(n)` / f"{n}" print an int

  function DigitChar(d: nat): char
    requires d < 10
  {
    ('0' as int + d) as char
  }

  function NatToString(n: nat): (s: string)
    ensures s != []
    ensures forall i :: 0 <= i < |s| ==> IsDigit(s[i])
  {
    if n < 10 then [DigitChar(n)] else NatToString(n / 10) + [DigitChar(n % 10)]
  }

  function IntToString(i: int): (s: string)
    ensures s != []
  {
    if i < 0 then "-" + NatToString(-i) else NatToString(i)
  }
}
