/**
 * The few pieces of Python's runtime that the pipeline code leans on:
 * optional values and exceptions, `str.split`, `str.join`, `str.splitlines`,
 * `int(s)`, `str(n)`, and the index/slice normalisation of lists.
 */
module Python {

  datatype Option<+T> = None | Some(value: T)

  /** The exceptions that can escape the modelled code paths. */
  datatype Error =
    | KeyError(key: string)
    | IndexError
    | ValueError(message: string)
    | AttributeError(name: string)
    | HttpError
    | ClientError(operation: string)   // an AWS client call that failed

  /** A value, or the exception raised while computing it. */
  datatype Result<+T> = Ok(value: T) | Err(error: Error)

  // ---------------------------------------------------------------------
  // Decimal integers: str(n) and int(s)
  // ---------------------------------------------------------------------

  predicate IsDigit(c: char) { '0' <= c <= '9' }

  predicate AllDigits(s: string) { forall i | 0 <= i < |s| :: IsDigit(s[i]) }

  /**
   * Whitespace below U+0080 that `int()` tolerates around a literal: space, tab,
   * the line and form feeds, carriage return, and the separators U+001C to U+001F.
   */
  predicate IsSpace(c: char) {
    c == ' ' || c == '\t' || c == '\n' || c == '\r' || c == '\U{B}' || c == '\U{C}'
    || ('\U{1C}' <= c <= '\U{1F}')
  }

  function DigitChar(d: nat): (c: char)
    requires d < 10
    ensures IsDigit(c)
  {
    ('0' as int + d) as char
  }

  function DigitValue(c: char): nat
    requires IsDigit(c)
  {
    c as int - '0' as int
  }

  /** The value of a string of decimal digits, most significant first. */
  function DigitsValue(s: string): nat
    requires AllDigits(s)
    decreases |s|
  {
    if s == [] then 0 else DigitsValue(s[..|s| - 1]) * 10 + DigitValue(s[|s| - 1])
  }

  /** `str(n)` for a non-negative integer: shortest decimal form. */
  function NatToString(n: nat): (r: string)
    ensures |r| > 0 && AllDigits(r)
    ensures r[0] == '0' ==> n == 0
    decreases n
  {
    if n < 10 then [DigitChar(n)] else NatToString(n / 10) + [DigitChar(n % 10)]
  }

  /** `str(i)` for any integer. */
  function IntToString(i: int): (r: string)
    ensures |r| > 0 && !IsSpace(r[0]) && !IsSpace(r[|r| - 1])
    ensures i < 0 <==> r[0] == '-'
  {
    if i < 0 then "-" + NatToString(-i) else NatToString(i)
  }

  function StripLeft(s: string): (r: string)
    decreases |s|
  {
    if s != [] && IsSpace(s[0]) then StripLeft(s[1..]) else s
  }

  function StripRight(s: string): (r: string)
    decreases |s|
  {
    if s != [] && IsSpace(s[|s| - 1]) then StripRight(s[..|s| - 1]) else s
  }

  /**
   * `int(s)` in base 10: optional surrounding whitespace, an optional sign,
   * then at least one decimal digit. None stands for the ValueError.
   */
  function ParseInt(s: string): Option<int> {
    var t := StripRight(StripLeft(s));
    if t != [] && (t[0] == '-' || t[0] == '+') then
      var d := t[1..];
      if d != [] && AllDigits(d) then Some(if t[0] == '-' then 0 - DigitsValue(d) as int else DigitsValue(d))
      else None
    else if t != [] && AllDigits(t) then Some(DigitsValue(t))
    else None
  }

  lemma {:induction false} DigitsValueOfNatToString(n: nat)
    ensures DigitsValue(NatToString(n)) == n
    decreases n
  {
    if n >= 10 {
      var s := NatToString(n / 10);
      var t := s + [DigitChar(n % 10)];
      assert t[..|t| - 1] == s;
      DigitsValueOfNatToString(n / 10);
    }
  }

  /** Reading back what `str()` wrote gives the same integer: `int(str(i)) == i`. */
  lemma {:induction false} ParseIntRoundTrip(i: int)
    ensures ParseInt(IntToString(i)) == Some(i)
  {
    var r := IntToString(i);
    assert StripLeft(r) == r;
    assert StripRight(r) == r;
    if i < 0 {
      assert r[1..] == NatToString(-i);
      DigitsValueOfNatToString(-i);
    } else {
      DigitsValueOfNatToString(i);
    }
  }

  // ---------------------------------------------------------------------
  // str.split(sep) and sep.join(parts) for a one-character separator
  // ---------------------------------------------------------------------

  /** `s.split(sep)`: the pieces between separators, always at least one. */
  function Split(s: string, sep: char): (r: seq<string>)
    ensures |r| >= 1
    decreases |s|
  {
    if s == [] then [""]
    else
      var rest := Split(s[1..], sep);
      if s[0] == sep then [""] + rest else [[s[0]] + rest[0]] + rest[1..]
  }

  /** `sep.join(parts)`. */
  function Join(parts: seq<string>, sep: char): string
    decreases |parts|
  {
    if parts == [] then ""
    else if |parts| == 1 then parts[0]
    else parts[0] + [sep] + Join(parts[1..], sep)
  }

  /** The last field of a split line (`*_, name = s.split(sep)`). */
  function LastField(s: string, sep: char): string {
    var fields := Split(s, sep);
    fields[|fields| - 1]
  }

  lemma {:induction false} SplitNoSeparator(p: string, sep: char)
    requires sep !in p
    ensures Split(p, sep) == [p]
    decreases |p|
  {
    if p != [] {
      SplitNoSeparator(p[1..], sep);
      assert [p[0]] + p[1..] == p;
    }
  }

  lemma {:induction false} SplitAfterPiece(p: string, sep: char, rest: string)
    requires sep !in p
    ensures Split(p + [sep] + rest, sep) == [p] + Split(rest, sep)
    decreases |p|
  {
    var s := p + [sep] + rest;
    if p == [] {
      assert s[1..] == rest;
    } else {
      assert s[1..] == p[1..] + [sep] + rest;
      SplitAfterPiece(p[1..], sep, rest);
      assert [p[0]] + p[1..] == p;
    }
  }

  /** Splitting a joined list gives the list back when no piece contains the separator. */
  lemma {:induction false} SplitJoin(parts: seq<string>, sep: char)
    requires |parts| >= 1
    requires forall k | 0 <= k < |parts| :: sep !in parts[k]
    ensures Split(Join(parts, sep), sep) == parts
    decreases |parts|
  {
    if |parts| == 1 {
      SplitNoSeparator(parts[0], sep);
    } else {
      SplitJoin(parts[1..], sep);
      SplitAfterPiece(parts[0], sep, Join(parts[1..], sep));
      assert [parts[0]] + parts[1..] == parts;
    }
  }

  /** Joining the pieces of a split gives the original string back. */
  lemma {:induction false} JoinSplit(s: string, sep: char)
    ensures Join(Split(s, sep), sep) == s
    decreases |s|
  {
    if s != [] {
      var rest := Split(s[1..], sep);
      JoinSplit(s[1..], sep);
      if s[0] == sep {
        assert ([""] + rest)[1..] == rest;
        assert Join([""] + rest, sep) == "" + [sep] + Join(rest, sep);
        assert s == [s[0]] + s[1..];
      } else {
        var r := [[s[0]] + rest[0]] + rest[1..];
        assert r[1..] == rest[1..];
        if |rest| == 1 {
          assert Join(r, sep) == [s[0]] + rest[0];
        } else {
          assert Join(rest, sep) == rest[0] + [sep] + Join(rest[1..], sep);
          assert Join(r, sep) == [s[0]] + rest[0] + [sep] + Join(rest[1..], sep);
        }
        assert s == [s[0]] + s[1..];
      }
    }
  }

  /** A character that occurs in no piece and is not the separator does not occur in the joined string. */
  lemma {:induction false} JoinAvoids(parts: seq<string>, sep: char, c: char)
    requires c != sep
    requires forall k | 0 <= k < |parts| :: c !in parts[k]
    ensures c !in Join(parts, sep)
    decreases |parts|
  {
    if |parts| > 1 {
      JoinAvoids(parts[1..], sep, c);
    }
  }

  // ---------------------------------------------------------------------
  // str.splitlines()
  // ---------------------------------------------------------------------

  /** The characters `str.splitlines` treats as line boundaries. */
  predicate IsLineBoundary(c: char) {
    c == '\n' || c == '\r' || c == '\U{B}' || c == '\U{C}' || c == '\U{1C}' || c == '\U{1D}'
    || c == '\U{1E}' || c == '\U{85}' || c == '\U{2028}' || c == '\U{2029}'
  }

  /** Index of the first line boundary in `s`, or `|s|` when there is none. */
  function LineEnd(s: string): (i: nat)
    ensures i <= |s|
    ensures i < |s| ==> IsLineBoundary(s[i])
    ensures forall k | 0 <= k < i :: !IsLineBoundary(s[k])
    decreases |s|
  {
    if s == [] || IsLineBoundary(s[0]) then 0 else 1 + LineEnd(s[1..])
  }

  /**
   * `s.splitlines()`: lines without their terminators; `\r\n` ends one line;
   * a final terminator does not start an empty last line.
   */
  function SplitLines(s: string): (r: seq<string>)
    ensures forall k | 0 <= k < |r| :: forall j | 0 <= j < |r[k]| :: !IsLineBoundary(r[k][j])
    decreases |s|
  {
    if s == [] then []
    else
      var i := LineEnd(s);
      if i == |s| then [s]
      else
        var width := if s[i] == '\r' && i + 1 < |s| && s[i + 1] == '\n' then 2 else 1;
        [s[..i]] + SplitLines(s[i + width..])
  }

  /** A line holds no line boundary. */
  predicate NoBoundary(l: string) {
    forall j | 0 <= j < |l| :: !IsLineBoundary(l[j])
  }

  /** The text of lines each followed by `\n`. */
  function TerminatedLines(ls: seq<string>): string
    decreases |ls|
  {
    if ls == [] then "" else ls[0] + "\n" + TerminatedLines(ls[1..])
  }

  /** A line without boundaries ends at the boundary that follows it. */
  lemma {:induction false} LineEndAt(l: string, c: char, rest: string)
    requires NoBoundary(l) && IsLineBoundary(c)
    ensures LineEnd(l + [c] + rest) == |l|
    decreases |l|
  {
    if l != [] {
      LineEndAt(l[1..], c, rest);
      assert (l + [c] + rest)[1..] == l[1..] + [c] + rest;
    }
  }

  /** A line followed by `\n` is split off whole, and the rest of the text is split on its own. */
  lemma SplitLinesStep(l: string, rest: string)
    requires NoBoundary(l)
    ensures SplitLines(l + "\n" + rest) == [l] + SplitLines(rest)
  {
    var s := l + "\n" + rest;
    LineEndAt(l, '\n', rest);
    assert s[..|l|] == l;
    assert s[|l| + 1..] == rest;
  }

  /**
   * `splitlines` gives back the lines of a text: every `\n`-terminated line, and
   * an unterminated last line when there is one. A final `\n` does not add an
   * empty line.
   */
  lemma {:induction false} SplitLinesOfText(ls: seq<string>, last: string)
    requires forall k | 0 <= k < |ls| :: NoBoundary(ls[k])
    requires NoBoundary(last)
    ensures SplitLines(TerminatedLines(ls) + last) == ls + (if last == [] then [] else [last])
    decreases |ls|
  {
    var extra: seq<string> := if last == [] then [] else [last];
    if ls == [] {
      assert TerminatedLines(ls) + last == last;
    } else {
      var rest := TerminatedLines(ls[1..]) + last;
      assert TerminatedLines(ls) + last == ls[0] + "\n" + rest;
      SplitLinesStep(ls[0], rest);
      SplitLinesOfText(ls[1..], last);
      assert SplitLines(rest) == ls[1..] + extra;
      assert [ls[0]] + (ls[1..] + extra) == ls + extra;
    }
  }

  // ---------------------------------------------------------------------
  // List indexing and slicing
  // ---------------------------------------------------------------------

  /** The element `xs[i]` refers to in a list of length `n` (negative counts from the end). */
  function ListIndex(i: int, n: nat): (r: Option<nat>)
    ensures r.Some? ==> r.value < n
    ensures r.Some? <==> 0 - n as int <= i < n
    ensures r.Some? && 0 <= i ==> r.value == i
  {
    var j := if i < 0 then i + n else i;
    if 0 <= j < n then Some(j) else None
  }

  /** A slice bound, clamped as Python clamps it. */
  function SliceBound(b: int, n: nat): (r: nat)
    ensures r <= n
  {
    if b < 0 then (if b + n < 0 then 0 else b + n) else if b > n then n else b
  }

  /** `xs[lo:hi]`. */
  function Slice<T>(xs: seq<T>, lo: int, hi: int): (r: seq<T>)
    ensures 0 <= lo <= hi <= |xs| ==> r == xs[lo..hi]
    ensures |r| <= |xs|
  {
    var a := SliceBound(lo, |xs|);
    var b := SliceBound(hi, |xs|);
    if a < b then xs[a..b] else []
  }
}
