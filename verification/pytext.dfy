/**
 * The slice of Python's text handling that the milk register relies on:
 * character classes (`str.isspace`, the regex classes `\d`, `\s`, `\w`),
 * runs of one class, `int()` of a digit string, `str.count`, `str.split`,
 * `str.splitlines` and `str.strip`.  Characters are restricted to their
 * ASCII meaning (plus the explicit non-ASCII line breaks of `splitlines`).
 */
module PyText {

  datatype Option<T> = None | Some(value: T)

  function Min(a: nat, b: nat): nat { if a <= b then a else b }

  /** `str.isspace()` and the regex class `\s`, on ASCII: space, \t, \n, \v, \f, \r and \x1c-\x1f. */
  predicate IsSpace(c: char) {
    ('\t' <= c <= '\r') || ('\U{1C}' <= c <= ' ')
  }

  /** The regex class `\d`, on ASCII. */
  predicate IsDigit(c: char) {
    '0' <= c <= '9'
  }

  /** `[0-9a-zA-Z]` */
  predicate IsAsciiAlnum(c: char) {
    IsDigit(c) || ('a' <= c <= 'z') || ('A' <= c <= 'Z')
  }

  /** The regex class `\w`, on ASCII: letters, digits and underscore. */
  predicate IsWord(c: char) {
    IsAsciiAlnum(c) || c == '_'
  }

  /** `str.lower()` on one character; only ASCII letters change. */
  function LowerChar(c: char): char {
    if 'A' <= c <= 'Z' then (c as int + 32) as char else c
  }

  /** Line boundaries recognised by `str.splitlines` (a `\r\n` pair counts as one). */
  predicate IsLineBreak(c: char) {
    c == '\n' || c == '\r' || c == '\U{B}' || c == '\U{C}' || c == '\U{1C}' || c == '\U{1D}'
    || c == '\U{1E}' || c == '\U{85}' || c == '\U{2028}' || c == '\U{2029}'
  }

  /** The character classes that the patterns repeat: `\d`, `\s` and `[0-9a-zA-Z]`. */
  datatype CharClass = Digits | Spaces | Alnums

  predicate InClass(c: char, p: CharClass) {
    match p
    case Digits => IsDigit(c)
    case Spaces => IsSpace(c)
    case Alnums => IsAsciiAlnum(c)
  }

  /** Every character of t[a..b] is in class p. */
  predicate AllIn(t: string, a: nat, b: nat, p: CharClass)
    requires a <= b <= |t|
    decreases b - a
  {
    a == b || (InClass(t[a], p) && AllIn(t, a + 1, b, p))
  }

  lemma {:induction false} AllInAt(t: string, a: nat, b: nat, p: CharClass, k: nat)
    requires a <= k < b <= |t| && AllIn(t, a, b, p)
    ensures InClass(t[k], p)
    decreases k - a
  {
    if a < k {
      AllInAt(t, a + 1, b, p, k);
    }
  }

  lemma {:induction false} AllInPrefix(t: string, a: nat, c: nat, b: nat, p: CharClass)
    requires a <= c <= b <= |t| && AllIn(t, a, b, p)
    ensures AllIn(t, a, c, p)
    decreases c - a
  {
    if a < c {
      AllInPrefix(t, a + 1, c, b, p);
    }
  }

  /** Length of the longest run of class-p characters starting at position i. */
  function RunLength(t: string, i: nat, p: CharClass): (n: nat)
    requires i <= |t|
    ensures i + n <= |t|
    decreases |t| - i
  {
    if i < |t| && InClass(t[i], p) then 1 + RunLength(t, i + 1, p) else 0
  }

  /** The maximal run is all of class p. */
  lemma {:induction false} RunLengthAll(t: string, i: nat, p: CharClass)
    requires i <= |t|
    ensures AllIn(t, i, i + RunLength(t, i, p), p)
    ensures i + RunLength(t, i, p) == |t| || !InClass(t[i + RunLength(t, i, p)], p)
    decreases |t| - i
  {
    if i < |t| && InClass(t[i], p) {
      RunLengthAll(t, i + 1, p);
    }
  }

  /** Any class-p stretch starting at i ends no later than the maximal run. */
  lemma {:induction false} RunBound(t: string, i: nat, j: nat, p: CharClass)
    requires i <= j <= |t|
    requires AllIn(t, i, j, p)
    ensures j <= i + RunLength(t, i, p)
    decreases j - i
  {
    if i < j {
      RunBound(t, i + 1, j, p);
    }
  }

  /** A class-p stretch that is followed by a non-p character (or the end) is the maximal run. */
  lemma RunExact(t: string, i: nat, j: nat, p: CharClass)
    requires i <= j <= |t|
    requires AllIn(t, i, j, p)
    requires j == |t| || !InClass(t[j], p)
    ensures j == i + RunLength(t, i, p)
  {
    RunBound(t, i, j, p);
    RunLengthAll(t, i, p);
    if j < i + RunLength(t, i, p) {
      AllInAt(t, i, i + RunLength(t, i, p), p, j);
    }
  }

  lemma {:induction false} AllInFromAll(t: string, a: nat, b: nat, p: CharClass)
    requires a <= b <= |t|
    requires forall k :: a <= k < b ==> InClass(t[k], p)
    ensures AllIn(t, a, b, p)
    decreases b - a
  {
    if a < b {
      AllInFromAll(t, a + 1, b, p);
    }
  }

  /** A run inside the second part of a string does not see the first part. */
  lemma {:induction false} RunLengthShift(x: string, y: string, j: nat, p: CharClass)
    requires j <= |y|
    ensures RunLength(x + y, |x| + j, p) == RunLength(y, j, p)
    decreases |y| - j
  {
    if j < |y| {
      assert (x + y)[|x| + j] == y[j];
      RunLengthShift(x, y, j + 1, p);
    }
  }

  /** A run that reaches a character outside its class stops there. */
  lemma {:induction false} RunLengthStop(a: string, c: char, b: string, i: nat, p: CharClass)
    requires i <= |a| && !InClass(c, p)
    ensures RunLength(a + [c] + b, i, p) == RunLength(a, i, p)
    decreases |a| - i
  {
    var s := a + [c] + b;
    if i < |a| {
      assert s[i] == a[i];
      RunLengthStop(a, c, b, i + 1, p);
    } else {
      assert s[i] == c;
    }
  }

  /** A stretch of ASCII digits, as a string that `int()` accepts. */
  lemma {:induction false} AllDigits(t: string, a: nat, b: nat)
    requires a <= b <= |t| && AllIn(t, a, b, Digits)
    ensures forall k :: 0 <= k < b - a ==> IsDigit(t[a..b][k])
  {
    forall k | 0 <= k < b - a
      ensures IsDigit(t[a..b][k])
    {
      AllInAt(t, a, b, Digits, a + k);
    }
  }

  function DigitValue(c: char): (d: nat)
    requires IsDigit(c)
    ensures d <= 9
  {
    c as int - '0' as int
  }

  /** 10 to the power n. */
  function Pow10(n: nat): (p: nat)
    ensures p >= 1
  {
    if n == 0 then 1 else 10 * Pow10(n - 1)
  }

  lemma {:induction false} Pow10Mono(m: nat, n: nat)
    requires m <= n
    ensures Pow10(m) <= Pow10(n)
    decreases n
  {
    if m < n {
      Pow10Mono(m, n - 1);
    }
  }

  /** `int(s)` for a string of ASCII digits: an n-digit string reads as less than 10^n. */
  function DigitsValue(s: string): (v: nat)
    requires forall k :: 0 <= k < |s| ==> IsDigit(s[k])
    ensures v < Pow10(|s|)
  {
    if s == [] then 0
    else DigitsValue(s[..|s| - 1]) * 10 + DigitValue(s[|s| - 1])
  }

  /** `s.count(c)` for a single character c: zero exactly when c does not occur. */
  function CountChar(s: string, c: char): (n: nat)
    ensures n <= |s|
    ensures n == 0 <==> c !in s
  {
    if s == [] then 0 else (if s[0] == c then 1 else 0) + CountChar(s[1..], c)
  }

  lemma {:induction false} CountCharAppend(a: string, b: string, c: char)
    ensures CountChar(a + b, c) == CountChar(a, c) + CountChar(b, c)
  {
    if a != [] {
      assert (a + b)[1..] == a[1..] + b;
      CountCharAppend(a[1..], b, c);
    } else {
      assert a + b == b;
    }
  }

  /** `s.split(sep)` for a one-character separator: always at least one piece. */
  function Split(s: string, sep: char): (pieces: seq<string>)
    ensures |pieces| >= 1
    ensures forall k :: 0 <= k < |pieces| ==> sep !in pieces[k]
  {
    if s == [] then [[]]
    else
      var rest := Split(s[1..], sep);
      if s[0] == sep then [[]] + rest
      else [[s[0]] + rest[0]] + rest[1..]
  }

  /** `sep.join(pieces)` */
  function Join(pieces: seq<string>, sep: char): string
  {
    if pieces == [] then []
    else if |pieces| == 1 then pieces[0]
    else pieces[0] + [sep] + Join(pieces[1..], sep)
  }

  /** Joining the pieces of a split gives back the string. */
  lemma {:induction false} SplitJoin(s: string, sep: char)
    ensures Join(Split(s, sep), sep) == s
  {
    if s != [] {
      var rest := Split(s[1..], sep);
      SplitJoin(s[1..], sep);
      if s[0] == sep {
        assert ([[]] + rest)[1..] == rest;
        assert s == [sep] + s[1..];
      } else if |rest| == 1 {
        assert s == [s[0]] + s[1..];
      } else {
        var pieces := [[s[0]] + rest[0]] + rest[1..];
        assert pieces[1..] == rest[1..];
        assert Join(rest, sep) == rest[0] + [sep] + Join(rest[1..], sep);
        assert s == [s[0]] + s[1..];
      }
    }
  }

  /** A string without the separator is one piece. */
  lemma {:induction false} SplitNoSep(a: string, sep: char)
    requires sep !in a
    ensures Split(a, sep) == [a]
  {
    if a != [] {
      assert a[0] in a;
      assert forall c :: c in a[1..] ==> c in a;
      SplitNoSep(a[1..], sep);
      assert [a[0]] + a[1..] == a;
    }
  }

  /** A separator after a separator-free prefix ends the first piece. */
  lemma {:induction false} SplitAtSep(a: string, b: string, sep: char)
    requires sep !in a
    ensures Split(a + [sep] + b, sep) == [a] + Split(b, sep)
  {
    var s := a + [sep] + b;
    if a == [] {
      assert s[1..] == b;
    } else {
      assert a[0] in a;
      assert forall c :: c in a[1..] ==> c in a;
      assert s[1..] == a[1..] + [sep] + b;
      SplitAtSep(a[1..], b, sep);
      assert [a[0]] + a[1..] == a;
    }
  }

  /** Splitting a join of separator-free pieces gives back the pieces. */
  lemma {:induction false} JoinSplit(pieces: seq<string>, sep: char)
    requires |pieces| >= 1
    requires forall k :: 0 <= k < |pieces| ==> sep !in pieces[k]
    ensures Split(Join(pieces, sep), sep) == pieces
  {
    if |pieces| == 1 {
      SplitNoSep(pieces[0], sep);
    } else {
      JoinSplit(pieces[1..], sep);
      SplitAtSep(pieces[0], Join(pieces[1..], sep), sep);
      assert [pieces[0]] + pieces[1..] == pieces;
    }
  }

  /** The pieces between line breaks, a trailing empty piece included. */
  function LinePieces(s: string): (pieces: seq<string>)
    ensures |pieces| >= 1
    ensures forall k, j :: 0 <= k < |pieces| && 0 <= j < |pieces[k]| ==> !IsLineBreak(pieces[k][j])
    decreases |s|
  {
    if s == [] then [[]]
    else if IsLineBreak(s[0]) then
      var rest := if s[0] == '\r' && |s| > 1 && s[1] == '\n' then LinePieces(s[2..]) else LinePieces(s[1..]);
      [[]] + rest
    else
      var rest := LinePieces(s[1..]);
      [[s[0]] + rest[0]] + rest[1..]
  }

  /** `s.splitlines()`: the pieces between line breaks, without a trailing empty one. */
  function SplitLines(s: string): (lines: seq<string>)
    ensures forall k, j :: 0 <= k < |lines| && 0 <= j < |lines[k]| ==> !IsLineBreak(lines[k][j])
  {
    var pieces := LinePieces(s);
    if pieces[|pieces| - 1] == [] then pieces[..|pieces| - 1] else pieces
  }

  /** A stretch without a line break is one piece. */
  lemma {:induction false} LinePiecesNoBreak(a: string)
    requires forall k :: 0 <= k < |a| ==> !IsLineBreak(a[k])
    ensures LinePieces(a) == [a]
    decreases |a|
  {
    if a != [] {
      LinePiecesNoBreak(a[1..]);
      assert [a[0]] + a[1..] == a;
    }
  }

  /**
   * A line break after a break-free prefix ends the first piece.  A `\r`
   * directly followed by `\n` is the one break of LinePiecesAtCrLf instead.
   */
  lemma {:induction false} LinePiecesAtBreak(a: string, c: char, b: string)
    requires forall k :: 0 <= k < |a| ==> !IsLineBreak(a[k])
    requires IsLineBreak(c) && (c != '\r' || b == [] || b[0] != '\n')
    ensures LinePieces(a + [c] + b) == [a] + LinePieces(b)
    decreases |a|
  {
    var s := a + [c] + b;
    if a == [] {
      assert s == [c] + b;
      assert s[1..] == b;
    } else {
      assert s[0] == a[0];
      assert s[1..] == a[1..] + [c] + b;
      LinePiecesAtBreak(a[1..], c, b);
      assert [a[0]] + a[1..] == a;
    }
  }

  /** `\r\n` after a break-free prefix is a single break: it ends the first piece and starts no empty one. */
  lemma {:induction false} LinePiecesAtCrLf(a: string, b: string)
    requires forall k :: 0 <= k < |a| ==> !IsLineBreak(a[k])
    ensures LinePieces(a + ['\r', '\n'] + b) == [a] + LinePieces(b)
    decreases |a|
  {
    var s := a + ['\r', '\n'] + b;
    if a == [] {
      assert s == ['\r', '\n'] + b;
      assert s[2..] == b;
    } else {
      assert s[0] == a[0];
      assert s[1..] == a[1..] + ['\r', '\n'] + b;
      LinePiecesAtCrLf(a[1..], b);
      assert [a[0]] + a[1..] == a;
    }
  }

  /** A non-empty line without a break is the only line; a break at the end adds no empty line. */
  lemma SplitLinesEnds(a: string, c: char)
    requires forall k :: 0 <= k < |a| ==> !IsLineBreak(a[k])
    requires IsLineBreak(c)
    ensures a != [] ==> SplitLines(a) == [a]
    ensures SplitLines(a + [c]) == [a]
    ensures SplitLines([]) == []
  {
    LinePiecesNoBreak(a);
    LinePiecesAtBreak(a, c, []);
    assert a + [c] + [] == a + [c];
  }

  function StripLeft(s: string): (r: string)
    ensures |r| <= |s|
    ensures r == [] || !IsSpace(r[0])
  {
    if s != [] && IsSpace(s[0]) then StripLeft(s[1..]) else s
  }

  function StripRight(s: string): (r: string)
    ensures |r| <= |s| && r == s[..|r|]
    ensures r == [] || !IsSpace(r[|r| - 1])
  {
    if s != [] && IsSpace(s[|s| - 1]) then StripRight(s[..|s| - 1]) else s
  }

  /** `s.strip()` */
  function Strip(s: string): (r: string)
    ensures r == [] || (!IsSpace(r[0]) && !IsSpace(r[|r| - 1]))
  {
    StripRight(StripLeft(s))
  }

  /** StripLeft drops only leading whitespace. */
  lemma {:induction false} StripLeftSlice(s: string)
    ensures StripLeft(s) == s[|s| - |StripLeft(s)|..]
    ensures forall k :: 0 <= k < |s| - |StripLeft(s)| ==> IsSpace(s[k])
    decreases |s|
  {
    if s != [] && IsSpace(s[0]) {
      var r := StripLeft(s[1..]);
      StripLeftSlice(s[1..]);
      assert s[1..][|s[1..]| - |r|..] == s[|s| - |r|..];
      forall k | 0 <= k < |s| - |r|
        ensures IsSpace(s[k])
      {
        if k > 0 {
          assert s[k] == s[1..][k - 1];
        }
      }
    }
  }

  /** StripRight drops only trailing whitespace. */
  lemma {:induction false} StripRightSlice(s: string)
    ensures forall k :: |StripRight(s)| <= k < |s| ==> IsSpace(s[k])
    decreases |s|
  {
    if s != [] && IsSpace(s[|s| - 1]) {
      var s' := s[..|s| - 1];
      StripRightSlice(s');
      forall k | |StripRight(s)| <= k < |s|
        ensures IsSpace(s[k])
      {
        if k < |s| - 1 {
          assert s[k] == s'[k];
        }
      }
    }
  }

  /**
   * `s.strip()` is the stretch of s left once the whitespace on both sides is
   * removed: all that lies before and after it is whitespace, and (by Strip's
   * own contract) it neither starts nor ends with whitespace.
   */
  lemma StripSlice(s: string)
    ensures exists a, b ::
      && 0 <= a <= b <= |s| && Strip(s) == s[a..b]
      && (forall k :: 0 <= k < a ==> IsSpace(s[k]))
      && (forall k :: b <= k < |s| ==> IsSpace(s[k]))
  {
    var l := StripLeft(s);
    var r := StripRight(l);
    var a := |s| - |l|;
    var b := a + |r|;
    StripLeftSlice(s);
    StripRightSlice(l);
    assert r == l[..|r|];
    assert s[a..b] == l[..|r|];
    forall k | b <= k < |s|
      ensures IsSpace(s[k])
    {
      assert s[k] == l[k - a];
    }
    assert Strip(s) == s[a..b];
  }
}
