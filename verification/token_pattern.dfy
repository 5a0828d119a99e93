/**
 * The fallback of `parse_milk_text` (app.py) when no total line is found:
 * the case-insensitive `re.findall(r'\b911\b|\b1\b|\b\d+\s*ltr\b|\b\d+\s*L\b', t)`
 * token scan, the `re.search(r'(\d+)', tok)` that reads a number out of each
 * token, and the last resort of counting '1' characters on lines that
 * carry no total glyph.
 *
 * As for the total pattern, each alternative of the regex is given
 * declaratively (`IsAltSpan`), the engine's behaviour at one start position
 * is a function (`TokenAt`), and lemmas connect the two.
 */
module TokenPattern {
  import opened PyText

  /** `\b` at position j: exactly one of the characters on either side is a word character. */
  predicate Boundary(t: string, j: nat)
    requires j <= |t|
  {
    (j > 0 && IsWord(t[j - 1])) != (j < |t| && IsWord(t[j]))
  }

  /** The four alternatives, in the order the regex tries them. */
  datatype Alt = Nine11 | One | Ltr | LUnit

  function Rank(a: Alt): nat {
    match a
    case Nine11 => 0
    case One => 1
    case Ltr => 2
    case LUnit => 3
  }

  /**
   * One token: the digits t[start..digitsEnd], the whitespace
   * t[digitsEnd..unitStart] and the unit t[unitStart..end] (both empty for
   * `911` and `1`).
   */
  datatype TokenSpan = TokenSpan(alt: Alt, start: nat, digitsEnd: nat, unitStart: nat, end: nat)

  /** s is a way to match alternative s.alt against t[s.start..s.end], IGNORECASE. */
  ghost predicate IsAltSpan(t: string, s: TokenSpan) {
    && s.start < s.digitsEnd <= s.unitStart <= s.end <= |t|
    && Boundary(t, s.start) && Boundary(t, s.end)
    && AllIn(t, s.start, s.digitsEnd, Digits)
    && AllIn(t, s.digitsEnd, s.unitStart, Spaces)
    && match s.alt
       case Nine11 =>
         s.digitsEnd == s.unitStart == s.end == s.start + 3 && t[s.start..s.end] == "911"
       case One =>
         s.digitsEnd == s.unitStart == s.end == s.start + 1 && t[s.start] == '1'
       case Ltr =>
         s.end == s.unitStart + 3 && LowerChar(t[s.unitStart]) == 'l'
         && LowerChar(t[s.unitStart + 1]) == 't' && LowerChar(t[s.unitStart + 2]) == 'r'
       case LUnit =>
         s.end == s.unitStart + 1 && LowerChar(t[s.unitStart]) == 'l'
  }

  /** The token the regex engine reports when it tries start position i, if any. */
  function TokenAt(t: string, i: nat): (r: Option<TokenSpan>)
    requires i <= |t|
    ensures r.Some? ==> r.value.start == i < r.value.end <= |t|
  {
    var d := i + RunLength(t, i, Digits);
    if !Boundary(t, i) || d == i then None
    else if i + 3 <= |t| && t[i..i + 3] == "911" && Boundary(t, i + 3) then
      Some(TokenSpan(Nine11, i, i + 3, i + 3, i + 3))
    else if t[i] == '1' && Boundary(t, i + 1) then
      Some(TokenSpan(One, i, i + 1, i + 1, i + 1))
    else
      var u := d + RunLength(t, d, Spaces);
      if u + 3 <= |t| && LowerChar(t[u]) == 'l' && LowerChar(t[u + 1]) == 't'
         && LowerChar(t[u + 2]) == 'r' && Boundary(t, u + 3) then
        Some(TokenSpan(Ltr, i, d, u, u + 3))
      else if u < |t| && LowerChar(t[u]) == 'l' && Boundary(t, u + 1) then
        Some(TokenSpan(LUnit, i, d, u, u + 1))
      else None
  }

  /** What TokenAt reports is a match of the alternative it names. */
  lemma TokenAtSound(t: string, i: nat)
    requires i <= |t|
    ensures TokenAt(t, i).Some? ==> IsAltSpan(t, TokenAt(t, i).value)
  {
    if TokenAt(t, i).Some? {
      var d := i + RunLength(t, i, Digits);
      var u := d + RunLength(t, d, Spaces);
      RunLengthAll(t, i, Digits);
      RunLengthAll(t, d, Spaces);
      match TokenAt(t, i).value.alt
      case Nine11 =>
        assert t[i] == t[i..i + 3][0] && t[i + 1] == t[i..i + 3][1] && t[i + 2] == t[i..i + 3][2];
        assert AllIn(t, i + 2, i + 3, Digits);
        assert AllIn(t, i + 1, i + 3, Digits);
      case One =>
      case Ltr =>
      case LUnit =>
    }
  }

  /**
   * Every match of an alternative at s.start is seen by TokenAt: it reports a
   * match there, of the same or an earlier alternative, and exactly s when the
   * alternative is the same.
   */
  lemma TokenAtComplete(t: string, s: TokenSpan)
    requires IsAltSpan(t, s)
    ensures TokenAt(t, s.start).Some?
    ensures Rank(TokenAt(t, s.start).value.alt) <= Rank(s.alt)
    ensures TokenAt(t, s.start).value.alt == s.alt ==> TokenAt(t, s.start) == Some(s)
  {
    match s.alt
    case Nine11 => Nine11Complete(t, s);
    case One => OneComplete(t, s);
    case Ltr => UnitComplete(t, s);
    case LUnit => UnitComplete(t, s);
  }

  /** A digit at a boundary is where every alternative starts. */
  lemma DigitStart(t: string, s: TokenSpan)
    requires IsAltSpan(t, s)
    ensures RunLength(t, s.start, Digits) > 0
  {
    AllInAt(t, s.start, s.digitsEnd, Digits, s.start);
  }

  lemma Nine11Complete(t: string, s: TokenSpan)
    requires IsAltSpan(t, s) && s.alt == Nine11
    ensures TokenAt(t, s.start) == Some(s)
  {
    DigitStart(t, s);
  }

  lemma OneComplete(t: string, s: TokenSpan)
    requires IsAltSpan(t, s) && s.alt == One
    ensures TokenAt(t, s.start).Some? && Rank(TokenAt(t, s.start).value.alt) <= Rank(One)
    ensures TokenAt(t, s.start).value.alt == One ==> TokenAt(t, s.start) == Some(s)
  {
    DigitStart(t, s);
  }

  /** For the unit alternatives, the digit and space runs of s are the maximal ones the engine takes. */
  lemma UnitComplete(t: string, s: TokenSpan)
    requires IsAltSpan(t, s) && (s.alt == Ltr || s.alt == LUnit)
    ensures TokenAt(t, s.start).Some? && Rank(TokenAt(t, s.start).value.alt) <= Rank(s.alt)
    ensures TokenAt(t, s.start).value.alt == s.alt ==> TokenAt(t, s.start) == Some(s)
  {
    DigitStart(t, s);
    if s.digitsEnd < s.unitStart {
      AllInAt(t, s.digitsEnd, s.unitStart, Spaces, s.digitsEnd);
    }
    RunExact(t, s.start, s.digitsEnd, Digits);
    RunExact(t, s.digitsEnd, s.unitStart, Spaces);
  }

  /** `re.findall` from position i: left to right, each scan resuming where the last token ended. */
  function FindTokensFrom(t: string, i: nat): (r: seq<TokenSpan>)
    requires i <= |t|
    ensures forall k :: 0 <= k < |r| ==> i <= r[k].start < r[k].end <= |t|
    decreases |t| - i
  {
    if i == |t| then []
    else match TokenAt(t, i)
      case Some(m) => [m] + FindTokensFrom(t, m.end)
      case None => FindTokensFrom(t, i + 1)
  }

  /** Position p lies inside one of the spans. */
  predicate Covers(spans: seq<TokenSpan>, p: nat) {
    |spans| > 0 && (spans[0].start <= p < spans[0].end || Covers(spans[1..], p))
  }

  /** The scan reports matches only. */
  lemma {:induction false} FindTokensFromSound(t: string, i: nat)
    requires i <= |t|
    ensures forall k :: 0 <= k < |FindTokensFrom(t, i)| ==> IsAltSpan(t, FindTokensFrom(t, i)[k])
    decreases |t| - i
  {
    if i < |t| {
      match TokenAt(t, i)
      case Some(m) =>
        TokenAtSound(t, i);
        FindTokensFromSound(t, m.end);
        assert FindTokensFrom(t, i) == [m] + FindTokensFrom(t, m.end);
      case None =>
        FindTokensFromSound(t, i + 1);
    }
  }

  /** The tokens come left to right and do not overlap. */
  lemma {:induction false} FindTokensFromOrdered(t: string, i: nat)
    requires i <= |t|
    ensures forall k :: 0 <= k < |FindTokensFrom(t, i)| - 1 ==>
      FindTokensFrom(t, i)[k].end <= FindTokensFrom(t, i)[k + 1].start
    decreases |t| - i
  {
    if i < |t| {
      match TokenAt(t, i)
      case Some(m) =>
        FindTokensFromOrdered(t, m.end);
        var r := FindTokensFrom(t, i);
        assert r == [m] + FindTokensFrom(t, m.end);
      case None =>
        FindTokensFromOrdered(t, i + 1);
        assert FindTokensFrom(t, i) == FindTokensFrom(t, i + 1);
    }
  }

  /** The scan misses no match: every position at or after i where some alternative matches is inside a reported token. */
  lemma {:induction false} FindTokensFromCovers(t: string, i: nat)
    requires i <= |t|
    ensures forall s :: IsAltSpan(t, s) && i <= s.start ==> Covers(FindTokensFrom(t, i), s.start)
    decreases |t| - i
  {
    if i < |t| {
      match TokenAt(t, i)
      case Some(m) =>
        FindTokensFromCovers(t, m.end);
        assert FindTokensFrom(t, i)[1..] == FindTokensFrom(t, m.end);
      case None =>
        FindTokensFromCovers(t, i + 1);
        forall s | IsAltSpan(t, s) && i <= s.start
          ensures Covers(FindTokensFrom(t, i), s.start)
        {
          TokenAtComplete(t, s);
        }
    }
  }

  /** `re.findall` over the whole text: non-empty spans inside t. */
  function FindTokens(t: string): (spans: seq<TokenSpan>)
    ensures forall k :: 0 <= k < |spans| ==> spans[k].start < spans[k].end <= |t|
  {
    FindTokensFrom(t, 0)
  }

  /** The strings `re.findall` returns for the spans. */
  function Texts(t: string, spans: seq<TokenSpan>): (toks: seq<string>)
    requires forall k :: 0 <= k < |spans| ==> spans[k].start <= spans[k].end <= |t|
    ensures |toks| == |spans|
  {
    seq(|spans|, k requires 0 <= k < |spans| => t[spans[k].start..spans[k].end])
  }

  /** The token list of app.py line 44. */
  function Tokens(t: string): (toks: seq<string>)
    ensures |toks| == |FindTokens(t)|
    ensures forall k :: 0 <= k < |toks| ==> toks[k] != []
  {
    Texts(t, FindTokens(t))
  }

  /** `re.search(r'(\d+)', s[i..])`, as the value of its group: the first run of digits, read as a number. */
  function FirstNumberFrom(s: string, i: nat): Option<nat>
    requires i <= |s|
    decreases |s| - i
  {
    if i == |s| then None
    else if IsDigit(s[i]) then
      var n := RunLength(s, i, Digits);
      RunLengthAll(s, i, Digits);
      AllDigits(s, i, i + n);
      Some(DigitsValue(s[i..i + n]))
    else FirstNumberFrom(s, i + 1)
  }

  /** `re.search(r'(\d+)', s)`: nothing exactly when s holds no digit. */
  function FirstNumber(s: string): (r: Option<nat>)
    ensures r.None? <==> forall k :: 0 <= k < |s| ==> !IsDigit(s[k])
  {
    FirstNumberFromNone(s, 0);
    FirstNumberFrom(s, 0)
  }

  /** The search finds nothing exactly when there is no digit. */
  lemma {:induction false} FirstNumberFromNone(s: string, i: nat)
    requires i <= |s|
    ensures FirstNumberFrom(s, i).None? <==> forall k :: i <= k < |s| ==> !IsDigit(s[k])
    decreases |s| - i
  {
    if i < |s| && !IsDigit(s[i]) {
      FirstNumberFromNone(s, i + 1);
    }
  }

  /** What a token adds to the liters: the number found in it, or nothing. */
  function NumberOf(tok: string): (n: nat)
    ensures (forall k :: 0 <= k < |tok| ==> !IsDigit(tok[k])) ==> n == 0
  {
    match FirstNumber(tok)
    case Some(v) => v
    case None => 0
  }

  /** The liters that the loop of app.py lines 45-49 accumulates over toks. */
  function TokenSum(toks: seq<string>): nat {
    if toks == [] then 0 else TokenSum(toks[..|toks| - 1]) + NumberOf(toks[|toks| - 1])
  }

  /** The number in the leading digit group of a matched token. */
  function LeadingValue(t: string, s: TokenSpan): nat
    requires IsAltSpan(t, s)
  {
    AllDigits(t, s.start, s.digitsEnd);
    DigitsValue(t[s.start..s.digitsEnd])
  }

  /** The sum of the leading numbers of the spans. */
  function LeadingSum(t: string, spans: seq<TokenSpan>): nat
    requires forall k :: 0 <= k < |spans| ==> IsAltSpan(t, spans[k])
  {
    if spans == [] then 0
    else LeadingSum(t, spans[..|spans| - 1]) + LeadingValue(t, spans[|spans| - 1])
  }

  /** The sum of the leading numbers of all tokens the scan finds in t. */
  function TokenLiters(t: string): nat
  {
    FindTokensFromSound(t, 0);
    LeadingSum(t, FindTokens(t))
  }

  lemma AllInSlice(t: string, a: nat, b: nat, lo: nat, hi: nat, p: CharClass)
    requires lo <= a <= b <= hi <= |t| && AllIn(t, a, b, p)
    ensures AllIn(t[lo..hi], a - lo, b - lo, p)
    decreases b - a
  {
    if a < b {
      AllInSlice(t, a + 1, b, lo, hi, p);
    }
  }

  /** The number `re.search(r'(\d+)', tok)` reads out of a matched token is its leading digit group. */
  lemma NumberOfToken(t: string, s: TokenSpan)
    requires IsAltSpan(t, s)
    ensures NumberOf(t[s.start..s.end]) == LeadingValue(t, s)
  {
    var tok := t[s.start..s.end];
    var n := s.digitsEnd - s.start;
    AllInSlice(t, s.start, s.digitsEnd, s.start, s.end, Digits);
    AllInAt(tok, 0, n, Digits, 0);
    if s.digitsEnd < s.end {
      if s.digitsEnd < s.unitStart {
        AllInAt(t, s.digitsEnd, s.unitStart, Spaces, s.digitsEnd);
      }
      assert tok[n] == t[s.digitsEnd];
    }
    RunExact(tok, 0, n, Digits);
    assert tok[0..n] == t[s.start..s.digitsEnd];
  }

  /** Summing the numbers found in the token strings is summing the tokens' leading digit groups. */
  lemma {:induction false} TokenSumLeading(t: string, spans: seq<TokenSpan>)
    requires forall k :: 0 <= k < |spans| ==> spans[k].start <= spans[k].end <= |t|
    requires forall k :: 0 <= k < |spans| ==> IsAltSpan(t, spans[k])
    ensures TokenSum(Texts(t, spans)) == LeadingSum(t, spans)
    decreases |spans|
  {
    if spans != [] {
      var n := |spans| - 1;
      TokenSumLeading(t, spans[..n]);
      assert Texts(t, spans)[..n] == Texts(t, spans[..n]);
      NumberOfToken(t, spans[n]);
    }
  }

  /** `911` reads as 911, `1` as 1, `5 ltr` as 5 and `10 L` as 10. */
  lemma TokenValues()
    ensures NumberOf("911") == 911 && NumberOf("1") == 1
    ensures NumberOf("5 ltr") == 5 && NumberOf("10 L") == 10
  {
    BareValues();
    UnitValues();
  }

  lemma BareValues()
    ensures NumberOf("911") == 911 && NumberOf("1") == 1
  {
    assert "911"[1..] == "11" && "11"[1..] == "1" && "1"[1..] == [];
    assert RunLength("911", 0, Digits) == 3;
    assert "911"[0..3] == "911" && "911"[..2] == "91" && "91"[..1] == "9" && "9"[..0] == [];
    assert DigitsValue("911") == 911;
    assert "1"[0..1] == "1" && "1"[..0] == [];
  }

  lemma UnitValues()
    ensures NumberOf("5 ltr") == 5 && NumberOf("10 L") == 10
  {
    assert "5 ltr"[0..1] == "5" && "5"[..0] == [];
    assert NumberOf("5 ltr") == 5;
    assert "10 L"[0..2] == "10" && "10"[..1] == "1" && "1"[..0] == [];
  }


  /** A line that may be a total line: it holds `=`, `x`, `X` or `×`. */
  predicate HasTotalGlyph(line: string) {
    '=' in line || 'x' in line || 'X' in line || '\U{D7}' in line
  }

  /** The line filter of app.py line 52. */
  function NonTotalLines(lines: seq<string>): (kept: seq<string>)
    ensures |kept| <= |lines|
    ensures forall k :: 0 <= k < |kept| ==> !HasTotalGlyph(kept[k])
  {
    if lines == [] then []
    else (if HasTotalGlyph(lines[0]) then [] else [lines[0]]) + NonTotalLines(lines[1..])
  }

  /** The filter looks at one line at a time: a line is kept exactly when it holds no glyph. */
  lemma NonTotalLinesOne(line: string)
    ensures NonTotalLines([line]) == if HasTotalGlyph(line) then [] else [line]
  {
    assert [line][1..] == [];
  }

  /** The filter keeps the order of the lines it keeps. */
  lemma {:induction false} NonTotalLinesAppend(a: seq<string>, b: seq<string>)
    ensures NonTotalLines(a + b) == NonTotalLines(a) + NonTotalLines(b)
  {
    if a == [] {
      assert a + b == b;
    } else {
      assert (a + b)[1..] == a[1..] + b;
      NonTotalLinesAppend(a[1..], b);
      var head := if HasTotalGlyph(a[0]) then [] else [a[0]];
      assert head + (NonTotalLines(a[1..]) + NonTotalLines(b)) == (head + NonTotalLines(a[1..])) + NonTotalLines(b);
    }
  }

  /** `sum(ln.count('1') for ln in lines)` */
  function SumOnes(lines: seq<string>): nat {
    if lines == [] then 0 else CountChar(lines[0], '1') + SumOnes(lines[1..])
  }

  /** The fallback liters of app.py lines 52-54. */
  function OnesCount(t: string): (n: nat)
    ensures n <= CountChar(t, '1')
  {
    LinesOnes(t);
    NonTotalLinesBound(SplitLines(t));
    SumOnes(NonTotalLines(SplitLines(t)))
  }

  lemma {:induction false} SumOnesAppend(a: seq<string>, b: seq<string>)
    ensures SumOnes(a + b) == SumOnes(a) + SumOnes(b)
  {
    if a != [] {
      assert (a + b)[1..] == a[1..] + b;
      SumOnesAppend(a[1..], b);
    } else {
      assert a + b == b;
    }
  }

  /** Splitting at line breaks loses no '1'. */
  lemma {:induction false} SumOnesPieces(s: string)
    ensures SumOnes(LinePieces(s)) == CountChar(s, '1')
    decreases |s|
  {
    if s != [] {
      var pieces := LinePieces(s);
      if IsLineBreak(s[0]) {
        if s[0] == '\r' && |s| > 1 && s[1] == '\n' {
          SumOnesPieces(s[2..]);
          assert s[1..][1..] == s[2..];
        } else {
          SumOnesPieces(s[1..]);
        }
        assert pieces[1..] == (if s[0] == '\r' && |s| > 1 && s[1] == '\n' then LinePieces(s[2..]) else LinePieces(s[1..]));
      } else {
        var rest := LinePieces(s[1..]);
        SumOnesPieces(s[1..]);
        assert ([s[0]] + rest[0])[1..] == rest[0];
        assert pieces[1..] == rest[1..];
      }
    }
  }

  lemma {:induction false} NonTotalLinesBound(lines: seq<string>)
    ensures SumOnes(NonTotalLines(lines)) <= SumOnes(lines)
    ensures (forall k :: 0 <= k < |lines| ==> !HasTotalGlyph(lines[k])) ==> NonTotalLines(lines) == lines
  {
    if lines != [] {
      NonTotalLinesBound(lines[1..]);
      var head := if HasTotalGlyph(lines[0]) then [] else [lines[0]];
      SumOnesAppend(head, NonTotalLines(lines[1..]));
      assert [lines[0]] + lines[1..] == lines;
    }
  }

  /** A line break never becomes part of a piece, so a text without glyphs has no piece with one. */
  lemma {:induction false} PiecesWithoutGlyph(s: string)
    requires !HasTotalGlyph(s)
    ensures forall k :: 0 <= k < |LinePieces(s)| ==> !HasTotalGlyph(LinePieces(s)[k])
    decreases |s|
  {
    if s != [] {
      assert s == [s[0]] + s[1..];
      if IsLineBreak(s[0]) {
        if s[0] == '\r' && |s| > 1 && s[1] == '\n' {
          assert s[1..] == [s[1]] + s[2..];
          PiecesWithoutGlyph(s[2..]);
        } else {
          PiecesWithoutGlyph(s[1..]);
        }
      } else {
        PiecesWithoutGlyph(s[1..]);
      }
    }
  }

  /**
   * The fallback never counts more than the '1' characters in the whole
   * text, and counts exactly those when no line carries a total glyph.
   */
  lemma OnesCountBound(t: string)
    ensures OnesCount(t) <= CountChar(t, '1')
    ensures !HasTotalGlyph(t) ==> OnesCount(t) == CountChar(t, '1')
  {
    var lines := SplitLines(t);
    LinesOnes(t);
    NonTotalLinesBound(lines);
    if !HasTotalGlyph(t) {
      LinesWithoutGlyph(t);
    }
  }

  /** Dropping the trailing empty piece loses no '1'. */
  lemma LinesOnes(t: string)
    ensures SumOnes(SplitLines(t)) == CountChar(t, '1')
  {
    var pieces := LinePieces(t);
    SumOnesPieces(t);
    if pieces[|pieces| - 1] == [] {
      var lines := pieces[..|pieces| - 1];
      SumOnesAppend(lines, [[]]);
      assert pieces == lines + [[]];
    }
  }

  lemma LinesWithoutGlyph(t: string)
    requires !HasTotalGlyph(t)
    ensures forall k :: 0 <= k < |SplitLines(t)| ==> !HasTotalGlyph(SplitLines(t)[k])
  {
    PiecesWithoutGlyph(t);
  }

  /** A line that holds a glyph is dropped whole: in `1\nx1` only the first '1' counts. */
  lemma OnesCountExample()
    ensures OnesCount("1\nx1") == 1
  {
    var t := "1\nx1";
    ExamplePieces();
    assert "x1"[0] == 'x';
    assert !HasTotalGlyph("1") && HasTotalGlyph("x1");
    NonTotalLinesOne("1");
    NonTotalLinesOne("x1");
    NonTotalLinesAppend(["1"], ["x1"]);
    assert ["1"] + ["x1"] == ["1", "x1"];
    assert NonTotalLines(SplitLines(t)) == ["1"];
    assert "1"[1..] == [];
    assert SumOnes(["1"]) == 1;
  }

  /** A vertical tab ends a line as `\n` does: in `1<VT>x` the line `x` holds a glyph and is dropped on its own. */
  lemma OnesCountLineBreak()
    ensures OnesCount("1\U{B}x") == 1
  {
    var t := "1\U{B}x";
    LineBreakLines();
    assert !HasTotalGlyph("1") && HasTotalGlyph("x");
    NonTotalLinesOne("1");
    NonTotalLinesOne("x");
    NonTotalLinesAppend(["1"], ["x"]);
    assert ["1"] + ["x"] == ["1", "x"];
    assert NonTotalLines(SplitLines(t)) == ["1"];
    assert "1"[1..] == [];
    assert SumOnes(["1"]) == 1;
  }

  lemma LineBreakLines()
    ensures SplitLines("1\U{B}x") == ["1", "x"]
  {
    LinePiecesAtBreak("1", '\U{B}', "x");
    LinePiecesNoBreak("x");
    assert "1" + ['\U{B}'] + "x" == "1\U{B}x";
  }

  lemma ExamplePieces()
    ensures LinePieces("1\nx1") == ["1", "x1"]
    ensures SplitLines("1\nx1") == ["1", "x1"]
  {
    LinePiecesAtBreak("1", '\n', "x1");
    LinePiecesNoBreak("x1");
    assert "1" + ['\n'] + "x1" == "1\nx1";
  }

}
