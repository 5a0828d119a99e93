/**
 * The ledger side of the milk register (utils.py): `normalize_entry`, which
 * maps one OCR token to a quantity of milk; the loop of `process_image`,
 * which turns the OCR text into dated entries, a running total and a grand
 * total; and the rows that `generate_csv` lays out.
 *
 * Quantities are exact reals.  The source uses binary floats, which are
 * exact on every sum of 1.0s and 1.5s the ledger can build.
 */
module Utils {
  import opened PyText

  /** `s.lower()`, on ASCII letters. */
  function Lower(s: string): (r: string)
    ensures |r| == |s|
  {
    seq(|s|, k requires 0 <= k < |s| => LowerChar(s[k]))
  }

  /** `s.replace(" ", "")` */
  function RemoveSpaces(s: string): (r: string)
    ensures |r| <= |s| && ' ' !in r
    ensures forall c :: c in r ==> c in s
  {
    if s == [] then []
    else (if s[0] == ' ' then [] else [s[0]]) + RemoveSpaces(s[1..])
  }

  /** The form `normalize_entry` compares: lower case, spaces removed. */
  function Canon(token: string): (r: string)
    ensures |r| <= |token| && ' ' !in r
    ensures forall c :: c in r ==> !('A' <= c <= 'Z')
  {
    RemoveSpaces(Lower(token))
  }

  /** The OCR readings of the one-and-a-half-litre mark. */
  const OneAndHalfMarks: seq<string> := ["911", "9ii", "9ll", "q11", "9111", "3y1"]

  /** `normalize_entry(token)`: 1.5 for a one-and-a-half mark, 1.0 for `9`, 0.0 for anything else. */
  function NormalizeEntry(token: string): (q: real)
    ensures q == 0.0 || q == 1.0 || q == 1.5
    ensures q == 1.5 <==> Canon(token) in OneAndHalfMarks
    ensures q == 1.0 <==> Canon(token) == "9"
  {
    var t := Canon(token);
    if t in OneAndHalfMarks then 1.5
    else if t == "9" then 1.0
    else 0.0
  }

  lemma LowerAppend(a: string, b: string)
    ensures Lower(a + b) == Lower(a) + Lower(b)
  {
  }

  lemma LowerIdempotent(s: string)
    ensures Lower(Lower(s)) == Lower(s)
  {
  }

  /** Lowering and removing spaces can be done in either order. */
  lemma {:induction false} LowerRemoveSpaces(s: string)
    ensures Lower(RemoveSpaces(s)) == RemoveSpaces(Lower(s))
  {
    if s != [] {
      LowerRemoveSpaces(s[1..]);
      LowerAppend(if s[0] == ' ' then [] else [s[0]], RemoveSpaces(s[1..]));
      assert Lower(s)[1..] == Lower(s[1..]);
    }
  }

  lemma {:induction false} RemoveSpacesIdempotent(s: string)
    requires ' ' !in s
    ensures RemoveSpaces(s) == s
  {
    if s != [] {
      assert s[0] in s;
      assert forall c :: c in s[1..] ==> c in s;
      RemoveSpacesIdempotent(s[1..]);
    }
  }

  /** Space removal works character by character: a space goes, any other character stays. */
  lemma RemoveSpacesChar(c: char)
    ensures RemoveSpaces([c]) == if c == ' ' then [] else [c]
  {
    assert [c][1..] == [];
  }

  /** Space removal keeps the order of what it keeps. */
  lemma {:induction false} RemoveSpacesAppend(a: string, b: string)
    ensures RemoveSpaces(a + b) == RemoveSpaces(a) + RemoveSpaces(b)
  {
    if a == [] {
      assert a + b == b;
    } else {
      assert (a + b)[1..] == a[1..] + b;
      RemoveSpacesAppend(a[1..], b);
      AppendAssoc(if a[0] == ' ' then [] else [a[0]], RemoveSpaces(a[1..]), RemoveSpaces(b));
    }
  }

  /** Canonicalising twice changes nothing more. */
  lemma CanonIdempotent(token: string)
    ensures Canon(Canon(token)) == Canon(token)
  {
    var l := Lower(token);
    LowerRemoveSpaces(l);
    LowerIdempotent(token);
    RemoveSpacesIdempotent(RemoveSpaces(l));
  }

  /** `normalize_entry` ignores case and spaces: a token and its canonical form get the same quantity. */
  lemma NormalizeInsensitive(token: string)
    ensures NormalizeEntry(token) == NormalizeEntry(Canon(token))
  {
    CanonIdempotent(token);
  }

  /** `x` and `9Il` are not marks the table knows. */
  lemma NormalizeUnknown()
    ensures NormalizeEntry("x") == 0.0 && NormalizeEntry("9Il") == 0.0
  {
    assert Lower("x") == "x" && Lower("9Il") == "9il";
    RemoveSpacesIdempotent("x");
    RemoveSpacesIdempotent("9il");
  }

  /** `9 I I` is a one-and-a-half mark, `9` one litre, and `x` and `9Il` nothing. */
  lemma NormalizeExamples()
    ensures NormalizeEntry("9 I I") == 1.5 && NormalizeEntry("9") == 1.0
    ensures NormalizeEntry("x") == 0.0 && NormalizeEntry("9Il") == 0.0
  {
    assert Lower("9 I I") == "9 i i";
    assert RemoveSpaces("9 i i") == "9ii";
    assert Lower("9") == "9";
    RemoveSpacesIdempotent("9");
    NormalizeUnknown();
  }

  /** `re.findall(r"[0-9a-zA-Z]+", s[i..])`: the maximal alphanumeric runs, left to right. */
  function AlnumRunsFrom(s: string, i: nat): (runs: seq<string>)
    requires i <= |s|
    decreases |s| - i
  {
    if i == |s| then []
    else if IsAsciiAlnum(s[i]) then
      var n := RunLength(s, i, Alnums);
      [s[i..i + n]] + AlnumRunsFrom(s, i + n)
    else AlnumRunsFrom(s, i + 1)
  }

  /** The tokens of utils.py line 36: none is empty, and together they are the alphanumeric characters of s, in order. */
  function AlnumRuns(s: string): (runs: seq<string>)
    ensures forall k :: 0 <= k < |runs| ==> runs[k] != []
    ensures Concat(runs) == AlnumChars(s)
  {
    AlnumRunsFromNonEmpty(s, 0);
    AlnumRunsFromChars(s, 0);
    assert s[0..] == s;
    AlnumRunsFrom(s, 0)
  }

  /** The alphanumeric characters of s, in order. */
  function AlnumChars(s: string): string {
    if s == [] then [] else (if IsAsciiAlnum(s[0]) then [s[0]] else []) + AlnumChars(s[1..])
  }

  /** The runs joined together. */
  function Concat(runs: seq<string>): string {
    if runs == [] then [] else runs[0] + Concat(runs[1..])
  }

  lemma {:induction false} AlnumCharsAppend(a: string, b: string)
    ensures AlnumChars(a + b) == AlnumChars(a) + AlnumChars(b)
  {
    if a != [] {
      assert (a + b)[1..] == a[1..] + b;
      AlnumCharsAppend(a[1..], b);
    } else {
      assert a + b == b;
    }
  }

  lemma {:induction false} AlnumCharsOfRun(s: string, i: nat, j: nat)
    requires i <= j <= |s| && AllIn(s, i, j, Alnums)
    ensures AlnumChars(s[i..j]) == s[i..j]
    decreases j - i
  {
    if i < j {
      AlnumCharsOfRun(s, i + 1, j);
      assert s[i..j][1..] == s[i + 1..j];
    }
  }

  /** Together the runs are exactly the alphanumeric characters of s[i..], in order. */
  lemma {:induction false} AlnumRunsFromChars(s: string, i: nat)
    requires i <= |s|
    ensures Concat(AlnumRunsFrom(s, i)) == AlnumChars(s[i..])
    decreases |s| - i
  {
    if i < |s| {
      if IsAsciiAlnum(s[i]) {
        var n := RunLength(s, i, Alnums);
        AlnumRunsFromChars(s, i + n);
        RunLengthAll(s, i, Alnums);
        AlnumCharsOfRun(s, i, i + n);
        SuffixSplit(s, i, i + n);
        AlnumCharsAppend(s[i..i + n], s[i + n..]);
        var runs := AlnumRunsFrom(s, i);
        assert runs[1..] == AlnumRunsFrom(s, i + n);
        assert Concat(runs) == s[i..i + n] + Concat(AlnumRunsFrom(s, i + n));
      } else {
        SuffixSplit(s, i, i + 1);
        AlnumRunsFromChars(s, i + 1);
      }
    }
  }

  lemma SuffixSplit<T>(s: seq<T>, i: nat, j: nat)
    requires i < j <= |s|
    ensures s[i..] == s[i..j] + s[j..]
    ensures s[i..][0] == s[i] && s[i..][1..] == s[i + 1..]
  {
  }

  /** No run is empty. */
  lemma {:induction false} AlnumRunsFromNonEmpty(s: string, i: nat)
    requires i <= |s|
    ensures forall k :: 0 <= k < |AlnumRunsFrom(s, i)| ==> AlnumRunsFrom(s, i)[k] != []
    decreases |s| - i
  {
    if i < |s| {
      if IsAsciiAlnum(s[i]) {
        var n := RunLength(s, i, Alnums);
        AlnumRunsFromNonEmpty(s, i + n);
        assert AlnumRunsFrom(s, i) == [s[i..i + n]] + AlnumRunsFrom(s, i + n);
      } else {
        AlnumRunsFromNonEmpty(s, i + 1);
      }
    }
  }

  /** One ledger row: `{"date": ..., "milk_ltr": ...}`. */
  datatype Row = Row(date: string, milkLtr: real)

  /** The tokens of the second part of a string do not see the first part. */
  lemma {:induction false} AlnumRunsFromShift(x: string, y: string, j: nat)
    requires j <= |y|
    ensures AlnumRunsFrom(x + y, |x| + j) == AlnumRunsFrom(y, j)
    decreases |y| - j
  {
    if j < |y| {
      if IsAsciiAlnum(y[j]) {
        RunLengthAll(y, j, Alnums);
        AlnumRunsFromShift(x, y, j + RunLength(y, j, Alnums));
        ShiftRun(x, y, j);
      } else {
        AlnumRunsFromShift(x, y, j + 1);
        ShiftSkip(x, y, j);
      }
    }
  }

  /** A run that starts in the second part is the same run, and the scan resumes at the same place. */
  lemma ShiftRun(x: string, y: string, j: nat)
    requires j < |y| && IsAsciiAlnum(y[j])
    requires j + RunLength(y, j, Alnums) <= |y|
    requires AlnumRunsFrom(x + y, |x| + j + RunLength(y, j, Alnums)) == AlnumRunsFrom(y, j + RunLength(y, j, Alnums))
    ensures AlnumRunsFrom(x + y, |x| + j) == AlnumRunsFrom(y, j)
  {
    var n := RunLength(y, j, Alnums);
    assert (x + y)[|x| + j] == y[j];
    RunLengthShift(x, y, j, Alnums);
    SliceShift(x, y, j, j + n);
  }

  /** A separator in the second part is skipped there as well. */
  lemma ShiftSkip(x: string, y: string, j: nat)
    requires j < |y| && !IsAsciiAlnum(y[j])
    requires AlnumRunsFrom(x + y, |x| + j + 1) == AlnumRunsFrom(y, j + 1)
    ensures AlnumRunsFrom(x + y, |x| + j) == AlnumRunsFrom(y, j)
  {
    assert (x + y)[|x| + j] == y[j];
  }

  lemma SliceShift<T>(x: seq<T>, y: seq<T>, a: nat, b: nat)
    requires a <= b <= |y|
    ensures (x + y)[|x| + a..|x| + b] == y[a..b]
  {
  }

  /** A non-alphanumeric character after position |a| ends every token that starts before it. */
  lemma {:induction false} AlnumRunsFromStop(a: string, c: char, b: string, i: nat)
    requires i <= |a| && !IsAsciiAlnum(c)
    ensures AlnumRunsFrom(a + [c] + b, i) == AlnumRunsFrom(a, i) + AlnumRunsFrom(a + [c] + b, |a| + 1)
    decreases |a| - i
  {
    var s := a + [c] + b;
    if i == |a| {
      assert s[i] == c;
    } else {
      assert s[i] == a[i];
      if IsAsciiAlnum(a[i]) {
        var n := RunLength(a, i, Alnums);
        RunLengthStop(a, c, b, i, Alnums);
        assert s[i..i + n] == a[i..i + n];
        AlnumRunsFromStop(a, c, b, i + n);
        AppendAssoc([a[i..i + n]], AlnumRunsFrom(a, i + n), AlnumRunsFrom(s, |a| + 1));
      } else {
        AlnumRunsFromStop(a, c, b, i + 1);
      }
    }
  }

  /** A non-alphanumeric character separates tokens: the tokens on either side of it, in order. */
  lemma AlnumRunsSeparated(a: string, c: char, b: string)
    requires !IsAsciiAlnum(c)
    ensures AlnumRuns(a + [c] + b) == AlnumRuns(a) + AlnumRuns(b)
  {
    AlnumRunsFromStop(a, c, b, 0);
    AlnumRunsFromShift(a + [c], b, 0);
  }

  /** A non-empty alphanumeric word is one token, never cut into pieces. */
  lemma AlnumRunsWord(w: string)
    requires w != [] && forall k :: 0 <= k < |w| ==> IsAsciiAlnum(w[k])
    ensures AlnumRuns(w) == [w]
  {
    AllInFromAll(w, 0, |w|, Alnums);
    RunExact(w, 0, |w|, Alnums);
    assert IsAsciiAlnum(w[0]);
    assert AlnumRunsFrom(w, |w|) == [];
    assert w[0..|w|] == w;
    assert AlnumRunsFrom(w, 0) == [w[0..|w|]] + AlnumRunsFrom(w, |w|);
  }

  /** `line[:10]` */
  function Take10(line: string): (r: string)
    ensures |r| == Min(10, |line|) && r == line[..|r|]
  {
    line[..Min(10, |line|)]
  }

  /** The entries one stripped line contributes for the tokens toks, in token order. */
  function LineEntries(line: string, toks: seq<string>): seq<Row> {
    if toks == [] then []
    else
      var q := NormalizeEntry(toks[|toks| - 1]);
      LineEntries(line, toks[..|toks| - 1]) + (if q > 0.0 then [Row(Take10(line), q)] else [])
  }

  /** The entries of one raw line: none for a blank line, else one per token with a positive quantity. */
  function LineLedger(raw: string): (rows: seq<Row>)
    ensures forall k :: 0 <= k < |rows| ==>
      rows[k].date == Take10(Strip(raw)) && (rows[k].milkLtr == 1.0 || rows[k].milkLtr == 1.5)
  {
    var line := Strip(raw);
    LineEntriesShape(line, AlnumRuns(line));
    if line == [] then [] else LineEntries(line, AlnumRuns(line))
  }

  /** The entries of the lines, in line order. */
  function LedgerOfLines(lines: seq<string>): seq<Row> {
    if lines == [] then []
    else LedgerOfLines(lines[..|lines| - 1]) + LineLedger(lines[|lines| - 1])
  }

  /** `milk_entries` after the loop of utils.py lines 31-41. */
  function Ledger(text: string): (rows: seq<Row>)
    ensures forall k :: 0 <= k < |rows| ==> rows[k].milkLtr == 1.0 || rows[k].milkLtr == 1.5
  {
    LedgerOfLinesQuantities(Split(text, '\n'));
    LedgerOfLines(Split(text, '\n'))
  }

  /** The sum of `milk_ltr` over the rows. */
  function SumLitres(rows: seq<Row>): real {
    if rows == [] then 0.0 else SumLitres(rows[..|rows| - 1]) + rows[|rows| - 1].milkLtr
  }

  lemma AppendAssoc<T>(a: seq<T>, b: seq<T>, c: seq<T>)
    ensures (a + b) + c == a + (b + c)
  {
  }

  /** One token more on the current line: the rows so far gain its entry, if it has one. */
  lemma LineEntriesStep(done: seq<Row>, line: string, toks: seq<string>, j: nat)
    requires j < |toks|
    ensures var q := NormalizeEntry(toks[j]);
      done + LineEntries(line, toks[..j + 1])
      == if q > 0.0 then (done + LineEntries(line, toks[..j])) + [Row(Take10(line), q)]
         else done + LineEntries(line, toks[..j])
  {
    assert toks[..j + 1][..j] == toks[..j];
    var q := NormalizeEntry(toks[j]);
    if q > 0.0 {
      AppendAssoc(done, LineEntries(line, toks[..j]), [Row(Take10(line), q)]);
    } else {
      assert LineEntries(line, toks[..j]) + [] == LineEntries(line, toks[..j]);
    }
  }

  /** One line more: the ledger gains that line's entries. */
  lemma LedgerOfLinesStep(lines: seq<string>, i: nat)
    requires i < |lines|
    ensures LedgerOfLines(lines[..i + 1]) == LedgerOfLines(lines[..i]) + LineLedger(lines[i])
  {
    assert lines[..i + 1][..i] == lines[..i];
  }

  lemma SumLitresStep(rows: seq<Row>, row: Row)
    ensures SumLitres(rows + [row]) == SumLitres(rows) + row.milkLtr
  {
    assert (rows + [row])[..|rows|] == rows;
  }

  /** The rate and the fixed extra charge of the bill. */
  const Rate: real := 70.0
  const Extras: real := 150.0

  /** `grand_total = (total_milk * rate) + extras` */
  function GrandTotal(totalMilk: real): (g: real)
    ensures (g - Extras) / Rate == totalMilk
    ensures totalMilk >= 0.0 ==> g >= Extras
  {
    totalMilk * Rate + Extras
  }

  /** The ledger part of `process_image`: entries, running total and grand total for the OCR text. */
  method ProcessImage(text: string) returns (entries: seq<Row>, totalMilk: real, grandTotal: real)
    ensures entries == Ledger(text)
    ensures totalMilk == SumLitres(entries)
    ensures grandTotal == GrandTotal(totalMilk)
  {
    entries := [];
    totalMilk := 0.0;
    var lines := Split(text, '\n');
    var i := 0;
    while i < |lines|
      invariant i <= |lines|
      invariant entries == LedgerOfLines(lines[..i])
      invariant totalMilk == SumLitres(entries)
    {
      entries, totalMilk := ScanLine(entries, totalMilk, lines[i]);
      LedgerOfLinesStep(lines, i);
      i := i + 1;
    }
    assert lines[..i] == lines;
    grandTotal := totalMilk * Rate + Extras;
  }

  /** The body of the line loop of `process_image`: one line's tokens added to the entries and the running total. */
  method ScanLine(before: seq<Row>, totalBefore: real, raw: string) returns (entries: seq<Row>, totalMilk: real)
    requires totalBefore == SumLitres(before)
    ensures entries == before + LineLedger(raw)
    ensures totalMilk == SumLitres(entries)
  {
    entries, totalMilk := before, totalBefore;
    var line := Strip(raw);
    if line == [] {
      assert before + [] == before;
      return;
    }
    var tokens := AlnumRuns(line);
    var j := 0;
    while j < |tokens|
      invariant j <= |tokens|
      invariant entries == before + LineEntries(line, tokens[..j])
      invariant totalMilk == SumLitres(entries)
    {
      var qty := NormalizeEntry(tokens[j]);
      LineEntriesStep(before, line, tokens, j);
      if qty > 0.0 {
        var row := Row(Take10(line), qty);
        SumLitresStep(entries, row);
        entries := entries + [row];
        totalMilk := totalMilk + qty;
      }
      j := j + 1;
    }
    assert tokens[..j] == tokens;
  }

  /** The number of tokens with a positive quantity. */
  function PositiveCount(toks: seq<string>): nat {
    if toks == [] then 0
    else PositiveCount(toks[..|toks| - 1]) + (if NormalizeEntry(toks[|toks| - 1]) > 0.0 then 1 else 0)
  }

  /**
   * A line gives one entry per token with a positive quantity, repeated marks
   * included; every entry carries the line's first ten characters and a
   * quantity of 1 or 1.5.
   */
  lemma {:induction false} LineEntriesShape(line: string, toks: seq<string>)
    ensures |LineEntries(line, toks)| == PositiveCount(toks)
    ensures forall k :: 0 <= k < |LineEntries(line, toks)| ==>
      LineEntries(line, toks)[k].date == Take10(line)
      && (LineEntries(line, toks)[k].milkLtr == 1.0 || LineEntries(line, toks)[k].milkLtr == 1.5)
  {
    if toks != [] {
      LineEntriesShape(line, toks[..|toks| - 1]);
    }
  }

  /** The ledger of a sequence of lines is the ledgers of its parts, in line order. */
  lemma {:induction false} LedgerOfLinesAppend(a: seq<string>, b: seq<string>)
    ensures LedgerOfLines(a + b) == LedgerOfLines(a) + LedgerOfLines(b)
    decreases |b|
  {
    if b == [] {
      assert a + b == a;
    } else {
      var n := |b| - 1;
      LedgerOfLinesAppend(a, b[..n]);
      SplitLast(a, b);
      LedgerOfLinesSnoc(a + b[..n], b[n]);
      LedgerOfLinesSnoc(b[..n], b[n]);
      AppendAssoc(LedgerOfLines(a), LedgerOfLines(b[..n]), LineLedger(b[n]));
    }
  }

  lemma SplitLast<T>(a: seq<T>, b: seq<T>)
    requires b != []
    ensures b == b[..|b| - 1] + [b[|b| - 1]]
    ensures a + b == (a + b[..|b| - 1]) + [b[|b| - 1]]
  {
  }

  lemma LedgerOfLinesSnoc(lines: seq<string>, line: string)
    ensures LedgerOfLines(lines + [line]) == LedgerOfLines(lines) + LineLedger(line)
  {
    var l := lines + [line];
    assert l[..|l| - 1] == lines;
  }

  /** Only quantities of 1 and 1.5 litres enter the ledger. */
  lemma {:induction false} LedgerOfLinesQuantities(lines: seq<string>)
    ensures forall k :: 0 <= k < |LedgerOfLines(lines)| ==>
      LedgerOfLines(lines)[k].milkLtr == 1.0 || LedgerOfLines(lines)[k].milkLtr == 1.5
  {
    if lines != [] {
      var raw := lines[|lines| - 1];
      LedgerOfLinesQuantities(lines[..|lines| - 1]);
      var line := Strip(raw);
      if line != [] {
        LineEntriesShape(line, AlnumRuns(line));
      }
    }
  }

  /** The number of rows whose quantity is q. */
  function CountQty(rows: seq<Row>, q: real): nat {
    if rows == [] then 0
    else CountQty(rows[..|rows| - 1], q) + (if rows[|rows| - 1].milkLtr == q then 1 else 0)
  }

  /** On rows of 1 and 1.5 litres, the total is the one-litre count plus 1.5 times the other count. */
  lemma {:induction false} SumByCounts(rows: seq<Row>)
    requires forall k :: 0 <= k < |rows| ==> rows[k].milkLtr == 1.0 || rows[k].milkLtr == 1.5
    ensures SumLitres(rows) == CountQty(rows, 1.0) as real + 1.5 * CountQty(rows, 1.5) as real
  {
    if rows != [] {
      SumByCounts(rows[..|rows| - 1]);
    }
  }

  /**
   * The bill of a page: with n1 one-litre and n15 one-and-a-half-litre
   * entries, the total is n1 + 1.5 * n15 and the grand total 70 times that
   * plus 150.
   */
  lemma LedgerTotals(text: string)
    ensures var rows := Ledger(text);
      var total := CountQty(rows, 1.0) as real + 1.5 * CountQty(rows, 1.5) as real;
      SumLitres(rows) == total && GrandTotal(SumLitres(rows)) == 70.0 * total + 150.0
  {
    LedgerOfLinesQuantities(Split(text, '\n'));
    SumByCounts(Ledger(text));
  }

  /** `generate_csv`'s frame: the entries, then a TOTAL row and a GRAND TOTAL row. */
  method CsvRows(entries: seq<Row>, totalMilk: real, grandTotal: real) returns (rows: seq<Row>)
    ensures |rows| == |entries| + 2 && rows[..|entries|] == entries
    ensures rows[|entries|] == Row("TOTAL", totalMilk)
    ensures rows[|entries| + 1] == Row("GRAND TOTAL", grandTotal)
  {
    rows := entries;
    rows := rows + [Row("TOTAL", totalMilk)];
    rows := rows + [Row("GRAND TOTAL", grandTotal)];
  }

}
