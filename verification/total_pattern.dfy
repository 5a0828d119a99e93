/**
 * The two `re.search` calls of `parse_milk_text` (app.py): the vendor's own
 * total line `(\d{1,4})\s*[×xX*]\s*(\d{1,5})\s*=\s*(\d{1,7})` and the extra
 * charge `\+\s*(\d{1,7})`.
 *
 * Each regex is given twice: declaratively, as the set of all ways a stretch
 * of text can be decomposed to fit the pattern (`IsTotalSpan`,
 * `IsExtraSpan`), and as a scanner that tries every start position from the
 * left (`FindTotal`, `FindExtra`).  The lemmas show that the scanner finds the
 * leftmost start at which any decomposition exists, that every decomposition
 * there has the same numbers, except that the last group is as long as
 * possible (greedy), and that it finds nothing exactly when no decomposition
 * exists anywhere.
 */
module TotalPattern {
  import opened PyText

  /** The multiplication glyphs `[×xX*]`. */
  predicate IsTimes(c: char) {
    c == '\U{D7}' || c == 'x' || c == 'X' || c == '*'
  }

  /** Positions of one match of the total pattern: three digit groups with the glyph and `=` between them. */
  datatype TotalSpan = TotalSpan(
    start: nat, litersEnd: nat, times: nat, rateStart: nat, rateEnd: nat,
    equals: nat, amountStart: nat, amountEnd: nat)

  /** `(\d{1,4})\s*[×xX*]`: the liters group, then whitespace, then the glyph at t[s.times]. */
  ghost predicate LitersPart(t: string, s: TotalSpan) {
    && s.start < s.litersEnd <= s.start + 4
    && s.litersEnd <= s.times < |t|
    && AllIn(t, s.start, s.litersEnd, Digits)
    && AllIn(t, s.litersEnd, s.times, Spaces)
    && IsTimes(t[s.times])
  }

  /** `\s*(\d{1,5})\s*=` after the glyph: the rate group, then whitespace, then `=` at t[s.equals]. */
  ghost predicate RatePart(t: string, s: TotalSpan) {
    && s.times < s.rateStart < s.rateEnd <= s.rateStart + 5
    && s.rateEnd <= s.equals < |t|
    && AllIn(t, s.times + 1, s.rateStart, Spaces)
    && AllIn(t, s.rateStart, s.rateEnd, Digits)
    && AllIn(t, s.rateEnd, s.equals, Spaces)
    && t[s.equals] == '='
  }

  /** `\s*(\d{1,7})` after the `=`: the amount group. */
  ghost predicate AmountPart(t: string, s: TotalSpan) {
    && s.equals < s.amountStart < s.amountEnd <= s.amountStart + 7
    && s.amountEnd <= |t|
    && AllIn(t, s.equals + 1, s.amountStart, Spaces)
    && AllIn(t, s.amountStart, s.amountEnd, Digits)
  }

  /** s is a way to match `(\d{1,4})\s*[×xX*]\s*(\d{1,5})\s*=\s*(\d{1,7})` against t[s.start..s.amountEnd]. */
  ghost predicate IsTotalSpan(t: string, s: TotalSpan) {
    LitersPart(t, s) && RatePart(t, s) && AmountPart(t, s)
  }

  /** Every total line holds an `=`. */
  lemma TotalSpanHasEquals(t: string, s: TotalSpan)
    ensures IsTotalSpan(t, s) ==> '=' in t
  {
    if IsTotalSpan(t, s) {
      assert t[s.equals] == '=';
    }
  }

  /** The match the regex engine reports when it tries start position i, if any. */
  function TotalAt(t: string, i: nat): Option<TotalSpan>
    requires i <= |t|
  {
    var litersEnd := i + RunLength(t, i, Digits);
    if litersEnd == i || litersEnd > i + 4 then None
    else TotalAfterLiters(t, i, litersEnd)
  }

  /** The rest of the match once `(\d{1,4})` has taken t[i..litersEnd]. */
  function TotalAfterLiters(t: string, i: nat, litersEnd: nat): Option<TotalSpan>
    requires i < litersEnd <= |t|
  {
    var times := litersEnd + RunLength(t, litersEnd, Spaces);
    if times == |t| || !IsTimes(t[times]) then None
    else TotalAfterTimes(t, i, litersEnd, times)
  }

  /** The rest of the match once the multiplication glyph sits at t[times]. */
  function TotalAfterTimes(t: string, i: nat, litersEnd: nat, times: nat): Option<TotalSpan>
    requires times < |t|
  {
    var rateStart := times + 1 + RunLength(t, times + 1, Spaces);
    var rateEnd := rateStart + RunLength(t, rateStart, Digits);
    var equals := rateEnd + RunLength(t, rateEnd, Spaces);
    if rateEnd == rateStart || rateEnd > rateStart + 5 || equals == |t| || t[equals] != '=' then None
    else TotalAfterEquals(t, TotalSpan(i, litersEnd, times, rateStart, rateEnd, equals, 0, 0))
  }

  /** The amount group, once everything up to the `=` at t[p.equals] has matched (p.amountStart and p.amountEnd are placeholders). */
  function TotalAfterEquals(t: string, p: TotalSpan): Option<TotalSpan>
    requires p.equals < |t|
  {
    var amountStart := p.equals + 1 + RunLength(t, p.equals + 1, Spaces);
    var digits := RunLength(t, amountStart, Digits);
    if digits == 0 then None
    else Some(p.(amountStart := amountStart, amountEnd := amountStart + Min(digits, 7)))
  }

  lemma AfterEqualsSound(t: string, p: TotalSpan)
    requires p.equals < |t|
    ensures TotalAfterEquals(t, p).Some? ==>
      var m := TotalAfterEquals(t, p).value;
      m == p.(amountStart := m.amountStart, amountEnd := m.amountEnd) && AmountPart(t, m)
  {
    var amountStart := p.equals + 1 + RunLength(t, p.equals + 1, Spaces);
    var digits := RunLength(t, amountStart, Digits);
    RunLengthAll(t, p.equals + 1, Spaces);
    RunLengthAll(t, amountStart, Digits);
    AllInPrefix(t, amountStart, amountStart + Min(digits, 7), amountStart + digits, Digits);
  }

  lemma AfterTimesSound(t: string, i: nat, litersEnd: nat, times: nat)
    requires times < |t|
    ensures TotalAfterTimes(t, i, litersEnd, times).Some? ==>
      var m := TotalAfterTimes(t, i, litersEnd, times).value;
      m.start == i && m.litersEnd == litersEnd && m.times == times && RatePart(t, m) && AmountPart(t, m)
  {
    if TotalAfterTimes(t, i, litersEnd, times).Some? {
      var rateStart := times + 1 + RunLength(t, times + 1, Spaces);
      var rateEnd := rateStart + RunLength(t, rateStart, Digits);
      var equals := rateEnd + RunLength(t, rateEnd, Spaces);
      assert !(rateEnd == rateStart || rateEnd > rateStart + 5 || equals == |t| || t[equals] != '=');
      var p := TotalSpan(i, litersEnd, times, rateStart, rateEnd, equals, 0, 0);
      assert TotalAfterTimes(t, i, litersEnd, times) == TotalAfterEquals(t, p);
      AfterEqualsSound(t, p);
      var m := TotalAfterEquals(t, p).value;
      assert m.times == times && m.rateStart == rateStart && m.rateEnd == rateEnd && m.equals == equals;
      RunLengthAll(t, times + 1, Spaces);
      RunLengthAll(t, rateStart, Digits);
      RunLengthAll(t, rateEnd, Spaces);
      assert RatePart(t, m);
    }
  }

  /** What TotalAt reports is a match starting at i. */
  lemma TotalAtSound(t: string, i: nat)
    requires i <= |t|
    ensures TotalAt(t, i).Some? ==> TotalAt(t, i).value.start == i && IsTotalSpan(t, TotalAt(t, i).value)
  {
    if TotalAt(t, i).Some? {
      var litersEnd := i + RunLength(t, i, Digits);
      assert !(litersEnd == i || litersEnd > i + 4);
      var times := litersEnd + RunLength(t, litersEnd, Spaces);
      assert !(times == |t| || !IsTimes(t[times]));
      assert TotalAt(t, i) == TotalAfterTimes(t, i, litersEnd, times);
      AfterTimesSound(t, i, litersEnd, times);
      var m := TotalAt(t, i).value;
      RunLengthAll(t, i, Digits);
      RunLengthAll(t, litersEnd, Spaces);
      assert LitersPart(t, m);
    }
  }

  lemma AfterEqualsComplete(t: string, p: TotalSpan, s: TotalSpan)
    requires AmountPart(t, s) && p.equals == s.equals
    ensures TotalAfterEquals(t, p).Some?
    ensures TotalAfterEquals(t, p).value.amountStart == s.amountStart
    ensures TotalAfterEquals(t, p).value == p.(amountStart := s.amountStart, amountEnd := TotalAfterEquals(t, p).value.amountEnd)
    ensures s.amountEnd <= TotalAfterEquals(t, p).value.amountEnd
  {
    AllInAt(t, s.amountStart, s.amountEnd, Digits, s.amountStart);
    RunExact(t, s.equals + 1, s.amountStart, Spaces);
    RunBound(t, s.amountStart, s.amountEnd, Digits);
  }

  lemma AfterTimesComplete(t: string, i: nat, litersEnd: nat, s: TotalSpan)
    requires RatePart(t, s) && AmountPart(t, s)
    ensures TotalAfterTimes(t, i, litersEnd, s.times).Some?
    ensures var m := TotalAfterTimes(t, i, litersEnd, s.times).value;
      m.start == i && m.litersEnd == litersEnd && m.times == s.times && m.rateStart == s.rateStart
      && m.rateEnd == s.rateEnd && m.equals == s.equals && m.amountStart == s.amountStart
      && s.amountEnd <= m.amountEnd
  {
    AllInAt(t, s.rateStart, s.rateEnd, Digits, s.rateStart);
    RunExact(t, s.times + 1, s.rateStart, Spaces);
    if s.rateEnd < s.equals {
      AllInAt(t, s.rateEnd, s.equals, Spaces, s.rateEnd);
    }
    RunExact(t, s.rateStart, s.rateEnd, Digits);
    RunExact(t, s.rateEnd, s.equals, Spaces);
    AfterEqualsComplete(t, TotalSpan(i, litersEnd, s.times, s.rateStart, s.rateEnd, s.equals, 0, 0), s);
  }

  /** Every decomposition starting at s.start is found by TotalAt, with the same groups and a last group no shorter. */
  lemma TotalAtComplete(t: string, s: TotalSpan)
    requires IsTotalSpan(t, s)
    ensures TotalAt(t, s.start).Some?
    ensures var m := TotalAt(t, s.start).value;
      m.litersEnd == s.litersEnd && m.times == s.times && m.rateStart == s.rateStart
      && m.rateEnd == s.rateEnd && m.equals == s.equals && m.amountStart == s.amountStart
      && s.amountEnd <= m.amountEnd
  {
    if s.litersEnd < s.times {
      AllInAt(t, s.litersEnd, s.times, Spaces, s.litersEnd);
    }
    RunExact(t, s.start, s.litersEnd, Digits);
    RunExact(t, s.litersEnd, s.times, Spaces);
    assert LitersPart(t, s);
    assert TotalAt(t, s.start) == TotalAfterLiters(t, s.start, s.litersEnd);
    assert TotalAfterLiters(t, s.start, s.litersEnd) == TotalAfterTimes(t, s.start, s.litersEnd, s.times);
    AfterTimesComplete(t, s.start, s.litersEnd, s);
  }

  /** `re.search` from position i onwards: the first start position at which the pattern matches. */
  function FindTotalFrom(t: string, i: nat): (r: Option<TotalSpan>)
    requires i <= |t|
    ensures r.Some? ==> i <= r.value.start && IsTotalSpan(t, r.value)
    ensures r.Some? ==> r == TotalAt(t, r.value.start)
    decreases |t| - i
  {
    if i == |t| then None
    else if TotalAt(t, i).Some? then TotalAtSound(t, i); TotalAt(t, i)
    else FindTotalFrom(t, i + 1)
  }

  /** `re.search(r'(\d{1,4})\s*[×xX*]\s*(\d{1,5})\s*=\s*(\d{1,7})', t)` */
  function FindTotal(t: string): (r: Option<TotalSpan>)
    ensures r.Some? ==> IsTotalSpan(t, r.value)
  {
    FindTotalFrom(t, 0)
  }

  /** Where the scanner finds nothing, no decomposition starts. */
  lemma NoTotalAt(t: string, i: nat)
    requires i < |t| && TotalAt(t, i).None?
    ensures forall s :: IsTotalSpan(t, s) ==> s.start != i
  {
    forall s | IsTotalSpan(t, s) && s.start == i
      ensures false
    {
      TotalAtComplete(t, s);
    }
  }

  lemma {:induction false} FindTotalFromLeftmost(t: string, i: nat)
    requires i <= |t|
    ensures FindTotalFrom(t, i).Some? ==>
      forall s :: IsTotalSpan(t, s) && i <= s.start ==> FindTotalFrom(t, i).value.start <= s.start
    ensures FindTotalFrom(t, i).None? ==> forall s :: IsTotalSpan(t, s) ==> s.start < i
    decreases |t| - i
  {
    if i < |t| {
      if TotalAt(t, i).None? {
        FindTotalFromLeftmost(t, i + 1);
        NoTotalAt(t, i);
      }
    }
  }

  /**
   * FindTotal is the leftmost match: it reports the smallest start position at
   * which the pattern can match; every way of matching there reads the same
   * liters and rate groups and an amount group no longer than the reported one
   * (so the report is the one greedy backtracking picks); and it reports
   * nothing exactly when the pattern matches nowhere.
   */
  lemma FindTotalLeftmost(t: string)
    ensures FindTotal(t).Some? ==> forall s :: IsTotalSpan(t, s) ==> FindTotal(t).value.start <= s.start
    ensures FindTotal(t).Some? ==> forall s :: IsTotalSpan(t, s) && s.start == FindTotal(t).value.start ==>
      var m := FindTotal(t).value;
      m.litersEnd == s.litersEnd && m.rateStart == s.rateStart && m.rateEnd == s.rateEnd
      && m.amountStart == s.amountStart && s.amountEnd <= m.amountEnd
    ensures FindTotal(t).None? <==> forall s :: !IsTotalSpan(t, s)
  {
    FindTotalFromLeftmost(t, 0);
    if FindTotal(t).Some? {
      var m := FindTotal(t).value;
      forall s | IsTotalSpan(t, s) && s.start == m.start
        ensures m.litersEnd == s.litersEnd && m.rateStart == s.rateStart && m.rateEnd == s.rateEnd
          && m.amountStart == s.amountStart && s.amountEnd <= m.amountEnd
      {
        TotalAtComplete(t, s);
      }
    }
  }

  /** `int(total_match.group(1))` */
  function LitersGroup(t: string, s: TotalSpan): nat
    requires IsTotalSpan(t, s)
  {
    AllDigits(t, s.start, s.litersEnd);
    DigitsValue(t[s.start..s.litersEnd])
  }

  /** `int(total_match.group(2))` */
  function RateGroup(t: string, s: TotalSpan): nat
    requires IsTotalSpan(t, s)
  {
    AllDigits(t, s.rateStart, s.rateEnd);
    DigitsValue(t[s.rateStart..s.rateEnd])
  }

  /** `int(total_match.group(3))` */
  function AmountGroup(t: string, s: TotalSpan): nat
    requires IsTotalSpan(t, s)
  {
    AllDigits(t, s.amountStart, s.amountEnd);
    DigitsValue(t[s.amountStart..s.amountEnd])
  }

  /** Positions of one match of `\+\s*(\d{1,7})`. */
  datatype ExtraSpan = ExtraSpan(plus: nat, digitsStart: nat, digitsEnd: nat)

  /** s is a way to match `\+\s*(\d{1,7})` against t[s.plus..s.digitsEnd]. */
  ghost predicate IsExtraSpan(t: string, s: ExtraSpan) {
    && s.plus < s.digitsStart < s.digitsEnd <= s.digitsStart + 7
    && s.digitsEnd <= |t|
    && t[s.plus] == '+'
    && AllIn(t, s.plus + 1, s.digitsStart, Spaces)
    && AllIn(t, s.digitsStart, s.digitsEnd, Digits)
  }

  /** Every extra charge holds a `+`. */
  lemma ExtraSpanHasPlus(t: string, s: ExtraSpan)
    ensures IsExtraSpan(t, s) ==> '+' in t
  {
    if IsExtraSpan(t, s) {
      assert t[s.plus] == '+';
    }
  }

  function ExtraAt(t: string, i: nat): (r: Option<ExtraSpan>)
    requires i < |t|
    ensures r.Some? ==> r.value.plus == i && IsExtraSpan(t, r.value)
  {
    var digitsStart := i + 1 + RunLength(t, i + 1, Spaces);
    var digits := RunLength(t, digitsStart, Digits);
    RunLengthAll(t, i + 1, Spaces);
    RunLengthAll(t, digitsStart, Digits);
    AllInPrefix(t, digitsStart, digitsStart + Min(digits, 7), digitsStart + digits, Digits);
    if t[i] != '+' || digits == 0 then None
    else Some(ExtraSpan(i, digitsStart, digitsStart + Min(digits, 7)))
  }

  lemma ExtraAtComplete(t: string, s: ExtraSpan)
    requires IsExtraSpan(t, s)
    ensures ExtraAt(t, s.plus).Some?
    ensures ExtraAt(t, s.plus).value.digitsStart == s.digitsStart
    ensures s.digitsEnd <= ExtraAt(t, s.plus).value.digitsEnd
  {
    AllInAt(t, s.digitsStart, s.digitsEnd, Digits, s.digitsStart);
    RunExact(t, s.plus + 1, s.digitsStart, Spaces);
    RunBound(t, s.digitsStart, s.digitsEnd, Digits);
  }

  function FindExtraFrom(t: string, i: nat): (r: Option<ExtraSpan>)
    requires i <= |t|
    ensures r.Some? ==> i <= r.value.plus && IsExtraSpan(t, r.value)
    decreases |t| - i
  {
    if i == |t| then None
    else if ExtraAt(t, i).Some? then ExtraAt(t, i)
    else FindExtraFrom(t, i + 1)
  }

  /** `re.search(r'\+\s*(\d{1,7})', t)` */
  function FindExtra(t: string): (r: Option<ExtraSpan>)
    ensures r.Some? ==> IsExtraSpan(t, r.value)
  {
    FindExtraFrom(t, 0)
  }

  lemma {:induction false} FindExtraFromLeftmost(t: string, i: nat)
    requires i <= |t|
    ensures FindExtraFrom(t, i).Some? ==> FindExtraFrom(t, i) == ExtraAt(t, FindExtraFrom(t, i).value.plus)
    ensures FindExtraFrom(t, i).Some? ==>
      forall s :: IsExtraSpan(t, s) && i <= s.plus ==> FindExtraFrom(t, i).value.plus <= s.plus
    ensures FindExtraFrom(t, i).None? ==> forall s :: IsExtraSpan(t, s) ==> s.plus < i
    decreases |t| - i
  {
    if i < |t| {
      if ExtraAt(t, i).None? {
        FindExtraFromLeftmost(t, i + 1);
        forall s | IsExtraSpan(t, s) && s.plus == i
          ensures false
        {
          ExtraAtComplete(t, s);
        }
      }
    }
  }

  /**
   * FindExtra is the leftmost `+` followed by optional whitespace and a digit;
   * its digit group is the longest any match there allows (at most seven
   * digits); nothing is found exactly when no such `+` exists.
   */
  lemma FindExtraLeftmost(t: string)
    ensures FindExtra(t).Some? ==> forall s :: IsExtraSpan(t, s) ==> FindExtra(t).value.plus <= s.plus
    ensures FindExtra(t).Some? ==> forall s :: IsExtraSpan(t, s) && s.plus == FindExtra(t).value.plus ==>
      s.digitsStart == FindExtra(t).value.digitsStart && s.digitsEnd <= FindExtra(t).value.digitsEnd
    ensures FindExtra(t).None? <==> forall s :: !IsExtraSpan(t, s)
  {
    FindExtraFromLeftmost(t, 0);
    if FindExtra(t).Some? {
      forall s | IsExtraSpan(t, s) && s.plus == FindExtra(t).value.plus
        ensures s.digitsStart == FindExtra(t).value.digitsStart && s.digitsEnd <= FindExtra(t).value.digitsEnd
      {
        ExtraAtComplete(t, s);
      }
    }
  }

  /** `int(extra_match.group(1))`: at most seven digits, so below ten million. */
  function ExtraGroup(t: string, s: ExtraSpan): (v: nat)
    requires IsExtraSpan(t, s)
    ensures v <= 9999999
  {
    AllDigits(t, s.digitsStart, s.digitsEnd);
    Pow10Mono(s.digitsEnd - s.digitsStart, 7);
    assert Pow10(7) == 10000000;
    DigitsValue(t[s.digitsStart..s.digitsEnd])
  }

  /** `int(extra_match.group(1)) if extra_match else 0`: 0 exactly when no extra charge matches, at most seven digits otherwise. */
  function ExtraValue(t: string): (v: nat)
    ensures (forall s :: !IsExtraSpan(t, s)) ==> v == 0
    ensures v <= 9999999
  {
    FindExtraLeftmost(t);
    match FindExtra(t)
    case Some(s) => ExtraGroup(t, s)
    case None => 0
  }
}
