/**
 * `parse_milk_text` (app.py): reading litres, rate, extra charge and amount
 * out of the OCR text of a milk register page, and the bill total that the
 * page computes from the values the user confirms.
 *
 * The text and the rate per litre are inputs: the OCR call and the rate
 * widget stay outside the model.
 */
module App {
  import opened PyText
  import opened TotalPattern
  import opened TokenPattern

  /** `text.replace('\r', '\n')` */
  function CrToLf(s: string): (r: string)
    ensures |r| == |s|
  {
    seq(|s|, k requires 0 <= k < |s| => if s[k] == '\r' then '\n' else s[k])
  }

  /** The `method` entry of the result: how the litres were found. */
  datatype Extraction = ExplicitTotal | HeuristicCount

  /** Only carriage returns change. */
  lemma CrToLfKeeps(text: string, c: char)
    requires c != '\r' && c != '\n'
    ensures c in CrToLf(text) ==> c in text
  {
    var t := CrToLf(text);
    if c in t {
      var k :| 0 <= k < |t| && t[k] == c;
      assert text[k] == c;
    }
  }

  /** The dictionary `parse_milk_text` returns. */
  datatype Parsed = Parsed(liters: nat, rate: nat, extra: nat, amount: nat, extraction: Extraction)

  /** The charge for a number of litres at a rate per litre. */
  function Charge(liters: nat, rate: nat): nat {
    liters * rate
  }

  /** What `parse_milk_text(text)` returns when the rate widget holds `rate`. */
  function ParseSpec(text: string, rate: nat): (r: Parsed)
    ensures r.extraction == ExplicitTotal <==> exists s :: IsTotalSpan(CrToLf(text), s)
    ensures r.extraction == HeuristicCount ==> r.rate == rate && r.extra == 0 && r.amount == r.liters * rate
  {
    var t := CrToLf(text);
    FindTotalLeftmost(t);
    match FindTotal(t)
    case Some(m) =>
      var extra := ExtraValue(t);
      Parsed(LitersGroup(t, m), RateGroup(t, m), extra, AmountGroup(t, m) + extra, ExplicitTotal)
    case None =>
      var summed := TokenSum(Tokens(t));
      var liters := if summed == 0 then OnesCount(t) else summed;
      Parsed(liters, rate, 0, Charge(liters, rate), HeuristicCount)
  }

  /** `parse_milk_text`, step by step: the two searches, then the token loop and the fallback. */
  method ParseMilkText(text: string, rate: nat) returns (r: Parsed)
    ensures r == ParseSpec(text, rate)
  {
    var t := CrToLf(text);
    var totalMatch := FindTotal(t);
    var extraMatch := FindExtra(t);
    if totalMatch.Some? {
      var m := totalMatch.value;
      var liters := LitersGroup(t, m);
      var detectedRate := RateGroup(t, m);
      var amount := AmountGroup(t, m) + (if extraMatch.Some? then ExtraGroup(t, extraMatch.value) else 0);
      var extra := if extraMatch.Some? then ExtraGroup(t, extraMatch.value) else 0;
      return Parsed(liters, detectedRate, extra, amount, ExplicitTotal);
    }
    var liters := SumTokens(Tokens(t));
    if liters == 0 {
      liters := OnesCount(t);
    }
    r := Parsed(liters, rate, 0, Charge(liters, rate), HeuristicCount);
  }

  /** The loop of app.py lines 45-49: add up the first number of every token that has one. */
  method SumTokens(tokens: seq<string>) returns (liters: nat)
    ensures liters == TokenSum(tokens)
  {
    liters := 0;
    var k := 0;
    while k < |tokens|
      invariant k <= |tokens|
      invariant liters == TokenSum(tokens[..k])
    {
      var m := FirstNumber(tokens[k]);
      if m.Some? {
        liters := liters + m.value;
      }
      assert tokens[..k + 1][..k] == tokens[..k];
      k := k + 1;
    }
    assert tokens[..k] == tokens;
  }

  /**
   * The explicit total wins whenever the text holds a total line anywhere:
   * litres and rate are the first two numbers of the leftmost one, the
   * amount is its stated amount plus the extra charge (0 when no `+ <digits>`
   * occurs), and the rate widget plays no part.
   */
  lemma ExplicitTotalWins(text: string, rate: nat, s: TotalSpan)
    requires IsTotalSpan(CrToLf(text), s)
    ensures var t := CrToLf(text); var r := ParseSpec(text, rate);
      && r.extraction == ExplicitTotal
      && FindTotal(t).Some? && FindTotal(t).value.start <= s.start
      && (s.start == FindTotal(t).value.start ==>
            && r.liters == LitersGroup(t, s) && r.rate == RateGroup(t, s)
            && FindTotal(t).value.amountStart == s.amountStart && s.amountEnd <= FindTotal(t).value.amountEnd)
      && r.amount == AmountGroup(t, FindTotal(t).value) + r.extra
      && r.extra == ExtraValue(t)
      && ((forall e :: !IsExtraSpan(t, e)) ==> r.extra == 0)
    ensures forall other: nat :: ParseSpec(text, other) == ParseSpec(text, rate)
  {
    var t := CrToLf(text);
    FindTotalLeftmost(t);
    FindExtraLeftmost(t);
  }

  /**
   * Without a total line the result is a heuristic count: the litres are the
   * sum of the leading numbers of the matched tokens, or, when that is 0,
   * the '1' characters on lines without a total glyph; the rate is the
   * widget's, there is no extra, and the amount is litres times rate.
   */
  lemma HeuristicWhenNoTotal(text: string, rate: nat)
    requires forall s :: !IsTotalSpan(CrToLf(text), s)
    ensures var t := CrToLf(text); var r := ParseSpec(text, rate);
      && r.extraction == HeuristicCount && r.rate == rate && r.extra == 0
      && r.amount == r.liters * rate
      && (TokenLiters(t) > 0 ==> r.liters == TokenLiters(t))
      && (TokenLiters(t) == 0 ==> r.liters == OnesCount(t))
  {
    var t := CrToLf(text);
    FindTotalLeftmost(t);
    FindTokensFromSound(t, 0);
    TokenSumLeading(t, FindTokens(t));
  }

  /** A total line needs an `=`, so a text without one is always counted heuristically. */
  lemma NoEqualsNoTotal(text: string, rate: nat)
    requires '=' !in text
    ensures ParseSpec(text, rate).extraction == HeuristicCount
  {
    var t := CrToLf(text);
    CrToLfKeeps(text, '=');
    forall s
      ensures !IsTotalSpan(t, s)
    {
      TotalSpanHasEquals(t, s);
    }
    FindTotalLeftmost(t);
  }

  /** Empty text, which is what a failed OCR call leaves, reads as nothing. */
  lemma EmptyText(rate: nat)
    ensures ParseSpec("", rate) == Parsed(0, rate, 0, 0, HeuristicCount)
  {
    assert CrToLf("") == [];
    assert LinePieces("") == [[]];
  }

  /** The decomposition of `39 x 70 = 2730` and its three numbers. */
  lemma ExampleSpan()
    ensures var t := "39 x 70 = 2730"; var s := TotalSpan(0, 2, 3, 5, 7, 8, 10, 14);
      IsTotalSpan(t, s) && LitersGroup(t, s) == 39 && RateGroup(t, s) == 70 && AmountGroup(t, s) == 2730
  {
    var t := "39 x 70 = 2730";
    var s := TotalSpan(0, 2, 3, 5, 7, 8, 10, 14);
    assert AllIn(t, 2, 3, Spaces) && AllIn(t, 4, 5, Spaces) && AllIn(t, 7, 8, Spaces) && AllIn(t, 9, 10, Spaces);
    assert AllIn(t, 1, 2, Digits) && AllIn(t, 6, 7, Digits) && AllIn(t, 13, 14, Digits) && AllIn(t, 12, 14, Digits);
    assert AllIn(t, 11, 14, Digits);
    assert IsTotalSpan(t, s);
    assert t[0..2] == "39" && t[5..7] == "70" && t[10..14] == "2730";
    assert "39"[..1] == "3" && "70"[..1] == "7" && "2730"[..3] == "273" && "273"[..2] == "27" && "27"[..1] == "2";
    assert "3"[..0] == [] && "7"[..0] == [] && "2"[..0] == [];
  }

  /** A total line that starts the text and ends it, with no `+` charge, is read as it stands. */
  lemma WholeTextTotal(text: string, rate: nat, s: TotalSpan)
    requires IsTotalSpan(CrToLf(text), s) && s.start == 0 && s.amountEnd == |text|
    requires forall e :: !IsExtraSpan(CrToLf(text), e)
    ensures var t := CrToLf(text);
      ParseSpec(text, rate) == Parsed(LitersGroup(t, s), RateGroup(t, s), 0, AmountGroup(t, s), ExplicitTotal)
  {
    var t := CrToLf(text);
    ExplicitTotalWins(text, rate, s);
    FindExtraLeftmost(t);
    var m := FindTotal(t).value;
    assert IsTotalSpan(t, s) && s.start == m.start;
    assert m.amountStart == s.amountStart && m.amountEnd == s.amountEnd;
  }

  /** The bill's example line `39 x 70 = 2730` reads as 39 litres at 70, amount 2730. */
  lemma ExplicitExample(rate: nat)
    ensures ParseSpec("39 x 70 = 2730", rate) == Parsed(39, 70, 0, 2730, ExplicitTotal)
  {
    var text := "39 x 70 = 2730";
    var t := CrToLf(text);
    assert t == text;
    ExampleSpan();
    forall e
      ensures !IsExtraSpan(t, e)
    {
      ExtraSpanHasPlus(t, e);
    }
    WholeTextTotal(text, rate, TotalSpan(0, 2, 3, 5, 7, 8, 10, 14));
  }

  /** `computed_total = user_liters * rate + user_extra` */
  function ComputedTotal(userLiters: nat, rate: nat, userExtra: nat): (total: nat)
    ensures total >= userExtra
    ensures rate >= 1 ==> total >= userLiters + userExtra
  {
    userLiters * rate + userExtra
  }

  /**
   * With the detected values left as they are, the final bill equals the
   * detected amount on the heuristic path; on the explicit path it does
   * exactly when the widget's rate times the litres equals the stated amount,
   * because the final bill uses the widget's rate, not the detected one.
   */
  lemma DefaultBill(text: string, rate: nat)
    ensures var r := ParseSpec(text, rate);
      r.extraction == HeuristicCount ==> ComputedTotal(r.liters, rate, r.extra) == r.amount
    ensures var r := ParseSpec(text, rate);
      r.extraction == ExplicitTotal ==>
        (ComputedTotal(r.liters, rate, r.extra) == r.amount <==> r.liters * rate == r.amount - r.extra)
  {
  }
}
