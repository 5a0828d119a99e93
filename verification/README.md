# Milk register digitizer — a Dafny model of its text-to-bill logic

The milk register digitizer photographs a handwritten milk register, runs OCR
on it and turns the text into litres and a bill. This project models the
part that decides the numbers. It takes the OCR text as input.

- **`parse_milk_text`** (app.py) has three paths, tried in order:
  - the vendor's own total line `<litres> × <rate> = <amount>`, with an optional `+ <extra>` anywhere in the text;
  - otherwise, the sum of the leading numbers of the tokens `911`, a standalone `1`, `<n> ltr` and `<n> L`;
  - otherwise, the count of `'1'` characters on lines that carry no total glyph.
- **The final bill** is `litres × rate + extra`, computed from the values the user confirms.
- **`normalize_entry`** (utils.py) maps an OCR token to 0, 1 or 1.5 litres.
- **`process_image`** (utils.py) builds a ledger: one row per recognised mark, labelled with its line's first ten characters, plus a running total and a grand total at 70 per litre plus 150.
- **`generate_csv`** (utils.py) lays the ledger out as rows, then `TOTAL` and `GRAND TOTAL`.

The files, one module each:

- **`pytext.dfy`**: the part of Python's text handling the code uses.
  - The character classes of `str.isspace` and the regex classes `\d`, `\s` and `\w`.
  - Maximal runs of one class, `int()` of a digit string and `str.count`.
  - `str.split`, `str.splitlines` and `str.strip`.
- **`total_pattern.dfy`**: the two `re.search` calls of `parse_milk_text`.
  - Each regex is given twice:
    - as a predicate naming every way a stretch of text fits the pattern;
    - as a left-to-right scanner that does what Python's backtracking engine does.
  - Lemmas show that the scanner reports the leftmost match and the groups the engine would capture, and nothing when no match exists.
- **`token_pattern.dfy`**: the case-insensitive `re.findall` of the token regex, in the same two forms, and the reading of a number out of each token.
  - Also the fallback count of `'1'` characters.
- **`app.dfy`**: `parse_milk_text` as a specification function (`ParseSpec`) and as a method with the source's token loop (`ParseMilkText`), plus the final bill formula.
- **`utils.dfy`**: `normalize_entry`, the ledger loops of `process_image` as a method proved against a ledger function, and the CSV row layout.

## Model

| member | source | states |
|---|---|---|
| PyText.Split | utils.py:31 | `text.split("\n")` gives at least one piece, and no piece contains the separator |
| PyText.SplitJoin | utils.py:31 | joining the pieces with the separator gives back the text, so no character is lost or reordered |
| PyText.SplitAtSep | utils.py:31 | a separator ends the current piece: a separator-free prefix, then a separator, gives that prefix as the first piece, followed by the split of the rest |
| PyText.JoinSplit | utils.py:31 | splitting a join of separator-free pieces gives back those pieces. With SplitJoin, the split is the one sequence of separator-free pieces whose join is the text |
| PyText.Strip | utils.py:32 | a stripped line neither starts nor ends with whitespace |
| PyText.StripLeftSlice | utils.py:32 | stripping the left end keeps a suffix of the line and removes only whitespace |
| PyText.StripRightSlice | utils.py:32 | stripping the right end removes only trailing whitespace: everything after the kept prefix is whitespace |
| PyText.StripSlice | utils.py:32 | the stripped line is a contiguous stretch of the line, and everything before and after it is whitespace. With Strip's own contract, it is the line without its surrounding whitespace |
| PyText.SplitLines | app.py:52 | `text.splitlines()`: no line holds a line break. LinePiecesNoBreak, LinePiecesAtBreak, LinePiecesAtCrLf and SplitLinesEnds say where the text is cut |
| PyText.LinePiecesNoBreak | app.py:52 | a stretch without a line break is a single piece |
| PyText.LinePiecesAtBreak | app.py:52 | each break character of `str.splitlines` (`\n`, `\r`, vertical tab, form feed, the separators `\x1c`-`\x1e`, `\x85`, U+2028, U+2029) ends the piece before it when it follows a break-free prefix. A `\r` followed by `\n` is the exception |
| PyText.LinePiecesAtCrLf | app.py:52 | `\r\n` is a single break: it ends the piece before it and starts no empty piece |
| PyText.SplitLinesEnds | app.py:52 | a non-empty break-free text is one line, a break at the end adds no empty line, and the empty text has no lines |
| PyText.CountChar | app.py:53 | `ln.count('1')` is at most the line's length, and 0 exactly when the line holds no '1' |
| PyText.DigitsValue | app.py:37-39 | `int()` of a string of n ASCII digits is below 10^n |
| TotalPattern.TotalAtSound | app.py:34 | whatever the scanner reports at a start position is a genuine match of `(\d{1,4})\s*[×xX*]\s*(\d{1,5})\s*=\s*(\d{1,7})` starting there |
| TotalPattern.TotalAtComplete | app.py:34 | every match that starts at a position is seen by the scanner there. The scanner reports the same litres, glyph, rate and `=` positions, and an amount group no shorter (greedy `\d{1,7}`) |
| TotalPattern.FindTotalFrom | app.py:34 | searching from position i reports a genuine match at or after i, namely what the engine reports at that match's start |
| TotalPattern.FindTotalFromLeftmost | app.py:34 | searching from i reports no match when none starts at or after i, and otherwise the leftmost one |
| TotalPattern.FindTotalLeftmost | app.py:34 | `re.search` reports the leftmost match. Any other match at the same start has the same litres and rate groups and an amount group that is no longer. No result exactly when the text holds no match at all |
| TotalPattern.FindTotal | app.py:34 | a reported total line is a genuine match of the pattern. FindTotalLeftmost shows it is the match `re.search` reports |
| TotalPattern.TotalSpanHasEquals | app.py:34 | every total match contains an `=` |
| TotalPattern.ExtraAtComplete | app.py:35 | every match of `\+\s*(\d{1,7})` starting at a `+` is seen by the scanner there, with the same digit start and a group no shorter |
| TotalPattern.FindExtraFrom | app.py:35 | searching from position i reports a genuine extra-charge match at or after i |
| TotalPattern.FindExtraFromLeftmost | app.py:35 | searching from i reports the leftmost extra-charge match at or after i, or none when there is none |
| TotalPattern.FindExtraLeftmost | app.py:35 | the extra-charge search reports the leftmost `+`, with the longest digit group there, and nothing exactly when no match exists |
| TotalPattern.ExtraSpanHasPlus | app.py:35 | every extra-charge match contains a `+` |
| TotalPattern.FindExtra | app.py:35 | a reported extra charge is a genuine match of `\+\s*(\d{1,7})`. FindExtraLeftmost shows it is the match `re.search` reports |
| TotalPattern.ExtraGroup | app.py:39 | the extra charge's group has at most seven digits, so its value is below ten million |
| TotalPattern.ExtraValue | app.py:35-41 | the extra charge is 0 when the text holds no `+` match, and below ten million otherwise |
| TokenPattern.TokenAt | app.py:44 | a token reported at position i starts at i and ends inside the text |
| TokenPattern.TokenAtSound | app.py:44 | a reported token matches the alternative it names: `\b` on both sides, a digit run, then whitespace and `ltr` or `L` in any case for the unit alternatives |
| TokenPattern.TokenAtComplete | app.py:44 | if any alternative matches at a position, the engine reports a token there, of that alternative or an earlier one. Of the same alternative, it reports exactly that match |
| TokenPattern.Nine11Complete | app.py:44 | a `\b911\b` match is always the token reported at its start |
| TokenPattern.OneComplete | app.py:44 | a `\b1\b` match yields a token at its start, from `911` or `1` |
| TokenPattern.UnitComplete | app.py:44 | a `\b\d+\s*ltr\b` or `\b\d+\s*L\b` match yields a token at its start, of that alternative or an earlier one |
| TokenPattern.FindTokensFrom | app.py:44 | `findall` from position i reports tokens that lie at or after i, inside the text |
| TokenPattern.FindTokensFromSound | app.py:44 | every token `findall` reports is a match of one of the four alternatives |
| TokenPattern.FindTokensFromOrdered | app.py:44 | the reported tokens are in text order and do not overlap |
| TokenPattern.FindTokensFromCovers | app.py:44 | every position where some alternative matches lies inside a reported token |
| TokenPattern.FindTokens | app.py:44 | `re.findall` over the whole text reports non-empty spans inside the text. FindTokensFromSound, FindTokensFromOrdered and FindTokensFromCovers say which |
| TokenPattern.Texts | app.py:44 | there is one token string per reported match |
| TokenPattern.Tokens | app.py:44 | the token list has one non-empty string per span FindTokens reports |
| TokenPattern.FirstNumberFromNone | app.py:47-48 | `re.search(r'(\d+)', tok)` finds nothing exactly when the token holds no digit |
| TokenPattern.FirstNumber | app.py:47-48 | `re.search(r'(\d+)', tok)` on the whole token finds nothing exactly when the token holds no digit |
| TokenPattern.NumberOfToken | app.py:47-49 | the number read from a matched token is the value of its leading digit run |
| TokenPattern.NumberOf | app.py:47-49 | a token without a digit adds nothing. NumberOfToken gives the value of a matched token |
| TokenPattern.TokenSumLeading | app.py:45-49 | the token loop's sum is the sum of the leading digit runs of the matched tokens |
| TokenPattern.TokenValues | app.py:44-49 | `911` counts 911, `1` counts 1, `5 ltr` counts 5 and `10 L` counts 10 |
| TokenPattern.NonTotalLines | app.py:52 | the kept lines hold none of `=`, `x`, `X`, `×`, and there are no more of them than lines |
| TokenPattern.NonTotalLinesOne | app.py:52 | a single line is kept exactly when it holds none of the glyphs |
| TokenPattern.NonTotalLinesAppend | app.py:52 | the filter works line by line and keeps the order: filtering joined lists is joining the filtered lists. With NonTotalLinesOne, every glyph-free line is kept, in order, and every glyph line dropped |
| TokenPattern.NonTotalLinesBound | app.py:52-53 | dropping glyph lines never raises the '1' count. When no line holds a glyph, the filter keeps the list as it is |
| TokenPattern.SumOnesPieces | app.py:52-53 | splitting at line breaks loses no '1' |
| TokenPattern.LinesOnes | app.py:52-53 | the lines of `splitlines()` hold exactly the text's '1' characters |
| TokenPattern.OnesCountBound | app.py:50-54 | the fallback never counts more than the '1' characters of the whole text, and counts exactly those when no glyph occurs |
| TokenPattern.OnesCountExample | app.py:52-54 | in `1\nx1` the second line holds `x` and is dropped whole, so the fallback is 1 |
| TokenPattern.OnesCount | app.py:52-54 | the fallback count never exceeds the number of '1' characters in the text. OnesCountBound adds equality for glyph-free text |
| TokenPattern.LineBreakLines | app.py:52 | `1<VT>x` splits into the lines `1` and `x`: a vertical tab is a line break |
| TokenPattern.OnesCountLineBreak | app.py:52-54 | in `1<VT>x` only the line `x` holds a glyph and is dropped, so the fallback is 1 |
| App.CrToLf | app.py:32 | replacing `\r` by `\n` keeps the length |
| App.CrToLfKeeps | app.py:32 | any character other than `\r` and `\n` that occurs after the replacement occurred before it |
| App.ParseMilkText | app.py:31-55 | the step-by-step method (two searches, the token loop, the fallback) returns the value of `ParseSpec` |
| App.ParseSpec | app.py:31-55 | `parse_milk_text`: the method is `explicit_total` exactly when the text, with `\r` read as `\n`, holds a total line. On `heuristic_count` the rate is the widget's, extra is 0 and amount is litres × rate. ExplicitTotalWins and HeuristicWhenNoTotal give the values |
| App.SumTokens | app.py:45-49 | the loop adds the first number of every token that has one |
| App.ExplicitTotalWins | app.py:34-42 | a total line anywhere means `explicit_total`. Litres and rate come from the leftmost total line. The amount is its stated amount plus the extra charge, which is 0 when no `+` charge occurs. The rate widget has no influence |
| App.HeuristicWhenNoTotal | app.py:43-55 | without a total line the method is `heuristic_count`, with the widget's rate, extra 0 and amount litres × rate. Litres are the token sum, or the '1' count when that sum is 0 |
| App.NoEqualsNoTotal | app.py:34-44 | a text without `=` is always counted heuristically |
| App.EmptyText | app.py:45-55 | empty text, which a failed OCR call leaves (app.py:63-67), gives 0 litres, amount 0 and `heuristic_count` |
| App.ExampleSpan | app.py:33-34 | `39 x 70 = 2730` is a total match with groups 39, 70 and 2730 |
| App.WholeTextTotal | app.py:36-42 | a total line that makes up the whole text, with no `+` charge, is read exactly as written |
| App.ExplicitExample | app.py:33-42 | the text `39 x 70 = 2730` gives 39 litres at 70, extra 0, amount 2730, `explicit_total` |
| App.ComputedTotal | app.py:82 | the final bill is never below the extra charge, and with a rate of at least 1 never below litres plus extra |
| App.DefaultBill | app.py:80-83 | with the detected values left unchanged, the final bill equals the detected amount on the heuristic path. On the explicit path it does so exactly when widget rate × litres equals the stated amount |
| Utils.Lower | utils.py:11 | lowering keeps the length |
| Utils.RemoveSpaces | utils.py:11 | removing spaces leaves no space and never lengthens (RemoveSpacesChar and RemoveSpacesAppend below say what it keeps) |
| Utils.RemoveSpacesChar | utils.py:11 | a single space is removed, and any other single character is kept |
| Utils.RemoveSpacesAppend | utils.py:11 | space removal works piece by piece, in order. With RemoveSpacesChar, it keeps exactly the non-space characters, in order |
| Utils.NormalizeEntry | utils.py:9-19 | the quantity is 0, 1 or 1.5. It is 1.5 exactly when the lowered, space-free token is in the six-mark table, and 1 exactly when that token is `9` |
| Utils.Canon | utils.py:11 | `token.lower().replace(" ", "")` holds no space and no capital letter, and is no longer than the token. CanonIdempotent shows that canonicalising twice changes nothing |
| Utils.LowerIdempotent | utils.py:11 | lowering twice is lowering once |
| Utils.LowerRemoveSpaces | utils.py:11 | lowering and removing spaces commute |
| Utils.RemoveSpacesIdempotent | utils.py:11 | a string without spaces is left alone |
| Utils.CanonIdempotent | utils.py:11 | normalising a normalised token changes nothing |
| Utils.NormalizeInsensitive | utils.py:11-19 | a token and its lowered, space-free form get the same quantity |
| Utils.NormalizeExamples | utils.py:14-19 | `9 I I` gives 1.5, `9` gives 1, `x` gives 0, and `9Il` gives 0 |
| Utils.AlnumRunsFromChars | utils.py:36 | the tokens `[0-9a-zA-Z]+` of a line, joined, are exactly its alphanumeric characters in order |
| Utils.AlnumRuns | utils.py:36 | `re.findall(r"[0-9a-zA-Z]+", line)`: no token is empty, and the tokens joined are the line's alphanumeric characters in order. AlnumRunsWord and AlnumRunsSeparated add that each token is a maximal run |
| Utils.AlnumRunsFromNonEmpty | utils.py:36 | no token is empty |
| Utils.AlnumRunsFromShift | utils.py:36 | the tokens found from a position in the second part of a string do not depend on the first part |
| Utils.AlnumRunsFromStop | utils.py:36 | a non-alphanumeric character ends every token that starts before it |
| Utils.AlnumRunsSeparated | utils.py:36 | the tokens of a line split at a non-alphanumeric character are the tokens on its left followed by the tokens on its right |
| Utils.AlnumRunsWord | utils.py:36 | a non-empty all-alphanumeric word is a single token, never cut (`911` stays `911`). With AlnumRunsSeparated, the tokens are exactly the maximal alphanumeric runs, in order |
| Utils.Take10 | utils.py:40 | the date label is the first min(10, length) characters of the line |
| Utils.LineLedger | utils.py:32-41 | every entry of one line carries the line's ten-character label and 1 or 1.5 litres. LineEntriesShape counts them |
| Utils.Ledger | utils.py:31-41 | every entry of the ledger holds 1 or 1.5 litres. LedgerOfLinesAppend shows that the ledger follows the lines in order |
| Utils.GrandTotal | utils.py:43-45 | the total can be recovered from the grand total as (grand − 150) / 70, and a non-negative total gives a grand total of at least 150 |
| Utils.LineEntriesStep | utils.py:37-40 | a token with a positive quantity appends exactly one row, and any other token appends none |
| Utils.SumLitresStep | utils.py:41 | adding a row's quantity to the running total keeps it equal to the sum over the rows |
| Utils.ProcessImage | utils.py:27-47 | the entries are the ledger of the text, the running total is the sum of their quantities, and the grand total is total × 70 + 150 |
| Utils.ScanLine | utils.py:32-41 | one line's pass appends that line's entries, and none for a blank line, keeping the running total equal to the sum |
| Utils.LineEntriesShape | utils.py:37-40 | a line gives one entry per token with a positive quantity, repeated marks included. Each entry carries the line's ten-character label and a quantity of 1 or 1.5 |
| Utils.LedgerOfLinesAppend | utils.py:31-41 | entries follow line order: the ledger of joined lines is the ledgers of the parts, joined |
| Utils.LedgerOfLinesQuantities | utils.py:31-41 | every ledger entry has quantity 1 or 1.5 |
| Utils.SumByCounts | utils.py:41 | a running total over entries of 1 and 1.5 is (number of 1s) + 1.5 × (number of 1.5s) |
| Utils.LedgerTotals | utils.py:43-45 | the total of any text's ledger is counted in whole and half-and-whole marks, and the grand total is 70 × total + 150 |
| Utils.CsvRows | utils.py:52-54 | the rows are the entries followed by exactly `("TOTAL", total)` and `("GRAND TOTAL", grand total)` |

### Notes on the code as written

Each note below describes what the code does where a reader of its comments or
names might expect something else. The model follows the code.

- **Fallback on `line1\nx1x\n`:** it counts 1, not 2. The line `x1x` holds `x`, so the filter at app.py:52 drops it whole. `TokenPattern.OnesCountExample` shows the same thing on `1\nx1`.
- **Ledger labels:** a ledger row's label is the first ten characters of the stripped line (utils.py:40), not a date found in it. For `01/08 9` the label is `01/08 9`.
- **The token `9Il`:** it lowers to `9il`, which is not in the table at utils.py:14, so it gives 0, not 1.5 (`Utils.NormalizeExamples`).
- **Final bill on the explicit path:** the bill multiplies by the rate widget's value (app.py:82), not by the rate read from the total line (`App.DefaultBill`).

## Left out

- **Image handling:** the image preprocessing with PIL (app.py:20-29, utils.py:24) and the OCR calls (app.py:63-67, utils.py:25) are library calls. The OCR text is an input, and the failed-OCR case is the empty text (`App.EmptyText`).
- **The rate widget:** the Streamlit rate widget (app.py:17) becomes the `rate` parameter of `ParseSpec`. The rest of the Streamlit page (app.py:11-18, 57-117) is user interface and is not modelled, apart from the bill formula at app.py:82.
- **Exports:** the Excel export, the CSV byte encoding and the PDF drawing (app.py:85-117, utils.py:55, 58-95) are formatting through foreign libraries.
- **`process_image` return value:** its first return value is the OCR text itself, returned unchanged, so it is left out of `Utils.ProcessImage`.
- **Character sets:** the model is ASCII-only.
  - `\d`, `\w`, `\s` and `str.isspace` are restricted to their ASCII members.
  - `str.lower` changes only `A`-`Z`.
  - Non-ASCII digits and letters, which Python's Unicode classes also accept, are not modelled.
  - The `×` glyph and the non-ASCII line breaks of `str.splitlines` are included.
- **Floating point:** quantities in utils.py are Dafny reals. The floats they model only ever hold sums of 1.0 and 1.5 and their product with 70, which binary floating point represents exactly for any realistic register.
- **Integer widths:** the counts and the sums are unbounded, as in Python.
- App.ParseMilkText: the ValueError of `int()` is not modelled. Since Python 3.11, and the security releases of 3.7 to 3.10, `int()` of a decimal string longer than 4300 digits raises ValueError by default. At app.py:49 a token of the form `<digits> ltr` or `<digits> L` with more than 4300 digits would make `parse_milk_text` raise, where `ParseSpec` returns a sum. The total line's groups (at most 7 digits) cannot reach the limit. The limit depends on the interpreter's version and settings, so the model reads every digit string as its value.
- Utils.CsvRows: when there are no entries, `pd.DataFrame([])` has no columns. What pandas does with the `.loc` row assignments on such a frame is not modelled: the model appends the two total rows in every case.
