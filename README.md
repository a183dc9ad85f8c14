# TaxAdvisory core in Dafny

TaxAdvisory reads a salary document, extracts nine figures from its text,
and computes Indian income tax under the old and the new regime. It then
recommends the cheaper regime. This project models the core of that
pipeline and proves properties of it:

- `tax_calculator.py`:
  - `calculate_old_regime`: nine amounts are read with `float()`. Five
    deductions are subtracted from the gross salary and the result is
    clamped at zero. Slab tax is 0% up to 250,000, then 5%, 20% and 30%.
    A 4% cess is added.
  - `calculate_new_regime`: only the standard deduction is subtracted.
    A loop walks an ascending slab table (300,000 at 0% up to 30% above
    1,500,000) and leaves it with `break`. The 4% cess is added.
- `app.py`:
  - `allowed_file`: which uploads are accepted.
  - `parse_financial_data`: nine case-insensitive regular expressions
    turn the extracted text into the nine form fields.
  - The upload route's loop that turns blank fields into `"0"`.
  - The review route: it reads the form and turns a blank standard
    deduction into `"50000"` and any other blank into `"0"`. It runs both
    regimes and picks `old` only when that regime is strictly cheaper.

Modules:

| module | file | contents |
|---|---|---|
| `Text` | `text.dfy` | characters and strings: Python whitespace, ASCII lower case, removing a character |
| `Decimal` | `decimal.dfy` | `float()` on a string, limited to plain decimal notation |
| `Fields` | `fields.dfy` | the nine field names and their dictionary keys |
| `TaxCalculator` | `tax_calculator.dfy` | both regimes; the new regime's slab walk is an imperative method |
| `Patterns` | `patterns.dfy` | the nine patterns and what `re.search` finds with them |
| `App` | `app.dfy` | the upload filter, the field parser loop, both defaulting loops, and the review |

`Decimal.ParseDecimal` is the model of `float()` on a string.
`Patterns.FieldValue` is the value `parse_financial_data` stores for one
field (app.py lines 83-91).

Amounts are exact real numbers. A field dictionary is a `map<string,
string>`. `float()` raising `ValueError` is modelled as
`Err(MalformedNumber(key, text))` in a `Result`. The first field whose text
is rejected, in the order the source reads the fields, decides the error.

The slab walk is a `method` with a `while` loop. It is proved equal to a
closed form: the sum over the brackets of each bracket's rate times the
part of the income inside that bracket. The old regime's `if`/`elif`
chain is proved equal to the same closed form over its own table.

Both defaulting loops are methods. Each visits the keys in an arbitrary
order and is proved equal to a map comprehension. So the result does not
depend on dictionary order.

Each of the nine patterns has the shape
`(?i) LABEL \s* [:=]? \s* ([\d,.]+)`. It is modelled as a list of label
alternatives, tried in the order the regular expression tries them,
followed by one shared tail. In the tail, `\s`, `[:=]` and `[\d,.]`
share no character, so it can match in only one way. The search returns
the leftmost start at which some alternative matches.

### Behaviour worth knowing

- `float()` is called on every field with no exception handler. A text
  such as `"1.2.3"`, which the parser can produce, therefore raises
  `ValueError`. The model returns `Err`. `App.MalformedTdsFailsReview`
  shows that the review fails on such a TDS value, although neither
  regime uses the TDS.
- `float()` strips surrounding whitespace, but not the separators U+001C
  to U+001F, although `str.isspace` and the regex `\s` count them as
  whitespace. A form value `"\x1c5000"` therefore raises
  (`Decimal.IsFloatSpace`, `Decimal.SeparatorNotStripped`).
- `parse_financial_data` stores `""` for a field it cannot find. The
  upload route then replaces it with `"0"`. The model has both steps.
- `calculate_new_regime` rounds the tax and the taxable income but
  returns `standard_deduction` unrounded, as read.
- The upload fills a blank standard deduction with `"0"`, while the tax
  engine's own default for it is 50,000. The review keeps that `"0"`
  because it is no longer blank (`App.UploadZeroesStandardDeduction`).

## Model

| member | source | states |
|---|---|---|
| TaxCalculator.ReadBlank | tax_calculator.py:3-11 | a missing or empty field reads as its default: 50,000 for the standard deduction, 0 for every other field |
| TaxCalculator.ReadZero | tax_calculator.py:3-11 | the text "0" reads as 0 for every field; it is not blank, so the 50,000 default does not apply |
| TaxCalculator.ReadFields | tax_calculator.py:3-11 | reading the fields succeeds exactly when each field reads; the amounts are then each field's reading, in order |
| TaxCalculator.ReadFieldsFailure | tax_calculator.py:3-11 | a failed reading carries the error of the first field whose text `float()` rejects; every earlier field reads |
| TaxCalculator.CalculateOldRegime | tax_calculator.py:1-28 | reads all nine fields in source order and computes from six of them; a result has non-negative taxable income and tax, and no tax up to 250,000 of taxable income (errors and values in `OldRegimeFailure`, `OldRegimeAmounts` and `OldRegimeResult`) |
| TaxCalculator.OldRegimeFailure | tax_calculator.py:1-11 | the old regime succeeds exactly when all nine fields read; otherwise its error is the first rejected field's, in source order |
| TaxCalculator.OldRegimeAmounts | tax_calculator.py:3-15 | a successful old regime is computed from the readings of gross salary, standard deduction, HRA, professional tax, 80C and 80D |
| TaxCalculator.OldRegimeResult | tax_calculator.py:13-28 | deductions are the uncapped sum of the five; taxable income is the gross salary less that sum, clamped at 0; tax is 1.04 times the old table's bracket sum; tax is never negative and is 0 up to 250,000 |
| TaxCalculator.OldRegimeIgnoresUnusedFields | tax_calculator.py:4-11 | new readable text for basic salary, rent paid or TDS leaves the old-regime result unchanged |
| TaxCalculator.OldRegimeMonotone | tax_calculator.py:14-27 | a higher gross salary never lowers the old-regime tax; a higher value of any of the five deductions never raises it |
| TaxCalculator.OldRegimeExample | tax_calculator.py:13-27 | gross 1,000,000 with deductions 50,000 + 100,000 + 2,500 + 150,000 + 25,000 gives deductions 327,500, taxable 672,500, tax 48,880 |
| TaxCalculator.OldSlabTaxIsBracketSum | tax_calculator.py:18-25 | the old regime's if/elif chain equals the bracket sum of the table 250,000 at 0%, 500,000 at 5%, 1,000,000 at 20%, unbounded at 30% |
| TaxCalculator.OldSlabTaxSlope | tax_calculator.py:18-25 | the old slab tax is never negative, never falls as income rises, and rises by at most 30% of the rise (continuous at every limit) |
| TaxCalculator.BracketSumZeroBelow | tax_calculator.py:49-51 | no bracket above the walk's cursor takes tax from an income at or below the cursor, which is why the loop may stop at `break` |
| TaxCalculator.WalkStep | tax_calculator.py:45-51 | one loop iteration: above the limit, the whole slab is taxed and the rest of the table continues from the limit; otherwise the slab takes what is left and the later slabs take nothing |
| TaxCalculator.WalkSlabs | tax_calculator.py:44-51 | the slab walk's tax equals the table's bracket sum; it stops at the first slab whose limit the income does not exceed, and every earlier limit is exceeded |
| TaxCalculator.NewSlabTax | tax_calculator.py:35-51 | the walk over the new table gives the new table's bracket sum |
| TaxCalculator.NewSlabChainIsBracketSum | tax_calculator.py:36-43 | the new table's bracket sum is, piece by piece: 0 up to 300,000, then 5%, 15,000 + 10%, 45,000 + 15%, 90,000 + 20% and 150,000 + 30% above each limit |
| TaxCalculator.NewSlabTaxSlope | tax_calculator.py:36-51 | the new slab tax is 0 up to 300,000, never falls as income rises, and rises by at most 30% of the rise |
| TaxCalculator.NewRegimeTax | tax_calculator.py:33-54 | taxable income is the gross salary less the standard deduction, clamped at 0; tax is 1.04 times the walked slab tax; the third value is the standard deduction |
| TaxCalculator.CalculateNewRegime | tax_calculator.py:30-54 | reads the gross salary and then the standard deduction; the first one that `float()` rejects gives the error; otherwise returns the computed result |
| TaxCalculator.NewRegimeResult | tax_calculator.py:30-54 | a successful new regime has taxable income equal to gross less standard deduction, clamped at 0, and tax 1.04 times the bracket sum; the tax is never negative and is 0 up to 300,000; the third value is the standard deduction as read |
| TaxCalculator.NewRegimeReadsTwoFields | tax_calculator.py:30-33 | two field sets that agree on the gross salary and the standard deduction give the same new-regime outcome, including the error |
| TaxCalculator.NewRegimeMonotone | tax_calculator.py:31-53 | a higher gross salary never lowers the new-regime tax; a higher standard deduction never raises it |
| TaxCalculator.NewRegimeExample | tax_calculator.py:31-53 | gross 800,000 with standard deduction 50,000 gives taxable 750,000 and tax 31,200 |
| Decimal.ParseNatToString | tax_calculator.py:3-11 | `float()` reads back the decimal text of any natural number as that number |
| Decimal.ParseZero | tax_calculator.py:3-11 | `float("0")` is 0 |
| Decimal.DigitsAndPointsReadable | tax_calculator.py:3-11 | on a text of digits and points (what the field parser produces), `float()` succeeds exactly when the text has a digit and at most one point |
| Decimal.PointAloneUnreadable | tax_calculator.py:3-11 | `float(".")` raises |
| Decimal.TwoPointsUnreadable | tax_calculator.py:3-11 | `float("1.2.3")` raises |
| Decimal.SeparatorNotStripped | tax_calculator.py:3-11 | `float()` does not strip the separator U+001C, which `\s` and `str.isspace` count as whitespace, so `"\x1c5000"` raises |
| Decimal.SpacesStripped | tax_calculator.py:3-11 | `float(" 5000\n")` strips the space and the newline and reads 5000 |
| Decimal.FractionExample | tax_calculator.py:3-11 | `float("125000.50")` reads 125000.5: the digits after the point are tenths and hundredths |
| Patterns.SearchFrom | app.py:83 | `re.search` returns the leftmost position at which the pattern matches; it returns no match exactly when the pattern matches nowhere |
| Patterns.FieldValueShape | app.py:83-91 | a stored value holds only digits and points; it is "" when nothing matches, and also when the captured number is all commas |
| Patterns.SameUpToCase | app.py:70-79 | two texts that differ only in the case of ASCII letters give every field the same value |
| Patterns.FieldValueIgnoresCase | app.py:70-79 | the `(?i)` flag: a text and its lower-case form give every field the same value |
| Patterns.CaptureSkipsSpaces | app.py:75-76 | for the optional 80C/80D words, wherever the first `\s*` stops within the spaces after the label, the captured number is the same |
| Patterns.NoLettersNoValues | app.py:70-91 | every label has a letter, so a text with no ASCII letter (an empty extraction included) leaves every field "" |
| Patterns.TdsMatch | app.py:79 | "TDS = 12,500" matches at position 0 and captures "12,500" |
| Patterns.TdsExample | app.py:79-88 | "TDS = 12,500" stores "12500" for the TDS |
| Patterns.GrossMatch | app.py:71 | "Gross Salary: 1,25,000.50" matches at position 0: the two label words are joined across the space, and the `:` and the space after it are skipped before the capture "1,25,000.50" |
| Patterns.GrossSalaryExample | app.py:71-88 | "Gross Salary: 1,25,000.50" stores "125000.50": both commas of the Indian digit grouping go and the decimal point stays |
| App.AllowedFile | app.py:28-29 | a name is allowed exactly when it has a `.` and the lower-cased text after its last `.` is pdf, jpg, jpeg, png or txt |
| App.UpperCaseExtensionAllowed | app.py:28-29 | "Form16.PDF" is allowed |
| App.LastExtensionDecides | app.py:28-29 | "tax.pdf.exe" is refused: only the last extension counts |
| App.GrossSalaryReadsBack | app.py:83-88 | the gross salary stored from "Gross Salary: 1,25,000.50" is "125000.50", which the tax engine reads as 125000.5 |
| App.StoredStep | app.py:82-91 | storing the next field in source order keeps every field stored before it |
| App.ParseFinancialData | app.py:68-92 | the result has exactly the nine keys, and each holds its field's value |
| App.ApplyUploadDefaults | app.py:122-124 | in any key order, the loop turns every "" into "0" and keeps every other value |
| App.ApplyReviewDefaults | app.py:138-143 | in any key order, the loop turns a blank standard deduction into "50000", any other "" into "0", and keeps every other value |
| App.DefaultsFillBlanks | app.py:138-143 | both defaulting steps (this one and lines 122-124) keep the keys, leave no blank, keep non-blank values, and are idempotent |
| App.ReviewDefaultsKeepTaxes | app.py:138-147 | the review's defaults match the engine's: filling blanks first changes neither regime's result or error |
| App.UploadZeroesStandardDeduction | app.py:122-124 | a blank standard deduction would read as 50,000, but the upload stores "0", which reads as 0 and survives the review's defaults |
| App.UploadFields | app.py:120-124 | after the upload every field has a value: its parsed value, or "0" when that is "" |
| App.UploadValuesAreNumeric | app.py:120-124 | every value the upload puts in the form is non-empty and made of digits and points |
| App.LetterlessTextUploadsZeros | app.py:112-124 | a text without ASCII letters, such as a failed extraction's "", fills every field with "0" |
| App.BestRegime | app.py:148 | the recommended regime's tax is no higher than the other's; equal taxes recommend the new regime |
| App.ReviewForm | app.py:133-136 | the review's dictionary has exactly the nine keys, each holding the form's text or "" when the form lacks it |
| App.Review | app.py:132-148 | the review fills blanks, runs the old regime and then the new one, and compares their taxes; the first rejected field's error stops it |
| App.ReviewSucceeds | app.py:137-148 | the review succeeds exactly when every field of the form is absent, blank or readable; both regimes then equal the engine run on the unfilled form, and `old` is chosen exactly when its tax is strictly smaller |
| App.MalformedTdsFailsReview | app.py:144-146 | a TDS of "1.2.3" makes the review fail, although neither regime uses the TDS |

## Left out

- Floating point and `round(x, 2)`: amounts are exact reals and results are unrounded. Every contract is therefore about exact arithmetic. The cess is the exact factor 1.04.
- App.BestRegime and App.ReviewSucceeds compare the exact taxes. The source compares the results of `round(tax, 2)`. Two different taxes that round to the same cent therefore tie in the source and pick `new`, while the model picks `old` when the old tax is the smaller.
- Decimal.ParseDecimal accepts only optional whitespace, an optional sign, and ASCII digits with at most one point. Python's `float()` also accepts exponents, `_` digit separators, `inf`/`nan` and non-ASCII decimal digits. The field parser never produces exponents, `_` or `inf`/`nan`, but a reviewer typing into the form could.
- Patterns.MatchAt and Decimal.ParseDecimal take ASCII digits only. The field parser does produce non-ASCII decimal digits, because `[\d,.]+` in a `str` pattern matches any Unicode decimal digit. For example, "TDS: ५०,०००" stores "५००००" in Python, and `float()` reads that as 50000. In the model the capture fails there, the field stays "", and the upload writes "0".
- Patterns.FieldValueIgnoresCase: labels are matched by ASCII case only, in `Patterns.FieldValue` and `Patterns.MatchAt` themselves. Python's `(?i)` also matches the long s `ſ` (U+017F) for `s` (in "gross", "salary", "basic", "house", "standard", "professional", "investment", "tds") and the dotted `İ` (U+0130) and dotless `ı` (U+0131) for `i` (in "basic", "received", "paid", "deduction", "investment", "professional"). A text that spells a label with these letters matches in Python but not in the model. Non-ASCII digits, which `\d` also matches, are left out too.
- App.AllowedFile lower-cases ASCII letters only. Python's `.lower()` is Unicode-wide. The non-ASCII characters whose lower case contains an ASCII letter are the Kelvin sign (`k`) and `İ` (`i` plus a combining dot). Neither letter occurs in the five extensions, so the result is the same.
- The text extractors (PDF, OCR, plain text), `secure_filename`, saving and removing the upload, and template rendering: these are I/O or foreign libraries. The extracted text is a parameter.
- The database writes, the Gemini follow-up and suggestion, and the debug `print`s: external services or output.
- `selected_regime` in the review: it is only stored in the database.
- The `is None` tests in both defaulting loops: the values are strings, never `None`, so these tests are always false.
- The regular expressions are modelled pattern by pattern, not by a general regex engine. Backtracking cannot change a match, for two reasons. First, every label word that follows a `\s*` starts with a letter, so that `\s*` must take the whole run of whitespace. Second, the number run `([\d,.]+)` ends the pattern, so its first, greedy attempt is the match and nothing backtracks into it.
- The supabase table-creation script: it only creates tables.
- The route's handling of a raised `ValueError` (an HTTP error from the web framework) is left out. The model stops at the `Err` result.
