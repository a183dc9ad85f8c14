/** The web application's own logic around the tax engine: which uploads it
    accepts, how it turns extracted text into the nine form fields, how it
    fills blank fields on the upload and on the review, and how it picks the
    better regime. */
module App {
  import opened Text
  import opened Decimal
  import opened Fields
  import opened Patterns
  import opened TaxCalculator

  // ---------------------------------------------------------------------------
  // Accepted uploads

  const ALLOWED_EXTENSIONS: set<string> := {"pdf", "jpg", "jpeg", "png", "txt"}

  /** The last `.` of `name` is at `p`. */
  predicate LastDotAt(name: string, p: int) {
    0 <= p < |name| && name[p] == '.' && '.' !in name[p + 1..]
  }

  lemma LastDotUnique(name: string, p: int, q: int)
    requires LastDotAt(name, p) && LastDotAt(name, q)
    ensures p == q
  {
  }

  /** `allowed_file`: the name has a `.`, and the text after its last `.`,
      lower-cased, is one of the five extensions. */
  function AllowedFile(name: string): (r: bool)
    ensures r <==> exists p :: LastDotAt(name, p) && Lower(name[p + 1..]) in ALLOWED_EXTENSIONS
  {
    match LastIndexOf(name, '.')
    case None =>
      assert forall p :: 0 <= p < |name| ==> name[p] in name;
      false
    case Some(p) =>
      assert forall q :: LastDotAt(name, q) ==> q == p by {
        forall q | LastDotAt(name, q) ensures q == p {
          LastDotUnique(name, p, q);
        }
      }
      assert LastDotAt(name, p);
      Lower(name[p + 1..]) in ALLOWED_EXTENSIONS
  }

  /** The extension's case does not matter. */
  lemma UpperCaseExtensionAllowed(name: string)
    requires name == "Form16.PDF"
    ensures AllowedFile(name)
  {
    assert LastDotAt(name, 6);
    assert name[7..] == "PDF";
    assert Lower("PDF") == "pdf";
  }

  /** Only the last extension counts. */
  lemma LastExtensionDecides(name: string)
    requires name == "tax.pdf.exe"
    ensures !AllowedFile(name)
  {
    assert LastDotAt(name, 7);
    assert name[8..] == "exe";
    assert Lower("exe") == "exe";
  }

  // ---------------------------------------------------------------------------
  // Extracted text to form fields

  /** After the first `n` iterations: only field keys are stored, and the
      first `n` fields hold their values `want`, in the source's order. */
  predicate StoredUpTo(data: FieldSet, want: seq<string>, n: nat)
    requires n <= |want| == |ALL_FIELDS|
  {
    && (forall k :: k in data ==> IsFieldKey(k))
    && forall j :: 0 <= j < n ==> Key(ALL_FIELDS[j]) in data && data[Key(ALL_FIELDS[j])] == want[j]
  }

  /** Storing the next field's value keeps what the earlier iterations stored. */
  lemma StoredStep(data: FieldSet, want: seq<string>, n: nat)
    requires n < |want| == |ALL_FIELDS| && StoredUpTo(data, want, n)
    ensures StoredUpTo(data[Key(ALL_FIELDS[n]) := want[n]], want, n + 1)
  {
    forall j | 0 <= j < n ensures Key(ALL_FIELDS[j]) != Key(ALL_FIELDS[n]) {
      KeyInjective(ALL_FIELDS[j], ALL_FIELDS[n]);
    }
  }

  /** After all nine iterations every field holds its value. */
  lemma StoredAll(data: FieldSet, want: seq<string>)
    requires |want| == |ALL_FIELDS| && StoredUpTo(data, want, |ALL_FIELDS|)
    ensures HasFieldKeys(data)
    ensures forall f :: data[Key(f)] == want[Index(f)]
  {
    forall f ensures Key(f) in data && data[Key(f)] == want[Index(f)] {
      assert ALL_FIELDS[Index(f)] == f;
    }
  }

  /** `parse_financial_data`: one search per field, in the source's order,
      each storing the field's value under its key. */
  method ParseFinancialData(text: string) returns (data: FieldSet)
    ensures HasFieldKeys(data)
    ensures forall f :: data[Key(f)] == FieldValue(f, text)
  {
    ghost var want := seq(|ALL_FIELDS|, j requires 0 <= j < |ALL_FIELDS| => FieldValue(ALL_FIELDS[j], text));
    data := map[];
    var i := 0;
    while i < |ALL_FIELDS|
      invariant 0 <= i <= |ALL_FIELDS| && StoredUpTo(data, want, i)
    {
      var f := ALL_FIELDS[i];
      var value := FieldValue(f, text);
      StoredStep(data, want, i);
      data := data[Key(f) := value];
      i := i + 1;
    }
    StoredAll(data, want);
    forall f ensures data[Key(f)] == FieldValue(f, text) {
      assert ALL_FIELDS[Index(f)] == f;
    }
  }

  /** The stored gross salary of "Gross Salary: 1,25,000.50" is "125000.50",
      which the tax engine reads as 125000.5. */
  lemma GrossSalaryReadsBack(text: string)
    requires text == "Gross Salary: 1,25,000.50"
    ensures FieldValue(GrossSalary, text) == "125000.50"
    ensures ParseDecimal(FieldValue(GrossSalary, text)) == Some(125000.5)
  {
    GrossSalaryExample(text);
    FractionExample();
  }

  // ---------------------------------------------------------------------------
  // Filling blank fields

  /** The upload step: every blank value becomes "0". */
  function UploadDefaults(data: FieldSet): FieldSet {
    map k | k in data :: if data[k] == "" then "0" else data[k]
  }

  /** The review step: a blank standard deduction becomes "50000", every
      other blank value "0". */
  function ReviewDefaults(data: FieldSet): FieldSet {
    map k | k in data :: if data[k] != "" then data[k]
                         else if k == Key(StandardDeduction) then "50000" else "0"
  }

  /** The defaulting loop of the upload route. The keys are visited in an
      arbitrary order, which shows that the outcome does not depend on it. */
  method ApplyUploadDefaults(data: FieldSet) returns (filled: FieldSet)
    ensures filled == UploadDefaults(data)
  {
    filled := data;
    var pending := data.Keys;
    while pending != {}
      invariant pending <= data.Keys && filled.Keys == data.Keys
      invariant forall k :: k in pending ==> filled[k] == data[k]
      invariant forall k :: k in data && k !in pending ==> filled[k] == UploadDefaults(data)[k]
      decreases |pending|
    {
      var k :| k in pending;
      if filled[k] == "" {
        filled := filled[k := "0"];
      }
      pending := pending - {k};
    }
  }

  /** The defaulting loop of the review route, in any order of the keys. */
  method ApplyReviewDefaults(data: FieldSet) returns (filled: FieldSet)
    ensures filled == ReviewDefaults(data)
  {
    filled := data;
    var pending := data.Keys;
    while pending != {}
      invariant pending <= data.Keys && filled.Keys == data.Keys
      invariant forall k :: k in pending ==> filled[k] == data[k]
      invariant forall k :: k in data && k !in pending ==> filled[k] == ReviewDefaults(data)[k]
      decreases |pending|
    {
      var k :| k in pending;
      if filled[k] == "" {
        if k == Key(StandardDeduction) {
          filled := filled[k := "50000"];
        } else {
          filled := filled[k := "0"];
        }
      }
      pending := pending - {k};
    }
  }

  /** Both steps keep the keys, leave no blank value, keep every non-blank
      value, and change nothing when applied a second time. */
  lemma DefaultsFillBlanks(data: FieldSet)
    ensures UploadDefaults(data).Keys == data.Keys && ReviewDefaults(data).Keys == data.Keys
    ensures forall k :: k in data ==> UploadDefaults(data)[k] != "" && ReviewDefaults(data)[k] != ""
    ensures forall k :: k in data && data[k] != "" ==>
      UploadDefaults(data)[k] == data[k] && ReviewDefaults(data)[k] == data[k]
    ensures UploadDefaults(UploadDefaults(data)) == UploadDefaults(data)
    ensures ReviewDefaults(ReviewDefaults(data)) == ReviewDefaults(data)
  {
  }

  lemma ReadsFifty(data: FieldSet)
    requires Key(StandardDeduction) in data && data[Key(StandardDeduction)] == "50000"
    ensures Read(data, StandardDeduction) == Ok(50000.0)
  {
    assert NatToString(50000) == "50000";
    ReadNat(data, StandardDeduction, 50000);
  }

  /** A field reads the same before and after the review's defaults. */
  lemma ReviewDefaultsKeepRead(data: FieldSet, f: Field)
    ensures Read(ReviewDefaults(data), f) == Read(data, f)
  {
    var filled, key := ReviewDefaults(data), Key(f);
    if key !in data {
      ReadBlank(data, f);
      ReadBlank(filled, f);
    } else if data[key] != "" {
      assert filled[key] == data[key];
    } else if f == StandardDeduction {
      ReadBlank(data, f);
      ReadsFifty(filled);
    } else {
      KeyInjective(f, StandardDeduction);
      ReadBlank(data, f);
      ReadZero(filled, f);
    }
  }

  /** The review's defaults are the engine's own: filling the blanks first
      changes neither regime's outcome. */
  lemma ReviewDefaultsKeepTaxes(data: FieldSet)
    ensures CalculateOldRegime(ReviewDefaults(data)) == CalculateOldRegime(data)
    ensures NewRegime(ReviewDefaults(data)) == NewRegime(data)
  {
    var filled := ReviewDefaults(data);
    forall f ensures Read(filled, f) == Read(data, f) {
      ReviewDefaultsKeepRead(data, f);
    }
    ReadFieldsAgree(filled, data, ALL_FIELDS);
  }

  lemma {:induction false} ReadFieldsAgree(d: FieldSet, e: FieldSet, fields: seq<Field>)
    requires forall f :: Read(d, f) == Read(e, f)
    ensures ReadFields(d, fields) == ReadFields(e, fields)
  {
    if fields != [] {
      ReadFieldsAgree(d, e, fields[1..]);
    }
  }

  /** The upload's defaults are not the engine's: a blank standard deduction
      would be taxed as 50,000, but the upload fills it with "0", which the
      review then keeps because it is not blank. */
  lemma UploadZeroesStandardDeduction(data: FieldSet)
    requires Key(StandardDeduction) in data && data[Key(StandardDeduction)] == ""
    ensures Read(data, StandardDeduction) == Ok(50000.0)
    ensures Read(UploadDefaults(data), StandardDeduction) == Ok(0.0)
    ensures Read(ReviewDefaults(UploadDefaults(data)), StandardDeduction) == Ok(0.0)
  {
    var key := Key(StandardDeduction);
    ReadBlank(data, StandardDeduction);
    assert UploadDefaults(data)[key] == "0";
    ReadZero(UploadDefaults(data), StandardDeduction);
    assert ReviewDefaults(UploadDefaults(data))[key] == "0";
    ReadZero(ReviewDefaults(UploadDefaults(data)), StandardDeduction);
  }

  // ---------------------------------------------------------------------------
  // The upload route after extraction

  /** Parsing and then filling blanks: every field holds "0" or a
      non-empty text of digits and points. */
  method UploadFields(text: string) returns (data: FieldSet)
    ensures HasFieldKeys(data)
    ensures forall f :: data[Key(f)] == (if FieldValue(f, text) == "" then "0" else FieldValue(f, text))
  {
    var parsed := ParseFinancialData(text);
    data := ApplyUploadDefaults(parsed);
  }

  /** What the upload puts in the form is never blank and holds only digits
      and points. */
  lemma UploadValuesAreNumeric(f: Field, text: string)
    ensures var v := if FieldValue(f, text) == "" then "0" else FieldValue(f, text);
      v != "" && forall c :: c in v ==> IsDigit(c) || c == '.'
  {
    FieldValueShape(f, text);
  }

  /** A text with no ASCII letter, such as a failed extraction's empty
      string, puts "0" in every field. */
  lemma LetterlessTextUploadsZeros(text: string)
    requires forall m :: 0 <= m < |text| ==> !IsAsciiLetter(text[m])
    ensures forall f :: (if FieldValue(f, text) == "" then "0" else FieldValue(f, text)) == "0"
  {
    NoLettersNoValues(text);
  }

  // ---------------------------------------------------------------------------
  // The review route

  datatype Regime = Old | New

  /** `best_regime`: the old regime only when it is strictly cheaper. */
  function BestRegime(oldTax: real, newTax: real): (r: Regime)
    ensures var chosen := if r == Old then oldTax else newTax;
      chosen <= oldTax && chosen <= newTax
    ensures oldTax == newTax ==> r == New
  {
    if oldTax < newTax then Old else New
  }

  /** The form as the review reads it: the nine keys, "" for any the form
      lacks. */
  function ReviewForm(form: map<string, string>): (data: FieldSet)
    ensures HasFieldKeys(data)
    ensures forall f :: data[Key(f)] == if Key(f) in form then form[Key(f)] else ""
  {
    var data := map f | f in ALL_FIELDS :: Key(f) := if Key(f) in form then form[Key(f)] else "";
    assert forall f :: Key(f) in data && data[Key(f)] == if Key(f) in form then form[Key(f)] else "" by {
      forall f ensures Key(f) in data && data[Key(f)] == if Key(f) in form then form[Key(f)] else "" {
        assert ALL_FIELDS[Index(f)] == f;
      }
    }
    data
  }

  datatype Comparison = Comparison(oldRegime: TaxResult, newRegime: TaxResult, best: Regime)

  /** What the review computes, or the error the first unreadable field
      raises. */
  function ReviewOutcome(form: map<string, string>): Result<Comparison> {
    var data := ReviewDefaults(ReviewForm(form));
    var oldResult :- CalculateOldRegime(data);
    var newResult :- NewRegime(data);
    Ok(Comparison(oldResult, newResult, BestRegime(oldResult.tax, newResult.tax)))
  }

  /** The review route: read the form, fill blanks, run the old regime and
      then the new one, and compare the two taxes. */
  method Review(form: map<string, string>) returns (r: Result<Comparison>)
    ensures r == ReviewOutcome(form)
  {
    var data := ReviewForm(form);
    data := ApplyReviewDefaults(data);
    var oldResult :- CalculateOldRegime(data);
    var newResult :- CalculateNewRegime(data);
    var best := BestRegime(oldResult.tax, newResult.tax);
    r := Ok(Comparison(oldResult, newResult, best));
  }

  /** The review succeeds exactly when every field of the form is blank,
      absent or readable by `float()`; then both regimes are as the engine
      computes them on the form itself, and the recommended regime's tax is
      the smaller. */
  lemma ReviewSucceeds(form: map<string, string>)
    ensures ReviewOutcome(form).Ok? <==> forall f :: Read(ReviewForm(form), f).Ok?
    ensures ReviewOutcome(form).Ok? ==>
      var c := ReviewOutcome(form).value;
      && Ok(c.oldRegime) == CalculateOldRegime(ReviewForm(form))
      && Ok(c.newRegime) == NewRegime(ReviewForm(form))
      && (c.best == Old <==> c.oldRegime.tax < c.newRegime.tax)
  {
    var data := ReviewForm(form);
    ReviewDefaultsKeepTaxes(data);
    OldRegimeFailure(data);
  }

  /** The text "1.2.3" can come out of the parser, and `float()` rejects it:
      in the TDS field, which neither regime uses, it still makes the review
      fail. */
  lemma MalformedTdsFailsReview(form: map<string, string>)
    requires Key(Tds) in form && form[Key(Tds)] == "1.2.3"
    ensures ReviewOutcome(form).Err?
  {
    TwoPointsUnreadable();
    var data := ReviewForm(form);
    assert Read(data, Tds).Err?;
    ReviewSucceeds(form);
  }
}
