/** The tax engine: the old regime (five deductions, three slabs above
    250,000) and the new regime (standard deduction only, a walk over an
    ascending slab table), both followed by the 4% cess. Amounts are exact
    reals. */
module TaxCalculator {
  import opened Text
  import opened Decimal
  import opened Fields

  /** `float()` raising `ValueError` on the text stored under `key`. */
  datatype Error = MalformedNumber(key: string, text: string)

  datatype Result<+T> = Ok(value: T) | Err(error: Error) {
    predicate IsFailure() {
      Err?
    }

    function PropagateFailure<U>(): Result<U>
      requires Err?
    {
      Err(error)
    }

    function Extract(): T
      requires Ok?
    {
      value
    }
  }

  /** (tax, taxable income, deductions) as a regime returns them. */
  datatype TaxResult = TaxResult(tax: real, taxableIncome: real, deductions: real)

  /** The 4% health and education cess, applied as a multiplier. */
  const CESS: real := 1.04

  function Max(x: real, y: real): real {
    if x >= y then x else y
  }

  function Min(x: real, y: real): real {
    if x <= y then x else y
  }

  // ---------------------------------------------------------------------------
  // Reading fields

  /** The value a field takes when it is missing or empty. */
  function EngineDefault(f: Field): real {
    if f == StandardDeduction then 50000.0 else 0.0
  }

  /** `float(data.get(key, default) or default)`: a missing key and the empty
      string give the default; any other text goes through `float()`. */
  function Read(data: FieldSet, f: Field): Result<real> {
    var key := Key(f);
    if key !in data || data[key] == "" then Ok(EngineDefault(f))
    else
      match ParseDecimal(data[key])
      case None => Err(MalformedNumber(key, data[key]))
      case Some(v) => Ok(v)
  }

  // ---------------------------------------------------------------------------
  // Slab tables and their closed form

  /** An upper slab limit; the last slab of a table has none (`float('inf')`). */
  datatype Limit = At(amount: real) | Unbounded

  datatype Slab = Slab(limit: Limit, rate: real)

  /** `income > limit`, which is never true of the unbounded limit. */
  predicate Exceeds(income: real, limit: Limit) {
    limit.At? && income > limit.amount
  }

  /** The part of `income` that lies in the bracket from `lo` up to `limit`. */
  function Portion(income: real, lo: real, limit: Limit): real {
    match limit
    case At(hi) => Max(0.0, Min(income, hi) - lo)
    case Unbounded => Max(0.0, income - lo)
  }

  /** Where the next bracket starts. */
  function NextLower(lo: real, limit: Limit): real {
    match limit
    case At(hi) => hi
    case Unbounded => lo
  }

  /** The closed form of a slab table: the sum, over its brackets, of the
      bracket's rate times the part of `income` inside the bracket; the first
      bracket starts at `lo`. */
  function BracketSum(slabs: seq<Slab>, lo: real, income: real): real
    decreases |slabs|
  {
    if slabs == [] then 0.0
    else slabs[0].rate * Portion(income, lo, slabs[0].limit)
         + BracketSum(slabs[1..], NextLower(lo, slabs[0].limit), income)
  }

  /** The limits ascend from `lo`, and only the last slab may be unbounded. */
  predicate Ascending(slabs: seq<Slab>, lo: real)
    decreases |slabs|
  {
    slabs == [] ||
    match slabs[0].limit
    case Unbounded => |slabs| == 1
    case At(hi) => lo <= hi && Ascending(slabs[1..], hi)
  }

  /** A table the slab walk accepts: ascending from 0 and ending unbounded. */
  predicate WellFormed(slabs: seq<Slab>) {
    slabs != [] && slabs[|slabs| - 1].limit == Unbounded && Ascending(slabs, 0.0)
  }

  /** No tax accrues on income at or below where the table starts. */
  lemma {:induction false} BracketSumZeroBelow(slabs: seq<Slab>, lo: real, income: real)
    requires Ascending(slabs, lo) && income <= lo
    ensures BracketSum(slabs, lo, income) == 0.0
  {
    if slabs != [] {
      assert Portion(income, lo, slabs[0].limit) == 0.0;
      if slabs[0].limit.At? {
        BracketSumZeroBelow(slabs[1..], NextLower(lo, slabs[0].limit), income);
      }
    }
  }

  // ---------------------------------------------------------------------------
  // Old regime

  /** The old regime's brackets: nothing up to 250,000, then 5%, 20%, 30%. */
  const OLD_SLABS: seq<Slab> := [Slab(At(250000.0), 0.0), Slab(At(500000.0), 0.05),
                                 Slab(At(1000000.0), 0.20), Slab(Unbounded, 0.30)]

  /** The old regime's slab tax before cess, as an if/elif chain. */
  function OldSlabTax(income: real): real {
    if income > 250000.0 then
      if income <= 500000.0 then 0.05 * (income - 250000.0)
      else if income <= 1000000.0 then 0.05 * 250000.0 + 0.2 * (income - 500000.0)
      else 0.05 * 250000.0 + 0.2 * 500000.0 + 0.3 * (income - 1000000.0)
    else 0.0
  }

  /** The if/elif chain is the bracket sum of the old table. */
  lemma OldSlabTaxIsBracketSum(income: real)
    ensures OldSlabTax(income) == BracketSum(OLD_SLABS, 0.0, income)
  {
    var s := OLD_SLABS;
    assert BracketSum(s[3..], 1000000.0, income) == 0.30 * Portion(income, 1000000.0, Unbounded) by {
      assert s[3..][1..] == [];
    }
    assert BracketSum(s[2..], 500000.0, income)
        == 0.20 * Portion(income, 500000.0, At(1000000.0)) + BracketSum(s[3..], 1000000.0, income) by {
      assert s[2..][1..] == s[3..];
    }
    assert BracketSum(s[1..], 250000.0, income)
        == 0.05 * Portion(income, 250000.0, At(500000.0)) + BracketSum(s[2..], 500000.0, income) by {
      assert s[1..][1..] == s[2..];
    }
  }

  /** The old regime's slab tax is non-negative, never falls as income rises,
      and rises by at most 30% of the rise (so it is continuous, also at the
      500,000 and 1,000,000 boundaries). */
  lemma OldSlabTaxSlope(a: real, b: real)
    requires a <= b
    ensures 0.0 <= OldSlabTax(a) <= OldSlabTax(b) <= OldSlabTax(a) + 0.30 * (b - a)
  {
  }

  /** The old regime on amounts already read: five deductions, taxable income
      clamped at zero, slab tax times the cess. */
  function OldRegimeOn(gross: real, standard: real, hra: real, professional: real,
                       d80c: real, d80d: real): TaxResult
  {
    var total := standard + hra + professional + d80c + d80d;
    var taxable := Max(gross - total, 0.0);
    TaxResult(OldSlabTax(taxable) * CESS, taxable, total)
  }

  /** Reading `fields` one after another, as the statements at the head of
      `calculate_old_regime` do: the first that `float()` rejects raises, and
      otherwise every amount is returned in order. */
  function ReadFields(data: FieldSet, fields: seq<Field>): (r: Result<seq<real>>)
    ensures r.Ok? <==> forall i :: 0 <= i < |fields| ==> Read(data, fields[i]).Ok?
    ensures r.Ok? ==> |r.value| == |fields|
    ensures r.Ok? ==> forall i :: 0 <= i < |fields| ==> r.value[i] == Read(data, fields[i]).value
  {
    if fields == [] then Ok([])
    else
      var amount :- Read(data, fields[0]);
      var rest :- ReadFields(data, fields[1..]);
      Ok([amount] + rest)
  }

  /** Reading `fields[i]` fails with `e`, and reading every field before it
      succeeds. */
  predicate FailsFirstAt(data: FieldSet, fields: seq<Field>, i: int, e: Error) {
    0 <= i < |fields| && Read(data, fields[i]) == Err(e) &&
    forall j :: 0 <= j < i ==> Read(data, fields[j]).Ok?
  }

  /** A failed reading names the first field, in the order given, whose text
      `float()` rejects. */
  lemma {:induction false} ReadFieldsFailure(data: FieldSet, fields: seq<Field>)
    requires ReadFields(data, fields).Err?
    ensures exists i :: FailsFirstAt(data, fields, i, ReadFields(data, fields).error)
  {
    var e := ReadFields(data, fields).error;
    if Read(data, fields[0]).Err? {
      assert FailsFirstAt(data, fields, 0, e);
    } else {
      ReadFieldsFailure(data, fields[1..]);
      var i :| FailsFirstAt(data, fields[1..], i, e);
      assert FailsFirstAt(data, fields, i + 1, e);
    }
  }

  /** `calculate_old_regime`: all nine fields are read, in the source's order,
      and the first that `float()` rejects raises; six of the amounts are used. */
  function CalculateOldRegime(data: FieldSet): (r: Result<TaxResult>)
    ensures r.Ok? ==> 0.0 <= r.value.taxableIncome && 0.0 <= r.value.tax
    ensures r.Ok? && r.value.taxableIncome <= 250000.0 ==> r.value.tax == 0.0
  {
    var amounts :- ReadFields(data, ALL_FIELDS);
    var gross := amounts[Index(GrossSalary)];
    var hra := amounts[Index(HraReceived)];
    var d80c := amounts[Index(Deduction80C)];
    var d80d := amounts[Index(Deduction80D)];
    var standard := amounts[Index(StandardDeduction)];
    var professional := amounts[Index(ProfessionalTax)];
    var result := OldRegimeOn(gross, standard, hra, professional, d80c, d80d);
    OldSlabTaxSlope(0.0, result.taxableIncome);
    Ok(result)
  }

  /** The old regime succeeds exactly when all nine fields read; when it
      fails, the error is that of the first field, in the source's order,
      whose text `float()` rejects. */
  lemma OldRegimeFailure(data: FieldSet)
    ensures CalculateOldRegime(data).Ok? <==> forall f :: Read(data, f).Ok?
    ensures CalculateOldRegime(data).Err? ==>
      exists i :: FailsFirstAt(data, ALL_FIELDS, i, CalculateOldRegime(data).error)
  {
    if forall f :: Read(data, f).Ok? {
      assert forall i :: 0 <= i < |ALL_FIELDS| ==> Read(data, ALL_FIELDS[i]).Ok?;
    } else {
      var f :| Read(data, f).Err?;
      assert ALL_FIELDS[Index(f)] == f;
      ReadFieldsFailure(data, ALL_FIELDS);
    }
  }

  /** A successful old regime has read every field, and its amounts are the
      fields' readings. */
  lemma OldRegimeAmounts(data: FieldSet)
    requires CalculateOldRegime(data).Ok?
    ensures forall f :: Read(data, f).Ok?
    ensures CalculateOldRegime(data).value == OldRegimeOn(
      Read(data, GrossSalary).value, Read(data, StandardDeduction).value,
      Read(data, HraReceived).value, Read(data, ProfessionalTax).value,
      Read(data, Deduction80C).value, Read(data, Deduction80D).value)
  {
    OldRegimeFailure(data);
    var amounts := ReadFields(data, ALL_FIELDS).value;
    forall f ensures amounts[Index(f)] == Read(data, f).value {
      assert ALL_FIELDS[Index(f)] == f;
    }
  }

  /** What a successful old-regime call returns: the five deductions summed
      without caps, taxable income clamped at zero, and 1.04 times the
      bracket sum of the old table, which is never negative. */
  lemma OldRegimeResult(data: FieldSet)
    requires CalculateOldRegime(data).Ok?
    ensures forall f :: Read(data, f).Ok?
    ensures var r := CalculateOldRegime(data).value;
      && r.deductions == Read(data, StandardDeduction).value + Read(data, HraReceived).value
                         + Read(data, ProfessionalTax).value + Read(data, Deduction80C).value
                         + Read(data, Deduction80D).value
      && r.taxableIncome == Max(Read(data, GrossSalary).value - r.deductions, 0.0)
      && r.taxableIncome >= 0.0
      && r.tax == CESS * BracketSum(OLD_SLABS, 0.0, r.taxableIncome)
      && r.tax >= 0.0
      && (r.taxableIncome <= 250000.0 ==> r.tax == 0.0)
  {
    OldRegimeAmounts(data);
    var r := CalculateOldRegime(data).value;
    OldSlabTaxIsBracketSum(r.taxableIncome);
    OldSlabTaxSlope(0.0, r.taxableIncome);
  }

  /** Changing the text stored for `f` changes how no other field reads. */
  lemma ReadsOthersUnchanged(data: FieldSet, f: Field, text: string)
    ensures forall g :: g != f ==> Read(data[Key(f) := text], g) == Read(data, g)
  {
    forall g | g != f ensures Read(data[Key(f) := text], g) == Read(data, g) {
      KeyInjective(f, g);
    }
  }

  /** Two field sets whose nine fields all read, and whose six used fields
      read alike, give the same old-regime result. */
  lemma OldRegimeUsesSix(d: FieldSet, e: FieldSet)
    requires forall g :: Read(d, g).Ok? && Read(e, g).Ok?
    requires forall g :: g !in {BasicSalary, RentPaid, Tds} ==> Read(d, g) == Read(e, g)
    ensures CalculateOldRegime(d) == CalculateOldRegime(e)
  {
    OldRegimeFailure(d);
    OldRegimeFailure(e);
    OldRegimeAmounts(d);
    OldRegimeAmounts(e);
  }

  /** The basic salary, the rent paid and the TDS are read (so malformed text
      there makes the call fail) but their values never change the result. */
  lemma OldRegimeIgnoresUnusedFields(data: FieldSet, f: Field, text: string)
    requires f == BasicSalary || f == RentPaid || f == Tds
    requires CalculateOldRegime(data).Ok? && Read(data[Key(f) := text], f).Ok?
    ensures CalculateOldRegime(data[Key(f) := text]) == CalculateOldRegime(data)
  {
    var d := data[Key(f) := text];
    ReadsOthersUnchanged(data, f, text);
    OldRegimeFailure(data);
    forall g ensures Read(d, g).Ok? {
      if g != f {
        assert Read(d, g) == Read(data, g);
      }
    }
    OldRegimeUsesSix(d, data);
  }

  /** Raising the gross salary never lowers the old-regime tax, and raising
      any of the five deductions never raises it. */
  lemma OldRegimeMonotone(gross: real, gross': real, standard: real, hra: real, professional: real,
                          d80c: real, d80d: real, extra: real)
    requires gross <= gross' && 0.0 <= extra
    ensures OldRegimeOn(gross, standard, hra, professional, d80c, d80d).tax
         <= OldRegimeOn(gross', standard, hra, professional, d80c, d80d).tax
    ensures OldRegimeOn(gross, standard + extra, hra, professional, d80c, d80d).tax
         <= OldRegimeOn(gross, standard, hra, professional, d80c, d80d).tax
    ensures OldRegimeOn(gross, standard, hra + extra, professional, d80c, d80d).tax
         <= OldRegimeOn(gross, standard, hra, professional, d80c, d80d).tax
    ensures OldRegimeOn(gross, standard, hra, professional + extra, d80c, d80d).tax
         <= OldRegimeOn(gross, standard, hra, professional, d80c, d80d).tax
    ensures OldRegimeOn(gross, standard, hra, professional, d80c + extra, d80d).tax
         <= OldRegimeOn(gross, standard, hra, professional, d80c, d80d).tax
    ensures OldRegimeOn(gross, standard, hra, professional, d80c, d80d + extra).tax
         <= OldRegimeOn(gross, standard, hra, professional, d80c, d80d).tax
  {
    var total := standard + hra + professional + d80c + d80d;
    OldSlabTaxSlope(Max(gross - total, 0.0), Max(gross' - total, 0.0));
    OldSlabTaxSlope(Max(gross - (total + extra), 0.0), Max(gross - total, 0.0));
  }

  /** Gross 1,000,000 less 50,000 + 100,000 + 2,500 + 150,000 + 25,000 of
      deductions leaves 672,500 taxable, and 47,000 of slab tax becomes 48,880. */
  lemma OldRegimeExample()
    ensures OldRegimeOn(1000000.0, 50000.0, 100000.0, 2500.0, 150000.0, 25000.0)
         == TaxResult(48880.0, 672500.0, 327500.0)
  {
  }

  /** A field holding the decimal text of a natural number reads as it. */
  lemma ReadNat(data: FieldSet, f: Field, n: nat)
    requires Key(f) in data && data[Key(f)] == NatToString(n)
    ensures Read(data, f) == Ok(n as real)
  {
    ParseNatToString(n);
  }

  // ---------------------------------------------------------------------------
  // New regime

  /** The new regime's slab table, ascending, the last slab unbounded. */
  const NEW_SLABS: seq<Slab> := [Slab(At(300000.0), 0.0), Slab(At(600000.0), 0.05),
                                 Slab(At(900000.0), 0.10), Slab(At(1200000.0), 0.15),
                                 Slab(At(1500000.0), 0.20), Slab(Unbounded, 0.30)]

  lemma NewSlabsWellFormed()
    ensures WellFormed(NEW_SLABS)
  {
    assert NEW_SLABS[1..][1..][1..][1..][1..] == [NEW_SLABS[5]];
  }

  /** The new regime on amounts already read. */
  function NewRegimeOn(gross: real, standard: real): TaxResult {
    var taxable := Max(gross - standard, 0.0);
    TaxResult(BracketSum(NEW_SLABS, 0.0, taxable) * CESS, taxable, standard)
  }

  /** What `calculate_new_regime` returns or raises: only the gross salary
      and the standard deduction are read. */
  function NewRegime(data: FieldSet): Result<TaxResult> {
    var gross :- Read(data, GrossSalary);
    var standard :- Read(data, StandardDeduction);
    Ok(NewRegimeOn(gross, standard))
  }

  /** `d` and `e` agree on `k`: both lack it or both map it to the same text. */
  predicate SameEntry(d: FieldSet, e: FieldSet, k: string) {
    (k in d <==> k in e) && (k in d ==> d[k] == e[k])
  }

  /** Only the gross salary and the standard deduction matter to the new
      regime, both for its result and for whether it fails. */
  lemma NewRegimeReadsTwoFields(data: FieldSet, other: FieldSet)
    requires SameEntry(data, other, Key(GrossSalary)) && SameEntry(data, other, Key(StandardDeduction))
    ensures NewRegime(data) == NewRegime(other)
  {
    assert Read(data, GrossSalary) == Read(other, GrossSalary);
    assert Read(data, StandardDeduction) == Read(other, StandardDeduction);
  }

  /** The bracket sum of the new table written out piece by piece: 0% up to
      300,000, then 5%, 10%, 15% and 20% on each further 300,000, and 30%
      above 1,500,000. */
  function NewSlabChain(income: real): real {
    if income <= 300000.0 then 0.0
    else if income <= 600000.0 then 0.05 * (income - 300000.0)
    else if income <= 900000.0 then 15000.0 + 0.10 * (income - 600000.0)
    else if income <= 1200000.0 then 45000.0 + 0.15 * (income - 900000.0)
    else if income <= 1500000.0 then 90000.0 + 0.20 * (income - 1200000.0)
    else 150000.0 + 0.30 * (income - 1500000.0)
  }

  /** The bracket sum of the new table, one term per taxed bracket. */
  lemma NewSlabTerms(income: real)
    ensures BracketSum(NEW_SLABS, 0.0, income)
         == 0.05 * Portion(income, 300000.0, At(600000.0)) + 0.10 * Portion(income, 600000.0, At(900000.0))
          + 0.15 * Portion(income, 900000.0, At(1200000.0)) + 0.20 * Portion(income, 1200000.0, At(1500000.0))
          + 0.30 * Portion(income, 1500000.0, Unbounded)
  {
    var s := NEW_SLABS;
    assert s[5..][1..] == [];
    assert s[4..][1..] == s[5..];
    assert s[3..][1..] == s[4..];
    assert s[2..][1..] == s[3..];
    assert s[1..][1..] == s[2..];
  }

  /** The part of `income` in a bounded bracket, case by case. */
  lemma PortionCases(income: real, lo: real, hi: real)
    requires lo <= hi
    ensures income <= lo ==> Portion(income, lo, At(hi)) == 0.0
    ensures lo <= income <= hi ==> Portion(income, lo, At(hi)) == income - lo
    ensures hi <= income ==> Portion(income, lo, At(hi)) == hi - lo
  {
  }

  /** The piecewise form is the bracket sum of the new table. */
  lemma NewSlabChainIsBracketSum(income: real)
    ensures NewSlabChain(income) == BracketSum(NEW_SLABS, 0.0, income)
  {
    NewSlabTerms(income);
    PortionCases(income, 300000.0, 600000.0);
    PortionCases(income, 600000.0, 900000.0);
    PortionCases(income, 900000.0, 1200000.0);
    PortionCases(income, 1200000.0, 1500000.0);
  }

  /** The piecewise form is zero up to 300,000, never falls as income rises,
      and rises by at most 30% of the rise (so it is continuous at every
      limit). */
  lemma NewSlabChainSlope(a: real, b: real)
    requires a <= b
    ensures b <= 300000.0 ==> NewSlabChain(b) == 0.0
    ensures 0.0 <= NewSlabChain(a) <= NewSlabChain(b) <= NewSlabChain(a) + 0.30 * (b - a)
  {
  }

  /** The new regime's slab tax is zero up to 300,000, never falls as income
      rises, and rises by at most 30% of the rise. */
  lemma NewSlabTaxSlope(a: real, b: real)
    requires a <= b
    ensures b <= 300000.0 ==> BracketSum(NEW_SLABS, 0.0, b) == 0.0
    ensures 0.0 <= BracketSum(NEW_SLABS, 0.0, a) <= BracketSum(NEW_SLABS, 0.0, b)
                 <= BracketSum(NEW_SLABS, 0.0, a) + 0.30 * (b - a)
  {
    NewSlabChainIsBracketSum(a);
    NewSlabChainIsBracketSum(b);
    NewSlabChainSlope(a, b);
  }

  /** What a successful new-regime call returns: taxable income is the gross
      salary less the standard deduction, clamped at zero; the tax is 1.04
      times the bracket sum, zero up to 300,000 of taxable income; the third
      value is the standard deduction as read. */
  lemma NewRegimeResult(data: FieldSet)
    requires NewRegime(data).Ok?
    ensures Read(data, GrossSalary).Ok? && Read(data, StandardDeduction).Ok?
    ensures var r := NewRegime(data).value;
      && r.deductions == Read(data, StandardDeduction).value
      && r.taxableIncome == Max(Read(data, GrossSalary).value - r.deductions, 0.0)
      && r.taxableIncome >= 0.0
      && r.tax == CESS * BracketSum(NEW_SLABS, 0.0, r.taxableIncome)
      && r.tax >= 0.0
      && (r.taxableIncome <= 300000.0 ==> r.tax == 0.0)
  {
    var r := NewRegime(data).value;
    NewSlabTaxSlope(0.0, r.taxableIncome);
    NewSlabTaxSlope(r.taxableIncome, r.taxableIncome);
  }

  /** Raising the gross salary never lowers the new-regime tax, and raising
      the standard deduction never raises it. */
  lemma NewRegimeMonotone(gross: real, gross': real, standard: real, extra: real)
    requires gross <= gross' && 0.0 <= extra
    ensures NewRegimeOn(gross, standard).tax <= NewRegimeOn(gross', standard).tax
    ensures NewRegimeOn(gross, standard + extra).tax <= NewRegimeOn(gross, standard).tax
  {
    NewSlabTaxSlope(Max(gross - standard, 0.0), Max(gross' - standard, 0.0));
    NewSlabTaxSlope(Max(gross - (standard + extra), 0.0), Max(gross - standard, 0.0));
  }

  /** Gross 800,000 less the 50,000 standard deduction leaves 750,000 taxable:
      5% of 300,000 plus 10% of 150,000 is 30,000, and 31,200 with cess. */
  lemma NewRegimeExample()
    ensures NewRegimeOn(800000.0, 50000.0) == TaxResult(31200.0, 750000.0, 50000.0)
  {
    NewSlabChainIsBracketSum(750000.0);
  }

  /** A missing or empty standard deduction reads as 50,000 and any other
      missing or empty field as 0. */
  lemma ReadBlank(data: FieldSet, f: Field)
    requires Key(f) !in data || data[Key(f)] == ""
    ensures Read(data, f) == Ok(if f == StandardDeduction then 50000.0 else 0.0)
  {
  }

  /** The text "0" reads as 0, also for the standard deduction. */
  lemma ReadZero(data: FieldSet, f: Field)
    requires Key(f) in data && data[Key(f)] == "0"
    ensures Read(data, f) == Ok(0.0)
  {
    ParseZero();
  }

  /** The slab walk: for each slab in order, a taxable income above its limit
      pays the slab's rate on the whole slab and moves the cursor to the
      limit; otherwise it pays the rate on what is left above the cursor and
      the walk stops. The walk stops at the first slab whose limit the income
      does not exceed, at the unbounded slab at the latest, and its tax is the
      table's bracket sum. */
  method WalkSlabs(slabs: seq<Slab>, taxable: real) returns (tax: real, ghost stop: nat)
    requires WellFormed(slabs) && 0.0 <= taxable
    ensures tax == BracketSum(slabs, 0.0, taxable)
    ensures stop < |slabs| && !Exceeds(taxable, slabs[stop].limit)
    ensures forall k :: 0 <= k < stop ==> Exceeds(taxable, slabs[k].limit)
  {
    tax := 0.0;
    var prevLimit := 0.0;
    var i := 0;
    while i < |slabs|
      invariant 0 <= i < |slabs|
      invariant 0.0 <= prevLimit <= taxable
      invariant Ascending(slabs[i..], prevLimit)
      invariant tax + BracketSum(slabs[i..], prevLimit, taxable) == BracketSum(slabs, 0.0, taxable)
      invariant forall k :: 0 <= k < i ==> Exceeds(taxable, slabs[k].limit)
      decreases |slabs| - i
    {
      var slab := slabs[i];
      WalkStep(slabs, i, prevLimit, taxable);
      if Exceeds(taxable, slab.limit) {
        tax := tax + (slab.limit.amount - prevLimit) * slab.rate;
        prevLimit := slab.limit.amount;
      } else {
        tax := tax + (taxable - prevLimit) * slab.rate;
        stop := i;
        return;
      }
      i := i + 1;
    }
    assert false;
  }

  /** One step of the walk at slab `i`, entered at `lo`: an income above the
      slab's limit pays the whole slab and the rest of the table continues
      from the limit, which is not the last slab's; otherwise the slab takes
      what is left and the later slabs take nothing. */
  lemma WalkStep(slabs: seq<Slab>, i: nat, lo: real, taxable: real)
    requires WellFormed(slabs) && i < |slabs| && Ascending(slabs[i..], lo) && lo <= taxable
    ensures Exceeds(taxable, slabs[i].limit) ==>
      && i + 1 < |slabs|
      && Ascending(slabs[i + 1..], slabs[i].limit.amount)
      && BracketSum(slabs[i..], lo, taxable)
         == (slabs[i].limit.amount - lo) * slabs[i].rate + BracketSum(slabs[i + 1..], slabs[i].limit.amount, taxable)
    ensures !Exceeds(taxable, slabs[i].limit) ==>
      BracketSum(slabs[i..], lo, taxable) == (taxable - lo) * slabs[i].rate
  {
    var slab := slabs[i];
    var next := NextLower(lo, slab.limit);
    assert slabs[i..][0] == slab && slabs[i..][1..] == slabs[i + 1..];
    assert BracketSum(slabs[i..], lo, taxable)
        == slab.rate * Portion(taxable, lo, slab.limit) + BracketSum(slabs[i + 1..], next, taxable);
    if Exceeds(taxable, slab.limit) {
      assert Portion(taxable, lo, slab.limit) == slab.limit.amount - lo;
    } else {
      assert Portion(taxable, lo, slab.limit) == taxable - lo;
      if slab.limit.At? {
        BracketSumZeroBelow(slabs[i + 1..], next, taxable);
      } else {
        assert slabs[i + 1..] == [];
      }
    }
  }

  /** The new regime's slab tax before cess: the walk over its table. */
  method NewSlabTax(taxable: real) returns (tax: real)
    requires 0.0 <= taxable
    ensures tax == BracketSum(NEW_SLABS, 0.0, taxable)
  {
    NewSlabsWellFormed();
    ghost var stop;
    tax, stop := WalkSlabs(NEW_SLABS, taxable);
  }

  /** The part of `calculate_new_regime` after the two reads: the taxable
      income clamped at zero, the slab walk, and the cess. */
  method NewRegimeTax(gross: real, standard: real) returns (r: TaxResult)
    ensures r == NewRegimeOn(gross, standard)
  {
    var taxable := Max(gross - standard, 0.0);
    var tax := NewSlabTax(taxable);
    r := TaxResult(tax * CESS, taxable, standard);
  }

  /** `calculate_new_regime`. */
  method CalculateNewRegime(data: FieldSet) returns (r: Result<TaxResult>)
    ensures r == NewRegime(data)
  {
    var gross :- Read(data, GrossSalary);
    var standard :- Read(data, StandardDeduction);
    var result := NewRegimeTax(gross, standard);
    r := Ok(result);
  }
}
