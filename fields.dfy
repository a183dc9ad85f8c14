/** The nine financial fields the application extracts and taxes, and the
    string-keyed dictionary that carries them between its stages. */
module Fields {

  datatype Field =
    | GrossSalary | BasicSalary | HraReceived | RentPaid | Deduction80C
    | Deduction80D | StandardDeduction | ProfessionalTax | Tds

  /** The dictionary key of a field. */
  function Key(f: Field): string {
    match f
    case GrossSalary => "gross_salary"
    case BasicSalary => "basic_salary"
    case HraReceived => "hra_received"
    case RentPaid => "rent_paid"
    case Deduction80C => "deduction_80c"
    case Deduction80D => "deduction_80d"
    case StandardDeduction => "standard_deduction"
    case ProfessionalTax => "professional_tax"
    case Tds => "tds"
  }

  /** The fields in the order the application lists them. */
  const ALL_FIELDS: seq<Field> := [GrossSalary, BasicSalary, HraReceived, RentPaid, Deduction80C,
                                   Deduction80D, StandardDeduction, ProfessionalTax, Tds]

  /** The position of a field in `ALL_FIELDS`. */
  function Index(f: Field): (i: nat)
    ensures i < |ALL_FIELDS| && ALL_FIELDS[i] == f
  {
    match f
    case GrossSalary => 0
    case BasicSalary => 1
    case HraReceived => 2
    case RentPaid => 3
    case Deduction80C => 4
    case Deduction80D => 5
    case StandardDeduction => 6
    case ProfessionalTax => 7
    case Tds => 8
  }

  /** A field dictionary: key to the text of a decimal amount. */
  type FieldSet = map<string, string>

  /** `k` is the key of one of the nine fields. */
  predicate IsFieldKey(k: string) {
    exists f :: Key(f) == k
  }

  /** The dictionary holds the key of every field and no other key. */
  predicate HasFieldKeys(data: FieldSet) {
    (forall f :: Key(f) in data) && forall k :: k in data ==> IsFieldKey(k)
  }

  lemma KeyInjective(f: Field, g: Field)
    ensures Key(f) == Key(g) <==> f == g
  {
  }
}
