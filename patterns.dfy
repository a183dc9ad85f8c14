/** The nine field patterns of `parse_financial_data` and what `re.search`
    finds with them. Every pattern has the shape
      (?i) LABEL \s* [:=]? \s* ([\d,.]+)
    where LABEL is one or more alternative phrases whose words are joined by
    `\s*`. Because `\s`, `[:=]` and `[\d,.]` share no character, the part after
    the label matches in at most one way (spaces, an optional `:` or `=`,
    spaces, then the longest run of digits, commas and points), so a match at
    a start position is the first label alternative, in the pattern's order,
    whose tail matches. */
module Patterns {
  import opened Text
  import opened Fields

  /** The words of one label alternative, in lower case, joined by `\s*`. */
  type Phrase = seq<string>

  /** The label alternatives of a field's pattern, in the order the regular
      expression tries them (an optional group is tried before its absence). */
  function Phrases(f: Field): seq<Phrase> {
    match f
    case GrossSalary => [["gross", "salary"]]
    case BasicSalary => [["basic", "pay"], ["basic", "salary"], ["basic"]]
    case HraReceived => [["hra", "received"], ["hra"], ["house", "rent", "allowance"]]
    case RentPaid => [["rent", "paid"]]
    case Deduction80C => [["80c", "deduction"], ["80c", "investment"], ["80c"]]
    case Deduction80D => [["80d", "deduction"], ["80d", "investment"], ["80d"]]
    case StandardDeduction => [["standard", "deduction"]]
    case ProfessionalTax => [["professional", "tax"]]
    case Tds => [["tds"]]
  }

  predicate IsAsciiLetter(c: char) {
    'a' <= c <= 'z' || 'A' <= c <= 'Z'
  }

  /** `word` occurs at position `i` of `lt`. */
  predicate WordAt(lt: string, i: nat, word: string) {
    i + |word| <= |lt| && lt[i..i + |word|] == word
  }

  /** Where `phrase` ends when it is matched at `i` of the lower-case text
      `lt`: each word in turn, with any run of whitespace between two words. */
  function PhraseEnd(lt: string, i: nat, phrase: Phrase): (r: Option<nat>)
    requires i <= |lt|
    ensures r.Some? ==> i <= r.value <= |lt|
    decreases |phrase|
  {
    if phrase == [] then Some(i)
    else if !WordAt(lt, i, phrase[0]) then None
    else if |phrase| == 1 then Some(i + |phrase[0]|)
    else PhraseEnd(lt, SkipSpaces(lt, i + |phrase[0]|), phrase[1..])
  }

  /** The character class `[\d,.]`. */
  predicate IsNumberChar(c: char) {
    IsDigit(c) || c == ',' || c == '.'
  }

  /** The end of the longest run of `[\d,.]` that starts at `k`. */
  function NumberRunEnd(t: string, k: nat): (e: nat)
    requires k <= |t|
    ensures k <= e <= |t|
    ensures forall m :: k <= m < e ==> IsNumberChar(t[m])
    ensures e == |t| || !IsNumberChar(t[e])
    decreases |t| - k
  {
    if k < |t| && IsNumberChar(t[k]) then NumberRunEnd(t, k + 1) else k
  }

  /** Where the captured number starts when the label ends at `j`:
      `\s*[:=]?\s*`. */
  function NumberStart(t: string, j: nat): (k: nat)
    requires j <= |t|
    ensures j <= k <= |t|
  {
    var k := SkipSpaces(t, j);
    if k < |t| && (t[k] == ':' || t[k] == '=') then SkipSpaces(t, k + 1) else k
  }

  /** The group `([\d,.]+)` after a label that ends at `j`, if the tail
      matches there. */
  function Capture(t: string, j: nat): (r: Option<string>)
    requires j <= |t|
    ensures r.Some? ==> |r.value| > 0 && forall c :: c in r.value ==> IsNumberChar(c)
  {
    var k := NumberStart(t, j);
    var e := NumberRunEnd(t, k);
    if k < e then Some(t[k..e]) else None
  }

  /** The capture of the first alternative, in order, that matches at `i`.
      Under `(?i)` the label is compared with the ASCII lower-case form of the
      text; the number is taken from the text itself. */
  function FirstCapture(t: string, i: nat, phrases: seq<Phrase>): (r: Option<string>)
    requires i <= |t|
    ensures r.Some? ==> |r.value| > 0 && forall c :: c in r.value ==> IsNumberChar(c)
  {
    if phrases == [] then None
    else
      var end := PhraseEnd(Lower(t), i, phrases[0]);
      var here := if end.Some? then Capture(t, end.value) else None;
      if here.Some? then here else FirstCapture(t, i, phrases[1..])
  }

  /** What the field's pattern captures when matched at position `i`. */
  function MatchAt(t: string, i: nat, f: Field): (r: Option<string>)
    requires i <= |t|
    ensures r.Some? ==> |r.value| > 0 && forall c :: c in r.value ==> IsNumberChar(c)
  {
    FirstCapture(t, i, Phrases(f))
  }

  /** `re.search` from position `i` on: the leftmost start where the pattern
      matches. */
  function SearchFrom(t: string, f: Field, i: nat): (r: Option<nat>)
    requires i <= |t|
    ensures r.None? <==> forall p :: i <= p <= |t| ==> MatchAt(t, p, f).None?
    ensures r.Some? ==> i <= r.value <= |t| && MatchAt(t, r.value, f).Some?
    ensures r.Some? ==> forall p :: i <= p < r.value ==> MatchAt(t, p, f).None?
    decreases |t| - i
  {
    if MatchAt(t, i, f).Some? then Some(i)
    else if i == |t| then None
    else SearchFrom(t, f, i + 1)
  }

  function Search(t: string, f: Field): (r: Option<nat>)
    ensures r.Some? ==> r.value <= |t|
  {
    SearchFrom(t, f, 0)
  }

  /** The value `parse_financial_data` stores for a field: the number the
      leftmost match captures, with its commas removed, or the empty string
      when the pattern matches nowhere. */
  function FieldValue(f: Field, t: string): string {
    match Search(t, f)
    case None => ""
    case Some(p) => RemoveAll(MatchAt(t, p, f).value, ',')
  }

  /** A field's value holds only digits and points; it is empty when the
      pattern matches nowhere, and also when the number it captures is made
      of commas alone. */
  lemma FieldValueShape(f: Field, t: string)
    ensures forall c :: c in FieldValue(f, t) ==> IsDigit(c) || c == '.'
    ensures Search(t, f).None? ==> FieldValue(f, t) == ""
    ensures Search(t, f).Some? ==>
      (FieldValue(f, t) == "" <==> forall c :: c in MatchAt(t, Search(t, f).value, f).value ==> c == ',')
  {
    if Search(t, f).Some? {
      RemoveAllMembers(MatchAt(t, Search(t, f).value, f).value, ',');
    }
  }

  // ---------------------------------------------------------------------------
  // Ignoring case

  lemma AsciiLowerClasses(c: char)
    ensures AsciiLower(AsciiLower(c)) == AsciiLower(c)
    ensures IsSpace(AsciiLower(c)) <==> IsSpace(c)
    ensures IsNumberChar(AsciiLower(c)) <==> IsNumberChar(c)
    ensures IsNumberChar(c) || c == ':' || c == '=' ==> AsciiLower(c) == c
    ensures AsciiLower(c) == ':' <==> c == ':'
    ensures AsciiLower(c) == '=' <==> c == '='
  {
  }

  /** `t` and `u` differ at most in the case of ASCII letters. */
  predicate CaseBlind(t: string, u: string) {
    Lower(t) == Lower(u)
  }

  /** Characters that agree up to case are alike to `\s` and `[\d,.]`, and
      equal when they are number characters, `:` or `=`. */
  lemma CaseBlindAt(t: string, u: string, k: nat)
    requires CaseBlind(t, u) && k < |t|
    ensures |u| == |t|
    ensures IsSpace(t[k]) <==> IsSpace(u[k])
    ensures IsNumberChar(t[k]) <==> IsNumberChar(u[k])
    ensures IsNumberChar(t[k]) || t[k] == ':' || t[k] == '=' ==> u[k] == t[k]
  {
    assert Lower(t)[k] == Lower(u)[k];
    AsciiLowerClasses(t[k]);
    AsciiLowerClasses(u[k]);
  }

  lemma SkipSpacesBlind(t: string, u: string, i: nat)
    requires CaseBlind(t, u) && i <= |t|
    ensures SkipSpaces(t, i) == SkipSpaces(u, i)
  {
    var a, b := SkipSpaces(t, i), SkipSpaces(u, i);
    var m := if a <= b then a else b;
    if m < |t| {
      CaseBlindAt(t, u, m);
    }
  }

  lemma NumberRunEndBlind(t: string, u: string, k: nat)
    requires CaseBlind(t, u) && k <= |t|
    ensures NumberRunEnd(t, k) == NumberRunEnd(u, k)
  {
    var a, b := NumberRunEnd(t, k), NumberRunEnd(u, k);
    var m := if a <= b then a else b;
    if m < |t| {
      CaseBlindAt(t, u, m);
    }
  }

  lemma NumberStartBlind(t: string, u: string, j: nat)
    requires CaseBlind(t, u) && j <= |t|
    ensures NumberStart(t, j) == NumberStart(u, j)
  {
    SkipSpacesBlind(t, u, j);
    var k := SkipSpaces(t, j);
    if k < |t| {
      CaseBlindAt(t, u, k);
      SkipSpacesBlind(t, u, k + 1);
    }
  }

  /** A run of number characters is the same in both texts. */
  lemma NumberRunBlind(t: string, u: string, n: nat, e: nat)
    requires CaseBlind(t, u) && n <= e <= |t|
    requires forall m :: n <= m < e ==> IsNumberChar(t[m])
    ensures |u| == |t| && t[n..e] == u[n..e]
  {
    forall m | n <= m < e ensures t[m] == u[m] {
      CaseBlindAt(t, u, m);
    }
  }

  lemma CaptureBlind(t: string, u: string, j: nat)
    requires CaseBlind(t, u) && j <= |t|
    ensures Capture(t, j) == Capture(u, j)
  {
    NumberStartBlind(t, u, j);
    var n := NumberStart(t, j);
    NumberRunEndBlind(t, u, n);
    NumberRunBlind(t, u, n, NumberRunEnd(t, n));
  }

  lemma {:induction false} FirstCaptureBlind(t: string, u: string, i: nat, phrases: seq<Phrase>)
    requires CaseBlind(t, u) && i <= |t|
    ensures FirstCapture(t, i, phrases) == FirstCapture(u, i, phrases)
    decreases |phrases|
  {
    if phrases != [] {
      var end := PhraseEnd(Lower(t), i, phrases[0]);
      if end.Some? {
        CaptureBlind(t, u, end.value);
      }
      FirstCaptureBlind(t, u, i, phrases[1..]);
    }
  }

  /** Two texts that differ only in the case of ASCII letters give every
      field the same value. */
  lemma SameUpToCase(f: Field, t: string, u: string)
    requires CaseBlind(t, u)
    ensures FieldValue(f, t) == FieldValue(f, u)
  {
    forall p | 0 <= p <= |t| ensures MatchAt(t, p, f) == MatchAt(u, p, f) {
      FirstCaptureBlind(t, u, p, Phrases(f));
    }
    var r, s := Search(t, f), Search(u, f);
    if r.Some? && s.Some? && r.value != s.value {
      assert false;
    }
  }

  /** The `(?i)` flag: a text and its ASCII lower-case form give every field
      the same value. */
  lemma FieldValueIgnoresCase(f: Field, t: string)
    ensures FieldValue(f, Lower(t)) == FieldValue(f, t)
  {
    forall k | 0 <= k < |t| ensures Lower(Lower(t))[k] == Lower(t)[k] {
      AsciiLowerClasses(t[k]);
    }
    assert CaseBlind(Lower(t), t);
    SameUpToCase(f, Lower(t), t);
  }

  // ---------------------------------------------------------------------------
  // The bare `80c` and `80d` alternatives

  lemma {:induction false} SkipSpacesWithin(t: string, j: nat, k: nat)
    requires j <= |t| && j <= k <= SkipSpaces(t, j)
    ensures SkipSpaces(t, k) == SkipSpaces(t, j)
    decreases k - j
  {
    if j < k {
      SkipSpacesWithin(t, j + 1, k);
    }
  }

  /** In `80c\s*(?:deduction|investment)?\s*[:=]?\s*([\d,.]+)` the first
      `\s*` may give back any number of the spaces after the label when the
      optional words are absent; wherever it stops, the capture is the same
      as right after the label, so the alternative `["80c"]` loses nothing. */
  lemma CaptureSkipsSpaces(t: string, j: nat, k: nat)
    requires j <= |t| && j <= k <= SkipSpaces(t, j)
    ensures Capture(t, k) == Capture(t, j)
  {
    SkipSpacesWithin(t, j, k);
  }

  // ---------------------------------------------------------------------------
  // Texts without labels

  /** `word` contains a lower-case ASCII letter. */
  predicate HasLetter(word: string) {
    exists k :: 0 <= k < |word| && 'a' <= word[k] <= 'z'
  }

  /** Every alternative starts with a word that contains a letter. */
  predicate Labelled(phrases: seq<Phrase>) {
    forall n :: 0 <= n < |phrases| ==> phrases[n] != [] && HasLetter(phrases[n][0])
  }

  lemma PhraseNeedsLetter(lt: string, i: nat, phrase: Phrase)
    requires i <= |lt| && phrase != [] && HasLetter(phrase[0])
    requires forall m :: 0 <= m < |lt| ==> !('a' <= lt[m] <= 'z')
    ensures PhraseEnd(lt, i, phrase).None?
  {
  }

  lemma {:induction false} FirstCaptureNeedsLetter(t: string, i: nat, phrases: seq<Phrase>)
    requires i <= |t| && Labelled(phrases)
    requires forall m :: 0 <= m < |t| ==> !('a' <= Lower(t)[m] <= 'z')
    ensures FirstCapture(t, i, phrases).None?
    decreases |phrases|
  {
    if phrases != [] {
      PhraseNeedsLetter(Lower(t), i, phrases[0]);
      assert Labelled(phrases[1..]) by {
        forall n | 0 <= n < |phrases[1..]| ensures phrases[1..][n] != [] && HasLetter(phrases[1..][n][0]) {
          assert phrases[1..][n] == phrases[n + 1];
        }
      }
      FirstCaptureNeedsLetter(t, i, phrases[1..]);
    }
  }

  lemma LabelsHaveLetters(f: Field)
    ensures Labelled(Phrases(f))
  {
    forall n | 0 <= n < |Phrases(f)| ensures HasLetter(Phrases(f)[n][0]) {
      assert 'a' <= Phrases(f)[n][0][2] <= 'z';
    }
  }

  /** Every label contains a letter, so a text with no ASCII letter (an empty
      extraction, or only figures) leaves every field empty. */
  lemma NoLettersNoValues(t: string)
    requires forall m :: 0 <= m < |t| ==> !IsAsciiLetter(t[m])
    ensures forall f :: FieldValue(f, t) == ""
  {
    forall m | 0 <= m < |t| ensures !('a' <= Lower(t)[m] <= 'z') {
      assert !IsAsciiLetter(t[m]);
    }
    forall f ensures FieldValue(f, t) == "" {
      LabelsHaveLetters(f);
      forall p | 0 <= p <= |t| ensures MatchAt(t, p, f).None? {
        FirstCaptureNeedsLetter(t, p, Phrases(f));
      }
    }
  }

  // ---------------------------------------------------------------------------
  // A worked example

  /** Where the pieces of "TDS = 12,500" lie: the label, the spaces around
      the `=`, and the number. */
  lemma TdsLayout(t: string)
    requires t == "TDS = 12,500"
    ensures WordAt(Lower(t), 0, "tds")
    ensures SkipSpaces(t, 3) == 4 && SkipSpaces(t, 5) == 6
    ensures NumberRunEnd(t, 6) == 12 && t[6..12] == "12,500"
  {
  }

  /** The upper-case label matches at the very start, so that is where the
      search stops, and the `=` is skipped before the capture. */
  lemma TdsMatch(t: string)
    requires t == "TDS = 12,500"
    ensures MatchAt(t, 0, Tds) == Some("12,500")
    ensures Search(t, Tds) == Some(0)
  {
    TdsLayout(t);
  }

  lemma DropGroupComma()
    ensures RemoveAll("12,500", ',') == "12500"
  {
  }

  /** "TDS = 12,500" stores "12500" for the TDS: the digit-group comma is
      dropped. */
  lemma TdsExample(t: string)
    requires t == "TDS = 12,500"
    ensures FieldValue(Tds, t) == "12500"
  {
    TdsMatch(t);
    DropGroupComma();
  }

  /** Where the pieces of "Gross Salary: 1,25,000.50" lie: the two label
      words with a space between them, the `:` right after the label, the
      space after it, and the number in Indian digit grouping. */
  lemma GrossLabelLayout(t: string)
    requires t == "Gross Salary: 1,25,000.50"
    ensures WordAt(Lower(t), 0, "gross") && SkipSpaces(Lower(t), 5) == 6
    ensures WordAt(Lower(t), 6, "salary")
  {
    assert Lower(t)[..12] == "gross salary";
  }

  lemma GrossNumberLayout(t: string)
    requires t == "Gross Salary: 1,25,000.50"
    ensures SkipSpaces(t, 12) == 12 && t[12] == ':' && SkipSpaces(t, 13) == 14
    ensures NumberRunEnd(t, 14) == 25 && t[14..25] == "1,25,000.50"
  {
  }

  /** The two-word label matches at the very start, and the capture starts
      after the `:` and the space. */
  lemma GrossMatch(t: string)
    requires t == "Gross Salary: 1,25,000.50"
    ensures MatchAt(t, 0, GrossSalary) == Some("1,25,000.50")
    ensures Search(t, GrossSalary) == Some(0)
  {
    GrossLabelLayout(t);
    GrossNumberLayout(t);
    assert PhraseEnd(Lower(t), 0, ["gross", "salary"]) == Some(12);
    assert NumberStart(t, 12) == 14;
  }

  /** Removing the commas between three comma-free groups joins the groups. */
  lemma JoinGroups(a: string, b: string, c: string)
    requires ',' !in a && ',' !in b && ',' !in c
    ensures RemoveAll(a + [','] + b + [','] + c, ',') == a + b + c
  {
    var comma: string := [','];
    assert RemoveAll(comma, ',') == [] by { assert comma[1..] == []; }
    RemoveAllAbsent(a, ',');
    RemoveAllAbsent(b, ',');
    RemoveAllAbsent(c, ',');
    var x1 := a + comma;
    RemoveAllAppend(a, comma, ',');
    assert RemoveAll(x1, ',') == a;
    var x2 := x1 + b;
    RemoveAllAppend(x1, b, ',');
    assert RemoveAll(x2, ',') == a + b;
    var x3 := x2 + comma;
    RemoveAllAppend(x2, comma, ',');
    assert RemoveAll(x3, ',') == a + b;
    RemoveAllAppend(x3, c, ',');
  }

  lemma DropIndianGrouping(s: string)
    requires s == "1,25,000.50"
    ensures RemoveAll(s, ',') == "125000.50"
  {
    var a, b, c := "1", "25", "000.50";
    assert s == a + [','] + b + [','] + c;
    JoinGroups(a, b, c);
    assert a + b + c == "125000.50";
  }

  /** "Gross Salary: 1,25,000.50" stores "125000.50" for the gross salary:
      both grouping commas go and the decimal point stays. */
  lemma GrossSalaryExample(t: string)
    requires t == "Gross Salary: 1,25,000.50"
    ensures FieldValue(GrossSalary, t) == "125000.50"
  {
    GrossMatch(t);
    DropIndianGrouping(MatchAt(t, 0, GrossSalary).value);
  }
}
