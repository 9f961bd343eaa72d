/** The field registry: the constant, ordered table of the eleven form
    fields, with each field's domain and default. */
module Registry {

  /** One `<option>` of a select field: the coded value and its label. */
  datatype Choice = Choice(val: int, txt: string)

  /** A field descriptor. Icons are presentation and are not modelled. */
  datatype FieldSpec =
    | Number(name: string, caption: string, min: int, max: int, def: int)
    | Select(name: string, caption: string, options: seq<Choice>, def: int)

  /** The page's `Inputs` array, one constant per entry, in display order. */
  const Age := Number("age", "Age (Years)", 10, 100, 30)
  const Gender := Select("gender", "Gender", [Choice(1, "Male"), Choice(2, "Female")], 1)
  const Height := Number("height", "Height (cm)", 100, 250, 170)
  const Weight := Number("weight", "Weight (kg)", 30, 200, 70)
  const SystolicBP := Number("ap_hi", "Systolic BP", 60, 240, 120)
  const DiastolicBP := Number("ap_lo", "Diastolic BP", 40, 180, 80)
  const Cholesterol := Select("cholesterol", "Cholesterol", [Choice(1, "Normal"), Choice(2, "Above Normal"), Choice(3, "High")], 1)
  const Glucose := Select("gluc", "Glucose", [Choice(1, "Normal"), Choice(2, "Above Normal"), Choice(3, "High")], 1)
  const Smoking := Select("smoke", "Smoking", [Choice(0, "No"), Choice(1, "Yes")], 0)
  const Alcohol := Select("alco", "Alcohol", [Choice(0, "No"), Choice(1, "Yes")], 0)
  const Active := Select("active", "Active Lifestyle", [Choice(1, "Yes"), Choice(0, "No")], 1)

  const Inputs: seq<FieldSpec> := [Age, Gender, Height, Weight, SystolicBP, DiastolicBP,
                                   Cholesterol, Glucose, Smoking, Alcohol, Active]

  /** The set of names a table declares. */
  function Names(fields: seq<FieldSpec>): set<string> {
    set f | f in fields :: f.name
  }

  /** The names of a table, in table order. */
  function NameList(fields: seq<FieldSpec>): (names: seq<string>)
    ensures |names| == |fields|
    ensures forall i :: 0 <= i < |fields| ==> names[i] == fields[i].name
  {
    if fields == [] then [] else [fields[0].name] + NameList(fields[1..])
  }

  /** The coded values of a select field's options, in order. */
  function Values(options: seq<Choice>): (vals: seq<int>)
    ensures |vals| == |options|
    ensures forall i :: 0 <= i < |options| ==> vals[i] == options[i].val
  {
    if options == [] then [] else [options[0].val] + Values(options[1..])
  }

  predicate Distinct<T(==)>(s: seq<T>) {
    forall i, j :: 0 <= i < j < |s| ==> s[i] != s[j]
  }

  /** A field's default lies in its declared domain: inside the inclusive
      range of a number field, among the option values of a select field,
      whose options are non-empty and carry distinct values. */
  predicate FieldWellFormed(f: FieldSpec) {
    match f
    case Number(_, _, lo, hi, def) => lo <= def <= hi
    case Select(_, _, options, def) =>
      options != [] && Distinct(Values(options)) && def in Values(options)
  }

  /** The texts a field's control can report as `e.target.value`: a
      select reports the decimal text of one of its options' values; a
      number input, which has no `min` or `max` attribute, reports the text
      of any valid floating-point number, or "" for anything else. */
  predicate Deliverable(f: FieldSpec, text: string) {
    match f
    case Number(_, _, _, _, _) => text == "" || FloatText(text)
    case Select(_, _, options, _) => exists c :: c in options && text == DecimalText(c.val)
  }

  /** The decimal text of an integer, as `String(n)` writes it. */
  function DecimalText(n: int): string
    decreases if n < 0 then 1 - n else n
  {
    if n < 0 then "-" + DecimalText(-n)
    else if n < 10 then [(n + '0' as int) as char]
    else DecimalText(n / 10) + [(n % 10 + '0' as int) as char]
  }

  predicate IsDigit(c: char) {
    '0' <= c <= '9'
  }

  predicate Digits(s: string) {
    forall i :: 0 <= i < |s| ==> IsDigit(s[i])
  }

  /** The index of the first `a` or `b` in `s`, or `|s|` if there is none. */
  function FirstOf(s: string, a: char, b: char): (k: nat)
    ensures k <= |s|
    ensures forall i :: 0 <= i < k ==> s[i] != a && s[i] != b
    ensures k < |s| ==> s[k] == a || s[k] == b
  {
    if s == [] || s[0] == a || s[0] == b then 0 else 1 + FirstOf(s[1..], a, b)
  }

  /** A valid floating-point number in the sense of HTML: an optional "-",
      digits, "." and digits, or both, then an optional exponent. */
  predicate FloatText(t: string) {
    if t != [] && t[0] == '-' then UnsignedFloatText(t[1..]) else UnsignedFloatText(t)
  }

  predicate UnsignedFloatText(t: string) {
    var e := FirstOf(t, 'e', 'E');
    Mantissa(t[..e]) && (e == |t| || Exponent(t[e + 1..]))
  }

  predicate Mantissa(m: string) {
    var d := FirstOf(m, '.', '.');
    if d == |m| then m != [] && Digits(m)
    else Digits(m[..d]) && m[d + 1..] != [] && Digits(m[d + 1..])
  }

  predicate Exponent(x: string) {
    var digits := if x != [] && (x[0] == '+' || x[0] == '-') then x[1..] else x;
    digits != [] && Digits(digits)
  }

  predicate DistinctNames(fields: seq<FieldSpec>) {
    forall i, j :: 0 <= i < j < |fields| ==> fields[i].name != fields[j].name
  }

  predicate TableWellFormed(fields: seq<FieldSpec>) {
    && DistinctNames(fields)
    && forall i :: 0 <= i < |fields| ==> FieldWellFormed(fields[i])
  }

  /** The registry is the eleven named fields, in display order. */
  lemma InputsOrder()
    ensures NameList(Inputs) == ["age", "gender", "height", "weight", "ap_hi", "ap_lo",
                                 "cholesterol", "gluc", "smoke", "alco", "active"]
  {
    var names := NameList(Inputs);
    forall i | 0 <= i < |Inputs| ensures names[i] == Inputs[i].name {
    }
  }

  /** No two registry fields share a name. */
  lemma InputsNamesDistinct()
    ensures |Inputs| == 11 && DistinctNames(Inputs)
  {
    forall i, j | 0 <= i < j < |Inputs| ensures Inputs[i].name != Inputs[j].name {
      assert Key(Inputs[i].name) != Key(Inputs[j].name);
    }
  }

  /** Length, first and last character of a name, packed in one number:
      enough to tell the registry's names apart. It serves only the proof
      of `InputsNamesDistinct`. */
  ghost function Key(s: string): int {
    if s == [] then 0 else |s| * 1000000 + (s[0] as int) * 1000 + (s[|s| - 1] as int)
  }

  /** A run of digits is a valid floating-point number. */
  lemma IntegerText(t: string)
    requires t != [] && Digits(t)
    ensures FloatText(t)
  {
    assert FirstOf(t, 'e', 'E') == |t|;
    assert t[..|t|] == t;
    assert FirstOf(t, '.', '.') == |t|;
  }

  /** Texts a number input reports: an out-of-range age, the empty text of
      a cleared input, a weight with an exponent. */
  lemma NumberTexts()
    ensures Deliverable(Inputs[0], "45") && Deliverable(Inputs[0], "500")
    ensures Deliverable(Inputs[2], "") && Deliverable(Inputs[3], "1e3")
  {
    var age, height, weight := Inputs[0], Inputs[2], Inputs[3];
    assert age.Number? && height.Number? && weight.Number?;
    IntegerText("45");
    IntegerText("500");
    ExponentText();
  }

  lemma ExponentText()
    ensures FloatText("1e3")
  {
    var t := "1e3";
    assert FirstOf(t, 'e', 'E') == 1 by { assert t[0] != 'e' && t[0] != 'E' && t[1] == 'e'; }
    assert t[..1] == "1" && FirstOf("1", '.', '.') == 1;
    assert t[2..] == "3";
  }

  /** The gender select cannot report a code it has no option for. */
  lemma GenderCodes()
    ensures forall f :: f in Inputs && f.name == "gender" ==> !Deliverable(f, "7")
  {
    InputsNamesDistinct();
    forall f | f in Inputs && f.name == "gender" ensures !Deliverable(f, "7") {
      assert f == Inputs[1];
      assert DecimalText(1) == "1" && DecimalText(2) == "2";
    }
  }

  /** Every registry default lies inside its field's domain. */
  lemma InputsDefaultsInDomain()
    ensures forall i :: 0 <= i < |Inputs| ==> FieldWellFormed(Inputs[i])
  {
  }

  /** The registry as a whole is well formed. */
  lemma InputsWellFormed()
    ensures TableWellFormed(Inputs)
  {
    InputsNamesDistinct();
    InputsDefaultsInDomain();
  }
}
