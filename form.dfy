/** The form state: a map from field name to the value the form holds,
    seeded from the registry defaults and changed one field at a time. */
module Form {
  import opened Json
  import opened Registry

  /** A default is a number; an edited field holds the input element's
      text, unchecked. */
  datatype Value = Num(n: int) | Text(s: string)

  type FormData = map<string, Value>

  /** No later entry of `fields` reuses the name of entry `i`. */
  predicate LastWithName(fields: seq<FieldSpec>, i: int)
    requires 0 <= i < |fields|
  {
    forall j :: i < j < |fields| ==> fields[j].name != fields[i].name
  }

  /** The `reduce` over the registry that seeds the form: fold left to
      right, each field adding (or overwriting) its name with its default. */
  function Defaults(fields: seq<FieldSpec>): (m: FormData)
    ensures m.Keys == Names(fields)
    ensures forall i :: 0 <= i < |fields| && LastWithName(fields, i) ==> m[fields[i].name] == Num(fields[i].def)
  {
    if fields == [] then map[]
    else
      var init, last := fields[..|fields| - 1], fields[|fields| - 1];
      assert fields == init + [last];
      Defaults(init)[last.name := Num(last.def)]
  }

  /** The initial form: every registry name mapped to its field's default,
      and no other key. */
  function InitialForm(): (m: FormData)
    ensures m.Keys == Names(Inputs)
    ensures forall i :: 0 <= i < |Inputs| ==> m[Inputs[i].name] == Num(Inputs[i].def)
  {
    InputsNamesDistinct();
    Defaults(Inputs)
  }

  /** `handleChange`: the changed field takes the raw text of the input,
      with no range or option check; every other key keeps its value. An
      unregistered name would be added as a new key. */
  function Changed(form: FormData, name: string, text: string): (r: FormData)
    ensures r.Keys == form.Keys + {name}
    ensures name in r && r[name] == Text(text)
    ensures forall k :: k in form && k != name ==> r[k] == form[k]
  {
    form[name := Text(text)]
  }

  /** Applying the same change twice leaves the form as one application. */
  lemma ChangeIdempotent(form: FormData, name: string, text: string)
    ensures Changed(Changed(form, name, text), name, text) == Changed(form, name, text)
  {
  }

  /** A change to a registered name keeps the key set equal to the registry's. */
  lemma ChangeKeepsKeys(form: FormData, name: string, text: string)
    requires form.Keys == Names(Inputs) && name in Names(Inputs)
    ensures Changed(form, name, text).Keys == Names(Inputs)
  {
  }

  /** No bounds check: whatever `e.target.value` is, it is stored as text,
      be it an age far outside 10..100, an emptied height or a weight
      written with an exponent. */
  lemma ChangeIsUnchecked()
    ensures Changed(InitialForm(), "age", "500")["age"] == Text("500")
    ensures Changed(InitialForm(), "height", "")["height"] == Text("")
    ensures Changed(InitialForm(), "weight", "1e3")["weight"] == Text("1e3")
  {
  }

  /** `JSON.stringify` of one form value. */
  function Encode(v: Value): Json {
    match v
    case Num(n) => JNumber(n as real)
    case Text(s) => JString(s)
  }

  /** The request body: the form serialised as one JSON object, every key
      carried with its value as held, numbers as numbers and texts as strings. */
  function RequestBody(form: FormData): (body: Json)
    ensures body.JObject? && body.fields.Keys == form.Keys
    ensures forall k :: k in form ==> body.fields[k] == Encode(form[k])
  {
    JObject(map k | k in form :: Encode(form[k]))
  }

  /** Reading one JSON member back as a form value: an integral number or a
      string; anything else is not a value the form can hold. */
  function DecodeValue(j: Json): Option<Value> {
    match j
    case JNumber(r) => if r.Floor as real == r then Some(Num(r.Floor)) else None
    case JString(s) => Some(Text(s))
    case _ => None
  }

  /** Reading a request body back as a form. */
  function DecodeBody(body: Json): Option<FormData> {
    if body.JObject? && forall k :: k in body.fields ==> DecodeValue(body.fields[k]).Some? then
      Some(map k | k in body.fields :: DecodeValue(body.fields[k]).value)
    else None
  }

  /** The request body carries the form verbatim: reading it back gives the
      same form, so an edited field arrives as the text typed, not as the
      number it may spell. */
  lemma BodyRoundTrip(form: FormData)
    ensures DecodeBody(RequestBody(form)) == Some(form)
  {
    var body := RequestBody(form);
    forall k | k in body.fields ensures DecodeValue(body.fields[k]) == Some(form[k]) {
      match form[k]
      case Num(n) => assert (n as real).Floor == n;
      case Text(_) =>
    }
    var decoded := map k | k in body.fields :: DecodeValue(body.fields[k]).value;
    assert decoded == form;
  }
}
