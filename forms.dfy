/**
 * The form state the editing screens share: a `formData` object of field
 * values, and an `errors` object of messages that editing a field clears.
 * Each screen names its fields with a datatype `K` of its own, one
 * constructor per property name the screen uses.
 */
module Forms {
  import opened Wrappers

  /** A field or payload value as JavaScript holds it; `NaN` is what a failed parse gives. */
  datatype Value = Str(s: string) | Flag(b: bool) | Num(n: real) | NaN | Null | Strs(items: seq<string>)

  type Form<K(==)> = map<K, Value>

  /** The `errors` state: a message per field, `null` once the field was edited. */
  type ErrorState<K(==)> = map<K, Option<string>>

  /** `formData[key]`: `undefined` (here `Null`) when the key is absent. */
  function Field<K(==)>(form: Form<K>, key: K): Value {
    if key in form then form[key] else Null
  }

  /** JavaScript truthiness of a value. */
  predicate Truthy(v: Value) {
    match v
    case Str(s) => s != ""
    case Flag(b) => b
    case Num(n) => n != 0.0
    case NaN => false
    case Null => false
    case Strs(_) => true
  }

  /** The text of a text field; any other value reads as empty text. */
  function TextOf<K(==)>(form: Form<K>, key: K): string {
    match Field(form, key)
    case Str(s) => s
    case _ => ""
  }

  /** `Number` or `NaN`, from a parse that may fail. */
  function NumberValue(r: Option<real>): Value {
    if r.Some? then Num(r.value) else NaN
  }

  /** `parseInt` as a JavaScript number. */
  function IntNumber(r: Option<int>): Value {
    if r.Some? then Num(r.value as real) else NaN
  }

  /** `newErrors` after one rule of `validate()`: its message, if any, set under `key`. */
  function WithRule<K(==)>(errors: map<K, string>, key: K, error: Option<string>): map<K, string> {
    if error.Some? then errors[key := error.value] else errors
  }

  /** A rule decides its own key and leaves every other one as it was. */
  lemma WithRuleAt<K>(errors: map<K, string>, key: K, error: Option<string>, k: K)
    ensures k == key ==> (k in WithRule(errors, key, error) <==> k in errors || error.Some?)
    ensures k == key && error.Some? ==> WithRule(errors, key, error)[k] == error.value
    ensures k != key ==> (k in WithRule(errors, key, error) <==> k in errors)
    ensures k != key && k in errors ==> WithRule(errors, key, error)[k] == errors[k]
  {
  }

  /** `errors[field]` is a non-empty message. */
  predicate HasError<K(==)>(errors: ErrorState<K>, field: K) {
    field in errors && errors[field].Some? && errors[field].value != ""
  }

  /**
   * The error half of `handleChange(field, value)`: a shown error of the field
   * becomes `null`; an empty or absent one is left as it is, and so is every
   * other field.
   */
  function ClearedError<K(==)>(errors: ErrorState<K>, field: K): (r: ErrorState<K>)
    ensures !HasError(r, field)
    ensures HasError(errors, field) ==> field in r && r[field] == None
    ensures !HasError(errors, field) ==> r == errors
    ensures r.Keys == errors.Keys
    ensures forall k :: k in errors && k != field ==> r[k] == errors[k]
  {
    if HasError(errors, field) then errors[field := None] else errors
  }

  /** `setErrors(newErrors)`: the validator's messages replace the whole error state. */
  function ErrorStateOf<K(==)>(messages: map<K, string>): (r: ErrorState<K>)
    ensures r.Keys == messages.Keys
    ensures forall k :: k in messages ==> r[k] == Some(messages[k])
  {
    map k | k in messages :: Some(messages[k])
  }
}
