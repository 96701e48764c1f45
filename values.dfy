/** JavaScript values as the source handles them, and the JSON text they travel as. */
module Values {
  import opened Wrappers
  import opened Strings

  /** A JavaScript value. Numbers are modelled as integers; a `Date` object is known by the text
      its `toISOString()` returns. */
  datatype Value =
    | Str(s: string)
    | Num(n: int)
    | Bool(b: bool)
    | Date(iso: string)
    | Null
    | Undefined
    | Arr(elems: seq<Value>)
    | Obj(fields: Record)

  /** A plain object, by its own enumerable properties. A spread `{...a, ...b}` is `a + b`:
      on a key present in both, `b` wins. */
  type Record = map<string, Value>

  /** Property access `r.k`: `undefined` for a missing key. */
  function Get(r: Record, k: string): Value
  {
    if k in r then r[k] else Undefined
  }

  /** JavaScript truthiness: `""`, `0`, `false`, `null` and `undefined` are falsy; objects,
      arrays and dates are truthy. */
  predicate Truthy(v: Value)
  {
    match v
    case Str(s) => s != ""
    case Num(n) => n != 0
    case Bool(b) => b
    case Null => false
    case Undefined => false
    case _ => true
  }

  /** The properties a spread `...v` contributes: an object's own properties, nothing for
      `null`, `undefined`, numbers and booleans. */
  function Spread(v: Value): Record
  {
    if v.Obj? then v.fields else map[]
  }

  /** `${v}` in a template literal, JavaScript's `String(v)`: numbers in decimal, `null` and
      `undefined` by name, any object as `[object Object]`, an array as its elements joined by
      commas, with `null` and `undefined` elements left empty. A `Date` is shown by its ISO text
      here, where JavaScript uses a longer format; no parsed JSON holds a `Date`. */
  function TemplateText(v: Value): (t: string)
    ensures v.Str? ==> t == v.s
    ensures v.Undefined? ==> t == "undefined"
  {
    match v
    case Str(s) => s
    case Num(n) => IntToString(n)
    case Bool(b) => if b then "true" else "false"
    case Date(iso) => iso
    case Null => "null"
    case Undefined => "undefined"
    case Obj(_) => "[object Object]"
    case Arr(elems) =>
      Join(seq(|elems|, i requires 0 <= i < |elems| =>
             if elems[i].Null? || elems[i].Undefined? then "" else TemplateText(elems[i])), ",")
  }

  /** JSON text, abstracted: either what `JSON.stringify(value, null, indent)` produced, or
      some other text (`Malformed`), which `JSON.parse` rejects. The empty string is `Malformed("")`. */
  datatype JsonText = Serialized(value: Value, indent: nat) | Malformed(text: string)

  /** `JSON.stringify(v, null, indent)`. */
  function Stringify(v: Value, indent: nat): JsonText
  {
    Serialized(v, indent)
  }

  /** `JSON.parse(t)`: the serialised value back, whatever the indentation; a `SyntaxError` otherwise. */
  function Parse(t: JsonText): (r: Result<Value, string>)
    ensures r.Success? <==> t.Serialized?
  {
    match t
    case Serialized(v, _) => Success(v)
    case Malformed(text) => Failure("SyntaxError: Unexpected end of JSON input")
  }

  /** The two form a lossless pair: parsing what was stringified gives the value back. */
  lemma ParseStringify(v: Value, indent: nat)
    ensures Parse(Stringify(v, indent)) == Success(v)
  {
  }

  /** Truthiness of a JSON string: only the empty text is falsy. */
  predicate TextTruthy(t: JsonText)
  {
    t != Malformed("")
  }
}
