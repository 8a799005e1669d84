/** JavaScript values, as far as the modelled code inspects them: truthiness,
    strict equality with 1, template-literal rendering and property access. */
module JsValues {

  datatype Option<+T> = None | Some(value: T)

  /** A JavaScript number, identified by the text `String(x)` renders for it
      (the shortest decimal that reads back as the same double, "NaN",
      "Infinity", ...). That rendering is unique per number except that 0 and
      -0 both render as "0", which `===` does not tell apart either, so truthiness
      and `=== 1` can be read off the text. No arithmetic is done on these values. */
  datatype Number = Number(text: string) {

    /** `Boolean(x)`: only 0, -0 and NaN are falsy. */
    predicate Truthy() {
      text != "0" && text != "NaN"
    }

    /** `x === 1`. */
    predicate IsOne() {
      text == "1"
    }

    /** `${x}` inside a template literal. */
    function ToStr(): string {
      text
    }
  }

  /** A value as it arrives over IPC (structured clone of JSON-like data). */
  datatype JsValue =
    | Undefined
    | Null
    | Bool(b: bool)
    | Num(n: Number)
    | Str(s: string)
    | Arr(elements: seq<JsValue>)
    | Obj(props: map<string, JsValue>)

  predicate Truthy(v: JsValue) {
    match v
    case Undefined => false
    case Null => false
    case Bool(b) => b
    case Num(n) => n.Truthy()
    case Str(s) => s != ""
    case Arr(_) => true
    case Obj(_) => true
  }

  predicate Nullish(v: JsValue) {
    v.Undefined? || v.Null?
  }

  /** `v[key]`: None stands for the TypeError that reading a property of
      `undefined` or `null` raises; a missing own property reads as `undefined`,
      and so does any property of a boolean, number, string or array (the model
      keeps no inherited properties such as `length`). */
  function Get(v: JsValue, key: string): (r: Option<JsValue>)
    ensures r.None? <==> Nullish(v)
    ensures v.Obj? ==> r == Some(if key in v.props then v.props[key] else Undefined)
    ensures !Nullish(v) && !v.Obj? ==> r == Some(Undefined)
  {
    match v
    case Undefined => None
    case Null => None
    case Obj(m) => Some(if key in m then m[key] else Undefined)
    case _ => Some(Undefined)
  }

  /** `a || b`. */
  function Or(a: JsValue, b: JsValue): (r: JsValue)
    ensures Truthy(a) ==> r == a
    ensures !Truthy(a) ==> r == b
  {
    if Truthy(a) then a else b
  }
}
