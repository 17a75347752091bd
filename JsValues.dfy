/** The JavaScript values that flow through step `data` (`Record<string, any>`)
    and through parsed server replies: what `JSON.parse` can produce. */
module JsValues {
  import opened Wrappers
  import Text

  /** A number is carried by its `String()` rendering (`"0"` for both zeros;
      JSON text cannot express NaN or the infinities). */
  datatype JsValue =
    | JsNull
    | JsBool(b: bool)
    | JsNumber(rendering: string)
    | JsString(s: string)
    | JsArray(items: seq<JsValue>)
    | JsObject(fields: map<string, JsValue>)

  /** JavaScript truthiness of a value. */
  predicate Truthy(v: JsValue) {
    match v
    case JsNull => false
    case JsBool(b) => b
    case JsNumber(t) => t != "0"
    case JsString(s) => s != ""
    case JsArray(_) => true
    case JsObject(_) => true
  }

  /** Truthiness of a property read, where `None` is `undefined`. */
  predicate Present(o: Option<JsValue>) {
    o.Some? && Truthy(o.value)
  }

  /** `v.key` on a value that is not `null`: only objects carry own
      properties here; reading any other key gives `undefined`. */
  function Prop(v: JsValue, key: string): (r: Option<JsValue>)
    ensures r.Some? <==> v.JsObject? && key in v.fields
    ensures r.Some? ==> r.value == v.fields[key]
  {
    if v.JsObject? && key in v.fields then Some(v.fields[key]) else None
  }

  /** `String(v)`. Inside an array rendering, `null` elements render as "". */
  function ToJsString(v: JsValue): string
    decreases v
  {
    match v
    case JsNull => "null"
    case JsBool(b) => if b then "true" else "false"
    case JsNumber(t) => t
    case JsString(s) => s
    case JsArray(items) =>
      Text.Join(seq(|items|, i requires 0 <= i < |items| =>
                      if items[i].JsNull? then "" else ToJsString(items[i])), ",")
    case JsObject(_) => "[object Object]"
  }

  /** How `Array.prototype.join` renders the element `x.text`: `undefined`
      and `null` become "", anything else its `String()` rendering. */
  function JoinedText(o: Option<JsValue>): string {
    match o
    case None => ""
    case Some(JsNull) => ""
    case Some(v) => ToJsString(v)
  }

  /** A list of strings as it is stored in step data. */
  function StringsToJs(xs: seq<string>): (r: JsValue)
    ensures r.JsArray? && |r.items| == |xs|
    ensures forall i :: 0 <= i < |xs| ==> r.items[i] == JsString(xs[i])
  {
    JsArray(seq(|xs|, i requires 0 <= i < |xs| => JsString(xs[i])))
  }

  /** `value || []` read back as a list of strings: an array's elements
      rendered with `String()`, anything else the empty list. */
  function StringsOf(o: Option<JsValue>): seq<string> {
    match o
    case Some(JsArray(items)) =>
      seq(|items|, i requires 0 <= i < |items| => ToJsString(items[i]))
    case _ => []
  }

  lemma StringsRoundTrip(xs: seq<string>)
    ensures StringsOf(Some(StringsToJs(xs))) == xs
  {
  }

  /** `value || []` read back as a list of arbitrary elements. */
  function ItemsOf(o: Option<JsValue>): seq<JsValue> {
    match o
    case Some(JsArray(items)) => items
    case _ => []
  }

  /** `value || ''` read back into a text field. */
  function TextOf(o: Option<JsValue>): string {
    match o
    case Some(JsString(s)) => s
    case _ => ""
  }
}
