/**
 * The configuration record a Flipr client is built from. The TypeScript
 * interface is not part of this model; its three properties are modelled
 * with the values JavaScript can actually hand over for them.
 */
module FliprConfig {
  import opened Wrappers

  /** What a configuration property can hold: a string, `null` or `undefined`. */
  datatype JsValue = Undefined | Null | Str(s: string)

  /** JavaScript truthiness of such a value: only a non-empty string is truthy. */
  predicate Truthy(v: JsValue) {
    v.Str? && v.s != ""
  }

  /** The text JavaScript's `+` on strings produces for the value. */
  function ToText(v: JsValue): string {
    match v
    case Undefined => "undefined"
    case Null => "null"
    case Str(s) => s
  }

  /** A configuration after merging: every property holds some value. */
  datatype Config = Config(username: JsValue, password: JsValue, deviceSerial: JsValue)

  /**
   * The object a caller passes in. `None` means the property is not set on
   * the object at all; `Some(Undefined)` means it is set to `undefined`.
   */
  datatype CallerConfig = CallerConfig(
    username: Option<JsValue>,
    password: Option<JsValue>,
    deviceSerial: Option<JsValue>)

  /** Reading a property of the caller's object: a missing one reads as `undefined`. */
  function Read(p: Option<JsValue>): JsValue {
    match p
    case None => Undefined
    case Some(x) => x
  }
}
