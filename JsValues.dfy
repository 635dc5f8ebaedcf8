/** JavaScript values as the plugin's option objects see them: a property that
    may hold `undefined`, a key that a caller may leave out of an object
    literal, the truthiness tests of `if (x)`, and `${x}` in a template literal. */
module JsValues {

  /** A value that may be `undefined` (None). */
  datatype Option<+T> = None | Some(value: T)

  /** A key of a caller's option object: left out of the literal, or present
      with a value that may itself be `undefined` (`{ remote: undefined }`). */
  datatype Key<+T> = Omitted | Given(value: Option<T>)

  /** `if (s)` on a `string | undefined`: only a defined, non-empty string is truthy. */
  predicate StringTruthy(s: Option<string>)
  {
    s.Some? && s.value != ""
  }

  /** `if (b)` on a `boolean | undefined`: only `true` is truthy. */
  predicate BoolTruthy(b: Option<bool>)
  {
    b == Some(true)
  }

  /** `${s}` for a `string | undefined`: the string itself, or the text "undefined". */
  function Render(s: Option<string>): (r: string)
  {
    match s
    case Some(v) => v
    case None => "undefined"
  }

  /** The value a property holds after `Object.assign({}, defaults, caller)`:
      the caller's value when the caller's object has the key, even if that
      value is `undefined`; the default otherwise. */
  function Assign<T>(default: Option<T>, key: Key<T>): (r: Option<T>)
  {
    match key
    case Given(v) => v
    case Omitted => default
  }
}
