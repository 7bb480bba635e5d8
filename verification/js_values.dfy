/** The few pieces of JavaScript value semantics the volume-discount function
    relies on: optional values, the numeric configuration fields as they come
    out of destructuring a parsed JSON object, their truthiness, the `>=`
    comparison against a cart quantity, and their two string conversions. */
module JsValues {

  /** A value that may be absent (`undefined` or `null` in the source). */
  datatype Option<+T> = None | Some(value: T)

  /** A numeric configuration field after `const { minQty, percentOff } = config`:
      the key is missing (`undefined`), holds JSON `null`, or holds an integer. */
  datatype Field = Undefined | Null | Num(n: int)

  /** `!!s` for an optional string: present and not the empty string. */
  predicate NonEmptyText(s: Option<string>)
  {
    s.Some? && s.value != ""
  }

  /** `!!f` for a numeric field: `undefined`, `null` and `0` are falsy. */
  predicate Truthy(f: Field)
  {
    f.Num? && f.n != 0
  }

  /** `quantity >= f` under JavaScript's relational comparison: `undefined`
      converts to NaN, so every comparison with it is false; `null` converts
      to 0. */
  predicate AtLeast(quantity: nat, f: Field)
  {
    match f
    case Undefined => false
    case Null => quantity >= 0
    case Num(n) => quantity >= n
  }

  /** Why a JavaScript `TypeError` was raised. */
  datatype TypeError =
    | DestructureNull      // `const { ... } = null`
    | ToStringOfNullish    // `undefined.toString()` or `null.toString()`

  /** The outcome of evaluating a piece of JavaScript: a value, or a thrown
      `TypeError` that the code does not catch. */
  datatype Completion<+T> = Normal(value: T) | Throw(error: TypeError)
}
