/** Small value types shared by the record store and the serializer. */
module Common {

  /** An optional value; `None` plays the part of JavaScript's `null` reference. */
  datatype Option<+T> = None | Some(value: T)

  /** The result of an operation that either succeeds or throws an error. */
  datatype Outcome<+E> = Pass | Fail(error: E)

  /** A value, or the error an operation threw instead of producing it. */
  datatype Result<+T, +E> = Ok(value: T) | Err(error: E)

  /** A JavaScript value as it appears in record attributes and in wire payloads. */
  datatype Json =
    | JUndefined
    | JNull
    | JString(s: string)
    | JNumber(n: int)
    | JArray(items: seq<Json>)
}
