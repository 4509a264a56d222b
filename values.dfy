/**
 * Values shared by every part of the connector model: the optional and
 * failing results of the connector's operations, the Python values that
 * travel through it as payloads and records, and the Python exceptions
 * that the modelled code can raise.
 */
module Values {

  datatype Option<+T> = None | Some(value: T)

  datatype Result<+T, +E> = Ok(value: T) | Err(error: E)

  /** One byte of a raw message payload. */
  type byte = b: int | 0 <= b < 256

  /**
   * The Python values a payload, a record or a keyword argument can hold.
   * `Bool` is kept apart from `Int` even though Python's `bool` is a
   * subclass of `int`; the fetch adapter's decision table treats both as
   * scalars.
   */
  datatype Value =
    | Null
    | Bool(b: bool)
    | Int(i: int)
    | Float(r: real)
    | Str(s: string)
    | Bytes(data: seq<byte>)
    | List(items: seq<Value>)
    | Dict(fields: map<string, Value>)

  /** The Python exceptions the modelled code raises on its error paths. */
  datatype PyError =
    | NameError(name: string)
    | UnboundLocalError(name: string)
    | AttributeError
    | TypeError
}
