/** Shared vocabulary: optional values, the exceptions that can escape a fetch,
    and Python's truthiness of an optional string. */
module Common {

  /** A value that may be absent: a missing dictionary key, an unset
      environment variable, an omitted command-line flag. */
  datatype Option<+T> = None | Some(value: T)

  /** The exceptions the program lets escape. `RequestFailed` is a
      `requests.exceptions.RequestException` (connection error, 4xx or
      5xx status, undecodable JSON body); `MissingKey` is a `KeyError` raised while
      reading a JSON payload. */
  datatype Fault = RequestFailed | MissingKey(key: string)

  /** Either a value or the exception that was raised instead. */
  datatype Result<+T> = Ok(value: T) | Err(fault: Fault)

  /** Python's `bool(s)` for a value that is `None` or a string: only a
      non-empty string is true. */
  predicate Truthy(s: Option<string>) {
    s.Some? && s.value != ""
  }
}
