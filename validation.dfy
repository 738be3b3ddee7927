/** Shared vocabulary of the data models: optional arguments, validation
    results, the open `Any` value stored in metadata and filters, and the
    located errors a failed validation reports. */
module Validation {

  /** An optional value. For a constructor argument, `None` means the keyword
      was not passed at all. */
  datatype Option<+T> = None | Some(value: T) {
    function GetOr(default: T): T {
      match this
      case Some(v) => v
      case None => default
    }
  }

  /** Either a validated value or the list of everything that was wrong. */
  datatype Result<+T, +E> = Success(value: T) | Failure(error: E)

  /** A float. Nothing in the core computes with floats, so they stay opaque
      numbers. */
  type Float = real

  /** A value of Python type `Any` as it can appear in metadata or filters.
      The core never inspects these values; it only stores them. */
  datatype Value =
    | NoneValue
    | BoolValue(b: bool)
    | IntValue(i: int)
    | FloatValue(x: Float)
    | StrValue(s: string)
    | ListValue(items: seq<Value>)
    | DictValue(entries: map<string, Value>)

  /** An open mapping from string keys to arbitrary values. */
  type Metadata = map<string, Value>

  /** One step of an error location: a field name or a list position. */
  datatype LocItem = Key(name: string) | Index(i: nat)

  /** The kinds of validation failure the core's field declarations can raise. */
  datatype ErrorKind =
    | Missing                              // a required field was not supplied
    | GreaterThanEqual(ge: int)            // an int below its `ge` bound
    | LessThanEqual(le: int)               // an int above its `le` bound
    | StringTooShort(minLength: nat)       // a str shorter than `min_length`
    | LiteralError(expected: seq<string>)  // a str outside its `Literal[...]`

  /** One entry of a validation error: where it happened and what it was. */
  datatype FieldError = FieldError(loc: seq<LocItem>, kind: ErrorKind)

  /** The error reported when a required field is absent. */
  function MissingField(name: string): FieldError {
    FieldError([Key(name)], Missing)
  }
}
