/** Failure-carrying values shared by every module of the model. */
module Wrappers {

  datatype Option<+T> = None | Some(value: T) {
    function GetOr(default: T): T {
      match this
      case Some(v) => v
      case None => default
    }
  }

  /**
   * The class of a Python exception that escapes a call (`BadZipFile` from
   * `zipfile`, `CsvError` for `csv.Error`).
   */
  datatype Exc = ValueError | TypeError | IndexError | NotImplementedError | BadZipFile | CsvError

  /** What a Python call does: it returns a value or it raises. */
  datatype Outcome<+T> = Returned(value: T) | Raised(exc: Exc)

  /** Python truthiness of an optional string argument: present and non-empty. */
  predicate Given(s: Option<string>) {
    s.Some? && s.value != ""
  }

  function Min(a: int, b: int): int {
    if a <= b then a else b
  }

  function Max(a: int, b: int): int {
    if a >= b then a else b
  }
}
