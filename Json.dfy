/** The part of a decoded JSON value the two programs look at: its text
    when formatted into a string, and whether Python counts it as true. */
module Json {

  datatype Value =
    | Str(s: string)
      /** A number, boolean, null, list or object: only how it prints and
          whether it is truthy matter here. */
    | Other(shown: string, truthy: bool)

  /** `f"{value}"`. */
  function Shown(v: Value): string {
    match v
    case Str(s) => s
    case Other(shown, _) => shown
  }

  /** `bool(value)`: a string is true when it is not empty. */
  predicate Truthy(v: Value) {
    match v
    case Str(s) => s != ""
    case Other(_, truthy) => truthy
  }
}
