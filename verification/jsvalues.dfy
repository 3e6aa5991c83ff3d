/** The few JavaScript value notions the generator relies on. */
module JsValues {

  /** A value that may be `undefined`: `None` stands for the absent value. */
  datatype Option<+T> = None | Some(value: T)

  /** The values an option flag such as `skipExtended` can hold: yargs supplies
      a boolean, the desktop front end forwards whatever its form field held. */
  datatype Flag = Undefined | Bool(b: bool) | Str(s: string) | Num(n: real)

  /** JavaScript truthiness, as used by `if (x)` and `x ? a : b`
      (NaN is not representable here). */
  predicate Truthy(f: Flag)
  {
    match f
    case Undefined => false
    case Bool(b) => b
    case Str(s) => s != ""
    case Num(n) => n != 0.0
  }
}
