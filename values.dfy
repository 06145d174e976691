/** The values a configuration holds, the "key not present" sentinel, and the
    error/result wrappers that stand for the exceptions the library raises. */
module Values {

  /** A configuration value. Python's `float` is kept as an exact decimal
      literal: `Decimal(m, e)` stands for m / 10^e. `Seq` covers both `list`
      (isTuple false) and `tuple`; `Map` is an insertion-ordered `dict` with
      string keys; `Obj` is an instance of the class named `cls` whose
      `__dict__` is `fields`. */
  datatype Value =
    | Null
    | Bool(b: bool)
    | Int(i: int)
    | Str(s: string)
    | Decimal(mantissa: int, exponent: nat)
    | Seq(isTuple: bool, items: seq<Value>)
    | Map(entries: seq<(string, Value)>)
    | Obj(cls: string, fields: seq<(string, Value)>)

  /** What a merge strategy is given as the stored value: the `NotExisting`
      sentinel when the key is absent, otherwise the stored value. */
  datatype Target = NotExisting | Existing(value: Value)

  /** Python's `int`, `float`, `bool` and `str`. */
  predicate IsPrimitive(v: Value) {
    v.Bool? || v.Int? || v.Str? || v.Decimal?
  }

  datatype Option<+T> = None | Some(value: T)

  /** The exceptions raised by the modelled code. */
  datatype Error =
    | TypeError(message: string)
    | ValueError(message: string)
    | AttributeError(attribute: string)
    | KeyError(key: string)
    | StrictKeysEnabled(key: string)
    | NotPermitted(message: string)
    | NoAvailableHandlers
    | NoHandler(file: string)

  datatype Result<+T> = Ok(value: T) | Err(error: Error)

  /** The outcome of an operation that returns nothing of interest. */
  datatype Outcome = Pass | Fail(error: Error)
}
