/** Option and Result: the model's stand-ins for Python's None and raised exceptions. */
module Wrappers {

  datatype Option<+T> = None | Some(value: T)

  datatype Result<+T, +E> = Ok(value: T) | Err(error: E)
}

/** Values passed through uninterpreted to a vendor SDK (`sdk_kwargs` entries). */
module PyValues {

  datatype Value = Str(s: string) | Int(i: int) | Real(r: real) | Bool(b: bool) | NoneValue

  /** A keyword-argument dictionary. */
  type Kwargs = map<string, Value>
}
