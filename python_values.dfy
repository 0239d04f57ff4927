/** Values as Python's `json` module decodes them, and the parts of Python's
    `str()` that the bot's message template applies to them. */
module PyValues {

  datatype Option<+T> = None | Some(value: T)

  /** Either a value or the exception that was raised instead of it. */
  datatype Result<+T, +E> = Ok(value: T) | Err(error: E) {
    predicate IsFailure() { Err? }

    function PropagateFailure<U>(): Result<U, E>
      requires Err?
    {
      Err(error)
    }

    function Extract(): T
      requires Ok?
    {
      value
    }
  }

  /** A decoded JSON document: `None`, a bool, a number, a str, a list or a dict
      with string keys. */
  datatype Json =
    | Null
    | Bool(b: bool)
    | Num(n: int)
    | Str(s: string)
    | Arr(items: seq<Json>)
    | Obj(fields: map<string, Json>)

  /** Lists and dicts cannot be hashed, so they cannot be looked up in a dict. */
  predicate Hashable(v: Json) {
    !(v.Arr? || v.Obj?)
  }

  function DigitChar(d: nat): char
    requires d < 10
  {
    "0123456789"[d]
  }

  function Decimal(n: nat): (r: string)
    ensures |r| > 0
    decreases n
  {
    if n < 10 then [DigitChar(n)] else Decimal(n / 10) + [DigitChar(n % 10)]
  }

  /** `str(v)` as `str.format` renders a substituted field.  Strings, `None`,
      booleans and integers are rendered as Python does; a list or a dict is
      rendered as a fixed placeholder (Python's repr of containers is not
      modelled). */
  function Show(v: Json): string {
    match v
    case Null => "None"
    case Bool(b) => if b then "True" else "False"
    case Num(n) => if n < 0 then "-" + Decimal(-n) else Decimal(n)
    case Str(s) => s
    case Arr(_) => "[...]"
    case Obj(_) => "{...}"
  }
}
