/** The dynamic values the scripts pass around: the strings captured from
    the status page, the integers derived from them, Python's `None`, the
    dictionaries holding them, and the exceptions Python raises on them. */
module PyValues {

  import opened Wrappers
  import Text

  datatype Value = Str(s: string) | Int(i: int) | NoneValue

  /** A Python dict with string keys: a probe result, a device config. */
  type Fields = map<string, Value>

  /** Python's `template % args`, which the model does not re-implement. */
  type Formatter = (string, Fields) -> string

  /** The exceptions the modelled code can raise. */
  datatype Error =
    | KeyError(key: Value)
    | IntValueError(literal: string)   // int() of a string that is not a decimal literal
    | UnpackValueError(parts: nat)     // `a, b = xs` with |xs| != 2
    | TypeError
    | IndexError
    | AttributeError

  /** `d.get(key)`. */
  function Get(d: Fields, key: string): Value {
    if key in d then d[key] else NoneValue
  }

  /** `d[key]` for a key of any type: only strings are keys of these dicts. */
  function Index(d: Fields, key: Value): Result<Value, Error> {
    if key.Str? && key.s in d then Ok(d[key.s]) else Err(KeyError(key))
  }

  /** Python truthiness: empty strings, zero and None are false. */
  predicate Truthy(v: Value) {
    match v
    case Str(s) => s != []
    case Int(i) => i != 0
    case NoneValue => false
  }

  /** `int(v)`. */
  function IntOf(v: Value): Result<int, Error> {
    match v
    case Int(i) => Ok(i)
    case NoneValue => Err(TypeError)
    case Str(s) =>
      match Text.PyInt(s)
      case Some(n) => Ok(n)
      case None => Err(IntValueError(s))
  }

  /** `d[key]` used as the left operand of `%`: it must be a string. */
  function Template(d: Fields, key: string): Result<string, Error> {
    if key !in d then Err(KeyError(Str(key)))
    else if d[key].Str? then Ok(d[key].s)
    else Err(TypeError)
  }

  /** `int(str(n)) == n`, and `str(n)` is never empty. */
  lemma IntOfFormatted(n: int)
    ensures IntOf(Str(Text.FormatInt(n))) == Ok(n) && Truthy(Str(Text.FormatInt(n)))
  {
    Text.FormatIntParses(n);
  }
}
