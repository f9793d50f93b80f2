/** The `QUERY_OPTIMIZER_CONFIG` settings dictionary. Its values are Python
    objects of any type, so the checks the middleware and the optimizer make
    on them (truthiness, `isinstance`) are modelled on a small tagged value. */
module Settings {
  import opened Wrappers

  /** A configuration value as Python sees it. `Decimal` is a number that is
      neither an `int` nor a `float` but compares exactly with a float (a
      `decimal.Decimal` or a `fractions.Fraction`). `Other` stands for every
      object of a type not listed that does not compare with a float (a
      dict, a tuple, ...), with its truthiness. */
  datatype Value =
    | Null
    | Bool(b: bool)
    | Int(i: int)
    | Float(x: real)
    | Decimal(q: real)
    | Str(s: string)
    | StrList(items: seq<string>)
    | Other(truthy: bool)

  /** Python's `bool(v)`. */
  predicate Truthy(v: Value) {
    match v
    case Null => false
    case Bool(b) => b
    case Int(i) => i != 0
    case Float(x) => x != 0.0
    case Decimal(q) => q != 0.0
    case Str(s) => s != ""
    case StrList(items) => items != []
    case Other(t) => t
  }

  type Config = map<string, Value>

  /** `config.get(key, default)` */
  function Get(config: Config, key: string, default: Value): Value {
    if key in config then config[key] else default
  }

  /** `isinstance(v, (float, int))`; a `bool` is an `int` in Python. */
  predicate IsNumber(v: Value) {
    v.Int? || v.Float? || v.Bool?
  }

  /** Whether `duration > v` is defined for a float `duration`. */
  predicate Comparable(v: Value) {
    IsNumber(v) || v.Decimal?
  }

  /** `duration > threshold`: None when Python raises `TypeError` because
      the threshold does not compare with a float. */
  function GreaterThan(duration: real, threshold: Value): (r: Option<bool>)
    ensures r.Some? <==> Comparable(threshold)
    ensures threshold.Float? ==> r == Some(duration > threshold.x)
    ensures threshold.Decimal? ==> r == Some(duration > threshold.q)
    ensures threshold.Int? ==> r == Some(duration > threshold.i as real)
    ensures threshold.Bool? ==> r == Some(duration > if threshold.b then 1.0 else 0.0)
  {
    match threshold
    case Float(x) => Some(duration > x)
    case Int(i) => Some(duration > i as real)
    case Bool(b) => Some(duration > if b then 1.0 else 0.0)
    case Decimal(q) => Some(duration > q)
    case _ => None
  }
}
