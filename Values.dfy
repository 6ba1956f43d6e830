/** The dynamic values the component stores in its dictionaries, the Python
    exceptions its code can raise, and how Python compares and tests them. */
module Values {

  datatype Option<+T> = None | Some(value: T)

  datatype Result<+T, +E> = Success(value: T) | Failure(error: E)

  /** The exceptions the modelled code can raise. `Unsupported` stands for a
      stored field whose Python type the typed model cannot hold. */
  datatype PyError = ValueError | TypeError | IndexError | AttributeError | KeyError | OverflowError | Unsupported

  /** A wall-clock instant, in seconds. */
  type Timestamp = real

  /** A local time of day, in seconds since midnight. */
  type TimeOfDay = t: real | 0.0 <= t < 86400.0

  /** A Python value as it appears in the context, rule and storage dictionaries.
      `Stamp` stands for a datetime (stored by the source as its ISO-8601 text). */
  datatype Value =
    | Null
    | Bool(b: bool)
    | Int(i: int)
    | Float(x: real)
    | PosInf
    | Str(s: string)
    | Time(t: TimeOfDay)
    | Stamp(at: Timestamp)
    | List(items: seq<Value>)
    | Dict(entries: map<string, Value>)

  /** `d.get(key, default)` */
  function Get(d: map<string, Value>, key: string, default: Value): (v: Value)
    ensures key in d ==> v == d[key]
    ensures key !in d ==> v == default
  {
    if key in d then d[key] else default
  }

  /** Python truthiness (`if v:`). A time and a datetime are always true. */
  predicate Truthy(v: Value) {
    match v
    case Null => false
    case Bool(b) => b
    case Int(i) => i != 0
    case Float(x) => x != 0.0
    case PosInf => true
    case Str(s) => s != ""
    case Time(_) => true
    case Stamp(_) => true
    case List(items) => items != []
    case Dict(entries) => entries != map[]
  }

  /** The numbers Python can compare with each other: bool, int, float and +inf. */
  datatype Number = Finite(r: real) | Infinity

  function AsNumber(v: Value): (n: Option<Number>)
    ensures n.Some? <==> (v.Bool? || v.Int? || v.Float? || v.PosInf?)
    ensures v.Float? ==> n == Some(Finite(v.x))
    ensures v.Int? ==> n == Some(Finite(v.i as real))
  {
    match v
    case Bool(b) => Some(Finite(if b then 1.0 else 0.0))
    case Int(i) => Some(Finite(i as real))
    case Float(x) => Some(Finite(x))
    case PosInf => Some(Infinity)
    case _ => None
  }

  datatype Ordering = Less | Equal | Greater

  function CompareReals(a: real, b: real): (o: Ordering)
    ensures o == Less <==> a < b
    ensures o == Equal <==> a == b
    ensures o == Greater <==> a > b
  {
    if a < b then Less else if a == b then Equal else Greater
  }

  function CompareNumbers(a: Number, b: Number): Ordering {
    match (a, b)
    case (Finite(x), Finite(y)) => CompareReals(x, y)
    case (Finite(_), Infinity) => Less
    case (Infinity, Finite(_)) => Greater
    case (Infinity, Infinity) => Equal
  }

  /** Lexicographic order of strings by code point, as Python orders `str`. */
  function CompareStrings(a: string, b: string): Ordering {
    if a == [] then (if b == [] then Equal else Less)
    else if b == [] then Greater
    else if a[0] < b[0] then Less
    else if a[0] > b[0] then Greater
    else CompareStrings(a[1..], b[1..])
  }

  lemma {:induction false} CompareStringsEqual(a: string, b: string)
    ensures CompareStrings(a, b) == Equal <==> a == b
  {
    if a != [] && b != [] && a[0] == b[0] {
      CompareStringsEqual(a[1..], b[1..]);
      assert a == [a[0]] + a[1..] && b == [b[0]] + b[1..];
    }
  }

  /** The outcome of an ordering comparison `a <op> b`: numbers with numbers,
      strings with strings, times with times, datetimes with datetimes; any other
      pair raises TypeError. */
  function Compare(a: Value, b: Value): (r: Result<Ordering, PyError>)
    ensures r.Failure? ==> r.error == TypeError
    ensures AsNumber(a).Some? && AsNumber(b).Some? ==> r.Success?
    ensures (AsNumber(a).Some? && AsNumber(b).None?) || (AsNumber(a).None? && AsNumber(b).Some?) ==> r.Failure?
  {
    if AsNumber(a).Some? && AsNumber(b).Some? then Success(CompareNumbers(AsNumber(a).value, AsNumber(b).value))
    else if a.Str? && b.Str? then Success(CompareStrings(a.s, b.s))
    else if a.Time? && b.Time? then Success(CompareReals(a.t, b.t))
    else if a.Stamp? && b.Stamp? then Success(CompareReals(a.at, b.at))
    else Failure(TypeError)
  }

  function Ge(a: Value, b: Value): (r: Result<bool, PyError>) {
    match Compare(a, b)
    case Success(o) => Success(o != Less)
    case Failure(e) => Failure(e)
  }

  function Le(a: Value, b: Value): (r: Result<bool, PyError>) {
    match Compare(a, b)
    case Success(o) => Success(o != Greater)
    case Failure(e) => Failure(e)
  }

  function Lt(a: Value, b: Value): (r: Result<bool, PyError>) {
    match Compare(a, b)
    case Success(o) => Success(o == Less)
    case Failure(e) => Failure(e)
  }

  function Gt(a: Value, b: Value): (r: Result<bool, PyError>) {
    match Compare(a, b)
    case Success(o) => Success(o == Greater)
    case Failure(e) => Failure(e)
  }

  /** On two finite numbers the four comparisons are the ones on reals. */
  lemma FiniteComparisons(a: Value, b: Value, x: real, y: real)
    requires AsNumber(a) == Some(Finite(x)) && AsNumber(b) == Some(Finite(y))
    ensures Ge(a, b) == Success(x >= y) && Le(a, b) == Success(x <= y)
    ensures Lt(a, b) == Success(x < y) && Gt(a, b) == Success(x > y)
  {
  }

  /** +inf is above every finite number, so `inf <= v` holds for no finite `v`. */
  lemma InfinityAboveFinite(b: Value, y: real)
    requires AsNumber(b) == Some(Finite(y))
    ensures Le(PosInf, b) == Success(false) && Ge(PosInf, b) == Success(true)
  {
  }

  /** Ordering a string against a number raises TypeError in either order. */
  lemma MixedComparisonRaises(s: string, b: Value)
    requires AsNumber(b).Some?
    ensures Ge(Str(s), b) == Failure(TypeError) && Ge(b, Str(s)) == Failure(TypeError)
  {
  }
}
