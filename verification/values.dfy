/**
 * The dynamic Python values that flow between the agents (message contents,
 * metadata, search results, parsed model replies), and the few built-in
 * operations the code applies to them: truthiness, `in`, subscripting,
 * `dict.get`, `+`, `len` and `str` of an integer. Each operation raises
 * where Python raises.
 */
module PyValues {

  /** JSON-shaped Python data; `Num` stands for int and float alike. */
  datatype Value =
    | Null
    | Bool(b: bool)
    | Num(r: real)
    | Str(s: string)
    | List(items: seq<Value>)
    | Dict(fields: map<string, Value>)

  /** The exceptions the modelled code can raise. */
  datatype Exc =
    | TypeError
    | KeyError(key: string)
    | AttributeError(name: string)
    | NotImplementedError
    /** Whatever a library call outside the model raised (the search client, say). */
    | ServiceError(detail: string)

  /** A Python call either returns a value or raises. */
  datatype Result<+T> = Ok(value: T) | Raised(exc: Exc) {

    predicate IsFailure() {
      Raised?
    }

    function PropagateFailure<U>(): Result<U>
      requires Raised?
    {
      Raised(exc)
    }

    function Extract(): T
      requires Ok?
    {
      value
    }
  }

  /** Python truthiness: `None`, `False`, zero and empty containers are falsy. */
  predicate Truthy(v: Value) {
    match v
    case Null => false
    case Bool(b) => b
    case Num(r) => r != 0.0
    case Str(s) => s != []
    case List(xs) => xs != []
    case Dict(m) => m != map[]
  }

  /** `k` occurs in `s` starting at index `i`. */
  predicate OccursAt(k: string, s: string, i: nat) {
    i + |k| <= |s| && s[i..i + |k|] == k
  }

  /** `k in s` for two strings: substring test. */
  predicate IsSubstring(k: string, s: string) {
    exists i: nat | i <= |s| :: OccursAt(k, s, i)
  }

  /** `key in container`: key of a dict, element of a list, substring of a string. */
  function Contains(container: Value, key: string): (r: Result<bool>)
    ensures container.Dict? ==> r == Ok(key in container.fields)
    ensures r.Raised? <==> !(container.Dict? || container.List? || container.Str?)
    ensures r.Raised? ==> r.exc == TypeError
  {
    match container
    case Dict(m) => Ok(key in m)
    case List(xs) => Ok(Str(key) in xs)
    case Str(s) => Ok(IsSubstring(key, s))
    case _ => Raised(TypeError)
  }

  /** `container[key]` with a string key: only a dict holding the key succeeds. */
  function Subscript(container: Value, key: string): (r: Result<Value>)
    ensures r.Ok? <==> container.Dict? && key in container.fields
    ensures r.Ok? ==> r.value == container.fields[key]
  {
    match container
    case Dict(m) => if key in m then Ok(m[key]) else Raised(KeyError(key))
    case _ => Raised(TypeError)
  }

  /** `d.get(key, default)`. */
  function Get(d: map<string, Value>, key: string, default: Value): Value {
    if key in d then d[key] else default
  }

  /** `a + b`: list and string concatenation, numeric addition. */
  function Add(a: Value, b: Value): (r: Result<Value>)
    ensures a.List? && b.List? ==> r == Ok(List(a.items + b.items))
    ensures r.Ok? ==> (a.List? && b.List?) || (a.Str? && b.Str?) || (a.Num? && b.Num?)
  {
    match (a, b)
    case (List(xs), List(ys)) => Ok(List(xs + ys))
    case (Str(s), Str(t)) => Ok(Str(s + t))
    case (Num(x), Num(y)) => Ok(Num(x + y))
    case _ => Raised(TypeError)
  }

  /** `len(v)`. */
  function Len(v: Value): (r: Result<nat>)
    ensures v.List? ==> r == Ok(|v.items|)
    ensures r.Ok? <==> v.List? || v.Str? || v.Dict?
  {
    match v
    case List(xs) => Ok(|xs|)
    case Str(s) => Ok(|s|)
    case Dict(m) => Ok(|m|)
    case _ => Raised(TypeError)
  }

  predicate IsDigit(c: char) {
    '0' <= c <= '9'
  }

  function DigitValue(c: char): nat
    requires IsDigit(c)
  {
    c as int - '0' as int
  }

  /** `str(n)` for a non-negative integer: its decimal digits. */
  function NatToString(n: nat): (s: string)
    ensures |s| >= 1
    ensures forall i :: 0 <= i < |s| ==> IsDigit(s[i])
  {
    if n < 10 then [(n + '0' as int) as char]
    else NatToString(n / 10) + [((n % 10) + '0' as int) as char]
  }

  /** Reads a string of decimal digits back as a number. */
  function ParseDigits(s: string): nat
    requires forall i :: 0 <= i < |s| ==> IsDigit(s[i])
  {
    if s == [] then 0
    else ParseDigits(s[..|s| - 1]) * 10 + DigitValue(s[|s| - 1])
  }

  /** Decimal printing loses nothing: parsing the digits gives the number back. */
  lemma {:induction false} ParseNatToString(n: nat)
    ensures ParseDigits(NatToString(n)) == n
  {
    var s := NatToString(n);
    if n >= 10 {
      assert s[..|s| - 1] == NatToString(n / 10);
      ParseNatToString(n / 10);
    }
  }

  /** Hence two different numbers never print the same. */
  lemma NatToStringInjective(n: nat, m: nat)
    requires NatToString(n) == NatToString(m)
    ensures n == m
  {
    ParseNatToString(n);
    ParseNatToString(m);
  }
}
