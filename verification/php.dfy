/** The parts of PHP's value semantics the board builder relies on: reading an
    array slot, `isset`, `empty`, `is_scalar`, `is_numeric`, `(string)` and `(int)`. */
module Php {
  import opened Wrappers
  import opened Values
  import Decimal

  /** `$v[$key]` as read by `isset` and `??`: a missing key, or a `$v` that is not
      an array, reads as Null. Every key the plugin reads by name ('label', 'key',
      'email', column names, ...) is non-numeric, so a list never holds one. */
  function Index(v: Value, key: string): Value {
    match v
    case Obj(fs) => Lookup(fs, key).GetOr(Null)
    case _ => Null
  }

  /** `$v[0]`: the first element of a list, or the field an object keeps under key 0. */
  function At0(v: Value): Value {
    match v
    case Arr(es) => if |es| > 0 then es[0] else Null
    case Obj(fs) => Lookup(fs, "0").GetOr(Null)
    case _ => Null
  }

  /** What `foreach ($v as $e)` visits: list elements, or an object's field values, in order. */
  function Elements(v: Value): (es: seq<Value>)
    ensures v.Arr? ==> es == v.elems
    ensures v.Obj? ==> |es| == |v.fields| && forall i :: 0 <= i < |es| ==> es[i] == v.fields[i].val
    ensures !IsArray(v) ==> es == []
  {
    match v
    case Arr(es) => es
    case Obj(fs) => seq(|fs|, i requires 0 <= i < |fs| => fs[i].val)
    case _ => []
  }

  /** `$a ?? $b`. */
  function Coalesce(a: Value, b: Value): Value {
    if a != Null then a else b
  }

  /** `empty($v)`: null, false, 0, "", "0" and the empty array. */
  predicate Empty(v: Value) {
    match v
    case Null => true
    case Bool(b) => !b
    case Num(n) => n == 0
    case Str(s) => s == "" || s == "0"
    case Arr(es) => |es| == 0
    case Obj(fs) => |fs| == 0
  }

  /** PHP's boolean conversion, as in `if ($v)`. */
  predicate Truthy(v: Value) {
    !Empty(v)
  }

  predicate IsScalar(v: Value) {
    v.Bool? || v.Num? || v.Str?
  }

  predicate IsArray(v: Value) {
    v.Arr? || v.Obj?
  }

  /** `(string)$v` and string concatenation. */
  function ToString(v: Value): string {
    match v
    case Null => ""
    case Bool(b) => if b then "1" else ""
    case Num(n) => Decimal.IntToString(n)
    case Str(s) => s
    case Arr(_) => "Array"
    case Obj(_) => "Array"
  }

  /** `is_numeric($v)`, for integers and integer strings. */
  predicate IsNumeric(v: Value) {
    v.Num? || (v.Str? && Decimal.IsIntString(v.s))
  }

  /** `(int)$v` for a numeric `$v`. */
  function ToInt(v: Value): int
    requires IsNumeric(v)
  {
    if v.Num? then v.n else Decimal.ParseInt(v.s)
  }

  /** `strpos($s, $prefix) === 0`. */
  predicate StartsWith(s: string, prefix: string) {
    prefix <= s
  }
}
