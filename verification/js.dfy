/** The parts of JavaScript's value semantics the renderer relies on: truthiness,
    property reads, `String()`, `===` and `==`. JSON `undefined` and `null` are
    both Null here: the renderer only tests them for truthiness. */
module Js {
  import opened Wrappers
  import opened Values
  import Decimal

  predicate Truthy(v: Value) {
    match v
    case Null => false
    case Bool(b) => b
    case Num(n) => n != 0
    case Str(s) => s != ""
    case Arr(_) => true
    case Obj(_) => true
  }

  /** `typeof v === 'object'`: true of null as well as of arrays and objects. */
  predicate TypeofObject(v: Value) {
    v.Null? || v.Arr? || v.Obj?
  }

  /** What `String()` makes of the `Object` constructor and of the object
      prototype, the values a plain object inherits as `constructor` and
      `__proto__`, as V8 (Chromium) prints them. */
  const ConstructorText: string := "function Object() { [native code] }"
  const ProtoText: string := "[object Object]"

  /** The other properties every plain object inherits from `Object.prototype`:
      native methods, which `String()` prints as `function name() { [native code] }`
      in the layout V8 (Chromium) uses; the standard leaves that text to the engine. */
  const ObjectMethods: set<string> := {
    "toString", "toLocaleString", "valueOf", "hasOwnProperty", "isPrototypeOf",
    "propertyIsEnumerable", "__defineGetter__", "__defineSetter__",
    "__lookupGetter__", "__lookupSetter__"}

  /** `String(o[name])` for a plain object `o` without an own property `name`:
      the text of the inherited value, or None when nothing is inherited
      (the read gives undefined). */
  function InheritedText(name: string): (t: Option<string>)
    ensures name == "constructor" ==> t == Some(ConstructorText)
    ensures name == "__proto__" ==> t == Some(ProtoText)
    ensures name in ObjectMethods ==> t == Some("function " + name + "() { [native code] }")
    ensures t.Some? <==> name in ObjectMethods || name == "constructor" || name == "__proto__"
    ensures t.Some? ==> t.value != ""
  {
    if name == "constructor" then Some(ConstructorText)
    else if name == "__proto__" then Some(ProtoText)
    else if name in ObjectMethods then Some("function " + name + "() { [native code] }")
    else None
  }

  /** `v.name`: a missing property, or a read from something that is not an
      object, gives undefined. */
  function Get(v: Value, name: string): Value {
    match v
    case Obj(fs) => Lookup(fs, name).GetOr(Null)
    case _ => Null
  }

  /** `String(v)`, also what a template literal or a property key makes of `v`. */
  function ToString(v: Value): string
    decreases v, if v.Arr? then 1 + |v.elems| else 0
  {
    match v
    case Null => "null"
    case Bool(b) => if b then "true" else "false"
    case Num(n) => Decimal.IntToString(n)
    case Str(s) => s
    case Arr(es) => JoinFrom(es, 0)
    case Obj(_) => "[object Object]"
  }

  /** `es.slice(i).join(",")`: null elements print as the empty string. */
  function JoinFrom(es: seq<Value>, i: nat): string
    requires i <= |es|
    decreases Arr(es), |es| - i
  {
    if i == |es| then ""
    else
      var item := if es[i] == Null then "" else ToString(es[i]);
      if i + 1 == |es| then item else item + "," + JoinFrom(es, i + 1)
  }

  /** `Number(s)` for the strings the model reads: the empty string is 0, an
      integer string is its value, anything else is NaN (None). */
  function ToNumber(s: string): Option<int> {
    if s == "" then Some(0)
    else if Decimal.IsIntString(s) then Some(Decimal.ParseInt(s))
    else None
  }

  /** `a === b`. Arrays and objects are compared by reference, and every parse
      of the page data makes fresh ones, so two of them are never identical. */
  predicate StrictEquals(a: Value, b: Value) {
    && !a.Arr? && !a.Obj?
    && a == b
  }

  /** `a == b` between primitives: numbers, strings and booleans are compared
      as numbers when their types differ; null equals only null. */
  predicate LooseEquals(a: Value, b: Value) {
    match (a, b)
    case (Num(x), Str(s)) => ToNumber(s) == Some(x)
    case (Str(s), Num(x)) => ToNumber(s) == Some(x)
    case (Bool(p), Num(x)) => (if p then 1 else 0) == x
    case (Num(x), Bool(p)) => (if p then 1 else 0) == x
    case (Bool(p), Str(s)) => ToNumber(s) == Some(if p then 1 else 0)
    case (Str(s), Bool(p)) => ToNumber(s) == Some(if p then 1 else 0)
    case _ => StrictEquals(a, b)
  }
}
