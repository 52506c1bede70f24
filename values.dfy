/** The JavaScript values that cross the system's boundaries: parsed JSON messages, parameter bags,
    handler results and the arguments of console calls. Numbers are integral here. */
module Values {
  import opened Wrappers
  import opened Text

  datatype Value =
    | Undefined
    | Null
    | Bool(b: bool)
    | Num(n: int)
    | NaN
    | Str(s: string)
    | Arr(items: seq<Value>)
    | Obj(fields: map<string, Value>)
    | Fun(name: string, source: string)
    | Sym(description: string)
    | ErrorObj(name: string, message: string)

  /** JavaScript truthiness, as `if (v)` and `v || w` test it. */
  predicate Truthy(v: Value) {
    match v
    case Undefined => false
    case Null => false
    case Bool(b) => b
    case Num(n) => n != 0
    case NaN => false
    case Str(s) => s != ""
    case _ => true
  }

  /** `a || b`. */
  function Or(a: Value, b: Value): Value {
    if Truthy(a) then a else b
  }

  /** Property access `v.key` on a parsed message, for the fixed property names the core reads:
      absent properties read as undefined (none of those names is inherited from Object.prototype). */
  function Field(v: Value, key: string): Value {
    if v.Obj? && key in v.fields then v.fields[key] else Undefined
  }

  /** `String(v)`, as a template literal or `new Error(v)` renders a value. */
  function JsString(v: Value): string
    decreases v, 1, 0
  {
    match v
    case Undefined => "undefined"
    case Null => "null"
    case Bool(b) => if b then "true" else "false"
    case Num(n) => IntToString(n)
    case NaN => "NaN"
    case Str(s) => s
    case Arr(items) => ItemsString(v, 0)
    case Obj(_) => "[object Object]"
    case Fun(_, source) => source
    case Sym(d) => "Symbol(" + d + ")"
    case ErrorObj(name, message) =>
      if message == "" then name else if name == "" then message else name + ": " + message
  }

  /** Array-to-string from index `i` on: elements joined by ",", undefined and null written as "". */
  function ItemsString(v: Value, i: nat): string
    requires v.Arr? && i <= |v.items|
    decreases v, 0, |v.items| - i
  {
    if i == |v.items| then ""
    else
      var x := v.items[i];
      var first := if x.Undefined? || x.Null? then "" else JsString(x);
      if i + 1 == |v.items| then first else first + "," + ItemsString(v, i + 1)
  }

  predicate IsPrimitive(v: Value) {
    v.Undefined? || v.Null? || v.Bool? || v.Num? || v.NaN? || v.Str?
  }

  /** `a === b` on primitives; NaN equals nothing, and distinct objects are never identical. */
  predicate StrictEquals(a: Value, b: Value) {
    IsPrimitive(a) && !a.NaN? && a == b
  }

  // ---------------------------------------------------------------- plain objects as dictionaries

  /** The methods every plain object inherits from Object.prototype. */
  const ObjectPrototypeMethods: set<string> :=
    {"constructor", "hasOwnProperty", "isPrototypeOf", "propertyIsEnumerable", "toLocaleString", "toString",
     "valueOf", "__defineGetter__", "__defineSetter__", "__lookupGetter__", "__lookupSetter__"}

  /** What a built-in function's `toString` prints. */
  function NativeSource(name: string): string {
    "function " + name + "() { [native code] }"
  }

  /** What `o[k]` reads on a plain object that has no own property `k`: an Object.prototype method,
      Object.prototype itself for `__proto__` (an object with no own fields here), or undefined. */
  function Inherited(k: string): (v: Value)
    ensures Truthy(v) <==> k in ObjectPrototypeMethods || k == "__proto__"
    ensures k in ObjectPrototypeMethods ==> v.Fun?
  {
    if k == "__proto__" then Obj(map[])
    else if k == "constructor" then Fun("Object", NativeSource("Object"))
    else if k in ObjectPrototypeMethods then Fun(k, NativeSource(k))
    else Undefined
  }

  /** `o[k]` on a plain object with own properties `o`. */
  function Lookup(o: map<string, Value>, k: string): (v: Value)
    ensures k in o ==> v == o[k]
    ensures k !in o ==> v == Inherited(k)
  {
    if k in o then o[k] else Inherited(k)
  }

  /** `o[k] = v` on a plain object, for a `v` that is not an object: assigning to `__proto__`
      without an own `__proto__` goes to the inherited accessor, which ignores such values. */
  function AssignProperty(o: map<string, Value>, k: string, v: Value): (r: map<string, Value>)
    ensures k != "__proto__" || k in o ==> r == o[k := v]
    ensures k == "__proto__" && k !in o ==> r == o
  {
    if k == "__proto__" && k !in o then o else o[k := v]
  }

  /** `x + 1`: numeric addition for a number, null or boolean, string concatenation for anything
      whose primitive is a string (strings, functions, objects, arrays). A symbol, which makes `+`
      throw, never reaches it here and gives NaN. */
  function PlusOne(x: Value): (r: Value)
    ensures x.Num? ==> r == Num(x.n + 1)
    ensures x.Str? ==> r == Str(x.s + "1")
    ensures x.Fun? || x.Obj? ==> r == Str(JsString(x) + "1")
  {
    match x
    case Num(n) => Num(n + 1)
    case Null => Num(1)
    case Bool(b) => Num(if b then 2 else 1)
    case Undefined => NaN
    case NaN => NaN
    case Sym(_) => NaN
    case _ => Str(JsString(x) + "1")
  }

  /** `parseInt(v, 10)`. */
  function ParseInt(v: Value): (r: Value)
    ensures r.Num? || r.NaN?
    ensures v.Num? ==> r == v
  {
    if v.Num? then ParseIntToString(v.n); Num(v.n)
    else match ParseIntPrefix(JsString(v))
      case Some(i) => Num(i)
      case None => NaN
  }

  /** `Number(v)`, the coercion arithmetic and comparison apply: None stands for NaN. Strings go
      through NumericString, and objects, arrays and functions through their string form. */
  function ToNumber(v: Value): (r: Option<int>)
    ensures v.Undefined? || v.NaN? || v.Sym? ==> r.None?
  {
    match v
    case Num(n) => Some(n)
    case Null => Some(0)
    case Bool(b) => Some(if b then 1 else 0)
    case Undefined => None
    case NaN => None
    case Sym(_) => None
    case Str(s) => NumericString(s)
    case _ => NumericString(JsString(v))
  }

  /** A number written out as a string coerces back to that number, and so does a one-item array. */
  lemma ToNumberOfRendering(n: int)
    ensures ToNumber(Str(JsString(Num(n)))) == Some(n)
    ensures ToNumber(Arr([Num(n)])) == Some(n)
  {
    NumericStringOfInt(n);
    assert JsString(Arr([Num(n)])) == ItemsString(Arr([Num(n)]), 0);
    assert ItemsString(Arr([Num(n)]), 0) == IntToString(n);
  }

  /** `a - b`. */
  function Minus(a: Value, b: Value): (r: Value)
    ensures r.Num? <==> ToNumber(a).Some? && ToNumber(b).Some?
    ensures r.Num? ==> r.n == ToNumber(a).value - ToNumber(b).value
  {
    match (ToNumber(a), ToNumber(b))
    case (Some(x), Some(y)) => Num(x - y)
    case _ => NaN
  }

  /** Subtraction coerces numeric strings: "1500" - 1000 is 500. */
  lemma MinusOfNumericString(a: int, b: int)
    ensures Minus(Str(IntToString(a)), Num(b)) == Num(a - b)
  {
    ToNumberOfRendering(a);
  }

  /** `a >= b` when the two sides are compared as numbers (as they are whenever one side is a
      number); false whenever a side coerces to NaN. */
  predicate AtLeast(a: Value, b: Value) {
    ToNumber(a).Some? && ToNumber(b).Some? && ToNumber(a).value >= ToNumber(b).value
  }
}
