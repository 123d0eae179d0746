/**
 * The JavaScript values the three components read and build: what JSON.parse
 * returns and JSON.stringify consumes, plus `undefined`. Numbers are integers.
 */
module JsValue {
  import opened Wrappers

  datatype Value =
    | Undefined
    | Null
    | Bool(b: bool)
    | Num(n: int)
    | Str(s: string)
    | Arr(items: seq<Value>)
    | Obj(fields: map<string, Value>)

  /** The condition of `if (v)` and the left operand test of `v || w`. */
  predicate Truthy(v: Value) {
    match v
    case Undefined => false
    case Null => false
    case Bool(b) => b
    case Num(n) => n != 0
    case Str(s) => s != ""
    case Arr(_) => true
    case Obj(_) => true
  }

  /** `v === null || v === undefined` */
  predicate Nullish(v: Value) {
    v == Undefined || v == Null
  }

  /** `a || b` */
  function Or(a: Value, b: Value): Value {
    if Truthy(a) then a else b
  }

  const TypeError := "TypeError: cannot read properties of null or undefined"

  /**
   * Reading an own data property `v.name` (also `const { name } = v`):
   * a TypeError on null and undefined, `undefined` when the property is missing.
   * Built-in properties of strings and arrays (`length`, ...) are not modelled.
   */
  function Prop(v: Value, name: string): (r: Result<Value, string>)
    ensures r.Err? <==> Nullish(v)
    ensures v.Obj? && name in v.fields ==> r == Ok(v.fields[name])
    ensures r.Ok? && r.value != Undefined ==> v.Obj? && name in v.fields
  {
    match v
    case Undefined => Err(TypeError)
    case Null => Err(TypeError)
    case Obj(f) => Ok(if name in f then f[name] else Undefined)
    case _ => Ok(Undefined)
  }

  /** `v.name` where reading it cannot throw; undefined on null and undefined (used in contracts). */
  function Field(v: Value, name: string): Value {
    match Prop(v, name)
    case Ok(x) => x
    case Err(_) => Undefined
  }

  function Digit(d: int): char
    requires 0 <= d < 10
  {
    ('0' as int + d) as char
  }

  /** `n.toString()` for a non-negative integer: its decimal digits, no leading zero. */
  function NatToString(n: nat): (s: string)
    ensures |s| >= 1
    ensures n >= 10 ==> |s| >= 2
    ensures forall i | 0 <= i < |s| :: '0' <= s[i] <= '9'
    ensures s[0] == '0' ==> n == 0
  {
    if n < 10 then [Digit(n)] else NatToString(n / 10) + [Digit(n % 10)]
  }

  /** Two different numbers never print the same: the decimal form is injective. */
  lemma {:induction false} NatToStringInjective(a: nat, b: nat)
    requires NatToString(a) == NatToString(b)
    ensures a == b
  {
    var s := NatToString(a);
    if a < 10 && b < 10 {
      assert s[0] == Digit(a) && s[0] == Digit(b);
    } else if a < 10 || b < 10 {
      assert false;
    } else {
      assert s[|s| - 1] == Digit(a % 10) && s[|s| - 1] == Digit(b % 10);
      assert NatToString(a / 10) == s[..|s| - 1] == NatToString(b / 10);
      NatToStringInjective(a / 10, b / 10);
    }
  }

  /** `String(n)` for an integer. */
  function IntToString(n: int): (s: string)
    ensures |s| >= 1
  {
    if n < 0 then "-" + NatToString(-n) else NatToString(n)
  }

  /**
   * `String(v)`, the conversion used by template literals, `searchParams.set`,
   * `localStorage.setItem` and property keys.
   */
  function ToStr(v: Value): (s: string)
    decreases v
  {
    match v
    case Undefined => "undefined"
    case Null => "null"
    case Bool(b) => if b then "true" else "false"
    case Num(n) => IntToString(n)
    case Str(s) => s
    case Arr(items) =>
      // Array.prototype.join writes null and undefined elements as ""
      JoinWithCommas(seq(|items|, i requires 0 <= i < |items| =>
        if Nullish(items[i]) then "" else ToStr(items[i])))
    case Obj(_) => "[object Object]"
  }

  function JoinWithCommas(parts: seq<string>): string {
    if |parts| == 0 then ""
    else if |parts| == 1 then parts[0]
    else parts[0] + "," + JoinWithCommas(parts[1..])
  }

  /**
   * JSON.stringify and JSON.parse, taken as given: `parse` returns None where
   * JSON.parse throws.
   */
  datatype JsonCodec = JsonCodec(stringify: Value -> string, parse: string -> Option<Value>)

  /**
   * The codec writes `v` as non-empty text and reads it back as `v` (what
   * JSON.stringify and JSON.parse do for a value without undefined fields).
   */
  predicate RoundTrips(json: JsonCodec, v: Value) {
    json.stringify(v) != "" && json.parse(json.stringify(v)) == Some(v)
  }
}
