/**
 * A model of the dynamic JavaScript values that the modelled code reads and
 * builds: JSON-like data, plain objects, error instances and functions, with
 * the JavaScript notions the code relies on (truthiness, `typeof`, `in`,
 * property access, `||`, `??` and `String(v)`).
 *
 * Numbers are integers: floating point, NaN and the infinities are not part
 * of this model. Object keys are a map, so key order is not modelled.
 */
module Js {

  datatype Option<+T> = None | Some(value: T)

  /** The outcome of code that may throw: the value it returns or the value
      it throws. */
  datatype Result<+T> = Ok(value: T) | Throws(error: Value)

  /** What `instanceof` can tell about an object. */
  datatype ObjKind = PlainObject | ErrorInstance | AxiosErrorInstance

  datatype Value =
    | Undefined
    | Null
    | Bool(b: bool)
    | Num(n: int)
    | Str(s: string)
    | Arr(items: seq<Value>)
    | Obj(fields: map<string, Value>, kind: ObjKind)
    | Func(source: string)

  /** A plain object literal `{...}`. */
  function Object(fields: map<string, Value>): (r: Value)
    ensures r.Obj? && r.fields == fields && r.kind == PlainObject
  {
    Obj(fields, PlainObject)
  }

  /** The TypeError the engine throws when a property of null or undefined
      is read; the message text is not modelled. */
  const TypeError: Value := Obj(map[], ErrorInstance)

  /** JavaScript truthiness: `Boolean(v)`. */
  predicate Truthy(v: Value)
  {
    match v
    case Undefined => false
    case Null => false
    case Bool(b) => b
    case Num(n) => n != 0
    case Str(s) => s != ""
    case _ => true
  }

  predicate IsNullish(v: Value)
  {
    v.Undefined? || v.Null?
  }

  /** lodash `isObject`: objects, arrays and functions, never null. */
  predicate IsObject(v: Value)
  {
    v.Arr? || v.Obj? || v.Func?
  }

  /** `typeof v === 'object'`, which also holds of null. */
  predicate TypeofObject(v: Value)
  {
    v.Null? || v.Arr? || v.Obj?
  }

  /** `v instanceof Error` (AxiosError extends Error). */
  predicate IsErrorInstance(v: Value)
  {
    v.Obj? && v.kind != PlainObject
  }

  /** The `in` operator for the keys the modelled code asks about. */
  predicate Has(v: Value, key: string)
  {
    v.Obj? && key in v.fields
  }

  /** Reading `v[key]`: a missing key reads as undefined. Reading a property
      of null or undefined throws in JavaScript; callers check `IsNullish`. */
  function Prop(v: Value, key: string): (r: Value)
    ensures !Has(v, key) ==> r == Undefined
    ensures Has(v, key) ==> r == v.fields[key]
  {
    if v.Obj? && key in v.fields then v.fields[key] else Undefined
  }

  /** `a || b` */
  function Or(a: Value, b: Value): (r: Value)
    ensures Truthy(a) ==> r == a
    ensures !Truthy(a) ==> r == b
  {
    if Truthy(a) then a else b
  }

  /** `a ?? b` */
  function Coalesce(a: Value, b: Value): (r: Value)
    ensures !IsNullish(a) ==> r == a
    ensures IsNullish(a) ==> r == b
  {
    if IsNullish(a) then b else a
  }

  /** lodash `get(obj, key, default)`: the default replaces only undefined. */
  function Get(v: Value, key: string, default: Value): (r: Value)
    ensures Prop(v, key) != Undefined ==> r == Prop(v, key)
    ensures Prop(v, key) == Undefined ==> r == default
  {
    var p := Prop(v, key);
    if p.Undefined? then default else p
  }

  // ---------------------------------------------------------------------------
  // Strings

  function Join(parts: seq<string>, sep: string): (r: string)
    ensures |parts| == 1 ==> r == parts[0]
    ensures parts == [] ==> r == ""
  {
    if parts == [] then ""
    else if |parts| == 1 then parts[0]
    else parts[0] + sep + Join(parts[1..], sep)
  }

  predicate StartsWith(s: string, prefix: string)
  {
    |prefix| <= |s| && s[..|prefix|] == prefix
  }

  /** `s.includes(part)` */
  predicate Contains(s: string, part: string)
  {
    StartsWith(s, part) || (|s| > 0 && Contains(s[1..], part))
  }

  predicate IsDigit(c: char)
  {
    '0' <= c <= '9'
  }

  predicate AllDigits(s: string)
  {
    forall i :: 0 <= i < |s| ==> IsDigit(s[i])
  }

  function DigitChar(d: nat): (c: char)
    requires d < 10
    ensures IsDigit(c) && c as int - '0' as int == d
  {
    (d + '0' as int) as char
  }

  /** The decimal text of a natural number, without leading zeros. */
  function NatToString(n: nat): (r: string)
    ensures |r| > 0 && AllDigits(r)
    ensures r[0] != '0' || r == "0"
  {
    if n < 10 then [DigitChar(n)] else NatToString(n / 10) + [DigitChar(n % 10)]
  }

  /** `String(n)` for an integer. */
  function IntToString(n: int): string
  {
    if n < 0 then "-" + NatToString(-n) else NatToString(n)
  }

  /** `parseInt` of a run of decimal digits. */
  function DigitsValue(ds: string): nat
    requires AllDigits(ds)
  {
    if ds == [] then 0
    else DigitsValue(ds[..|ds| - 1]) * 10 + (ds[|ds| - 1] as int - '0' as int)
  }

  /** Digit text without superfluous leading zeros. */
  predicate Canonical(ds: string)
  {
    |ds| > 0 && AllDigits(ds) && (ds[0] != '0' || |ds| == 1)
  }

  lemma {:induction false} DigitsValueOfNatToString(n: nat)
    ensures DigitsValue(NatToString(n)) == n
  {
    if n >= 10 {
      var s := NatToString(n / 10);
      DigitsValueOfNatToString(n / 10);
      assert (s + [DigitChar(n % 10)])[..|s|] == s;
    }
  }

  lemma {:induction false} DigitsValueRange(ds: string)
    requires Canonical(ds) && |ds| > 1
    ensures DigitsValue(ds) >= 10
  {
    var init := ds[..|ds| - 1];
    if |init| == 1 {
      assert DigitsValue(init) == init[0] as int - '0' as int;
    } else {
      assert Canonical(init);
      DigitsValueRange(init);
    }
  }

  /** Printing a parsed canonical digit run gives the run back. */
  lemma {:induction false} NatToStringOfDigitsValue(ds: string)
    requires Canonical(ds)
    ensures NatToString(DigitsValue(ds)) == ds
  {
    if |ds| == 1 {
      assert DigitsValue(ds) == ds[0] as int - '0' as int;
    } else {
      var init := ds[..|ds| - 1];
      assert Canonical(init);
      NatToStringOfDigitsValue(init);
      DigitsValueRange(ds);
      var v := DigitsValue(ds);
      assert v / 10 == DigitsValue(init);
      assert ds == init + [ds[|ds| - 1]];
    }
  }

  /** Lower-casing of ASCII letters (non-ASCII case mapping is not modelled). */
  function LowerAscii(s: string): (r: string)
    ensures |r| == |s|
    ensures forall i :: 0 <= i < |s| ==> r[i] == LowerChar(s[i])
  {
    if s == [] then [] else [LowerChar(s[0])] + LowerAscii(s[1..])
  }

  function LowerChar(c: char): char
  {
    if 'A' <= c <= 'Z' then (c as int + 32) as char else c
  }

  /** `String(v)` for the values the modelled code stringifies. */
  function ToStr(v: Value): string
    decreases v, 1
  {
    match v
    case Undefined => "undefined"
    case Null => "null"
    case Bool(b) => if b then "true" else "false"
    case Num(n) => IntToString(n)
    case Str(s) => s
    case Arr(items) => JoinItems(v, 0)
    case Obj(fields, kind) =>
      if kind == PlainObject then "[object Object]"
      else
        var msg := Prop(v, "message");
        if msg.Str? && msg.s != "" then "Error: " + msg.s else "Error"
    case Func(source) => source
  }

  /** `Array.prototype.join(',')` as used by `String(array)`: null and
      undefined elements print as empty text. */
  function JoinItems(v: Value, i: nat): string
    requires v.Arr? && i <= |v.items|
    decreases v, 0, |v.items| - i
  {
    if i == |v.items| then ""
    else
      var item := v.items[i];
      var text := if IsNullish(item) then "" else ToStr(item);
      if i + 1 == |v.items| then text else text + "," + JoinItems(v, i + 1)
  }
}
