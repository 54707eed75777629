/**
 * The JavaScript values that the relay probes dynamically: parsed JSON
 * bodies, and the handful of operators the route applies to them
 * (truthiness, `typeof`, optional-chaining reads, `in`, `??`, and
 * `String(...)`).
 */
module JsValue {
  import opened Options
  import Decimal

  /**
   * A JSON-shaped JavaScript value. Numbers are integers; an object is its
   * own enumerable properties.
   */
  datatype Value =
    | Undefined
    | Null
    | Bool(b: bool)
    | Num(n: int)
    | Str(s: string)
    | Arr(items: seq<Value>)
    | Obj(fields: map<string, Value>)

  /** `null` or `undefined`: the values `?.` and `??` short-circuit on. */
  predicate Nullish(v: Value) {
    v.Undefined? || v.Null?
  }

  /** JavaScript truthiness: `undefined`, `null`, `false`, `0` and `""` are falsy. */
  predicate Truthy(v: Value) {
    match v
    case Undefined => false
    case Null => false
    case Bool(b) => b
    case Num(n) => n != 0
    case Str(s) => s != ""
    case Arr(_) => true
    case Obj(_) => true
  }

  /** The `typeof` operator; `null` and arrays are both `"object"`. */
  function TypeOf(v: Value): (t: string)
    ensures t == "string" <==> v.Str?
    ensures t == "object" <==> v.Null? || v.Arr? || v.Obj?
  {
    match v
    case Undefined => "undefined"
    case Null => "object"
    case Bool(_) => "boolean"
    case Num(_) => "number"
    case Str(_) => "string"
    case Arr(_) => "object"
    case Obj(_) => "object"
  }

  /**
   * `v?.name` for a property name that is neither an array index nor
   * `length`: only objects carry such properties, every other value reads
   * as `undefined`.
   */
  function Get(v: Value, name: string): (r: Value)
    ensures r != Undefined ==> v.Obj? && name in v.fields && r == v.fields[name]
    ensures v.Obj? && name in v.fields ==> r == v.fields[name]
  {
    if v.Obj? && name in v.fields then v.fields[name] else Undefined
  }

  /** `name in v` for an object-typed `v`. */
  predicate HasKey(v: Value, name: string) {
    v.Obj? && name in v.fields
  }

  /** `v?.[0]`: the first element of an array, the first character of a string, an object's `"0"` property. */
  function At0(v: Value): (r: Value)
    ensures v.Arr? && |v.items| > 0 ==> r == v.items[0]
    ensures v.Arr? && |v.items| == 0 ==> r == Undefined
    ensures Nullish(v) ==> r == Undefined
  {
    match v
    case Arr(items) => if |items| > 0 then items[0] else Undefined
    case Str(s) => if |s| > 0 then Str([s[0]]) else Undefined
    case Obj(fields) => if "0" in fields then fields["0"] else Undefined
    case _ => Undefined
  }

  /** `v ?? fallback`. */
  function Coalesce(v: Value, fallback: Value): (r: Value)
    ensures !Nullish(v) ==> r == v
    ensures Nullish(v) ==> r == fallback
  {
    if Nullish(v) then fallback else v
  }

  /**
   * `String(v)` can print `v`: no object reachable through arrays has an own
   * `toString` key. A parsed JSON value is never callable, so such a key
   * hides `Object.prototype.toString`, and the fallback `valueOf` returns
   * the object itself; the conversion then throws a `TypeError`.
   */
  predicate Printable(v: Value)
    decreases v
  {
    match v
    case Obj(fields) => "toString" !in fields
    case Arr(items) => forall i :: 0 <= i < |items| ==> Printable(items[i])
    case _ => true
  }

  /**
   * `String(v)` prints empty: the empty string, an empty array, or a
   * one-element array whose element is `null`, `undefined` or prints empty.
   * Two or more elements always print at least one comma.
   */
  predicate PrintsEmpty(v: Value)
    decreases v
  {
    match v
    case Str(s) => s == ""
    case Arr(items) => |items| == 0 || (|items| == 1 && (Nullish(items[0]) || PrintsEmpty(items[0])))
    case _ => false
  }

  /**
   * `String(v)`, or `None` when it throws. An array prints as
   * `Array.prototype.join(",")` of its elements, with `null` and
   * `undefined` elements printing as empty.
   */
  function ToJsString(v: Value): (r: Option<string>)
    ensures r.Some? <==> Printable(v)
    decreases v, 1
  {
    match v
    case Undefined => Some("undefined")
    case Null => Some("null")
    case Bool(b) => if b then Some("true") else Some("false")
    case Num(n) => Some(Decimal.IntToString(n))
    case Str(s) => Some(s)
    case Arr(items) => JoinFrom(v, 0)
    case Obj(fields) => if "toString" in fields then None else Some("[object Object]")
  }

  /** The comma-joined rendering of `list.items[i..]`, or `None` when an element's conversion throws. */
  function JoinFrom(list: Value, i: nat): (r: Option<string>)
    requires list.Arr? && i <= |list.items|
    ensures r.Some? <==> forall j :: i <= j < |list.items| ==> Printable(list.items[j])
    decreases list, 0, |list.items| - i
  {
    if i == |list.items| then Some("")
    else
      var item := list.items[i];
      var head := if Nullish(item) then Some("") else ToJsString(item);
      if head.None? then None
      else if i + 1 == |list.items| then head
      else
        match JoinFrom(list, i + 1)
        case None => None
        case Some(rest) => Some(head.value + "," + rest)
  }

  /** `String(v)` is the empty string exactly in the cases `PrintsEmpty` lists. */
  lemma {:induction false} PrintsEmptyExactly(v: Value)
    ensures ToJsString(v) == Some("") <==> PrintsEmpty(v)
    decreases v
  {
    if v.Arr? && |v.items| > 0 {
      var item := v.items[0];
      if !Nullish(item) {
        PrintsEmptyExactly(item);
      }
      if |v.items| > 1 {
        var rest := JoinFrom(v, 1);
        if ToJsString(v).Some? {
          assert |ToJsString(v).value| > 0;
        }
      }
    }
  }
}
