/**
 * JavaScript values as they reach the KML handler, with the two pieces of
 * JavaScript semantics it relies on: truthiness (used by `!x` and `x || y`)
 * and string conversion (used by template literals).
 *
 * `Value` covers more than `JSON.parse` can produce: a parsed snapshot never
 * holds `undefined` or `NaN`, but they are kept so that truthiness is stated
 * for every falsy value.
 *
 * Numbers are kept opaque: no arithmetic is done on them.  A number is either
 * NaN, zero (+0 and -0 both print as "0" and both are falsy), or a non-zero
 * number carried together with the text JavaScript's number-to-string
 * conversion gives for it ("-23.5", "1000", "Infinity").
 */
module Js {
  import Text
  import Wrappers

  datatype Number = NaN | Zero | NonZero(text: string)

  datatype Value =
    | Undefined
    | Null
    | Bool(b: bool)
    | Num(n: Number)
    | Str(s: string)
    | Arr(items: seq<Value>)
    | Obj(fields: seq<(string, Value)>)

  /** JavaScript truthiness: `null`, `undefined`, `false`, `0`, `NaN` and `""` are falsy. */
  predicate Truthy(v: Value) {
    match v
    case Undefined => false
    case Null => false
    case Bool(b) => b
    case Num(n) => n.NonZero?
    case Str(s) => s != ""
    case Arr(_) => true
    case Obj(_) => true
  }

  /** The JavaScript expression `a || b`: the left operand when it is truthy, otherwise the right. */
  function Or(a: Value, b: Value): (r: Value)
    ensures Truthy(a) ==> r == a
    ensures !Truthy(a) ==> r == b
  {
    if Truthy(a) then a else b
  }

  /**
   * String conversion of `v` completes without throwing.  A parsed object with
   * an own `toString` key shadows `Object.prototype.toString` with a value that
   * is not callable; conversion then falls back to `valueOf`, which returns the
   * object itself, and a TypeError is thrown.  An array converts its elements,
   * so it fails when one of them does.
   */
  predicate Printable(v: Value)
    decreases v
  {
    match v
    case Arr(items) => forall i :: 0 <= i < |items| ==> Printable(items[i])
    case Obj(fields) => forall i :: 0 <= i < |fields| ==> fields[i].0 != "toString"
    case _ => true
  }

  /**
   * String conversion as done by `${v}` in a template literal, for a value
   * whose conversion does not throw.  An array prints as its elements joined
   * by commas, with `null` and `undefined` elements printing as the empty
   * string; an object without its own `toString` prints as "[object Object]".
   */
  function ToString(v: Value): (r: string)
    requires Printable(v)
    ensures v.Str? ==> r == v.s
    ensures v.Obj? ==> r == "[object Object]"
    decreases v, 0
  {
    match v
    case Undefined => "undefined"
    case Null => "null"
    case Bool(b) => if b then "true" else "false"
    case Num(n) =>
      (match n
       case NaN => "NaN"
       case Zero => "0"
       case NonZero(text) => text)
    case Str(s) => s
    case Arr(items) =>
      Text.Join(ElementTexts(items), ',')
    case Obj(_) => "[object Object]"
  }

  /** What `Array.prototype.join` makes of each element: `null` and `undefined` give "". */
  function ElementTexts(items: seq<Value>): seq<string>
    requires forall i :: 0 <= i < |items| ==> Printable(items[i])
    decreases items, 1
  {
    seq(|items|, i requires 0 <= i < |items| =>
      if items[i].Null? || items[i].Undefined? then "" else ToString(items[i]))
  }

  /**
   * The text of a primitive holds no comma and no newline, unless it is a
   * string or a number whose printed text holds one.  Only strings, arrays
   * and shadowing objects can break the comma-separated coordinates or the
   * line structure of the description.
   */
  lemma PrimitiveTextHasNo(v: Value, sep: char)
    requires sep == ',' || sep == '\n'
    requires !v.Arr? && !v.Obj?
    requires v.Str? ==> sep !in v.s
    requires v.Num? && v.n.NonZero? ==> sep !in v.n.text
    ensures Printable(v) && sep !in ToString(v)
  {
  }

  /**
   * An array's text reads back, split at commas, as the texts of its
   * elements, provided it has an element and none of those texts holds a
   * comma itself.
   */
  lemma ArrayTextSplits(items: seq<Value>)
    requires |items| >= 1
    requires forall i :: 0 <= i < |items| ==> Printable(items[i])
    requires forall i :: 0 <= i < |ElementTexts(items)| ==> ',' !in ElementTexts(items)[i]
    ensures Printable(Arr(items))
    ensures Text.Split(ToString(Arr(items)), ',') == ElementTexts(items)
  {
    Text.SplitJoin(ElementTexts(items), ',');
  }

  /** Every falsy value is a primitive, so its conversion never throws. */
  lemma FalsyPrintable(v: Value)
    requires !Truthy(v)
    ensures Printable(v)
  {
  }

  /**
   * An object with an own `toString` key cannot be converted, whether it is
   * interpolated itself or as an element of an array, at any position.
   */
  lemma ShadowedToString(fields: seq<(string, Value)>, k: nat, items: seq<Value>, i: nat)
    requires k < |fields| && fields[k].0 == "toString"
    requires i < |items| && items[i] == Obj(fields)
    ensures !Printable(Obj(fields))
    ensures !Printable(Arr(items))
  {
  }

  /** One element that cannot be converted makes the array unconvertible, at any depth. */
  lemma {:induction false} UnprintableInside(v: Value, path: seq<nat>)
    requires Reach(v, path).Some? && !Printable(Reach(v, path).value)
    ensures !Printable(v)
    decreases |path|
  {
    if |path| > 0 {
      UnprintableInside(v.items[path[0]], path[1..]);
    }
  }

  /** The value found by following array indices `path` down from `v`, if there is one. */
  function Reach(v: Value, path: seq<nat>): Wrappers.Option<Value>
    decreases |path|
  {
    if |path| == 0 then Wrappers.Some(v)
    else if v.Arr? && path[0] < |v.items| then Reach(v.items[path[0]], path[1..])
    else Wrappers.None
  }
}
