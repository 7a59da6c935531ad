/**
 * JavaScript values as the widget's records hold them: `null`/`undefined`,
 * booleans, numbers (integers only: money is kept in whole reais), strings,
 * arrays and plain objects.  An object is a map from keys to values; the
 * insertion order of JavaScript object keys is not represented.
 */
module Json {

  datatype Option<T> = None | Some(value: T)

  datatype Value =
    | Null                          // null and undefined alike
    | Bool(b: bool)
    | Num(n: int)
    | Str(s: string)
    | Arr(items: seq<Value>)
    | Obj(fields: map<string, Value>)

  /** JavaScript truthiness: null, false, 0 and "" are falsy, every object and array is truthy. */
  predicate Truthy(v: Value) {
    match v
    case Null => false
    case Bool(b) => b
    case Num(n) => n != 0
    case Str(s) => s != ""
    case Arr(_) => true
    case Obj(_) => true
  }

  /** `o[key]`, undefined when absent. */
  function Get(o: map<string, Value>, key: string): Value {
    if key in o then o[key] else Null
  }

  /** `o?.k1?.k2...`: undefined as soon as a step is not an object. */
  function At(o: map<string, Value>, path: seq<string>): Value
    requires |path| > 0
    decreases |path|
  {
    var v := Get(o, path[0]);
    if |path| == 1 then v
    else if v.Obj? then At(v.fields, path[1..])
    else Null
  }

  /** `o?.a?.b`, the two-key read the widget's code is full of. */
  function Get2(o: map<string, Value>, a: string, b: string): Value {
    var c := Get(o, a);
    if c.Obj? then Get(c.fields, b) else Null
  }

  /** The two-key read is the general path read on a path of two keys. */
  lemma Get2At(o: map<string, Value>, a: string, b: string)
    ensures Get2(o, a, b) == At(o, [a, b])
  {
    assert [a, b][1..] == [b];
  }

  /** `!!o?.k1?.k2...` */
  predicate Has(o: map<string, Value>, path: seq<string>)
    requires |path| > 0
  {
    Truthy(At(o, path))
  }

  function Strs(xs: seq<string>): (r: seq<Value>)
    ensures |r| == |xs|
    ensures forall i :: 0 <= i < |xs| ==> r[i] == Str(xs[i])
  {
    seq(|xs|, i requires 0 <= i < |xs| => Str(xs[i]))
  }
}
