/**
 * The JavaScript values the edge functions inspect after `JSON.parse`, with
 * JavaScript's truthiness and property access.
 */
module JsValue {
  import opened Wrappers

  datatype Value =
    | Undefined
    | Null
    | Bool(b: bool)
    | Number(n: real)
    | Str(s: string)
    | Array(items: seq<Value>)
    | Object(fields: seq<(string, Value)>)

  /** `!!v`; NaN is not among the modelled numbers. */
  predicate Truthy(v: Value) {
    match v
    case Undefined => false
    case Null => false
    case Bool(b) => b
    case Number(n) => n != 0.0
    case Str(s) => s != ""
    case Array(_) => true
    case Object(_) => true
  }

  /** Property access is defined on every value except `null` and `undefined`. */
  predicate HasProperties(v: Value) {
    !v.Undefined? && !v.Null?
  }

  /**
   * The value of the last binding of `key` (the one `JSON.parse` keeps for a
   * repeated key), or `undefined` when no field binds it.
   */
  function Lookup(fields: seq<(string, Value)>, key: string): (r: Value)
    ensures r.Undefined? || exists i :: 0 <= i < |fields| && fields[i] == (key, r)
    ensures (forall i :: 0 <= i < |fields| ==> fields[i].0 != key) ==> r.Undefined?
  {
    if fields == [] then Undefined
    else
      var last := fields[|fields| - 1];
      if last.0 == key then last.1
      else
        var r := Lookup(fields[..|fields| - 1], key);
        assert forall i :: 0 <= i < |fields| - 1 ==> fields[..|fields| - 1][i] == fields[i];
        r
  }

  /** `fields[i]` binds `key` and no later field does. */
  predicate LastBinding(fields: seq<(string, Value)>, key: string, i: int) {
    0 <= i < |fields| && fields[i].0 == key && forall j :: i < j < |fields| ==> fields[j].0 != key
  }

  /** When some field binds the key, the property read yields the value of the last such field. */
  lemma {:induction false} LookupReadsLastBinding(fields: seq<(string, Value)>, key: string, k: nat)
    requires k < |fields| && fields[k].0 == key
    ensures exists i :: LastBinding(fields, key, i) && fields[i].1 == Lookup(fields, key)
  {
    var n := |fields| - 1;
    if fields[n].0 == key {
      assert LastBinding(fields, key, n);
    } else {
      var init := fields[..n];
      assert init[k] == fields[k];
      LookupReadsLastBinding(init, key, k);
      var i :| LastBinding(init, key, i) && init[i].1 == Lookup(init, key);
      assert init[i] == fields[i];
      assert LastBinding(fields, key, i);
    }
  }

  /**
   * `v.key` on a value that has properties: an object's own binding, and
   * `undefined` for the other values (none of the keys read here is a
   * built-in property of strings, arrays, numbers or booleans).
   */
  function Property(v: Value, key: string): Value
    requires HasProperties(v)
  {
    if v.Object? then Lookup(v.fields, key) else Undefined
  }

  /** A truthy value always has properties. */
  lemma TruthyHasProperties(v: Value)
    requires Truthy(v)
    ensures HasProperties(v)
  {
  }

  /** An object whose keys are distinct yields each key's own value. */
  lemma {:induction false} LookupDistinct(fields: seq<(string, Value)>, k: nat)
    requires k < |fields|
    requires forall i, j :: 0 <= i < j < |fields| ==> fields[i].0 != fields[j].0
    ensures Lookup(fields, fields[k].0) == fields[k].1
  {
    if k < |fields| - 1 {
      var init := fields[..|fields| - 1];
      assert init[k] == fields[k];
      LookupDistinct(init, k);
    }
  }
}
