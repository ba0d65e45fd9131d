// Option, and the JSON scalars that the backends keep in their issue
// dictionaries, with Python's `dict.get` and `==` on them.
module Wrappers {

  datatype Option<T> = None | Some(value: T)
}

module PyValues {
  import opened Wrappers

  /** A scalar stored under a key of an issue dictionary. */
  datatype Value = Null | Bool(b: bool) | Int(i: int) | Str(s: string)

  /** A Python dict with string keys, such as one issue record. */
  type Dict = map<string, Value>

  /** One element of the `issues` list an LLM result carries: normally a
      dict, but nothing stops the model from returning a bare scalar. */
  datatype Item = Record(fields: Dict) | Scalar(v: Value)

  /** `d.get(key, default)`. */
  function Get(d: Dict, key: string, default: Value): (r: Value)
    ensures key in d ==> r == d[key]
    ensures key !in d ==> r == default
  {
    if key in d then d[key] else default
  }

  /** Python `==` on two scalars: `True == 1` and `False == 0` hold. */
  predicate PyEq(a: Value, b: Value)
  {
    match (a, b)
    case (Bool(x), Int(n)) => n == (if x then 1 else 0)
    case (Int(n), Bool(x)) => n == (if x then 1 else 0)
    case _ => a == b
  }

  lemma PyEqSymmetric(a: Value, b: Value)
    ensures PyEq(a, b) <==> PyEq(b, a)
  {
  }

  /** `issue["source"] = source` on a dict. */
  function WithSource(d: Dict, source: string): (r: Dict)
    ensures r.Keys == d.Keys + {"source"}
    ensures r["source"] == Str(source)
    ensures forall k :: k in d && k != "source" ==> r[k] == d[k]
  {
    d["source" := Str(source)]
  }

  predicate AllRecords(items: seq<Item>)
  {
    forall k :: 0 <= k < |items| ==> items[k].Record?
  }
}
