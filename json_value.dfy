/**
 * JSON values as `JSON.parse` produces them. Numbers are kept integral:
 * the payloads of the core only carry counts and slide numbers.
 */
module JsonValue {
  import opened Wrappers

  datatype Json =
    | JNull
    | JBool(b: bool)
    | JNum(n: int)
    | JStr(s: string)
    | JArr(items: seq<Json>)
    | JObj(fields: seq<(string, Json)>)

  /** `{}`, the empty payload the workers write. */
  const EmptyObject: Json := JObj([])

  /** A JSON parser: the model's stand-in for `JSON.parse`, None meaning it threw. */
  type Parser = string -> Option<Json>

  /** The value of the first field named `key` of an object (`obj.key`), None when absent. */
  function Field(v: Json, key: string): (r: Option<Json>)
    ensures r.Some? ==> v.JObj? && (key, r.value) in v.fields
    ensures v.JObj? && (forall i :: 0 <= i < |v.fields| ==> v.fields[i].0 != key) ==> r.None?
  {
    match v
    case JObj(fs) => FieldIn(fs, key)
    case _ => None
  }

  function FieldIn(fs: seq<(string, Json)>, key: string): (r: Option<Json>)
    ensures r.Some? ==> (key, r.value) in fs
    ensures (forall i :: 0 <= i < |fs| ==> fs[i].0 != key) ==> r.None?
  {
    if fs == [] then None
    else if fs[0].0 == key then Some(fs[0].1)
    else FieldIn(fs[1..], key)
  }

  /** Each key of a three-field object with distinct keys finds its own value. */
  lemma FieldOfThree(k1: string, v1: Json, k2: string, v2: Json, k3: string, v3: Json)
    requires k1 != k2 && k1 != k3 && k2 != k3
    ensures var o := JObj([(k1, v1), (k2, v2), (k3, v3)]);
      Field(o, k1) == Some(v1) && Field(o, k2) == Some(v2) && Field(o, k3) == Some(v3)
  {
    var fs := [(k1, v1), (k2, v2), (k3, v3)];
    var tail := [(k2, v2), (k3, v3)];
    assert fs[1..] == tail && tail[1..] == [(k3, v3)];
    assert FieldIn(tail, k3) == FieldIn([(k3, v3)], k3) == Some(v3);
    assert FieldIn(fs, k2) == FieldIn(tail, k2) == Some(v2);
    assert FieldIn(fs, k3) == FieldIn(tail, k3);
  }

  /** `obj.key || []` for an array field: the items when the field holds an array, else none. */
  function ArrayFieldOrEmpty(v: Json, key: string): (r: seq<Json>)
    ensures Field(v, key).None? ==> r == []
    ensures Field(v, key).Some? && Field(v, key).value.JArr? ==> r == Field(v, key).value.items
  {
    match Field(v, key)
    case Some(JArr(items)) => items
    case _ => []
  }
}
