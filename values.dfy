/**
 * The Python values the service passes around: decoded JSON from the two web
 * services, template contexts, and the `data` payload of its errors.
 */
module Values {
  import opened Wrappers

  /**
   * A floating-point number. The model does no arithmetic on it and keeps only
   * the text `str()` gives for it, which is what the source formats into URLs
   * and messages.
   */
  datatype Float = Float(text: string)

  datatype Value =
    | Null                                            // None, or JSON null
    | Bool(b: bool)
    | Number(n: Float)
    | Str(s: string)
    | List(items: seq<Value>)                         // list, or JSON array
    | Dict(entries: map<string, Value>)               // dict, or JSON object
    | Record(name: string, fields: seq<(string, Value)>)  // a NamedTuple instance

  /** What `v[key]` does for a string key. */
  datatype Subscripted = Found(value: Value) | MissingKey | NotSubscriptable

  /**
   * `v[key]`: a dictionary yields the entry or raises KeyError; no other value
   * takes a string subscript (lists, strings and tuples raise TypeError, and so
   * do None, booleans and numbers).
   */
  function Subscript(v: Value, key: string): (r: Subscripted)
    ensures r.Found? <==> v.Dict? && key in v.entries
    ensures r.Found? ==> r.value == v.entries[key]
    ensures r == MissingKey <==> v.Dict? && key !in v.entries
  {
    match v
    case Dict(entries) => if key in entries then Found(entries[key]) else MissingKey
    case _ => NotSubscriptable
  }

  /** The first field called `key` in a NamedTuple's fields. */
  function FieldOf(fields: seq<(string, Value)>, key: string): (r: Option<Value>)
    ensures r.Some? <==> exists k :: 0 <= k < |fields| && fields[k].0 == key
    ensures r.Some? ==> exists k :: 0 <= k < |fields| && fields[k] == (key, r.value)
  {
    if fields == [] then None
    else if fields[0].0 == key then Some(fields[0].1)
    else
      var r := FieldOf(fields[1..], key);
      assert forall k :: 1 <= k < |fields| ==> fields[k] == fields[1..][k - 1];
      r
  }

  /**
   * The template engine's `v.name`: the attribute of a NamedTuple, or, failing
   * an attribute, the dictionary entry of that name.
   */
  function AttrOf(v: Value, name: string): Option<Value>
  {
    match v
    case Record(_, fields) => FieldOf(fields, name)
    case Dict(entries) => if name in entries then Some(entries[name]) else None
    case _ => None
  }

  /** A dictionary built from (key, value) pairs in order; a later key overwrites an earlier one. */
  function DictOf(pairs: seq<(string, Value)>): (m: map<string, Value>)
    ensures m.Keys == set k | 0 <= k < |pairs| :: pairs[k].0
    decreases |pairs|
  {
    if pairs == [] then map[]
    else
      var m := DictOf(pairs[..|pairs| - 1]);
      assert forall k :: 0 <= k < |pairs| - 1 ==> pairs[..|pairs| - 1][k] == pairs[k];
      m[pairs[|pairs| - 1].0 := pairs[|pairs| - 1].1]
  }

  lemma {:induction false} DictOfDistinct(pairs: seq<(string, Value)>, k: nat)
    requires forall i, j :: 0 <= i < j < |pairs| ==> pairs[i].0 != pairs[j].0
    requires k < |pairs|
    ensures pairs[k].0 in DictOf(pairs) && DictOf(pairs)[pairs[k].0] == pairs[k].1
    decreases |pairs|
  {
    var n := |pairs| - 1;
    if k < n {
      DictOfDistinct(pairs[..n], k);
    }
  }
}
