/** Documents as js-yaml loads them: JSON-like trees. */
module JsonTree {
  import opened Wrappers

  /**
   * A loaded YAML/JSON value. The key order of a mapping is not kept, and a
   * key whose value is `undefined` is absent, since the YAML dump omits it.
   */
  datatype Json =
    | JNull
    | JBool(b: bool)
    | JNum(n: int)
    | JStr(s: string)
    | JArr(items: seq<Json>)
    | JObj(fields: map<string, Json>)

  /** `j?.[key]`: the member `key` of a mapping, None for anything else. */
  function Get(j: Json, key: string): Option<Json>
  {
    if j.JObj? && key in j.fields then Some(j.fields[key]) else None
  }

  /** `j?.[k0]?.[k1]...`: follows a path of keys through nested mappings. */
  function At(j: Json, path: seq<string>): Option<Json>
    decreases |path|
  {
    if path == [] then Some(j)
    else
      match Get(j, path[0])
      case None => None
      case Some(child) => At(child, path[1..])
  }

  /** JavaScript truthiness of a loaded value, as `!!v` computes it. */
  predicate Truthy(j: Json)
  {
    match j
    case JNull => false
    case JBool(b) => b
    case JNum(n) => n != 0
    case JStr(s) => s != []
    case JArr(_) => true
    case JObj(_) => true
  }

  /** Following a path is following its first key, then the rest. */
  lemma AtCons(j: Json, key: string, rest: seq<string>)
    ensures At(j, [key] + rest) == (match Get(j, key) case None => None case Some(child) => At(child, rest))
  {
    assert ([key] + rest)[0] == key;
    assert ([key] + rest)[1..] == rest;
  }

  /** Following `p + q` is following `p`, then `q` from where `p` leads. */
  lemma {:induction false} AtConcat(j: Json, p: seq<string>, q: seq<string>)
    ensures At(j, p + q) == (match At(j, p) case None => None case Some(c) => At(c, q))
    decreases |p|
  {
    if p == [] {
      assert p + q == q;
    } else {
      assert p + q == [p[0]] + (p[1..] + q);
      AtCons(j, p[0], p[1..] + q);
      assert p == [p[0]] + p[1..];
      AtCons(j, p[0], p[1..]);
      match Get(j, p[0])
      case None =>
      case Some(child) => AtConcat(child, p[1..], q);
    }
  }
}
