/**
 * Loosely typed payloads: the JSON values that actions carry and that
 * preferences hold, and lodash-style lookup of a key path inside them.
 */
module Json {
  import opened Wrappers

  datatype Json =
    | JNull
    | JBool(b: bool)
    | JNumber(n: real)
    | JString(s: string)
    | JArray(elems: seq<Json>)
    | JObject(fields: map<string, Json>)

  /**
   * The value found by following `path` from `root`, one object key per
   * step; `None` (JavaScript `undefined`) as soon as a step is missing or
   * the value at hand is not an object. A `JNull` found at the end of the
   * path is a value like any other. An empty path gives the root itself
   * (lodash would give `undefined`); the reducers never look one up.
   */
  function Get(root: Option<Json>, path: seq<string>): (r: Option<Json>)
    ensures path == [] ==> r == root
    ensures path != [] && r.Some? ==>
      root.Some? && root.value.JObject? && path[0] in root.value.fields
    decreases |path|
  {
    if path == [] then root
    else match root
      case Some(JObject(fields)) =>
        if path[0] in fields then Get(Some(fields[path[0]]), path[1..]) else None
      case _ => None
  }

  /** The smallest payload that holds `v` at `path`: one nested object per step. */
  function Nest(path: seq<string>, v: Json): Json
    decreases |path|
  {
    if path == [] then v else JObject(map[path[0] := Nest(path[1..], v)])
  }

  /** Looking up a path in two parts is looking up the whole path. */
  lemma {:induction false} GetAppend(root: Option<Json>, p: seq<string>, q: seq<string>)
    ensures Get(root, p + q) == Get(Get(root, p), q)
    decreases |p|
  {
    if p == [] {
      assert p + q == q;
    } else {
      assert (p + q)[0] == p[0];
      assert (p + q)[1..] == p[1..] + q;
      match root
      case Some(JObject(fields)) =>
        if p[0] in fields {
          GetAppend(Some(fields[p[0]]), p[1..], q);
        }
      case _ =>
    }
  }

  /** What is stored at a path is found at that path. */
  lemma {:induction false} GetNest(path: seq<string>, v: Json)
    ensures Get(Some(Nest(path, v)), path) == Some(v)
    decreases |path|
  {
    if path != [] {
      GetNest(path[1..], v);
    }
  }

  /**
   * A two-step lookup succeeds exactly when the root is an object whose
   * entry `a` is an object holding `b`, and then yields that entry.
   */
  lemma GetTwoSteps(root: Option<Json>, a: string, b: string)
    ensures Get(root, [a, b]).Some? <==>
      root.Some? && root.value.JObject? && a in root.value.fields &&
      root.value.fields[a].JObject? && b in root.value.fields[a].fields
    ensures Get(root, [a, b]).Some? ==> Get(root, [a, b]).value == root.value.fields[a].fields[b]
  {
    assert [a, b][0] == a && [a, b][1..] == [b];
    assert [b][0] == b && [b][1..] == [];
    match root
    case Some(JObject(fields)) =>
      if a in fields {
        assert Get(root, [a, b]) == Get(Some(fields[a]), [b]);
        match fields[a]
        case JObject(inner) =>
          if b in inner {
            assert Get(Some(fields[a]), [b]) == Get(Some(inner[b]), []);
          }
        case _ =>
      }
    case _ =>
  }
}
