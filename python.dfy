/**
 * The slice of Python the gateway's resolvers rely on: values decoded by the
 * `json` module, Python truthiness (`not x`, `x or y`), and the two ways the
 * resolvers walk nested dictionaries:
 *   - strict subscripting, `j["identity"]["traits"]["email"]`, which raises
 *     KeyError or TypeError when a level is missing or is not a dict;
 *   - lenient lookup, `((j.get(a) or {}).get(b) or {}).get(c) or d`, which
 *     falls back to a default when a level is missing or falsy, and raises
 *     AttributeError only when a level is a truthy value that is not a dict.
 */
module Python {

  datatype Option<+T> = None | Some(value: T)

  datatype Result<+T, +E> = Ok(value: T) | Err(error: E)

  /** A value as `json.loads` returns it. Python's `None` is `JNull`. */
  datatype Json =
    | JNull
    | JBool(b: bool)
    | JNum(n: real)
    | JStr(s: string)
    | JArr(items: seq<Json>)
    | JObj(fields: map<string, Json>)

  /** The empty dict `{}`. */
  const EmptyObject: Json := JObj(map[])

  /** The exceptions a lookup on a decoded value can raise. */
  datatype PyError =
    | KeyError        // `d[k]` on a dict without key k
    | TypeError       // `x[k]` on a list, string, number, bool or None
    | AttributeError  // `x.get(k)` on anything that is not a dict

  /** `bool(j)`: false exactly for None, False, zero, "", [] and {}. */
  predicate Truthy(j: Json) {
    match j
    case JNull => false
    case JBool(b) => b
    case JNum(n) => n != 0.0
    case JStr(s) => s != []
    case JArr(items) => items != []
    case JObj(fields) => fields != map[]
  }

  /** `j[k]` with a string key. */
  function Subscript(j: Json, k: string): Result<Json, PyError> {
    match j
    case JObj(fields) => if k in fields then Ok(fields[k]) else Err(KeyError)
    case _ => Err(TypeError)
  }

  /** `j[k1][k2]...[kn]`: the first failing subscript's exception, or the value reached. */
  function SubscriptPath(j: Json, path: seq<string>): Result<Json, PyError>
    decreases |path|
  {
    if path == [] then Ok(j)
    else
      match Subscript(j, path[0])
      case Err(e) => Err(e)
      case Ok(v) => SubscriptPath(v, path[1..])
  }

  /** `j.get(k) or default`. */
  function GetOr(j: Json, k: string, default: Json): Result<Json, PyError> {
    match j
    case JObj(fields) => if k in fields && Truthy(fields[k]) then Ok(fields[k]) else Ok(default)
    case _ => Err(AttributeError)
  }

  /**
   * `((j.get(k1) or {}).get(k2) or {}) ... .get(kn) or default`: every inner
   * level falls back to `{}`, the last one to `default`. The result is either
   * the default or a truthy value, and the only exception is AttributeError.
   */
  function GetOrPath(j: Json, path: seq<string>, default: Json): (r: Result<Json, PyError>)
    requires path != []
    ensures r.Ok? ==> r.value == default || Truthy(r.value)
    ensures r.Err? ==> r.error == AttributeError
    decreases |path|
  {
    if |path| == 1 then GetOr(j, path[0], default)
    else
      match GetOr(j, path[0], EmptyObject)
      case Err(e) => Err(e)
      case Ok(v) => GetOrPath(v, path[1..], default)
  }

  /** Once a level has fallen back to `{}`, the rest of the chain yields the default. */
  lemma {:induction false} GetOrPathFromEmpty(path: seq<string>, default: Json)
    requires path != []
    ensures GetOrPath(EmptyObject, path, default) == Ok(default)
    decreases |path|
  {
    if |path| > 1 {
      GetOrPathFromEmpty(path[1..], default);
    }
  }

  /**
   * When every level is present and the value at the end is truthy, the
   * lenient chain returns exactly what strict subscripting returns.
   */
  lemma {:induction false} GetOrPathFindsPresentValue(j: Json, path: seq<string>, default: Json, v: Json)
    requires path != []
    requires SubscriptPath(j, path) == Ok(v) && Truthy(v)
    ensures GetOrPath(j, path, default) == Ok(v)
    decreases |path|
  {
    var w := j.fields[path[0]];
    if |path| > 1 {
      assert path[1] in w.fields;
      GetOrPathFindsPresentValue(w, path[1..], default, v);
    }
  }

  /**
   * A lenient result other than the default was reached through present
   * levels only: strict subscripting reaches the same value.
   */
  lemma {:induction false} GetOrPathNonDefaultIsPresent(j: Json, path: seq<string>, default: Json)
    requires path != []
    requires GetOrPath(j, path, default).Ok? && GetOrPath(j, path, default).value != default
    ensures SubscriptPath(j, path) == GetOrPath(j, path, default)
    decreases |path|
  {
    if |path| > 1 {
      var k := path[0];
      if !(k in j.fields && Truthy(j.fields[k])) {
        GetOrPathFromEmpty(path[1..], default);
      } else {
        GetOrPathNonDefaultIsPresent(j.fields[k], path[1..], default);
      }
    }
  }

  /** The lenient chain raises only where strict subscripting raises too. */
  lemma {:induction false} GetOrPathRaisesOnlyIfSubscriptRaises(j: Json, path: seq<string>, default: Json)
    requires path != []
    requires GetOrPath(j, path, default).Err?
    ensures SubscriptPath(j, path).Err?
    decreases |path|
  {
    if |path| > 1 && j.JObj? {
      var k := path[0];
      if !(k in j.fields && Truthy(j.fields[k])) {
        GetOrPathFromEmpty(path[1..], default);
      } else {
        GetOrPathRaisesOnlyIfSubscriptRaises(j.fields[k], path[1..], default);
      }
    }
  }
}
