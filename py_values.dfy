/**
 * Python literal values as the configuration builders write them (strings,
 * integers, lists and dictionaries), and Python's subscript `v[k]` on them.
 * Subscripting is the reference reading of a nested configuration: a key
 * missing from a dictionary raises KeyError (an integer subscript on a
 * string-keyed dictionary is such a missing key), an index outside a list or
 * a string raises IndexError, and subscripting an integer, or a list or a
 * string with a string, raises TypeError.
 */
module PyValues {
  import opened Wrappers

  datatype Value =
    | Str(s: string)
    | Int(i: int)
    | List(items: seq<Value>)
    | Dict(entries: map<string, Value>)

  /** One subscript: `v["key"]` or `v[n]`. */
  datatype Subscript = Key(key: string) | Index(index: int)

  /** The exception a subscript raises; a KeyError carries the subscript that was not found. */
  datatype LookupError = KeyError(missing: Subscript) | IndexError(outOfRange: int) | TypeError

  /** `v[s]`, Python's `__getitem__`; a negative index counts from the end of the list or string. */
  function GetItem(v: Value, s: Subscript): (r: Result<Value, LookupError>)
    ensures v.Dict? ==> (r.Ok? <==> s.Key? && s.key in v.entries)
    ensures v.Dict? && r.Err? ==> r.error == KeyError(s)
    ensures v.List? && s.Index? ==> (r.Ok? <==> -|v.items| <= s.index < |v.items|)
    ensures v.Str? && s.Index? ==> (r.Ok? <==> -|v.s| <= s.index < |v.s|)
    ensures (v.List? || v.Str?) && s.Index? && r.Err? ==> r.error == IndexError(s.index)
    ensures r == Err(TypeError) <==> v.Int? || ((v.List? || v.Str?) && s.Key?)
    ensures v.Str? && r.Ok? ==> r.value.Str? && |r.value.s| == 1 && r.value.s[0] in v.s
  {
    match (v, s)
    case (Dict(m), Key(k)) =>
      if k in m then Ok(m[k]) else Err(KeyError(s))
    case (Dict(_), Index(_)) => Err(KeyError(s))
    case (List(xs), Index(n)) =>
      if 0 <= n < |xs| then Ok(xs[n])
      else if -|xs| <= n < 0 then Ok(xs[|xs| + n])
      else Err(IndexError(n))
    case (Str(t), Index(n)) =>
      if 0 <= n < |t| then Ok(Str([t[n]]))
      else if -|t| <= n < 0 then Ok(Str([t[|t| + n]]))
      else Err(IndexError(n))
    case _ => Err(TypeError)
  }

  /** `v[s0][s1]...[sn]`: the subscripts applied left to right; the first failure is raised. */
  function Get(v: Value, path: seq<Subscript>): Result<Value, LookupError>
    decreases |path|
  {
    if path == [] then Ok(v)
    else match GetItem(v, path[0])
      case Ok(w) => Get(w, path[1..])
      case Err(e) => Err(e)
  }

  /** Subscripting along `p + q` is subscripting along `p`, then along `q` from where `p` ends. */
  lemma {:induction false} GetConcat(v: Value, p: seq<Subscript>, q: seq<Subscript>)
    ensures Get(v, p + q) == match Get(v, p) case Ok(w) => Get(w, q) case Err(e) => Err(e)
    decreases |p|
  {
    if p == [] {
      assert p + q == q;
    } else {
      assert (p + q)[0] == p[0];
      assert (p + q)[1..] == p[1..] + q;
      match GetItem(v, p[0])
      case Ok(w) => GetConcat(w, p[1..], q);
      case Err(e) =>
    }
  }
}
