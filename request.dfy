/**
 * The parsed request both the environment service and the web handler
 * read: the path, the query's name/value pairs in order, the two headers
 * that matter, the request URL's origin, and the base path the server is
 * mounted under.
 */
module Requests {
  import opened Wrappers

  /** A query string as `URLSearchParams` holds it: decoded name/value pairs, in order, duplicates kept. */
  type SearchParams = seq<(string, string)>

  datatype ParsedRequest = ParsedRequest(
    pathname: string,
    searchParams: SearchParams,
    hostHeader: Option<string>,
    ifNoneMatch: Option<string>,
    origin: string,
    pathPrefix: string)

  /** `searchParams.get(name)`: the value of the first pair with that name, or null. */
  function Get(params: SearchParams, name: string): (v: Option<string>)
    ensures v.None? <==> forall i :: 0 <= i < |params| ==> params[i].0 != name
    ensures v.Some? ==> exists i :: 0 <= i < |params| && params[i] == (name, v.value) &&
                          forall j :: 0 <= j < i ==> params[j].0 != name
  {
    if params == [] then None
    else if params[0].0 == name then Some(params[0].1)
    else
      var rest := Get(params[1..], name);
      assert forall i :: 1 <= i < |params| ==> params[i] == params[1..][i - 1];
      if rest.Some? then
        var i :| 0 <= i < |params[1..]| && params[1..][i] == (name, rest.value) &&
                 forall j :: 0 <= j < i ==> params[1..][j].0 != name;
        assert params[i + 1] == (name, rest.value);
        rest
      else rest
  }

  /** `searchParams.getAll(name)`: the values of every pair with that name. */
  function GetAll(params: SearchParams, name: string): (vs: seq<string>)
    ensures |vs| <= |params|
    ensures forall v :: v in vs <==> (name, v) in params
  {
    if params == [] then []
    else (if params[0].0 == name then [params[0].1] else []) + GetAll(params[1..], name)
  }

  /** The first of all the values is the one `get` returns. */
  lemma {:induction false} GetIsFirstOfGetAll(params: SearchParams, name: string)
    ensures Get(params, name).None? <==> GetAll(params, name) == []
    ensures GetAll(params, name) != [] ==> Get(params, name) == Some(GetAll(params, name)[0])
    decreases |params|
  {
    if params != [] && params[0].0 != name {
      GetIsFirstOfGetAll(params[1..], name);
    }
  }
}
