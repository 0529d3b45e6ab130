/**
 * Outbound HTTP as seen by the modelled code: a GET request with query
 * parameters, and what comes back from sending it. The transport itself,
 * its 10-second timeout and the async client are outside the model.
 */
module Http {
  import opened Wrappers
  import opened Json

  datatype Request = Get(url: string, params: seq<(string, string)>)

  /** The body of a response: JSON, or text that `response.json()` cannot decode. */
  datatype Body = JsonBody(json: Json) | NotJson(detail: string)

  /** What sending a request yields: a response, or a transport failure (httpx.RequestError, timeouts included). */
  datatype Outcome = Http(status: int, body: Body) | NetworkError(message: string)

  /** The statuses `raise_for_status` lets through. */
  predicate IsSuccess(status: int) {
    200 <= status < 300
  }

  /** The value of the first query parameter called `name`. */
  function Param(r: Request, name: string): (v: Option<string>)
    ensures v.Some? <==> exists i :: 0 <= i < |r.params| && r.params[i].0 == name
  {
    ParamIn(r.params, name)
  }

  function ParamIn(ps: seq<(string, string)>, name: string): (v: Option<string>)
    ensures v.Some? <==> exists i :: 0 <= i < |ps| && ps[i].0 == name
    ensures v.Some? ==> exists i :: 0 <= i < |ps| && ps[i] == (name, v.value)
  {
    if ps == [] then None
    else if ps[0].0 == name then Some(ps[0].1)
    else
      var v := ParamIn(ps[1..], name);
      assert forall i :: 0 <= i < |ps| - 1 ==> ps[1..][i] == ps[i + 1];
      v
  }
}
