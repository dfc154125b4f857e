/** The application's root route: `loader` and `action` both refuse, in
    production, any request that did not come through the prod proxy, by
    looking at the X-Forwarded-Host header the proxy sets. */
module App {
  import opened Wrappers
  import opened FetchHeaders

  const Production := "production"
  const ExpectedForwardedHost := "proxy-prod.okashibu.com"
  const BadRequestStatus := 400

  /** A JSON object with string values. */
  type Json = map<string, string>

  /** What `loader` or `action` gives back: a JSON value it returns, or a
      JSON response it throws with a status. */
  datatype Reply = Returned(body: Json) | Thrown(status: nat, body: Json)

  /** The guard both functions run, over NODE_ENV and the value
      `request.headers.get("X-Forwarded-Host")` gives (None for null). */
  function Guard(nodeEnv: Option<string>, forwardedHost: Option<string>): Reply {
    if nodeEnv == Some(Production) && forwardedHost != Some(ExpectedForwardedHost) then
      Thrown(BadRequestStatus, map["message" := "Bad Request"])
    else
      Returned(map[])
  }

  /** `loader`, given NODE_ENV and the request's header list. */
  function Loader(nodeEnv: Option<string>, headers: seq<Header>): Reply {
    Guard(nodeEnv, ListGet(headers, "X-Forwarded-Host"))
  }

  /** `action`, given NODE_ENV and the request's header list. */
  function Action(nodeEnv: Option<string>, headers: seq<Header>): Reply {
    Guard(nodeEnv, ListGet(headers, "X-Forwarded-Host"))
  }

  /** In production the request is refused with 400 and "Bad Request"
      exactly when X-Forwarded-Host is not the prod proxy's hostname, and
      otherwise answered with the empty object. */
  lemma ProductionGuard(headers: seq<Header>)
    ensures Loader(Some(Production), headers) == Thrown(400, map["message" := "Bad Request"])
      <==> ListGet(headers, "X-Forwarded-Host") != Some("proxy-prod.okashibu.com")
    ensures Loader(Some(Production), headers) == Returned(map[])
      <==> ListGet(headers, "X-Forwarded-Host") == Some("proxy-prod.okashibu.com")
  {
  }

  /** In production a request without X-Forwarded-Host is refused. */
  lemma MissingHeaderRejected(headers: seq<Header>)
    requires !ListContains(headers, "X-Forwarded-Host")
    ensures Loader(Some(Production), headers).Thrown?
    ensures Loader(Some(Production), headers).status == 400
  {
  }

  /** Outside production (any other NODE_ENV, or none) the answer is always
      the empty object. */
  lemma NonProductionAccepts(nodeEnv: Option<string>, headers: seq<Header>)
    requires nodeEnv != Some("production")
    ensures Loader(nodeEnv, headers) == Returned(map[])
  {
  }

  /** The comparison is exact and case-sensitive: near misses are refused. */
  lemma NearMissesRejected()
    ensures Guard(Some(Production), Some("proxy-prod.okashibu.com.evil")).Thrown?
    ensures Guard(Some(Production), Some("Proxy-Prod.okashibu.com")).Thrown?
    ensures Guard(Some(Production), Some("proxy-prod.okashibu.co")).Thrown?
    ensures Guard(Some(Production), Some("proxy-prod.okashibu.com")) == Returned(map[])
  {
  }

  /** Two X-Forwarded-Host headers, even both with the expected hostname,
      read as one joined value and are refused. */
  lemma DuplicateHeaderRejected(headers: seq<Header>)
    requires ListValues(headers, "X-Forwarded-Host") == [ExpectedForwardedHost, ExpectedForwardedHost]
    ensures Loader(Some(Production), headers).Thrown?
  {
  }

  /** `action` runs the same guard as `loader`. */
  lemma LoaderActionAgree(nodeEnv: Option<string>, headers: seq<Header>)
    ensures Loader(nodeEnv, headers) == Action(nodeEnv, headers)
  {
  }
}
