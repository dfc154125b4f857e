/** The edge proxy worker: four middleware stages run in registration
    order, each of which may end the request.

      1. CORS with the prod origin as allowed origin
      2. CORS with the staging origin as allowed origin
      3. Basic authentication with the fixed pair dev/dev
      4. the forwarding handler: pick the origin by hostname, build the
         target URL, copy the headers and set X-Forwarded-Host

    The outbound `fetch` and the streaming of its response are not part of
    this model: `Forward` is the point where the request is handed off. */
module Proxy {
  import opened Wrappers
  import opened FetchHeaders

  /** Basic credentials as decoded from the Authorization header. */
  datatype Credentials = Credentials(username: string, password: string)

  /** An inbound request, its URL already parsed. `verb` is the HTTP method. `search` is "" or starts
      with "?", as `URL.search` gives it. `credentials` is None when the
      request carries no readable Basic credentials. */
  datatype Request = Request(
    verb: string,
    hostname: string,
    pathname: string,
    search: string,
    headers: seq<Header>,
    credentials: Option<Credentials>)

  /** The worker's bindings; either may be unset. */
  datatype Bindings = Bindings(originUrlProd: Option<string>, originUrlStaging: Option<string>)

  /** The place that throws when a binding is missing. */
  datatype Stage = ProdCors | StagingCors | Forwarding

  /** How one request ends. `corsHeaders` are the response headers the CORS
      stages wrote. */
  datatype Outcome =
    | ConfigError(stage: Stage)
    | Preflight(corsHeaders: seq<Header>)
    | Unauthorized
    | Forward(url: string, headers: seq<Header>, corsHeaders: seq<Header>)

  /** What a middleware stage does: end the request or pass it on. */
  datatype Step = Stop(outcome: Outcome) | Next(corsHeaders: seq<Header>)

  const ProdPrefix := "proxy-prod"
  const AuthUsername := "dev"
  const AuthPassword := "dev"
  const AllowOriginHeader := "Access-Control-Allow-Origin"
  const AllowMethodsHeader := "Access-Control-Allow-Methods"
  const AllowHeadersHeader := "Access-Control-Allow-Headers"
  const ForwardedHostHeader := "X-Forwarded-Host"

  /** JavaScript truthiness of an optional string: unset and "" are falsy. */
  predicate Truthy(binding: Option<string>) {
    binding.Some? && binding.value != ""
  }

  /** `s.startsWith(prefix)`. */
  predicate StartsWith(s: string, prefix: string) {
    |prefix| <= |s| && s[..|prefix|] == prefix
  }

  /** The request's Origin header as the CORS middleware reads it ("" when absent). */
  function RequestOrigin(req: Request): string {
    match ListGet(req.headers, "Origin")
    case None => ""
    case Some(origin) => origin
  }

  /** The `origin` callback of a CORS stage: throws when its binding is
      falsy, otherwise returns the binding; the request's own Origin is
      not looked at. */
  function CorsOrigin(stage: Stage, binding: Option<string>, requestOrigin: string): Result<string, Stage> {
    if !Truthy(binding) then Err(stage) else Ok(binding.value)
  }

  /** One CORS stage: ask the callback for the allowed origin and write it
      on the response; a preflight (OPTIONS) is answered here with the
      allowed methods and headers "*" and goes no further. */
  function CorsStage(stage: Stage, binding: Option<string>, req: Request, response: seq<Header>): Step {
    match CorsOrigin(stage, binding, RequestOrigin(req))
    case Err(failed) => Stop(ConfigError(failed))
    case Ok(allowed) =>
      var withOrigin := ListSet(response, AllowOriginHeader, allowed);
      if req.verb == "OPTIONS" then
        Stop(Preflight(ListSet(ListSet(withOrigin, AllowMethodsHeader, "*"), AllowHeadersHeader, "*")))
      else
        Next(withOrigin)
  }

  /** The basic-auth gate lets a request through only with dev/dev. */
  predicate Authorized(credentials: Option<Credentials>) {
    credentials == Some(Credentials(AuthUsername, AuthPassword))
  }

  /** The origin the handler forwards to: prod for a hostname that starts
      with "proxy-prod", staging for every other hostname. */
  function SelectOrigin(hostname: string, prod: string, staging: string): string {
    if StartsWith(hostname, ProdPrefix) then prod else staging
  }

  /** The target URL: origin, then path, then query, by concatenation. */
  function TargetUrl(origin: string, pathname: string, search: string): string {
    origin + pathname + search
  }

  /** The outbound headers: the copy `new Headers(...)` makes of the
      inbound ones (sorted and combined) with X-Forwarded-Host set to the
      inbound hostname. */
  function ForwardedHeaders(req: Request): seq<Header> {
    ListSet(SortAndCombine(req.headers), ForwardedHostHeader, req.hostname)
  }

  /** The forwarding handler, given the CORS headers already written. */
  function Handler(req: Request, env: Bindings, cors: seq<Header>): Outcome {
    if !Truthy(env.originUrlProd) || !Truthy(env.originUrlStaging) then
      ConfigError(Forwarding)
    else
      var origin := SelectOrigin(req.hostname, env.originUrlProd.value, env.originUrlStaging.value);
      Forward(TargetUrl(origin, req.pathname, req.search), ForwardedHeaders(req), cors)
  }

  /** The whole chain for one request. */
  function Respond(req: Request, env: Bindings): Outcome {
    match CorsStage(ProdCors, env.originUrlProd, req, [])
    case Stop(outcome) => outcome
    case Next(afterProd) =>
      match CorsStage(StagingCors, env.originUrlStaging, req, afterProd)
      case Stop(outcome) => outcome
      case Next(afterStaging) =>
        if !Authorized(req.credentials) then Unauthorized
        else Handler(req, env, afterStaging)
  }

  /** The handler as the worker runs it: it builds a fresh `Headers` from
      the inbound ones and sets X-Forwarded-Host on it in place. */
  method Handle(req: Request, env: Bindings, cors: seq<Header>) returns (outcome: Outcome)
    ensures outcome == Handler(req, env, cors)
  {
    if !Truthy(env.originUrlProd) || !Truthy(env.originUrlStaging) {
      return ConfigError(Forwarding);
    }
    var origin := if StartsWith(req.hostname, ProdPrefix) then env.originUrlProd.value else env.originUrlStaging.value;
    var newUrl := origin + req.pathname + req.search;
    var headers := new Headers(req.headers);
    headers.Set(ForwardedHostHeader, req.hostname);
    outcome := Forward(newUrl, headers.list, cors);
  }

  /** The middleware chain as the worker runs it, stage by stage. */
  method Serve(req: Request, env: Bindings) returns (outcome: Outcome)
    ensures outcome == Respond(req, env)
  {
    var step := CorsStage(ProdCors, env.originUrlProd, req, []);
    if step.Stop? {
      return step.outcome;
    }
    step := CorsStage(StagingCors, env.originUrlStaging, req, step.corsHeaders);
    if step.Stop? {
      return step.outcome;
    }
    if !Authorized(req.credentials) {
      return Unauthorized;
    }
    outcome := Handle(req, env, step.corsHeaders);
  }

  /** Without a prod origin the first CORS stage throws, whatever the rest
      of the configuration and the request. */
  lemma ProdBindingMissing(req: Request, env: Bindings)
    requires !Truthy(env.originUrlProd)
    ensures Respond(req, env) == ConfigError(ProdCors)
  {
  }

  /** With a prod origin but no staging origin, a non-preflight request
      fails in the second CORS stage, before authentication. */
  lemma StagingBindingMissing(req: Request, env: Bindings)
    requires Truthy(env.originUrlProd) && !Truthy(env.originUrlStaging)
    requires req.verb != "OPTIONS"
    ensures Respond(req, env) == ConfigError(StagingCors)
  {
  }

  /** A preflight is answered by the first CORS stage: the allowed origin is
      the prod origin and methods and headers are "*", whatever the staging
      binding and the credentials. */
  lemma PreflightAnswered(req: Request, env: Bindings)
    requires Truthy(env.originUrlProd) && req.verb == "OPTIONS"
    ensures Respond(req, env).Preflight?
    ensures ListGet(Respond(req, env).corsHeaders, AllowOriginHeader) == Some(env.originUrlProd.value)
    ensures ListGet(Respond(req, env).corsHeaders, AllowMethodsHeader) == Some("*")
    ensures ListGet(Respond(req, env).corsHeaders, AllowHeadersHeader) == Some("*")
  {
    var origin := ListSet([], AllowOriginHeader, env.originUrlProd.value);
    var methods := ListSet(origin, AllowMethodsHeader, "*");
    var headers := ListSet(methods, AllowHeadersHeader, "*");
    assert Respond(req, env) == Preflight(headers);
    CorsNamesDistinct();
    SetValues([], AllowOriginHeader, env.originUrlProd.value);
    SetKeepsOtherValues(origin, AllowMethodsHeader, "*", AllowOriginHeader);
    SetValues(origin, AllowMethodsHeader, "*");
    SetKeepsOtherValues(methods, AllowHeadersHeader, "*", AllowOriginHeader);
    SetKeepsOtherValues(methods, AllowHeadersHeader, "*", AllowMethodsHeader);
    SetValues(methods, AllowHeadersHeader, "*");
  }

  /** The three CORS response headers have distinct names. */
  lemma CorsNamesDistinct()
    ensures Lower(AllowOriginHeader) != Lower(AllowMethodsHeader)
    ensures Lower(AllowOriginHeader) != Lower(AllowHeadersHeader)
    ensures Lower(AllowMethodsHeader) != Lower(AllowHeadersHeader)
  {
    assert Lower(AllowOriginHeader)[21] == 'o';
    assert Lower(AllowMethodsHeader)[21] == 'm';
    assert Lower(AllowHeadersHeader)[21] == 'h';
  }

  /** The allowed origin a CORS callback gives is its binding, whatever
      Origin the request sent; a falsy binding throws. */
  lemma CorsOriginIgnoresRequest(stage: Stage, binding: Option<string>, origin1: string, origin2: string)
    ensures CorsOrigin(stage, binding, origin1) == CorsOrigin(stage, binding, origin2)
    ensures Truthy(binding) ==> CorsOrigin(stage, binding, origin1) == Ok(binding.value)
    ensures !Truthy(binding) ==> CorsOrigin(stage, binding, origin1) == Err(stage)
  {
  }

  /** A forwarded request's response carries the staging origin as allowed
      origin: both CORS stages write the header and the second one's value
      replaces the first one's. */
  lemma ForwardedAllowOrigin(req: Request, env: Bindings)
    requires Respond(req, env).Forward?
    ensures ListGet(Respond(req, env).corsHeaders, AllowOriginHeader) == Some(env.originUrlStaging.value)
    ensures Respond(req, env).corsHeaders == [(AllowOriginHeader, env.originUrlStaging.value)]
  {
    ForwardOnlyPastEveryStage(req, env);
    var first := ListSet([], AllowOriginHeader, env.originUrlProd.value);
    var second := ListSet(first, AllowOriginHeader, env.originUrlStaging.value);
    assert CorsStage(ProdCors, env.originUrlProd, req, []) == Next(first);
    assert CorsStage(StagingCors, env.originUrlStaging, req, first) == Next(second);
    assert Respond(req, env).corsHeaders == second;
    LowerIdempotent(AllowOriginHeader);
    assert first == [(AllowOriginHeader, env.originUrlProd.value)];
    SetValues(first, AllowOriginHeader, env.originUrlStaging.value);
  }

  /** Past both CORS stages, the gate answers 401 exactly when the
      credentials are not dev/dev; with dev/dev the request is forwarded. */
  lemma AuthGate(req: Request, env: Bindings)
    requires Truthy(env.originUrlProd) && Truthy(env.originUrlStaging)
    requires req.verb != "OPTIONS"
    ensures Respond(req, env) == Unauthorized <==> !Authorized(req.credentials)
    ensures Respond(req, env).Forward? <==> Authorized(req.credentials)
  {
  }

  /** A target URL is produced only for a request that passed every stage:
      both bindings set, not a preflight, credentials dev/dev. */
  lemma ForwardOnlyPastEveryStage(req: Request, env: Bindings)
    requires Respond(req, env).Forward?
    ensures Truthy(env.originUrlProd) && Truthy(env.originUrlStaging)
    ensures req.verb != "OPTIONS"
    ensures req.credentials == Some(Credentials("dev", "dev"))
    ensures Respond(req, env).url == TargetUrl(SelectOrigin(req.hostname, env.originUrlProd.value, env.originUrlStaging.value), req.pathname, req.search)
    ensures Respond(req, env).headers == ForwardedHeaders(req)
  {
  }

  /** The handler forwards exactly when both bindings are truthy, whatever
      the earlier stages did, and otherwise throws. */
  lemma HandlerNeedsBothBindings(req: Request, env: Bindings, cors: seq<Header>)
    ensures Handler(req, env, cors).Forward? <==> Truthy(env.originUrlProd) && Truthy(env.originUrlStaging)
    ensures !Handler(req, env, cors).Forward? ==> Handler(req, env, cors) == ConfigError(Forwarding)
  {
  }

  /** Origin selection is a prefix test: a hostname that is "proxy-prod"
      followed by anything goes to prod, every other hostname to staging. */
  lemma OriginByPrefix(hostname: string, prod: string, staging: string)
    ensures (exists rest :: hostname == ProdPrefix + rest) ==> SelectOrigin(hostname, prod, staging) == prod
    ensures (forall rest :: hostname != ProdPrefix + rest) ==> SelectOrigin(hostname, prod, staging) == staging
  {
    if StartsWith(hostname, ProdPrefix) {
      assert hostname == ProdPrefix + hostname[|ProdPrefix|..];
    } else {
      forall rest ensures hostname != ProdPrefix + rest {
        assert (ProdPrefix + rest)[..|ProdPrefix|] == ProdPrefix;
      }
    }
  }

  /** Because the test is a prefix test, "proxy-production.x" also goes to
      prod, while "proxy-staging.x" and "proxy-pro" go to staging. */
  lemma OriginByPrefixExamples(prod: string, staging: string)
    ensures SelectOrigin("proxy-prod.okashibu.com", prod, staging) == prod
    ensures SelectOrigin("proxy-production.x", prod, staging) == prod
    ensures SelectOrigin("proxy-staging.x", prod, staging) == staging
    ensures SelectOrigin("proxy-pro", prod, staging) == staging
  {
    assert "proxy-staging.x"[..10] != "proxy-prod" by {
      assert "proxy-staging.x"[6] == 's';
    }
  }

  /** The target URL is the origin, then the path, then the query, each
      verbatim, and nothing else. */
  lemma TargetUrlParts(origin: string, pathname: string, search: string)
    ensures |TargetUrl(origin, pathname, search)| == |origin| + |pathname| + |search|
    ensures TargetUrl(origin, pathname, search)[..|origin|] == origin
    ensures TargetUrl(origin, pathname, search)[|origin|..|origin| + |pathname|] == pathname
    ensures TargetUrl(origin, pathname, search)[|origin| + |pathname|..] == search
  {
  }

  /** The outbound headers: X-Forwarded-Host is the inbound hostname, even
      when the client sent one; apart from it the list is the sorted and
      combined copy of the inbound one, so every other name reads as it
      did inbound; setting it again changes nothing. */
  lemma ForwardedHeadersRewrite(req: Request)
    ensures ListGet(ForwardedHeaders(req), ForwardedHostHeader) == Some(req.hostname)
    ensures ListValues(ForwardedHeaders(req), ForwardedHostHeader) == [req.hostname]
    ensures ListRemove(ForwardedHeaders(req), ForwardedHostHeader) == ListRemove(SortAndCombine(req.headers), ForwardedHostHeader)
    ensures forall name :: Lower(name) != Lower(ForwardedHostHeader) ==>
      ListGet(ForwardedHeaders(req), name) == ListGet(req.headers, name)
    ensures ListSet(ForwardedHeaders(req), ForwardedHostHeader, req.hostname) == ForwardedHeaders(req)
  {
    var copy := SortAndCombine(req.headers);
    SetValues(copy, ForwardedHostHeader, req.hostname);
    SetKeepsRest(copy, ForwardedHostHeader, req.hostname);
    SetIdempotent(copy, ForwardedHostHeader, req.hostname);
    forall name | Lower(name) != Lower(ForwardedHostHeader)
      ensures ListGet(ForwardedHeaders(req), name) == ListGet(req.headers, name)
    {
      SetKeepsOtherValues(copy, ForwardedHostHeader, req.hostname, name);
      SortAndCombineKeepsGet(req.headers, name);
    }
  }
}
