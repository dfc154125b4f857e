/** The proxy and the application together: what the application's guard
    makes of the requests the proxy forwards. The header list the proxy
    hands off is taken to arrive at the application unchanged. */
module EndToEnd {
  import opened Wrappers
  import opened Proxy
  import App

  /** A request the proxy forwards from proxy-prod.okashibu.com goes to the
      prod origin, keeps its path and query, and passes both `loader` and
      `action` in production. */
  lemma ProdHostnameReachesApp(req: Request, env: Bindings)
    requires req.hostname == "proxy-prod.okashibu.com"
    requires Respond(req, env).Forward?
    ensures StartsWith(Respond(req, env).url, env.originUrlProd.value)
    ensures Respond(req, env).url == env.originUrlProd.value + req.pathname + req.search
    ensures App.Loader(Some("production"), Respond(req, env).headers) == App.Returned(map[])
    ensures App.Action(Some("production"), Respond(req, env).headers) == App.Returned(map[])
  {
    ForwardOnlyPastEveryStage(req, env);
    assert StartsWith(req.hostname, ProdPrefix);
    ForwardedHeadersRewrite(req);
    var url := Respond(req, env).url;
    assert url[..|env.originUrlProd.value|] == env.originUrlProd.value;
  }

  /** Of the requests the proxy forwards, the production guard accepts
      exactly those that entered through proxy-prod.okashibu.com, whatever
      X-Forwarded-Host the client sent. */
  lemma GuardAcceptsExactlyProdHostname(req: Request, env: Bindings)
    requires Respond(req, env).Forward?
    ensures App.Loader(Some("production"), Respond(req, env).headers).Returned?
      <==> req.hostname == "proxy-prod.okashibu.com"
  {
    ForwardOnlyPastEveryStage(req, env);
    ForwardedHeadersRewrite(req);
  }

  /** A request that enters through the staging hostname is forwarded to
      the staging origin and refused by a production application. */
  lemma StagingHostnameRefusedInProduction(req: Request, env: Bindings)
    requires req.hostname == "proxy-staging.okashibu.com"
    requires Respond(req, env).Forward?
    ensures StartsWith(Respond(req, env).url, env.originUrlStaging.value)
    ensures App.Loader(Some("production"), Respond(req, env).headers).Thrown?
  {
    ForwardOnlyPastEveryStage(req, env);
    OriginByPrefixExamples(env.originUrlProd.value, env.originUrlStaging.value);
    assert !StartsWith("proxy-staging.okashibu.com", ProdPrefix) by {
      assert "proxy-staging.okashibu.com"[6] != ProdPrefix[6];
    }
    GuardAcceptsExactlyProdHostname(req, env);
    var url := Respond(req, env).url;
    assert url[..|env.originUrlStaging.value|] == env.originUrlStaging.value;
  }
}
