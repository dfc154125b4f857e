# Edge proxy and application guard, modelled in Dafny

This project models the request pipeline of the edge proxy worker
(`proxies/src/index.ts`) and the X-Forwarded-Host guard that the Remix
application's root route applies to the requests that proxy sends it
(`apps/app/root.tsx`), and proves what the two promise separately and
together.

The proxy registers four middleware stages and runs them in that order.
Any stage may end the request:

1. a CORS stage whose allowed origin is the `ORIGIN_URL_PROD` binding;
2. a CORS stage whose allowed origin is the `ORIGIN_URL_STAGING` binding;
3. a Basic-authentication gate with the fixed pair `dev`/`dev`;
4. the forwarding handler. It selects the origin by a prefix test on the
   hostname, concatenates origin, path and query into the target URL,
   copies the header list and sets `X-Forwarded-Host` to the hostname.

In production, the application's `loader` and `action` refuse with 400
`{message: "Bad Request"}` any request whose `X-Forwarded-Host` is not
exactly `proxy-prod.okashibu.com`. Outside production they return `{}`.

Files:

- `wrappers.dfy` holds `Option` and `Result`.
- `fetch_headers.dfy` holds the header list of the WHATWG Fetch Standard
  (section 2.2.2): `get`, `set` and `delete` as functions on a list of
  (name, value) pairs. It also holds the `Headers` class, which the proxy
  copies and then updates in place.
- `proxy.dfy` holds the stages as functions and `Respond`, the chain as a
  function. `Handle` and `Serve` are the methods the worker runs, each
  proved equal to its function.
- `app.dfy` holds the guard, `Loader` and `Action`.
- `end_to_end.dfy` holds what the guard makes of forwarded requests.

Modelling choices:

- A binding is `Option<string>`. The source tests it with JavaScript's
  `!`, so an unset binding and the empty string both fail (`Truthy`).
- A CORS callback ignores the request's `Origin`. It throws when its
  binding is falsy and otherwise returns the binding. Each CORS stage
  writes `Access-Control-Allow-Origin` on the response with the header
  list's `set`. An `OPTIONS` request is a preflight: the first CORS stage
  answers it with allowed methods and headers `*`, and the chain ends
  there. For a request that is forwarded, both stages have written the
  header. The second write replaces the first, so the response carries
  the staging origin.
- Basic credentials reach the model already decoded, as
  `Option<Credentials>`. `None` means absent or unreadable.
- Header names match byte-case-insensitively. A name keeps the case it
  was given, as in the Fetch Standard; only a copy made by iterating a
  `Headers` object lower-cases names. `get` joins the values of all headers with that name
  using ", ". `set` replaces the first header with that name and removes
  the later ones, or appends the name as given when there is none.
- `new Headers(c.req.raw.headers)` copies another `Headers` object through
  its iterator. That yields the Fetch Standard's "sort and combine" of the
  list: the lower-cased names in ascending order, each once, with the
  values of duplicates joined by ", ". Set-Cookie is the exception: each
  of its values stays a header of its own. The model's copy
  (`SortAndCombine`) does the same. The outbound list is that copy with
  X-Forwarded-Host set, so a new X-Forwarded-Host lands at the end.
- The target URL is `origin + pathname + search`. `URL.search` already
  holds the `?` and is empty when there is no query. The code adds no
  `?` of its own, and the model follows the code.

## Model

| member | source | states |
|---|---|---|
| `FetchHeaders.ListGet` | apps/app/root.tsx:33 | `headers.get(name)` is null exactly when no header has that name (case-insensitive); with one such header it is that header's value |
| `FetchHeaders.SetValues` | proxies/src/index.ts:62 | after `set(name, value)` exactly one header has that name, and `get(name)` is `value` |
| `FetchHeaders.SetKeepsRest` | proxies/src/index.ts:62 | `set` changes no header of another name: with `name` deleted, the lists before and after are equal, order included |
| `FetchHeaders.SetKeepsOtherValues` | proxies/src/index.ts:62 | `set(name, …)` leaves `get` of every other name unchanged |
| `FetchHeaders.SetIdempotent` | proxies/src/index.ts:62 | applying the same `set` twice gives the list that applying it once gives |
| `FetchHeaders.SetAppendsWhenAbsent` | proxies/src/index.ts:62 | Fetch "set", first case: when the list does not contain the name, the header is appended at the end |
| `FetchHeaders.SetReplacesFirst` | proxies/src/index.ts:62 | Fetch "set", second case: the first header with the name takes the value in its place, and every later header with that name is removed |
| `FetchHeaders.SortAndCombineShape` | proxies/src/index.ts:61 | the copy `new Headers(other)` lists the lower-cased names of the original, each once, in ascending order; without Set-Cookie, each name holds its values joined by ", " |
| `FetchHeaders.SortAndCombineKeepsGet` | proxies/src/index.ts:61 | the copy has lower-case names and answers every `get` as the original list does |
| `FetchHeaders.Headers.constructor` | proxies/src/index.ts:61 | a fresh `Headers` built from another holds the sort-and-combine of its list, with names lower-cased |
| `FetchHeaders.Headers.Set` | proxies/src/index.ts:62 | `headers.set` updates the object's list in place to Fetch "set" of the old list; nothing else of the object changes |
| `Proxy.Handle` | proxies/src/index.ts:47-63 | the handler as run (fresh `Headers`, `set` in place) throws when a binding is falsy and otherwise forwards to the URL and headers `Handler` specifies |
| `Proxy.Serve` | proxies/src/index.ts:12-63 | running the stages in registration order, each able to end the request, gives the outcome of `Respond` |
| `Proxy.ProdBindingMissing` | proxies/src/index.ts:12-19 | without a truthy `ORIGIN_URL_PROD` the first CORS stage throws, whatever the staging binding, credentials or request |
| `Proxy.StagingBindingMissing` | proxies/src/index.ts:26-39 | with prod set and staging unset, a non-preflight request fails in the second CORS stage, before authentication and forwarding |
| `Proxy.PreflightAnswered` | proxies/src/index.ts:12-25 | with prod set, an OPTIONS request is answered by the first CORS stage: allowed origin is the prod binding, allowed methods and headers are `*` |
| `Proxy.CorsOriginIgnoresRequest` | proxies/src/index.ts:15-21 | the allowed origin a callback gives does not depend on the request's Origin: it is the binding, or the callback throws when the binding is falsy |
| `Proxy.ForwardedAllowOrigin` | proxies/src/index.ts:12-39 | on a forwarded request the only CORS header written is Access-Control-Allow-Origin (under the name hono gives it), and it holds the staging binding |
| `Proxy.AuthGate` | proxies/src/index.ts:40-46 | after both CORS stages, the outcome is 401 exactly when the credentials are not dev/dev; with dev/dev the request is forwarded |
| `Proxy.ForwardOnlyPastEveryStage` | proxies/src/index.ts:12-60 | a target URL is produced only when both bindings are truthy, the request is not a preflight and the credentials are dev/dev; it is the selected origin + path + query, with the rewritten headers |
| `Proxy.HandlerNeedsBothBindings` | proxies/src/index.ts:49-53 | the handler forwards exactly when both bindings are truthy, whatever the earlier stages did, and otherwise throws |
| `Proxy.OriginByPrefix` | proxies/src/index.ts:55-58 | a hostname of the form `proxy-prod` + anything selects the prod origin; a hostname of no such form selects staging |
| `Proxy.OriginByPrefixExamples` | proxies/src/index.ts:56 | as the test is a prefix test, `proxy-production.x` selects prod, while `proxy-staging.x` and `proxy-pro` select staging |
| `Proxy.TargetUrlParts` | proxies/src/index.ts:55-60 | the target URL is the origin, then the path, then the query, each verbatim, and nothing else (its length is the sum) |
| `Proxy.ForwardedHeadersRewrite` | proxies/src/index.ts:61-62 | outbound X-Forwarded-Host is one header holding the inbound hostname, even when the client sent one; with it removed, the outbound list is the sorted-and-combined copy of the inbound list, so every other name reads as it did inbound; a second set changes nothing |
| `App.ProductionGuard` | apps/app/root.tsx:29-38 | in production `loader` throws 400 `{message: "Bad Request"}` exactly when X-Forwarded-Host is not `proxy-prod.okashibu.com`, and returns `{}` exactly when it is |
| `App.MissingHeaderRejected` | apps/app/root.tsx:33 | in production, a request without X-Forwarded-Host (`get` gives null) is refused with 400 |
| `App.NonProductionAccepts` | apps/app/root.tsx:31-37 | with NODE_ENV anything but `production`, or unset, `loader` returns `{}` whatever the headers |
| `App.NearMissesRejected` | apps/app/root.tsx:33 | the comparison is exact and case-sensitive: `proxy-prod.okashibu.com.evil`, `Proxy-Prod.okashibu.com` and `proxy-prod.okashibu.co` are refused |
| `App.DuplicateHeaderRejected` | apps/app/root.tsx:33 | two X-Forwarded-Host headers, both with the expected host, are read as one joined value and refused |
| `App.LoaderActionAgree` | apps/app/root.tsx:40-48 | `action` gives the same outcome as `loader` for every NODE_ENV and header list |
| `EndToEnd.ProdHostnameReachesApp` | proxies/src/index.ts:55-62 | a request forwarded from `proxy-prod.okashibu.com` goes to the prod origin with its path and query, and passes `loader` and `action` in production |
| `EndToEnd.GuardAcceptsExactlyProdHostname` | apps/app/root.tsx:31-36 | of the forwarded requests, the production guard accepts exactly those whose inbound hostname is `proxy-prod.okashibu.com`, whatever X-Forwarded-Host the client sent |
| `EndToEnd.StagingHostnameRefusedInProduction` | proxies/src/index.ts:55-58 | a request forwarded from `proxy-staging.okashibu.com` goes to the staging origin and is refused by a production application |

## Left out

- The outbound `fetch`, the streaming of the response body and the `webSocket` passthrough (proxies/src/index.ts:64-71) are network I/O. `Forward` is the point where the request is handed off. The request init `{...c.req.raw, headers}` is not modelled either. Spreading copies only own enumerable properties, so the outbound method and body depend on the runtime's `Request` object. The model does not claim what they are.
- Status codes for thrown errors and for the preflight answer are not modelled. A thrown `Error` (`ConfigError`) becomes a response inside hono, and hono answers a preflight itself; neither code is visible in the source. `Unauthorized` stands for hono's 401.
- Of the CORS middleware's output, only the three Access-Control-Allow-* headers are modelled. Its `Vary` handling is not.
- CORS headers on a 401 or error response are not modelled. Those responses are built by hono's error handling.
- Base64 decoding of the Authorization header is left out, as are hono's hash-based constant-time comparison and its `WWW-Authenticate` challenge. Credentials arrive decoded, and the comparison is modelled as string equality.
- The WHATWG URL parsing of `c.req.url` is left out, hostname lower-casing included. Hostname, pathname and search arrive as parsed strings.
- Fetch's validation of header names and values is left out. So is its trimming of leading and trailing whitespace from values: a parsed hostname contains none.
- The network between proxy and application is left out: the header list the proxy hands off is taken to reach the application unchanged.
- `console.log` of NODE_ENV in `loader` (apps/app/root.tsx:30) is output only.
- `links`, `Layout` and `App` in apps/app/root.tsx are static markup.
- pulumi/index.ts, apps/app/routes/_index.tsx and apps/prisma/seed.ts are not part of this model. They are cloud-resource wiring, database CRUD with rendering, and a seed insert.
- Proxy variants with a single `ORIGIN_URL` or a bearer token are not part of this model. They are not in proxies/src/index.ts, which holds the dual-origin, basic-auth variant.
