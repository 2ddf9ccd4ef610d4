# Traffic-routing shim: model of `main.go`

This project models the decision logic of a small HTTP service that receives
traffic-weight instructions (`{name, namespace, weight}`) on `/manage-traffic`
and forwards each one to the Argo Rollouts API as an authenticated `PUT`.
Before serving, the service starts one of three front-ends (an ngrok tunnel,
an nginx reverse proxy or Smallstep certificate renewal), chosen by
`PROXY_OPTION`.

Everything is a pure function over abstract results. The source has no loops
and no state that outlives a request:

- `Rollouts` models `TrafficRouting` and `manageArgoRolloutsTraffic`. That covers
  the credential check, the URL and the two headers, and how the reply becomes
  an error.
  - The environment values are passed as the `Env` parameter.
  - json.Marshal, http.NewRequest and the client's Do are modelled only by
    their results, bundled in `Library`.
  - An outbound request is a record of verb, URL, header map and body. The
    body is the routing record itself.
- `Handler` models `handleRequest`. It returns the status and body written
  back, plus a trace of effects: the body decode and each request sent
  upstream. The trace is what lets us state "no decode" and "no outbound call".
  `Serve` runs a sequence of requests one after another, to state that
  requests are independent and that nothing is deduplicated.
- `Startup` models the `PROXY_OPTION` switch in `main`. Its result is a closed
  datatype: the start-up effects, then a fatal exit or serving for ever.
- `Decimal` models Go's `%d`, which the forwarder uses for the status code in
  its error text. It also holds a parser that inverts it, so we can prove the
  code can be read back out of the message.

Three details of the code are easy to get wrong:

- Credentials are checked on each request, not at start-up. If they are
  missing, every POST that decodes gets a 500; the process does not stop.
- The options are matched as the literals `ngrok`, `nginx` and `smallstep`.
- The ngrok tunnel is stopped as soon as its launcher returns. This is a
  lifetime detail of an external resource, and it is not modelled.

## Model

| member | source | states |
|---|---|---|
| Decimal.NatToDecimal | main.go:95 | the digits of a non-negative code: non-empty, all digits, no leading zero |
| Decimal.FormatInt | main.go:95 | `%d` output: non-empty, starts with '-' exactly for negative values, digits otherwise |
| Decimal.FormatIntRoundTrip | main.go:95 | parsing the `%d` text of any integer gives that integer back |
| Decimal.FormatIntInjective | main.go:95 | different status codes are printed as different texts |
| Rollouts.CredentialsSet | main.go:71 | the credential precondition: both the URL and the token are non-empty |
| Rollouts.TrafficUrl | main.go:81 | the `Sprintf` target: the base, then "/api/v1/namespaces/", the namespace, "/rollouts/", the name and "/traffic", each at its stated position |
| Rollouts.SetHeader | main.go:86-87 | `Header.Set` makes the key map to the new value and leaves every other key as it was |
| Rollouts.TrafficRequest | main.go:81-87 | the request is a PUT; its body is the routing record unchanged; it carries exactly the headers `Authorization: Bearer <token>` and `Content-Type: application/json`; the URL is the base, "/api/v1/namespaces/", the namespace, "/rollouts/", the name and "/traffic", for every namespace and name; if the namespace has no '/', the URL parses back to the namespace and the name |
| Rollouts.StatusError | main.go:94-96 | the non-200 error message starts with "failed to manage Argo Rollouts traffic, status code: " |
| Rollouts.ManageTraffic | main.go:67-99 | empty URL or token gives the credentials error and sends nothing; at most one request is sent; a request is sent exactly when the credentials are set and marshal and NewRequest succeed, and it is the traffic request; nil is returned exactly when that request got status 200 |
| Rollouts.TrafficUrlRoundTrip | main.go:81 | if the namespace has no '/', the namespace and the name can be read back from the URL |
| Rollouts.TrafficUrlInjective | main.go:81 | if neither namespace has a '/', two instructions get the same URL only when they name the same namespace and rollout |
| Rollouts.TrafficUrlAmbiguousWithSlash | main.go:81 | path segments are not escaped: a namespace containing "/rollouts/" lets two different instructions share one URL |
| Rollouts.WeightOnlyInBody | main.go:76-81 | changing the weight changes only the request body; the verb, URL and headers stay the same |
| Rollouts.StatusErrorCarriesCode | main.go:94-96 | the status error ends with "status code: " and the decimal code, and that code can be read back from the message |
| Rollouts.ReplyMapping | main.go:88-98 | once the request is sent: a transport error is returned as it is; a status other than 200 returns exactly the status error for that code, from which the code can be read back; and 200 returns nil |
| Rollouts.BuildErrorsPropagate | main.go:76-84 | a marshal or NewRequest error is returned unchanged and nothing is sent |
| Handler.HandleRequest | main.go:101-122 | the status is one of 200/400/405/500; a non-POST gets 405 "Unsupported request method." with no decode and no call; a POST decodes first and only once; at most one upstream call; the status is 200 exactly when a decoded POST was forwarded without error |
| Handler.HandlerCallsAreForwarderCalls | main.go:102-111 | the upstream calls of a request are exactly the forwarder's calls for a decoded POST, and none otherwise |
| Handler.DecodeFailureIsBadRequest | main.go:104-109 | a POST whose body fails to decode gets 400 with the decoder's text; only the decode happened and nothing was sent |
| Handler.ForwardedUnchanged | main.go:111 | a decoded instruction is forwarded without any check of weight, name or namespace; every request sent has it as its body |
| Handler.ForwarderErrorIsInternal | main.go:111-115 | any forwarder error, whatever its cause, gives 500 with that error's text |
| Handler.SuccessIsOneCall | main.go:111-117 | a successful forward gives 200 with "Argo Rollouts traffic managed successfully.\n" after exactly one upstream call, the traffic request |
| Handler.MissingCredentialsNoCall | main.go:68-115 | with an empty URL or token, a decoded POST gets 500 with the credentials message and makes no network call |
| Handler.UpstreamUnavailableExample | main.go:88-115 | instruction example-rollout/default/50 with an upstream 503: the handler answers 500, code 503 can be read from the body, and the one call is the traffic request |
| Handler.ExampleTarget | main.go:81-87 | the same instruction with an upstream 200: one PUT to `<base>/api/v1/namespaces/default/rollouts/example-rollout/traffic` with `Authorization: Bearer <token>` |
| Handler.ExampleUrl | main.go:81 | the expected literal URL of that example |
| Handler.Serve | main.go:187-191 | the server handing each inbound request to HandleRequest in turn, nothing shared between them; the trace is the requests' traces in order |
| Handler.ServeCallsAreOwnCalls | main.go:187-191 | for requests handled one after another, the upstream calls are each request's own calls in order; no request affects another |
| Handler.NoDeduplication | main.go:187-191 | the same instruction received twice is forwarded twice, as two identical requests |
| Startup.ParseProxyOption | main.go:161-185 | only the exact strings "ngrok", "nginx" and "smallstep" are accepted, each as its own front-end; everything else is rejected |
| Startup.FatalPrefix | main.go:162-182 | the `log.Fatalf` text for a failed launcher in each case: "Error starting ngrok tunnel: ", "Error starting nginx reverse proxy: ", "Error configuring Smallstep: " |
| Startup.ProxyOptionExact | main.go:161-185 | an option is parsed as front-end f exactly when it equals f's literal |
| Startup.Main | main.go:157-194 | an unknown option is fatal ("Unsupported proxy option: " and the value) before anything runs; a known one runs its launcher once and first; the handler is registered exactly when that launcher succeeded; the process serves exactly when it registered the handler and ListenAndServe did not fail; a failed ListenAndServe is fatal |
| Startup.EmptyOptionFatal | main.go:159-184 | an unset PROXY_OPTION is fatal, and no launcher and no listener ran |
| Startup.LaunchFailureFatal | main.go:162-182 | a failed launcher is fatal, with the case's prefix and the launcher's error; nothing is registered |
| Startup.RegisteredAfterLaunch | main.go:161-187 | whenever `/manage-traffic` is registered, a launcher ran before it, and no other launcher ran |

## Left out

- HTTP transport: `http.Client.Do`, `http.ListenAndServe` and the response writer are library I/O. Their results are parameters (`Reply`, `listen`). The trailing newline and the plain-text headers that `http.Error` adds are not modelled; the body is the text handed to `http.Error`.
- JSON: `json.NewDecoder(...).Decode` and `json.Marshal` are abstract results. The outbound body is the routing record, not its encoded bytes. Go's width limit on `int` during decoding is the decoder's business, so `weight` is an unbounded integer.
- `http.NewRequest` failure is an abstract result. The model does not derive it from the URL.
- Environment reads (`os.Getenv`) are the `Env`, `option` and launcher parameters.
- The launchers `startNgrokTunnel`, `startNginxReverseProxy` and `configureSmallstep` run external processes and libraries. Only their nil-or-error result is modelled. The tunnel's deferred `Stop` and the tunnel URL are not modelled.
- `getArgoCDApplications` is never called. Its only logic repeats the forwarder's credential and status checks.
- Logging and printing (`fmt.Printf`, and `log.Fatalf` apart from its message) are not modelled. A fatal exit is the `Fatal` outcome.
- Concurrent handling of requests is not modelled. `Serve` treats requests as sequential, which is sound because no state is shared between them.
- `Header.Set` canonicalises its key. Both keys used are already canonical, so this is not modelled.
- Calls that never return are not modelled. Every `Reply` and `Launch` is a result that arrives. In the source, `client.Do` has no timeout, so a silent upstream can hold a request for ever. `cmd.Run()` on `step certificates renew --daemon` blocks for as long as the daemon runs, and then the server is never started.
- `Request.url` is the text handed to `http.NewRequest`. It is not the target that `url.Parse` derives from that text: a '?' or '#' in the name moves the rest into the query or the fragment. So `Rollouts.TrafficUrlInjective` and `Rollouts.TrafficUrlRoundTrip` are statements about that text.
