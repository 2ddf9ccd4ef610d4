/**
 * The `/manage-traffic` endpoint: `handleRequest` dispatches on the HTTP
 * method, decodes the body into a routing instruction and forwards it,
 * mapping each outcome to a status code and a body.
 *
 * JSON decoding is an abstract result (`Decoded`).  The effects trace records
 * the body decode and every request handed to the upstream HTTP client, so
 * that "nothing was decoded" and "no outbound call" can be stated.
 */
module Handler {
  import opened Wrappers
  import opened Rollouts

  /** What json.NewDecoder(r.Body).Decode returned. */
  datatype Decoded = Decoded(routing: TrafficRouting) | DecodeError(msg: string)

  datatype Effect = DecodeBody | Upstream(req: Request)

  /** The status code and the text written back to the caller. */
  datatype Response = Response(status: int, body: string)

  datatype Handled = Handled(response: Response, effects: seq<Effect>)

  const StatusBadRequest := 400
  const StatusMethodNotAllowed := 405
  const StatusInternalServerError := 500
  const UnsupportedMethod := "Unsupported request method."
  const TrafficManaged := "Argo Rollouts traffic managed successfully.\n"

  /** The requests sent upstream, in the order of the trace. */
  function UpstreamCalls(effects: seq<Effect>): (calls: seq<Request>)
    ensures |calls| <= |effects|
  {
    if effects == [] then []
    else (if effects[0].Upstream? then [effects[0].req] else []) + UpstreamCalls(effects[1..])
  }

  function AsEffects(sent: seq<Request>): (effects: seq<Effect>)
    ensures UpstreamCalls(effects) == sent
    ensures DecodeBody !in effects
  {
    if sent == [] then [] else [Upstream(sent[0])] + AsEffects(sent[1..])
  }

  /** handleRequest: only POST is served; the outcome of the decode and of the forwarder picks the response. */
  function HandleRequest(verb: string, decode: Decoded, env: Env, lib: Library): (h: Handled)
    ensures h.response.status in {StatusOK, StatusBadRequest, StatusMethodNotAllowed, StatusInternalServerError}
    ensures verb != "POST" ==> h == Handled(Response(StatusMethodNotAllowed, UnsupportedMethod), [])
    ensures verb == "POST" ==> h.effects != [] && h.effects[0] == DecodeBody && DecodeBody !in h.effects[1..]
    ensures |UpstreamCalls(h.effects)| <= 1
    ensures h.response.status == StatusOK <==>
      verb == "POST" && decode.Decoded? && ManageTraffic(env, decode.routing, lib).err == None
  {
    if verb == "POST" then
      match decode
      case DecodeError(e) => Handled(Response(StatusBadRequest, e), [DecodeBody])
      case Decoded(routing) =>
        var f := ManageTraffic(env, routing, lib);
        var effects := [DecodeBody] + AsEffects(f.sent);
        assert effects[1..] == AsEffects(f.sent);
        match f.err
        case Some(e) => Handled(Response(StatusInternalServerError, e), effects)
        case None => Handled(Response(StatusOK, TrafficManaged), effects)
    else
      Handled(Response(StatusMethodNotAllowed, UnsupportedMethod), [])
  }

  lemma {:induction false} UpstreamCallsAppend(xs: seq<Effect>, ys: seq<Effect>)
    ensures UpstreamCalls(xs + ys) == UpstreamCalls(xs) + UpstreamCalls(ys)
  {
    if xs == [] {
      assert xs + ys == ys;
    } else {
      assert (xs + ys)[0] == xs[0];
      assert (xs + ys)[1..] == xs[1..] + ys;
      UpstreamCallsAppend(xs[1..], ys);
    }
  }

  /** The calls a decoded POST makes are exactly the forwarder's. */
  lemma HandlerCallsAreForwarderCalls(verb: string, decode: Decoded, env: Env, lib: Library)
    ensures UpstreamCalls(HandleRequest(verb, decode, env, lib).effects) ==
      if verb == "POST" && decode.Decoded? then ManageTraffic(env, decode.routing, lib).sent else []
  {
  }

  /** A body that fails to decode gets 400 with the decoder's text and nothing is sent. */
  lemma DecodeFailureIsBadRequest(decode: Decoded, env: Env, lib: Library)
    requires decode.DecodeError?
    ensures HandleRequest("POST", decode, env, lib) == Handled(Response(StatusBadRequest, decode.msg), [DecodeBody])
    ensures UpstreamCalls(HandleRequest("POST", decode, env, lib).effects) == []
  {
  }

  /**
   * A decoded instruction is forwarded as it is, whatever its weight, name or
   * namespace; every request sent carries it as the body.
   */
  lemma ForwardedUnchanged(routing: TrafficRouting, env: Env, lib: Library)
    ensures var calls := UpstreamCalls(HandleRequest("POST", Decoded(routing), env, lib).effects);
      calls == ManageTraffic(env, routing, lib).sent &&
      forall i :: 0 <= i < |calls| ==> calls[i].body == routing
  {
  }

  /** Any forwarder error, whatever its cause, becomes 500 with the error's text. */
  lemma ForwarderErrorIsInternal(routing: TrafficRouting, env: Env, lib: Library)
    requires ManageTraffic(env, routing, lib).err.Some?
    ensures HandleRequest("POST", Decoded(routing), env, lib).response ==
      Response(StatusInternalServerError, ManageTraffic(env, routing, lib).err.value)
  {
  }

  /** Success answers 200 with the fixed text after exactly one upstream call. */
  lemma SuccessIsOneCall(routing: TrafficRouting, env: Env, lib: Library)
    requires ManageTraffic(env, routing, lib).err == None
    ensures HandleRequest("POST", Decoded(routing), env, lib).response == Response(StatusOK, TrafficManaged)
    ensures UpstreamCalls(HandleRequest("POST", Decoded(routing), env, lib).effects) ==
      [TrafficRequest(env, routing)]
  {
  }

  /** Missing credentials: 500 with the configuration message and no network call. */
  lemma MissingCredentialsNoCall(routing: TrafficRouting, env: Env, lib: Library)
    requires !CredentialsSet(env)
    ensures HandleRequest("POST", Decoded(routing), env, lib).response ==
      Response(StatusInternalServerError, CredentialsMissing)
    ensures UpstreamCalls(HandleRequest("POST", Decoded(routing), env, lib).effects) == []
  {
  }

  /** An upstream 503 comes back as 500 with a message that carries the code 503. */
  lemma UpstreamUnavailableExample(base: string, token: string)
    requires base != "" && token != ""
    ensures var h := HandleRequest("POST", Decoded(TrafficRouting("example-rollout", "default", 50)),
                                   Env(base, token), Library(None, None, Status(503)));
      h.response.status == StatusInternalServerError &&
      StatusCodeOf(h.response.body) == Some(503) &&
      UpstreamCalls(h.effects) == [TrafficRequest(Env(base, token), TrafficRouting("example-rollout", "default", 50))]
  {
    var routing := TrafficRouting("example-rollout", "default", 50);
    var env := Env(base, token);
    var lib := Library(None, None, Status(503));
    ReplyMapping(env, routing, lib);
    HandlerCallsAreForwarderCalls("POST", Decoded(routing), env, lib);
  }

  /** An example instruction (example-rollout, default, 50) with an upstream 200: one PUT to `<base>/api/v1/namespaces/default/rollouts/example-rollout/traffic`. */
  lemma ExampleTarget(base: string, token: string)
    requires base != "" && token != ""
    ensures var calls := UpstreamCalls(HandleRequest("POST", Decoded(TrafficRouting("example-rollout", "default", 50)),
                                                     Env(base, token), Library(None, None, Status(200))).effects);
      |calls| == 1 && calls[0].verb == "PUT" &&
      calls[0].url == base + "/api/v1/namespaces/default/rollouts/example-rollout/traffic" &&
      calls[0].header["Authorization"] == "Bearer " + token
  {
    var routing := TrafficRouting("example-rollout", "default", 50);
    var env := Env(base, token);
    HandlerCallsAreForwarderCalls("POST", Decoded(routing), env, Library(None, None, Status(200)));
    ExampleUrl(base);
  }

  lemma ExampleUrl(base: string)
    ensures TrafficUrl(base, "default", "example-rollout") ==
            base + "/api/v1/namespaces/default/rollouts/example-rollout/traffic"
  {
  }

  /** One inbound request: its method, what its body decodes to, and what the libraries return for it. */
  datatype Inbound = Inbound(verb: string, decode: Decoded, lib: Library)

  /**
   * The server handling requests one after another, each by HandleRequest and
   * nothing shared between them: the concatenated trace of their effects.
   */
  function Serve(env: Env, requests: seq<Inbound>): seq<Effect> {
    if requests == [] then []
    else
      HandleRequest(requests[0].verb, requests[0].decode, env, requests[0].lib).effects +
      Serve(env, requests[1..])
  }

  /** The calls one request would make on its own. */
  function OwnCalls(env: Env, request: Inbound): seq<Request> {
    if request.verb == "POST" && request.decode.Decoded?
    then ManageTraffic(env, request.decode.routing, request.lib).sent
    else []
  }

  function AllOwnCalls(env: Env, requests: seq<Inbound>): seq<Request> {
    if requests == [] then [] else OwnCalls(env, requests[0]) + AllOwnCalls(env, requests[1..])
  }

  /** The calls of a run are each request's own calls in order: no request affects another. */
  lemma {:induction false} ServeCallsAreOwnCalls(env: Env, requests: seq<Inbound>)
    ensures UpstreamCalls(Serve(env, requests)) == AllOwnCalls(env, requests)
  {
    if requests != [] {
      var r := requests[0];
      UpstreamCallsAppend(HandleRequest(r.verb, r.decode, env, r.lib).effects, Serve(env, requests[1..]));
      HandlerCallsAreForwarderCalls(r.verb, r.decode, env, r.lib);
      ServeCallsAreOwnCalls(env, requests[1..]);
    }
  }

  /** The same instruction sent twice is forwarded twice, with identical requests: no deduplication. */
  lemma NoDeduplication(env: Env, routing: TrafficRouting, lib: Library)
    requires CredentialsSet(env) && lib.marshal == None && lib.newRequest == None
    ensures var r := Inbound("POST", Decoded(routing), lib);
      UpstreamCalls(Serve(env, [r, r])) == [TrafficRequest(env, routing), TrafficRequest(env, routing)]
  {
    var r := Inbound("POST", Decoded(routing), lib);
    ServeCallsAreOwnCalls(env, [r, r]);
    assert OwnCalls(env, r) == [TrafficRequest(env, routing)];
    assert [r, r][1..] == [r];
    assert [r][1..] == [];
    assert AllOwnCalls(env, [r]) == OwnCalls(env, r) + AllOwnCalls(env, []);
  }
}
