/**
 * The upstream client: `manageArgoRolloutsTraffic` turns one routing
 * instruction into one authenticated PUT to the Argo Rollouts API and reports
 * the outcome as a Go error (None stands for nil).
 *
 * The environment values are parameters (`Env`).  The library calls the
 * function depends on (json.Marshal, http.NewRequest, http.Client.Do) are
 * abstract results bundled in `Library`.
 */
module Rollouts {
  import opened Wrappers
  import Decimal

  /** The JSON record `{name, namespace, weight}` decoded from an inbound body and sent upstream. */
  datatype TrafficRouting = TrafficRouting(name: string, namespace: string, weight: int)

  /** ARGOROLLOUTS_URL and ARGOROLLOUTS_TOKEN as read at the time of the call. */
  datatype Env = Env(rolloutsUrl: string, rolloutsToken: string)

  /** An outbound HTTP request; the body is the routing record that json.Marshal serialises. */
  datatype Request = Request(verb: string, url: string, header: map<string, string>, body: TrafficRouting)

  /** What the HTTP client's Do returned for the request it was given. */
  datatype Reply = TransportError(msg: string) | Status(code: int)

  /** Results of the library calls: an error text where Go's err is non-nil. */
  datatype Library = Library(marshal: Option<string>, newRequest: Option<string>, reply: Reply)

  /** The error returned (None for nil) and the requests handed to the HTTP client. */
  datatype Forwarded = Forwarded(err: Option<string>, sent: seq<Request>)

  const StatusOK := 200
  const CredentialsMissing := "ARGOROLLOUTS_URL and ARGOROLLOUTS_TOKEN must be set"
  const StatusErrorPrefix := "failed to manage Argo Rollouts traffic, status code: "

  predicate CredentialsSet(env: Env) {
    env.rolloutsUrl != "" && env.rolloutsToken != ""
  }

  /**
   * The path parameters in the order the format string takes them: namespace,
   * then name.  The ensures give where each piece sits in the result.
   */
  function TrafficUrl(base: string, namespace: string, name: string): (url: string)
    ensures var ns := |base| + |"/api/v1/namespaces/"|;
      var nm := ns + |namespace| + |"/rollouts/"|;
      && |url| == nm + |name| + |"/traffic"|
      && url[..|base|] == base
      && url[|base|..ns] == "/api/v1/namespaces/"
      && url[ns..ns + |namespace|] == namespace
      && url[ns + |namespace|..nm] == "/rollouts/"
      && url[nm..nm + |name|] == name
      && url[nm + |name|..] == "/traffic"
  {
    base + "/api/v1/namespaces/" + namespace + "/rollouts/" + name + "/traffic"
  }

  /** `Header.Set` on keys that are already in canonical form. */
  function SetHeader(header: map<string, string>, key: string, value: string): (h: map<string, string>)
    ensures h.Keys == header.Keys + {key}
    ensures h[key] == value
    ensures forall k :: k in header && k != key ==> h[k] == header[k]
  {
    header[key := value]
  }

  /** Splits `s` before its first '/' (the second part is empty when there is none). */
  function SplitAtSlash(s: string): (r: (string, string))
    ensures r.0 + r.1 == s
    ensures '/' !in r.0
    ensures r.1 == [] || r.1[0] == '/'
  {
    if s == [] then ([], [])
    else if s[0] == '/' then ([], s)
    else
      var rest := SplitAtSlash(s[1..]);
      assert [s[0]] + (rest.0 + rest.1) == s;
      assert forall c :: c in [s[0]] + rest.0 ==> c == s[0] || c in rest.0;
      ([s[0]] + rest.0, rest.1)
  }

  /**
   * Reads the namespace and the name back out of a traffic URL built on `base`,
   * taking the namespace to end at the first '/'.
   */
  function ParseTrafficUrl(base: string, url: string): Option<(string, string)> {
    var head := base + "/api/v1/namespaces/";
    var tail := "/traffic";
    var sep := "/rollouts/";
    if |url| < |head| + |tail| || url[..|head|] != head || url[|url| - |tail|..] != tail then None
    else
      var (namespace, rest) := SplitAtSlash(url[|head|..|url| - |tail|]);
      if |rest| >= |sep| && rest[..|sep|] == sep then Some((namespace, rest[|sep|..])) else None
  }

  /** The request built before sending: a PUT on the traffic URL with two headers set on it. */
  function TrafficRequest(env: Env, routing: TrafficRouting): (req: Request)
    ensures req.verb == "PUT"
    ensures req.body == routing
    ensures req.url == env.rolloutsUrl + "/api/v1/namespaces/" + routing.namespace + "/rollouts/" + routing.name + "/traffic"
    ensures '/' !in routing.namespace ==>
      ParseTrafficUrl(env.rolloutsUrl, req.url) == Some((routing.namespace, routing.name))
    ensures req.header.Keys == {"Authorization", "Content-Type"}
    ensures req.header["Authorization"] == "Bearer " + env.rolloutsToken
    ensures req.header["Content-Type"] == "application/json"
  {
    var req := Request("PUT", TrafficUrl(env.rolloutsUrl, routing.namespace, routing.name), map[], routing);
    var req := req.(header := SetHeader(req.header, "Authorization", "Bearer " + env.rolloutsToken));
    var req := req.(header := SetHeader(req.header, "Content-Type", "application/json"));
    if '/' !in routing.namespace then
      TrafficUrlRoundTrip(env.rolloutsUrl, routing.namespace, routing.name);
      req
    else req
  }

  /** The error for a reply whose status is not 200 (format "...status code: %d"). */
  function StatusError(code: int): (msg: string)
    ensures |msg| > |StatusErrorPrefix| && msg[..|StatusErrorPrefix|] == StatusErrorPrefix
  {
    StatusErrorPrefix + Decimal.FormatInt(code)
  }

  /** The status code carried by a status error, if the message is one. */
  function StatusCodeOf(msg: string): Option<int> {
    if |msg| >= |StatusErrorPrefix| && msg[..|StatusErrorPrefix|] == StatusErrorPrefix
    then Decimal.ParseInt(msg[|StatusErrorPrefix|..])
    else None
  }

  /**
   * manageArgoRolloutsTraffic: the credential check, then marshal, build and
   * send one request, then map the reply to an error.
   */
  function ManageTraffic(env: Env, routing: TrafficRouting, lib: Library): (r: Forwarded)
    ensures !CredentialsSet(env) ==> r == Forwarded(Some(CredentialsMissing), [])
    ensures |r.sent| <= 1
    ensures r.sent != [] <==> CredentialsSet(env) && lib.marshal == None && lib.newRequest == None
    ensures r.sent != [] ==> r.sent == [TrafficRequest(env, routing)]
    ensures r.err == None <==> r.sent != [] && lib.reply == Status(StatusOK)
  {
    if env.rolloutsUrl == "" || env.rolloutsToken == "" then
      Forwarded(Some(CredentialsMissing), [])
    else if lib.marshal.Some? then
      Forwarded(lib.marshal, [])
    else if lib.newRequest.Some? then
      Forwarded(lib.newRequest, [])
    else
      var req := TrafficRequest(env, routing);
      match lib.reply
      case TransportError(e) => Forwarded(Some(e), [req])
      case Status(code) =>
        if code != StatusOK then Forwarded(Some(StatusError(code)), [req]) else Forwarded(None, [req])
  }

  lemma {:induction false} SplitAtSlashUnique(a: string, b: string)
    requires '/' !in a
    requires b == [] || b[0] == '/'
    ensures SplitAtSlash(a + b) == (a, b)
  {
    if a == [] {
      assert a + b == b;
    } else {
      assert (a + b)[0] == a[0] && a[0] != '/';
      assert (a + b)[1..] == a[1..] + b;
      SplitAtSlashUnique(a[1..], b);
      assert [a[0]] + a[1..] == a;
    }
  }

  /** With a namespace free of '/', the traffic URL determines namespace and name. */
  lemma TrafficUrlRoundTrip(base: string, namespace: string, name: string)
    requires '/' !in namespace
    ensures ParseTrafficUrl(base, TrafficUrl(base, namespace, name)) == Some((namespace, name))
  {
    var head := base + "/api/v1/namespaces/";
    var tail := "/traffic";
    var sep := "/rollouts/";
    var url := TrafficUrl(base, namespace, name);
    assert url == head + (namespace + (sep + name)) + tail;
    assert url[..|head|] == head;
    assert url[|url| - |tail|..] == tail;
    assert url[|head|..|url| - |tail|] == namespace + (sep + name);
    SplitAtSlashUnique(namespace, sep + name);
    assert (sep + name)[..|sep|] == sep;
    assert (sep + name)[|sep|..] == name;
  }

  /** Two instructions with '/'-free namespaces reach the same URL only if they name the same rollout. */
  lemma TrafficUrlInjective(base: string, a: TrafficRouting, b: TrafficRouting)
    requires '/' !in a.namespace && '/' !in b.namespace
    requires TrafficUrl(base, a.namespace, a.name) == TrafficUrl(base, b.namespace, b.name)
    ensures a.namespace == b.namespace && a.name == b.name
  {
    TrafficUrlRoundTrip(base, a.namespace, a.name);
    TrafficUrlRoundTrip(base, b.namespace, b.name);
  }

  /** Neither segment is escaped: a '/' in the namespace lets distinct rollouts share one URL. */
  lemma TrafficUrlAmbiguousWithSlash()
    ensures TrafficUrl("", "a/rollouts/b", "c") == TrafficUrl("", "a", "b/rollouts/c")
  {
  }

  /** The weight travels in the body only: it never changes the method, URL or headers. */
  lemma WeightOnlyInBody(env: Env, routing: TrafficRouting, weight: int)
    ensures TrafficRequest(env, routing.(weight := weight)) ==
            TrafficRequest(env, routing).(body := routing.(weight := weight))
  {
  }

  /** The status error names the code: its suffix is the decimal code, and it can be read back. */
  lemma StatusErrorCarriesCode(code: int)
    ensures StatusError(code) == StatusErrorPrefix + Decimal.FormatInt(code)
    ensures StatusCodeOf(StatusError(code)) == Some(code)
  {
    var msg := StatusError(code);
    assert msg[|StatusErrorPrefix|..] == Decimal.FormatInt(code);
    Decimal.FormatIntRoundTrip(code);
  }

  /** How a sent request's reply becomes the returned error. */
  lemma ReplyMapping(env: Env, routing: TrafficRouting, lib: Library)
    requires CredentialsSet(env) && lib.marshal == None && lib.newRequest == None
    ensures lib.reply.TransportError? ==> ManageTraffic(env, routing, lib).err == Some(lib.reply.msg)
    ensures lib.reply.Status? && lib.reply.code != StatusOK ==>
      var err := ManageTraffic(env, routing, lib).err;
      err == Some(StatusError(lib.reply.code)) && StatusCodeOf(err.value) == Some(lib.reply.code)
    ensures lib.reply == Status(StatusOK) ==> ManageTraffic(env, routing, lib).err == None
  {
    if lib.reply.Status? {
      StatusErrorCarriesCode(lib.reply.code);
    }
  }

  /** Errors of json.Marshal and http.NewRequest are returned unchanged and nothing is sent. */
  lemma BuildErrorsPropagate(env: Env, routing: TrafficRouting, lib: Library)
    requires CredentialsSet(env)
    ensures lib.marshal.Some? ==> ManageTraffic(env, routing, lib) == Forwarded(lib.marshal, [])
    ensures lib.marshal == None && lib.newRequest.Some? ==>
      ManageTraffic(env, routing, lib) == Forwarded(lib.newRequest, [])
  {
  }
}
