/**
 * Process start-up: the PROXY_OPTION switch in `main`.  Exactly one of three
 * front-ends is launched; an unknown option or a failed launcher ends the
 * process; only after a successful launch is the handler registered and the
 * server started.
 *
 * The launchers and http.ListenAndServe are external: only whether they
 * failed, and their error text, feed this model.
 */
module Startup {
  import opened Wrappers

  datatype FrontEnd = Ngrok | Nginx | Smallstep

  /** What a launcher returned: nil, or an error with its text. */
  datatype Launch = Launched | LaunchFailed(err: string)

  /** The result each launcher would give if it were called. */
  datatype Launchers = Launchers(ngrok: Launch, nginx: Launch, smallstep: Launch)

  datatype StartEffect = RunLauncher(front: FrontEnd) | HandleFunc(pattern: string) | ListenAndServe(addr: string)

  /** How the process ends: log.Fatalf with a message, or serving for ever. */
  datatype Exit = Fatal(msg: string) | Serving

  datatype Started = Started(effects: seq<StartEffect>, exit: Exit)

  const TrafficPattern := "/manage-traffic"
  const ListenAddr := ":8080"

  /** The PROXY_OPTION value that selects each front-end. */
  function OptionName(f: FrontEnd): string {
    match f
    case Ngrok => "ngrok"
    case Nginx => "nginx"
    case Smallstep => "smallstep"
  }

  /** The switch's cases, compared exactly; anything else, the empty string included, is None. */
  function ParseProxyOption(option: string): (r: Option<FrontEnd>)
    ensures r.Some? ==> OptionName(r.value) == option
    ensures r == None <==> option !in {"ngrok", "nginx", "smallstep"}
  {
    if option == "ngrok" then Some(Ngrok)
    else if option == "nginx" then Some(Nginx)
    else if option == "smallstep" then Some(Smallstep)
    else None
  }

  function LaunchOf(launchers: Launchers, f: FrontEnd): Launch {
    match f
    case Ngrok => launchers.ngrok
    case Nginx => launchers.nginx
    case Smallstep => launchers.smallstep
  }

  /** The log.Fatalf text that precedes a launcher's error. */
  function FatalPrefix(f: FrontEnd): string {
    match f
    case Ngrok => "Error starting ngrok tunnel: "
    case Nginx => "Error starting nginx reverse proxy: "
    case Smallstep => "Error configuring Smallstep: "
  }

  /**
   * main: launch the chosen front-end, then register the handler and listen.
   * `listen` is the error ListenAndServe returns, None while it serves.
   */
  function Main(option: string, launchers: Launchers, listen: Option<string>): (s: Started)
    ensures ParseProxyOption(option) == None ==>
      s == Started([], Fatal("Unsupported proxy option: " + option))
    ensures ParseProxyOption(option).Some? ==>
      var f := ParseProxyOption(option).value;
      s.effects == [RunLauncher(f)] || s.effects == [RunLauncher(f), HandleFunc(TrafficPattern), ListenAndServe(ListenAddr)]
    ensures HandleFunc(TrafficPattern) in s.effects <==>
      ParseProxyOption(option).Some? && LaunchOf(launchers, ParseProxyOption(option).value) == Launched
    ensures s.exit == Serving <==> HandleFunc(TrafficPattern) in s.effects && listen == None
    ensures HandleFunc(TrafficPattern) in s.effects && listen.Some? ==>
      s.exit == Fatal("Failed to start server: " + listen.value)
  {
    match ParseProxyOption(option)
    case None => Started([], Fatal("Unsupported proxy option: " + option))
    case Some(f) =>
      match LaunchOf(launchers, f)
      case LaunchFailed(e) => Started([RunLauncher(f)], Fatal(FatalPrefix(f) + e))
      case Launched =>
        var effects := [RunLauncher(f), HandleFunc(TrafficPattern), ListenAndServe(ListenAddr)];
        match listen
        case Some(e) => Started(effects, Fatal("Failed to start server: " + e))
        case None => Started(effects, Serving)
  }

  /** Exactly the three literals are accepted, each selecting its own front-end. */
  lemma ProxyOptionExact(option: string, f: FrontEnd)
    ensures ParseProxyOption(option) == Some(f) <==> option == OptionName(f)
  {
  }

  /** An unset PROXY_OPTION is fatal before any launcher runs or the listener is bound. */
  lemma EmptyOptionFatal(launchers: Launchers, listen: Option<string>)
    ensures Main("", launchers, listen) == Started([], Fatal("Unsupported proxy option: "))
  {
  }

  /** A failed launcher is fatal with its error text, and the handler is never registered. */
  lemma LaunchFailureFatal(option: string, launchers: Launchers, listen: Option<string>)
    requires ParseProxyOption(option).Some?
    requires LaunchOf(launchers, ParseProxyOption(option).value).LaunchFailed?
    ensures var f := ParseProxyOption(option).value;
      Main(option, launchers, listen) ==
        Started([RunLauncher(f)], Fatal(FatalPrefix(f) + LaunchOf(launchers, f).err))
  {
  }

  /** Whenever the handler is registered, exactly one launcher ran and it ran first. */
  lemma RegisteredAfterLaunch(option: string, launchers: Launchers, listen: Option<string>)
    ensures var s := Main(option, launchers, listen);
      forall i :: 0 <= i < |s.effects| && s.effects[i] == HandleFunc(TrafficPattern) ==>
        i > 0 && s.effects[0].RunLauncher? &&
        forall j :: 0 < j < |s.effects| ==> !s.effects[j].RunLauncher?
  {
  }
}
