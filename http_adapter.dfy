/** The HTTP adapter: its configuration, the path and method rules in front
    of the middleware chain, and its listening state. */
module HttpAdapterModel {
  import opened Json
  import opened Optional
  import opened Exceptions
  import opened Transport
  import opened Middlewares
  import opened Adapters

  /** The options a caller passes; every field may be left out. */
  datatype HttpAdapterOptions = HttpAdapterOptions(hostname: Option<string>, port: Option<int>, pathname: Option<string>)

  /** The configuration the adapter works with. */
  datatype HttpAdapterConfig = HttpAdapterConfig(hostname: string, port: Option<int>, pathname: string)

  const DEFAULT_HOSTNAME: string := "127.0.0.1"

  /** `s.replace(/\/+/g, "")`: `s` without its slashes, order kept. */
  function RemoveSlashes(s: string): (r: string)
    ensures '/' !in r
    ensures forall c :: c in r <==> c in s && c != '/'
    ensures '/' !in s ==> r == s
  {
    if s == [] then []
    else (if s[0] == '/' then [] else [s[0]]) + RemoveSlashes(s[1..])
  }

  /** The stored pathname: "/" followed by the given pathname without any
      slash. */
  function NormalizePathname(p: Option<string>): (r: string)
    ensures |r| >= 1 && r[0] == '/' && '/' !in r[1..]
    ensures forall c :: c in r[1..] <==> c in OrElse(p, "") && c != '/'
  {
    var r := "/" + RemoveSlashes(OrElse(p, ""));
    assert r[1..] == RemoveSlashes(OrElse(p, ""));
    r
  }

  /** Normalising a normalised pathname changes nothing. */
  lemma NormalizePathnameIdempotent(p: Option<string>)
    ensures NormalizePathname(Some(NormalizePathname(p))) == NormalizePathname(p)
  {
    var r := NormalizePathname(p);
    assert r == "/" + r[1..];
    assert RemoveSlashes(r) == RemoveSlashes(r[1..]);
  }

  /** A path with a slash after the first character never equals a stored
      pathname, whatever was configured: nested paths are never served. */
  lemma NestedPathNeverMatches(p: Option<string>, url: string, k: int)
    requires 1 <= k < |url| && url[k] == '/'
    ensures url != NormalizePathname(p)
  {
    var r := NormalizePathname(p);
    assert url[1..][k - 1] == '/';
    assert '/' in url[1..] && '/' !in r[1..];
  }

  /** The constructor's configuration: hostname "127.0.0.1" and pathname
      "/" unless given, the pathname then normalised. A hostname given as
      `undefined` is stored as such by the source and replaced by the
      same default when listening; the model stores the default. */
  function ResolveConfig(options: Option<HttpAdapterOptions>): (c: HttpAdapterConfig)
    ensures options.None? ==> c == HttpAdapterConfig(DEFAULT_HOSTNAME, None, "/")
    ensures options.Some? ==>
              c.hostname == OrElse(options.value.hostname, DEFAULT_HOSTNAME)
              && c.port == options.value.port
              && c.pathname == NormalizePathname(options.value.pathname)
  {
    match options
    case None => HttpAdapterConfig(DEFAULT_HOSTNAME, None, NormalizePathname(Some("/")))
    case Some(o) =>
      HttpAdapterConfig(OrElse(o.hostname, DEFAULT_HOSTNAME), o.port, NormalizePathname(o.pathname))
  }

  /** The middleware `listen` installs: a POST request goes on with
      `next()` (which drops any pending error); any other request is
      answered with an invalid-request error and the chain stops. */
  function PostOnly(error: Option<MwError>, req: RequestInfo): (s: Step)
    ensures req.httpMethod == Some("POST") ==> s == Step([], Next(None))
    ensures req.httpMethod != Some("POST") ==>
              s == Step([OneException(InvalidRequestException(Undefined, None))], Halt)
  {
    if req.httpMethod == Some("POST") then Step([], Next(None))
    else Step([OneException(InvalidRequestException(Undefined, None))], Halt)
  }

  /** A POST whose body is not JSON loses its `SyntaxError` at the POST
      rule: no parse error is sent, and the chain reports success with an
      undefined body. */
  lemma MalformedPostPassesPostRule(body: Value)
    ensures Execution([PostOnly], RequestInfo(Some("POST"), body), Some(SyntaxError)) == RunResult([], None)
  {
    var chain := [PostOnly] + [Terminal];
    var req := RequestInfo(Some("POST"), body);
    assert chain[0] == PostOnly && chain[1] == Terminal;
    assert Run(chain, 2, None, req) == RunResult([], None);
    assert Run(chain, 1, None, req) == RunResult([] + [], None);
  }

  /** A request with another HTTP method is answered with an invalid
      request error; the chain then reports whatever error was pending,
      so one that was parsed without error still reaches the handler. */
  lemma OtherMethodRejected(m: Option<string>, body: Value, baseError: Option<MwError>)
    requires m != Some("POST")
    ensures Execution([PostOnly], RequestInfo(m, body), baseError)
            == RunResult([OneException(InvalidRequestException(Undefined, None))], baseError)
  {
    assert ([PostOnly] + [Terminal])[0] == PostOnly;
  }

  /** How the request listener treats a request. */
  datatype HttpHandling<H> = NotFound | Handled(sent: seq<SendBody>, call: HandlerCall<H>)

  class HttpAdapter<H> {
    const base: Adapter<H>
    const config: HttpAdapterConfig
    var isListened: bool
    /** How many times `shutdown` closed the server. */
    var closeCalls: nat

    constructor(options: Option<HttpAdapterOptions>)
      ensures config == ResolveConfig(options)
      ensures fresh(base) && fresh(base.middleware)
      ensures base.middleware.middlewares == [] && base.registerFn.None?
      ensures !isListened && closeCalls == 0
    {
      base := new Adapter<H>();
      config := ResolveConfig(options);
      isListened := false;
      closeCalls := 0;
    }

    /** `isListening()`. */
    function IsListening(): (b: bool)
      reads this
      ensures b <==> isListened
    {
      isListened
    }

    /** `listen()`: when not yet listening, installs the POST rule and
        starts the server; otherwise does nothing. */
    method Listen()
      modifies base.middleware
      ensures isListened ==> base.middleware.middlewares == old(base.middleware.middlewares)
      ensures !isListened ==> base.middleware.middlewares == old(base.middleware.middlewares) + [PostOnly]
    {
      if isListened {
        return;
      }
      var _ := base.Use(PostOnly);
    }

    /** The listen callback. */
    method OnListening()
      modifies this
      ensures isListened && closeCalls == old(closeCalls)
    {
      isListened := true;
    }

    /** The server's "close" event. */
    method OnServerClose()
      modifies this
      ensures !isListened && closeCalls == old(closeCalls)
    {
      isListened := false;
    }

    /** `shutdown()`: closes the server only when listening. */
    method Shutdown()
      modifies this
      ensures isListened == old(isListened)
      ensures closeCalls == old(closeCalls) + (if old(isListened) then 1 else 0)
    {
      if isListened {
        closeCalls := closeCalls + 1;
      }
    }

    /** The request listener, for a request to `urlPathname`: any other
        path than the configured one gets 404 and goes no further; the
        configured path goes through the middleware chain and the gate. */
    method RequestListener(urlPathname: string, req: RequestInfo, baseError: Option<MwError>) returns (r: HttpHandling<H>)
      ensures urlPathname != config.pathname ==> r.NotFound?
      ensures urlPathname == config.pathname ==>
                r == Handled(Execution(base.middleware.middlewares, req, baseError).sent,
                             Gate(Execution(base.middleware.middlewares, req, baseError), base.registerFn))
    {
      if urlPathname != config.pathname {
        return NotFound;
      }
      var sent, call := base.NewRequest(req, baseError);
      r := Handled(sent, call);
    }
  }
}
