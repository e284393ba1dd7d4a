/** The alice middleware chain built by App.middleware (esox/app.go), as an
    ordered list of stages, and the response header map that the route's
    handler finds when the chain hands the request to it. */
module Chain {
  import opened Wrappers
  import opened Security

  /** An http.Handler the model does not look into (a route's handler, the
      custom not-found handler). */
  type HandlerId = nat

  /** The zerolog/hlog stages, in the order the source appends them. */
  datatype LogStage =
    | AttachLogger    // hlog.NewHandler
    | AccessLog       // hlog.AccessHandler
    | MethodField     // hlog.MethodHandler("method")
    | RefererField    // hlog.RefererHandler("referer")
    | RequestIdField  // hlog.RequestIDHandler("request_id", "X-Request-ID")
    | UrlField        // hlog.URLHandler("url")
    | UserAgentField  // hlog.UserAgentHandler("user_agent")

  datatype Stage =
    | Logging(stage: LogStage)
    | SecurityHeaders(config: Option<Security>)
    | NotFoundWrapper(handler404: HandlerId)   // notFoundMiddleware(a.Handler404)

  /** App.middleware: the logging stages first, the security stage last. */
  function Middleware(config: Option<Security>): (c: seq<Stage>)
    ensures |c| == 8
    ensures c[|c| - 1] == SecurityHeaders(config)
    ensures forall i :: 0 <= i < |c| - 1 ==> c[i].Logging?
    ensures c[0] == Logging(AttachLogger) && c[1] == Logging(AccessLog)
    ensures c[2..7] == [Logging(MethodField), Logging(RefererField), Logging(RequestIdField),
                        Logging(UrlField), Logging(UserAgentField)]
  {
    [Logging(AttachLogger), Logging(AccessLog),
     Logging(MethodField), Logging(RefererField), Logging(RequestIdField),
     Logging(UrlField), Logging(UserAgentField),
     SecurityHeaders(config)]
  }

  /** What one stage does to the response header map before it calls next.
      The logging and not-found stages are not modelled as writing headers. */
  function StageEffect(s: Stage, h: map<string, string>): map<string, string>
  {
    match s
    case SecurityHeaders(config) => h + SecurityWrites(config)
    case _ => h
  }

  /** The header map the terminal handler sees: the stages run outermost
      first, each before it calls the next. */
  function HeadersAtHandler(chain: seq<Stage>, h: map<string, string>): map<string, string>
  {
    if chain == [] then h else HeadersAtHandler(chain[1..], StageEffect(chain[0], h))
  }

  lemma {:induction false} HeadersAtHandlerAppend(a: seq<Stage>, b: seq<Stage>, h: map<string, string>)
    ensures HeadersAtHandler(a + b, h) == HeadersAtHandler(b, HeadersAtHandler(a, h))
  {
    if a == [] {
      assert a + b == b;
    } else {
      assert (a + b)[1..] == a[1..] + b;
      HeadersAtHandlerAppend(a[1..], b, StageEffect(a[0], h));
    }
  }

  lemma {:induction false} HeaderNeutralStages(chain: seq<Stage>, h: map<string, string>)
    requires forall i :: 0 <= i < |chain| ==> !chain[i].SecurityHeaders?
    ensures HeadersAtHandler(chain, h) == h
  {
    if chain != [] {
      HeaderNeutralStages(chain[1..], h);
    }
  }

  /** Whatever follows the middleware (the not-found wrapper or nothing), the
      handler runs with the security headers already in the header map. */
  lemma SecurityHeadersBeforeHandler(config: Option<Security>, extra: seq<Stage>, h: map<string, string>)
    requires forall i :: 0 <= i < |extra| ==> !extra[i].SecurityHeaders?
    ensures HeadersAtHandler(Middleware(config) + extra, h) == h + SecurityWrites(config)
  {
    var c := Middleware(config);
    HeadersAtHandlerAppend(c[..7], [c[7]], h);
    assert c == c[..7] + [c[7]];
    HeaderNeutralStages(c[..7], h);
    HeadersAtHandlerAppend(c, extra, h);
    HeaderNeutralStages(extra, h + SecurityWrites(config));
  }
}
