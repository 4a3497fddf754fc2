/** web/api/middleware.go: the CORS wrapper with its pre-flight short cut, and request logging. */
module ApiMiddleware {
  import opened Options
  import opened Net
  import opened HttpWriter

  const AllowHeaders := "Access-Control-Allow-Headers"
  const AllowOrigin := "Access-Control-Allow-Origin"
  const AllowMethods := "Access-Control-Allow-Methods"
  const AllowedMethods := "GET, POST, OPTIONS"

  /** The three Access-Control headers set, every other header kept. */
  function CorsHeaders(h: Header): (r: Header)
    ensures HeaderGet(r, AllowHeaders) == "*" && HeaderGet(r, AllowOrigin) == "*"
    ensures HeaderGet(r, AllowMethods) == AllowedMethods
    ensures r.Keys == h.Keys + {AllowHeaders, AllowOrigin, AllowMethods}
    ensures forall k :: k in h && k !in {AllowHeaders, AllowOrigin, AllowMethods} ==> r[k] == h[k]
  {
    HeaderSet(HeaderSet(HeaderSet(h, AllowHeaders, "*"), AllowOrigin, "*"), AllowMethods, AllowedMethods)
  }

  /** The specification of allowCORS(next) for a request with this method. */
  function Cors(verb: string, next: Handler, o: Output): Output {
    var headered := o.(header := CorsHeaders(o.header));
    if verb == "OPTIONS" then WithStatus(headered, StatusOK) else next(headered)
  }

  /** A pre-flight request gets the headers and 200, and whatever next would do plays no part. */
  lemma PreflightShortCircuits(next1: Handler, next2: Handler)
    ensures Cors("OPTIONS", next1, Fresh) == Cors("OPTIONS", next2, Fresh)
    ensures var r := Cors("OPTIONS", next1, Fresh);
      r.status == Some(StatusOK) && r.body == []
      && HeaderGet(r.header, AllowOrigin) == "*" && HeaderGet(r.header, AllowHeaders) == "*"
      && HeaderGet(r.header, AllowMethods) == AllowedMethods
  {
  }

  /** Any other request reaches next exactly once, and only after the three headers are set. */
  lemma OtherRequestsReachNext(verb: string, next: Handler, o: Output)
    requires verb != "OPTIONS"
    ensures Cors(verb, next, o) == next(o.(header := CorsHeaders(o.header)))
  {
  }

  /** The specification of requestLogging(next): only a log line, then next. */
  function Logging(next: Handler, o: Output): Output {
    next(o)
  }

  /** The API router's chain, allowCORS around requestLogging around the route: logging adds nothing to what is written. */
  lemma ChainIsCorsAroundRoute(verb: string, route: Handler, o: Output)
    ensures Cors(verb, (x: Output) => Logging(route, x), o) == Cors(verb, route, o)
  {
  }

  /** allowCORS, proved against Cors. */
  method AllowCORS(verb: string, next: Handler, w: ResponseWriter)
    modifies w
    ensures w.output == Cors(verb, next, old(w.output))
  {
    w.SetHeader(AllowHeaders, "*");
    w.SetHeader(AllowOrigin, "*");
    w.SetHeader(AllowMethods, AllowedMethods);
    if verb == "OPTIONS" {
      w.WriteHeader(StatusOK);
      return;
    }
    w.Serve(next);
  }

  /** requestLogging, proved against Logging. */
  method RequestLogging(next: Handler, w: ResponseWriter)
    modifies w
    ensures w.output == Logging(next, old(w.output))
  {
    w.Serve(next);
  }
}
