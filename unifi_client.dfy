/**
 * The UniFi Protect client of x/unifi: its configuration, the stored session header,
 * login (client.go, authentication.go) and the request helpers (request.go).
 * The network is an oracle: a Transport maps the request that is sent to the reply.
 */
module UnifiClient {
  import opened Options
  import opened Net
  import opened Errors

  /** The settings the client reads from its configuration. */
  datatype Config = Config(unifiIp: string, username: string, password: string)

  /** The JSON documents the client sends. Encoding them cannot fail, so the encoder's error paths are not represented. */
  datatype Payload =
    | Credentials(username: string, password: string)
    | LcdMessage(duration: nat, text: string, kind: string)

  /** What goes on the wire after the headers: nothing, or one encoded payload. */
  datatype Body = Empty | Json(payload: Payload)

  datatype Outgoing = Outgoing(verb: string, url: Url, header: Header, body: Body)
  datatype Response = Response(status: int, statusText: string, header: Header, body: seq<byte>)

  /** The transport's answer: a failure (including a request that could not be built) or a response. */
  datatype Reply = TransportFailed(error: Error) | Replied(response: Response)
  type Transport = Outgoing -> Reply

  const UnifiPort := ":7443"
  const NotAuthorizedText := "could not get Authorization header from acquireCookie response header"
  const CancelledText := "HTTP jsonRequest cancelled"

  /** baseURL: https on port 7443 of the configured host, with no path; every call builds a new value. */
  function BaseURL(config: Config): (u: Url)
    ensures UrlString(u) == "https://" + config.unifiIp + ":7443"
  {
    Url("https", config.unifiIp + UnifiPort, "")
  }

  /** The base URL with its path set, as each endpoint does with u.Path. */
  function Endpoint(config: Config, path: string): (u: Url)
    ensures UrlString(u) == "https://" + config.unifiIp + ":7443" + path
    ensures u.path == path && u.host == BaseURL(config).host && u.scheme == BaseURL(config).scheme
  {
    BaseURL(config).(path := path)
  }

  /** The header stored after a login that produced token. */
  function BearerHeader(token: string): Header {
    map["Authorization" := ["Bearer " + token], "Content-Type" := ["application/json"]]
  }

  /** The login request: a POST of the credentials to /api/auth carrying only a JSON content type. */
  function LoginRequest(config: Config): Outgoing {
    Outgoing("POST", Endpoint(config, "/api/auth"), HeaderAdd(map[], "Content-Type", "application/json"),
             Json(Credentials(config.username, config.password)))
  }

  /** The token a login reply yields: the response's Authorization header, whatever the status code. */
  function LoginToken(reply: Reply): (r: Result<string>)
    ensures r.Ok? <==> reply.Replied? && HeaderGet(reply.response.header, "Authorization") != ""
    ensures r.Ok? ==> r.value == HeaderGet(reply.response.header, "Authorization")
    ensures reply.TransportFailed? ==> r == Err(reply.error)
    ensures reply.Replied? && r.Err? ==> r == Err(Failure(NotAuthorizedText))
  {
    match reply
    case TransportFailed(e) => Err(e)
    case Replied(res) =>
      var token := HeaderGet(res.header, "Authorization");
      if token == "" then Err(Failure(NotAuthorizedText)) else Ok(token)
  }

  /** The status code of the login response is never consulted. */
  lemma LoginIgnoresStatus(res: Response, status: int)
    ensures LoginToken(Replied(res.(status := status))) == LoginToken(Replied(res))
  {
  }

  /** The body a jsonRequest sends for its param: nothing for a nil param. */
  function BodyOf(param: Option<Payload>): (b: Body)
    ensures b.Empty? <==> param.None?
  {
    match param
    case None => Empty
    case Some(p) => Json(p)
  }

  class Client {
    const config: Config
    var header: Header

    /** The struct NewClient builds before its first login: no session header yet. */
    constructor (config: Config)
      ensures this.config == config && header == map[]
    {
      this.config := config;
      header := map[];
    }

    /**
     * Authenticate: POST the credentials; the stored header changes only when the
     * reply carries a non-empty token, and then becomes exactly the bearer header.
     */
    method Authenticate(transport: Transport) returns (err: Option<Error>)
      modifies this
      ensures var t := LoginToken(transport(LoginRequest(config)));
        && (t.Ok? ==> err == None && header == BearerHeader(t.value))
        && (t.Err? ==> err == Some(t.error) && header == old(header))
    {
      var reply := transport(LoginRequest(config));
      if reply.TransportFailed? {
        return Some(reply.error);
      }
      var token := HeaderGet(reply.response.header, "Authorization");
      if token == "" {
        return Some(Failure(NotAuthorizedText));
      }
      var h: Header := map[];
      h := HeaderAdd(h, "Authorization", "Bearer " + token);
      h := HeaderAdd(h, "Content-Type", "application/json");
      header := h;
      err := None;
    }

    /** ReAuthenticate is Authenticate under another name. */
    method ReAuthenticate(transport: Transport) returns (err: Option<Error>)
      modifies this
      ensures var t := LoginToken(transport(LoginRequest(config)));
        && (t.Ok? ==> err == None && header == BearerHeader(t.value))
        && (t.Err? ==> err == Some(t.error) && header == old(header))
    {
      err := Authenticate(transport);
    }

    /**
     * request: send with the header stored at this moment. When the context is done
     * before the transport answers (cancelledFirst) the call fails whatever the transport does.
     */
    function Request(verb: string, u: Url, body: Body, transport: Transport, cancelledFirst: bool): (r: Result<Response>)
      reads this
      ensures r.Ok? <==> !cancelledFirst && transport(Outgoing(verb, u, header, body)).Replied?
      ensures r.Ok? ==> r.value == transport(Outgoing(verb, u, header, body)).response
      ensures cancelledFirst ==> r == Err(Failure(CancelledText))
    {
      if cancelledFirst then Err(Failure(CancelledText))
      else match transport(Outgoing(verb, u, header, body))
        case TransportFailed(e) => Err(e)
        case Replied(res) => Ok(res)
    }

    /**
     * jsonRequest: send param as the body; a status of 300 or more is an HttpError and
     * nothing is decoded; below 300 the body is decoded when a target (decoder) is given.
     */
    function JsonRequest<T>(verb: string, u: Url, param: Option<Payload>, decoder: Option<seq<byte> -> Result<T>>,
                            transport: Transport, cancelledFirst: bool): (r: Result<Option<T>>)
      reads this
      ensures var res := Request(verb, u, BodyOf(param), transport, cancelledFirst);
        && (res.Err? ==> r == Err(res.error))
        && (res.Ok? && res.value.status >= 300 ==> r == Err(Status(HttpError("failed to request", res.value.status, u, verb))))
        && (r.Ok? <==> res.Ok? && res.value.status < 300 && (decoder.None? || decoder.value(res.value.body).Ok?))
        && (r.Ok? && decoder.None? ==> r.value == None)
        && (r.Ok? && decoder.Some? ==> r.value == Some(decoder.value(res.value.body).value))
    {
      match Request(verb, u, BodyOf(param), transport, cancelledFirst)
      case Err(e) => Err(e)
      case Ok(res) =>
        if res.status >= 300 then Err(Status(HttpError("failed to request", res.status, u, verb)))
        else match decoder
          case None => Ok(None)
          case Some(decode) =>
            match decode(res.body)
            case Err(e) => Err(e)
            case Ok(v) => Ok(Some(v))
    }
  }

  /** A status of 300 or more gives the same error whatever decoding was asked for: nothing is decoded. */
  lemma NothingDecodedOnErrorStatus<T>(c: Client, verb: string, u: Url, param: Option<Payload>,
                                       d1: Option<seq<byte> -> Result<T>>, d2: Option<seq<byte> -> Result<T>>,
                                       transport: Transport, cancelledFirst: bool)
    requires var res := c.Request(verb, u, BodyOf(param), transport, cancelledFirst); res.Ok? && res.value.status >= 300
    ensures c.JsonRequest(verb, u, param, d1, transport, cancelledFirst)
         == c.JsonRequest(verb, u, param, d2, transport, cancelledFirst)
  {
  }

  /**
   * NewClient: a client exists only if its first login succeeds, and then it
   * already holds the bearer header of that login.
   */
  method NewClient(config: Config, transport: Transport) returns (c: Client?, err: Option<Error>)
    ensures var t := LoginToken(transport(LoginRequest(config)));
      && (c != null <==> t.Ok?)
      && (t.Err? ==> err == Some(t.error))
      && (c != null ==> fresh(c) && err == None && c.config == config && c.header == BearerHeader(t.value))
  {
    var client := new Client(config);
    err := client.Authenticate(transport);
    if err.Some? {
      return null, err;
    }
    c := client;
  }
}
