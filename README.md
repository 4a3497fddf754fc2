# unifi-doorbell-chime, modelled in Dafny

unifi-doorbell-chime watches a UniFi Protect controller. It polls the controller's bootstrap
inventory and keeps the managed "UVC G4 Doorbell" cameras. A doorbell whose `LastRing` has
grown since the previous poll has rung, and the tool then opens a local ringing page in the
browser. A small web front end and API serve that page, show a snapshot, and set the text on
the doorbell's display. With a configured MAC address, the whole service boots only while the
machine's network interface has that hardware address.

This project models the decision rules inside that plumbing and proves their properties.
The rules covered:

- the UniFi client: login and session header, request/response classification, the bootstrap, snapshot and message endpoints;
- doorbell selection and ring-edge detection;
- the listener's poll state machine and its Start loop;
- interface selection for the MAC address;
- the MAC admission gate and the shutdown rule of `boot`;
- routing in the front-end server;
- the API's CORS middleware and handlers;
- configuration defaults and port memoisation.

The network and the OS are inputs to the model:

- **Transport.** A function from the outgoing request to the reply or transport error. A boolean says whether the context was cancelled before the transport answered.
- **Browser.** A function from a URL to an optional error.
- **Interface listings.** Records with the flags and address lists `net.Interfaces` reports.
- **Event streams.** Address samples, boot outcomes, listener ticks and free-port answers are finite sequences. An operation that runs out of its sequence is reported as still running.

Each Go source file becomes one module:

| module | Go source |
|---|---|
| `UnifiClient` | `x/unifi/client.go`, `authentication.go`, `request.go` |
| `UnifiBootstrap` | `x/unifi/bootstrap.go` |
| `UnifiSnapshot` | `x/unifi/snapshot.go` |
| `UnifiMessage` | `x/unifi/message.go` |
| `Listener` | `listener/listener.go` |
| `WifiMac` | `x/wifimac/macaddress.go` |
| `RunCommand` | `cmd/run.go` |
| `Frontend` | `web/frontend/server.go` |
| `ApiMiddleware` | `web/api/middleware.go` |
| `ApiHandler` | `web/api/hanlder.go` |
| `ViperProvider` | `driver/configuration/viper_provider.go` |

Shared modules:

- `Options`: an option type.
- `Decimal`: `%d` formatting with a parser that reads the text back.
- `Strings`: the first index of a character, as `strings.Index` and `strings.SplitN` use it.
- `Net`: int64 wrap-around, URLs and `http.Header`.
- `Errors`: the error chain, `HttpError` and its text.
- `HttpWriter`: the part of `http.ResponseWriter` the handlers use.

Each stateful entity is a class:

- `Client` holds the session `header`.
- `Listener` holds the previous doorbell list in `state`.
- `Provider` holds viper's key/value store.
- `ResponseWriter` holds the response written so far.
- The front-end `Server` holds its port and its embedded files.

Each loop is a method proved against a specification function:

- `Poll` against `PollOutcome`.
- `Start` against `PollLoop`.
- `GetDoorbells` against `ManagedDoorbells`.
- `GetMacAddress` against `MacAddressOf`.
- `BootWithMacAddressObservation` against `Gate`.

The properties are lemmas about those functions.

## Model

| member | source | states |
|---|---|---|
| UnifiClient.BaseURL | x/unifi/client.go:45-51 | The base URL is `https://<UnifiIp>:7443` with no path, built fresh on every call. |
| UnifiClient.Endpoint | x/unifi/client.go:45-51 | Setting the path keeps the scheme and host of the base URL, and the URL text is base + path. |
| UnifiClient.LoginRequest | x/unifi/authentication.go:16-38 | The login: a POST of `/api/auth` with the JSON content type and the configured credentials; used by Authenticate. |
| UnifiClient.LoginToken | x/unifi/authentication.go:38-47 | A login succeeds iff the transport answered and the `Authorization` response header is non-empty; the token is that header. A transport error is returned as it is. A missing token gives the "could not get Authorization header" error. |
| UnifiClient.LoginIgnoresStatus | x/unifi/authentication.go:38-47 | The status code of the login response never influences the outcome. |
| UnifiClient.Client.Authenticate | x/unifi/authentication.go:16-57 | A login yielding a token replaces the stored header by exactly `Authorization: Bearer <token>` and `Content-Type: application/json`. Any failure returns the error and leaves the header unchanged. |
| UnifiClient.Client.ReAuthenticate | x/unifi/authentication.go:12-14 | Same contract as Authenticate. |
| UnifiClient.NewClient | x/unifi/client.go:30-43 | A client is returned iff its first login succeeds, and it then already holds that login's bearer header; otherwise nil and the login error. |
| UnifiClient.Client.Request | x/unifi/request.go:27-65 | The request carries the header stored at call time. Cancellation before the answer gives "HTTP jsonRequest cancelled". A transport error gives no response. Otherwise the response is the transport's. |
| UnifiClient.BodyOf | x/unifi/request.go:68-73 | A nil param sends an empty body. |
| UnifiClient.Client.JsonRequest | x/unifi/request.go:67-107 | Request errors propagate. A status of 300 or more (300 included) is `HttpError{"failed to request", status, url, method}`. Success needs status < 300 and, when a target is given, a successful decode. Without a target nothing is decoded. |
| UnifiClient.NothingDecodedOnErrorStatus | x/unifi/request.go:85-96 | With a status of 300 or more the result does not depend on the decoder: the body is not decoded. |
| Errors.HttpErrorTextDeterminesCode | x/unifi/request.go:23-25 | The `message: %s. code: %d. url: %s` text determines the code, given message and URL. |
| UnifiBootstrap.IsDoorbell | x/unifi/bootstrap.go:384-386 | A camera is a doorbell iff its type is "UVC G4 Doorbell"; the managed flag is the extra condition of GetDoorbells' filter (ManagedDoorbellsMembership). |
| UnifiBootstrap.ManagedDoorbells | x/unifi/bootstrap.go:393-406 | The doorbells of an inventory, in inventory order; the loop of GetDoorbells is proved equal to it. |
| UnifiBootstrap.ManagedDoorbellsMembership | x/unifi/bootstrap.go:384-386 | A camera is a selected doorbell iff it is in the inventory, is managed and has type "UVC G4 Doorbell". |
| UnifiBootstrap.ManagedDoorbellsConcat | x/unifi/bootstrap.go:399-405 | Selection keeps inventory order: it distributes over concatenation. |
| UnifiBootstrap.GetBootstrap | x/unifi/bootstrap.go:417-427 | GET of `/api/bootstrap` without body, decoded into the inventory. Request errors are wrapped "failed to get bootstrap". |
| UnifiBootstrap.GetDoorbells | x/unifi/bootstrap.go:393-406 | A failed bootstrap gives no doorbells and the error wrapped "failed to get doorbells". Otherwise exactly the managed doorbells of the inventory, in order. |
| UnifiBootstrap.FirstNamed | x/unifi/bootstrap.go:409-410 | The index of the first old entry with the given name, or the length when none has it. |
| UnifiBootstrap.DoesRung | x/unifi/bootstrap.go:408-415 | doesRung; stated by DoesRungIffFirstMatchSmaller, NewcomerNeverRings and LaterDuplicatesIgnored. |
| UnifiBootstrap.DoesRungIffFirstMatchSmaller | x/unifi/bootstrap.go:408-415 | A doorbell rang iff an old entry has its name and the first such entry has a strictly smaller `LastRing`; equal values never ring. |
| UnifiBootstrap.NewcomerNeverRings | x/unifi/bootstrap.go:408-415 | A doorbell whose name is not among the old entries never rings. |
| UnifiBootstrap.LaterDuplicatesIgnored | x/unifi/bootstrap.go:409-412 | Old entries after the first one of the same name play no part. |
| UnifiSnapshot.GetSnapshot | x/unifi/snapshot.go:11-40 | GET of `/api/cameras/<id>/snapshot`. A request error is wrapped "failed to get snapshot" and nothing is written. A status of 300 or more gives `HttpError{status text, code, url, GET}` and nothing is written. Below 300 the body is written and the result is nil. |
| UnifiMessage.PayloadDuration | x/unifi/message.go:29 | The payload duration of a non-negative duration is its whole seconds, truncated. |
| UnifiMessage.PayloadDurationOfWholeSeconds | x/unifi/message.go:29 | A whole number of seconds survives the conversion unchanged. |
| UnifiMessage.MessageRequest | x/unifi/message.go:11-35 | SetMessage sends a PATCH of `https://<ip>:7443/api/cameras/<id>` with the stored header and `lcdMessage{duration, text, "CUSTOM_MESSAGE"}`. |
| UnifiMessage.SetMessage | x/unifi/message.go:35-37 | Success iff that request is answered (not cancelled) below 300. No body is decoded. Errors are wrapped "failed to set message". |
| Listener.RingingURLInjective | listener/listener.go:108-111 | The page `http://127.0.0.1:<WebPort>/ringing/<ID>` determines both port and ID. |
| Listener.Listener.OnRung | listener/listener.go:108-118 | Opens exactly the doorbell's ringing page; a browser failure is returned wrapped "failed to open browser". |
| Listener.RingEdges | listener/listener.go:46-52 | The doorbells of the fetched list that rang against the state, in list order (with the membership and concatenation lemmas below). |
| Listener.RingEdgesMembership | listener/listener.go:46-52 | A doorbell is handled by poll iff it is in the fetched list and DoesRung holds against the state. |
| Listener.RingEdgesConcat | listener/listener.go:46-52 | Edges are found in list order. |
| Listener.FirstFailure | listener/listener.go:46-52 | The number of pages opened before the first failure. |
| Listener.PollOutcome | listener/listener.go:40-56 | The specification of poll; its properties are PollFetchFailure and PollOpensEdgesInOrder. |
| Listener.Listener.Poll | listener/listener.go:40-56 | poll equals PollOutcome: a failed fetch returns "failed to poll" and keeps the state. Otherwise the edges' pages open in order until one fails. The state becomes the fetched list only when all opened. |
| Listener.PollFetchFailure | listener/listener.go:41-44 | A failed fetch returns an error, opens nothing and leaves the state unchanged. |
| Listener.PollOpensEdgesInOrder | listener/listener.go:46-55 | The pages opened are a prefix of the edges' pages. The poll succeeds iff all opened, and then the state is the fetched list. On a failure it stops right after the failing page and keeps the state. |
| Listener.RingEdgesFromEmpty | listener/listener.go:32-38 | Against the empty state of a new Listener nothing rings. |
| Listener.Listener.constructor | listener/listener.go:32-38 | A new Listener has an empty state. |
| Listener.FirstPollFiresNothing | listener/listener.go:32-56 | The first successful poll of a new Listener fires nothing and stores the fetched list. |
| Listener.RingEdgesOfSameList | listener/listener.go:46-54 | With distinct names, a list compared with itself has no edge. |
| Listener.SecondPollOfSameListFiresNothing | listener/listener.go:46-54 | After a successful poll of a list with distinct names, from any state, a second poll of the same list fires nothing and keeps the list. |
| Listener.DuplicateNameRingsOnEveryPoll | x/unifi/bootstrap.go:409-412 | Two doorbells of one name: the later one rings on every poll of an unchanged list. |
| Listener.PollLoop | listener/listener.go:60-83 | The specification of Start's loop after a successful ping; how it ends is stated by the lemmas below. |
| Listener.PollLoopEndsAt | listener/listener.go:71-81 | A tick the loop reaches decides it: Done ends Start with nil, a failing poll ends it with that poll's error wrapped ": %w", any other tick lets the loop reach the next one. |
| Listener.StopsAtSomeTick | listener/listener.go:71-81 | A loop that has returned was stopped by a tick it reached: a Done tick when it returned nil, a failing poll when it returned an error. |
| Listener.PollLoopEnds | listener/listener.go:71-81 | Start's loop returns nil iff it reaches a Done tick, returns an error iff it reaches a failing poll, and is still polling iff no tick it reaches stops it. |
| Listener.Listener.Start | listener/listener.go:60-83 | A failed ping is returned before any poll and the state is untouched. Otherwise Start follows PollLoop: a done context returns nil, and a poll error ends Start with that error wrapped. |
| WifiMac.To4 | x/wifimac/macaddress.go:36-39 | An IP is IPv4 iff it has 4 bytes or is a 16-byte IPv4-mapped address; the result is its last 4 bytes. |
| WifiMac.QualifiesExactly | x/wifimac/macaddress.go:26-39 | An address qualifies iff it carries a plain or ::ffff:-mapped IPv4 address outside 127.0.0.0/8; a 16-byte address outside the mapping, ::1 among them, never qualifies. |
| WifiMac.MacAddressOf | x/wifimac/macaddress.go:14-47 | The specification of the interface scan, one interface at a time; its properties are the lemmas below. |
| WifiMac.GetMacAddress | x/wifimac/macaddress.go:9-48 | The nested loops compute MacAddressOf of the listing; a listing error is returned. |
| WifiMac.SkippedInterfaceIsIgnored | x/wifimac/macaddress.go:15-20 | Interfaces that are down or loopback have no influence on the result. |
| WifiMac.FirstQualifyingInterfaceWins | x/wifimac/macaddress.go:40-44 | The result is InterfaceByName of the first examined interface, in list order, that has a qualifying address. |
| WifiMac.AddressListingErrorAborts | x/wifimac/macaddress.go:21-24 | An address-listing error on an examined interface aborts, whatever later interfaces hold. |
| WifiMac.NoCandidateMeansNotFound | x/wifimac/macaddress.go:47 | If no interface is a candidate the error is "not found network". |
| WifiMac.FoundComesFromQualifyingInterface | x/wifimac/macaddress.go:25-44 | A found address is always InterfaceByName's answer for an up, non-loopback interface with a qualifying address. |
| WifiMac.MacString | cmd/run.go:89 | `HardwareAddr.String()`: "" for no bytes, otherwise 3n-1 characters. |
| WifiMac.MacStringInjective | cmd/run.go:89 | Distinct hardware addresses have distinct strings, so the gate's string comparison compares addresses. |
| WifiMac.MacStringLayout | cmd/run.go:89 | Every byte but the last gives its two lower-case hex digits followed by ':', at positions 3i to 3i+2; the last pair ends the string. |
| RunCommand.Boot | cmd/run.go:148-211 | The outcome of boot for the event that ends its select; its rules are the two lemmas below. |
| RunCommand.BootShutdownSet | cmd/run.go:148-211 | Cancellation shuts down all three services; a failed service is not shut down and exactly the other two are. |
| RunCommand.BootNeverReturnsNil | cmd/run.go:148-211 | boot returns the failing service's error wrapped "unexpected error occurred", or Canceled; never nil. |
| RunCommand.BootWithMacAddressObservation | cmd/run.go:74-124 | The loop computes Gate over the samples and boot outcomes: outcome and the sequence of sleeps and boots. |
| RunCommand.Gate | cmd/run.go:74-124 | The specification of the gate loop: it takes at most one action per sample, and it returns only right after a boot. |
| RunCommand.NoMatchNeverBoots | cmd/run.go:79-123 | With no matching sample the gate only sleeps; it never boots and never returns. |
| RunCommand.BootsOnlyOnMatch | cmd/run.go:79-93 | The k-th action answers the k-th sample, and every Booted action answers a sample that matches the configured address; so there are never more boots than matching samples. |
| RunCommand.SamplingFailureIsAMismatch | cmd/run.go:80-88 | A failed sample acts like a sample of another address: sleep and sample again, never an error. |
| RunCommand.GateNilNeedsNilBoot | cmd/run.go:90-93 | The gate returns nil only after a boot returned nil. |
| RunCommand.GateWithBootNeverReturnsNil | cmd/run.go:90-93 | With this boot the gate's nil return cannot happen. |
| RunCommand.GateErrorIsABootError | cmd/run.go:104-105 | Every error the gate returns is a boot error wrapped "unexpected error occurred". |
| RunCommand.FailedBootThenMatchReturnsError | cmd/run.go:94-106 | A failed boot followed by a matching re-sample returns that error, wrapped. |
| RunCommand.FailedBootThenMismatchStartsOver | cmd/run.go:94-114 | A failed boot followed by a failed or different re-sample sleeps and starts over without an error. |
| RunCommand.RunE | cmd/run.go:42-60 | How RunE ends for the chosen path, the signal and the goroutine outcome; stated by RunEPathSelection. |
| RunCommand.RunEPathSelection | cmd/run.go:42-60 | The gate runs iff the boot MAC address is non-empty, otherwise boot. A signal ends RunE with nil. A goroutine error is returned. A goroutine finishing with nil sends nothing and RunE waits. |
| Frontend.Exist | web/frontend/server.go:48-59 | The embedded-file test; stated by ExistNeedsSlash and ExistLooksAfterFirstSlash. |
| Frontend.ExistNeedsSlash | web/frontend/server.go:49-53 | A name without '/' never exists. |
| Frontend.ExistLooksAfterFirstSlash | web/frontend/server.go:49-59 | `x/y` with no '/' in x exists iff y is an embedded file. |
| Frontend.Ext | web/frontend/server.go:114 | `filepath.Ext`: "" or a suffix of the path that starts with its only '.' and holds no '/'; it is "" iff no '.' follows the last '/'. |
| Frontend.ExtOfDotted | web/frontend/server.go:114 | The extension of x + "." + y, for a y without '.' or '/', is "." + y. |
| Frontend.ExtIsNeverBareHtml | web/frontend/server.go:114 | Ext is never "html", so that comparison is dead. |
| Frontend.WellKnownConfigurationNamesPort | web/frontend/server.go:89-101 | The endpoint body `{"api_endpoint":"http://127.0.0.1:<ApiPort>"}` gives the API port back. |
| Frontend.HandleWellKnownConfiguration | web/frontend/server.go:89-101 | It adds the JSON content type and writes the endpoint body. |
| Frontend.RouteOf | web/frontend/server.go:103-124 | The branch ServeHTTP takes, as written; stated by RoutingPrecedence and MissingHtmlPageIsNotFound. |
| Frontend.RoutingPrecedence | web/frontend/server.go:103-124 | The well-known path is answered first, then an existing file. The index page is served only for an extension "" when index.html is readable. Otherwise 404. |
| Frontend.Server.ServeHTTP | web/frontend/server.go:103-124 | ServeHTTP writes the answer of the route chosen as written. |
| Frontend.MissingHtmlPageIsNotFound | web/frontend/server.go:114-123 | As written, a missing `/page.html` gets 404 while the intended routing serves index.html. |
| Frontend.IntendedFallback | web/frontend/server.go:114-120 | Intended: paths without a file and with extension "" or ".html" get the index page. |
| Frontend.Server.ServeHTTPIntended | web/frontend/server.go:103-124 | ServeHTTP with the dotted ".html" comparison. |
| ApiMiddleware.CorsHeaders | web/api/middleware.go:7-9 | The three Access-Control headers are set to `*`, `*` and `GET, POST, OPTIONS`; other headers are kept. |
| ApiMiddleware.Cors | web/api/middleware.go:5-17 | What allowCORS writes; stated by PreflightShortCircuits and OtherRequestsReachNext. |
| ApiMiddleware.PreflightShortCircuits | web/api/middleware.go:10-13 | An OPTIONS request gets the headers and 200 and does not depend on next. |
| ApiMiddleware.OtherRequestsReachNext | web/api/middleware.go:14 | Any other request goes to next exactly once, after the headers are set. |
| ApiMiddleware.ChainIsCorsAroundRoute | web/api/middleware.go:19-24 | requestLogging forwards to next and adds nothing. |
| ApiMiddleware.AllowCORS | web/api/middleware.go:5-17 | The handler writes what Cors specifies. |
| ApiMiddleware.RequestLogging | web/api/middleware.go:19-24 | The handler only runs next. |
| ApiHandler.MessageTemplateList | web/api/hanlder.go:14-28 | The handler writes what TemplateListAnswer specifies. |
| ApiHandler.TemplateListOutcome | web/api/hanlder.go:14-28 | On success the templates are written unchanged with 200; an encode failure gives 500 and no body. |
| ApiHandler.GetSnapshotHandler | web/api/hanlder.go:30-48 | getSnapshot as written: it writes what GetSnapshotAnswer specifies with the never-matching HttpError test. |
| ApiHandler.GetSnapshotAnswer | web/api/hanlder.go:30-48 | What getSnapshot writes, for either way of recognising an HttpError; stated by the lemmas below. |
| ApiHandler.MissingDoorbellIsBadRequest | web/api/hanlder.go:32-36 | Without a `doorbellID` route variable the answer is 400. |
| ApiHandler.AsWrittenEveryErrorIs500 | web/api/hanlder.go:38-47 | As written, every snapshot error with nothing copied is answered 500. |
| ApiHandler.AsWritten404Becomes500 | web/api/hanlder.go:39-41 | A UniFi 404 becomes 500 as written and 404 as intended. |
| ApiHandler.GetSnapshotHandlerIntended | web/api/hanlder.go:30-48 | getSnapshot with the HttpError recognised. |
| ApiHandler.IntendedSnapshotStatus | web/api/hanlder.go:38-47 | Intended: an HttpError is answered with its own code, other errors with 500, success with 200 and the snapshot bytes. |
| ApiHandler.ParamOf | web/api/hanlder.go:51-68 | A decode failure gives no param. Otherwise the param carries the decoded doorbell ID and message ("" when absent) and the decoded `duration_sec`, 30 when absent. |
| ApiHandler.DurationRoundTrip | web/api/hanlder.go:74 | Up to 9223372036 seconds, the payload carries exactly `DurationSec`. |
| ApiHandler.DurationOverflow | web/api/hanlder.go:74 | At 9223372037 seconds the product wraps negative and the payload carries 18446744064486179580. |
| ApiHandler.SetMessageAnswer | web/api/hanlder.go:50-82 | What setMessage writes; stated by SetMessageStatus. |
| ApiHandler.SetMessageHandler | web/api/hanlder.go:50-82 | The handler writes what SetMessageAnswer specifies. |
| ApiHandler.SetMessageStatus | web/api/hanlder.go:64-81 | A decode failure gives 500. Otherwise 201 iff the PATCH for the decoded id, message and duration is answered below 300, else 500. |
| ApiHandler.DefaultDurationIsThirtySeconds | web/api/hanlder.go:56 | Without `duration_sec` the display shows the message for 30 seconds. |
| ViperProvider.Provider.GetStringOr | driver/configuration/viper_provider.go:28-34 | getString returns the default iff the stored text is "" (or equals the default). |
| ViperProvider.Provider.GetBoolOr | driver/configuration/viper_provider.go:36-42 | getBool returns the default iff the key is unset; otherwise the stored value cast to bool, even false. |
| ViperProvider.Provider.LogLevel | driver/configuration/viper_provider.go:48-50 | LogLevel defaults to "info". |
| ViperProvider.Provider.UnifiSkipTLSVerify | driver/configuration/viper_provider.go:52-54 | UnifiSkipTLSVerify is true when the key is unset; otherwise it is the stored value cast to bool, so a stored false stays false. |
| ViperProvider.Provider.MessageList | driver/configuration/viper_provider.go:90-92 | Unset gives no templates. A stored list is returned unchanged; a stored string is split by strings.Fields; a stored number or boolean gives its one-element text. |
| ViperProvider.Fields | driver/configuration/viper_provider.go:90-92 | strings.Fields: every field is non-empty and free of white space (with the partner lemmas below). |
| ViperProvider.FieldsKeepsNonSpace | driver/configuration/viper_provider.go:90-92 | The fields, concatenated, are exactly the characters of the string that are not white space, in order. |
| ViperProvider.FieldsSplitAtSpace | driver/configuration/viper_provider.go:90-92 | Splitting a + c + b at a white-space character c gives the fields of a followed by the fields of b. |
| ViperProvider.FieldsOfUnwords | driver/configuration/viper_provider.go:90-92 | Non-empty words without white space, joined by single spaces, are split back into the same words. |
| ViperProvider.Provider.GetString | driver/configuration/viper_provider.go:56-66 | viper.GetString: the stored value cast to text, "" when unset. |
| ViperProvider.Provider.GetInt | driver/configuration/viper_provider.go:68-80 | viper.GetInt: the stored value cast by ToInt, 0 when unset. |
| ViperProvider.ParseIntBase0 | driver/configuration/viper_provider.go:69 | strconv.ParseInt with base 0, as cast.ToInt reads a string: only values inside int64 are read. |
| ViperProvider.ParseIntBase0OfDecimal | driver/configuration/viper_provider.go:69 | Every int64 written in decimal is read back as itself. |
| ViperProvider.PlusSignedPort | driver/configuration/viper_provider.go:69 | A stored "+8080" reads as 8080. |
| ViperProvider.HexPort | driver/configuration/viper_provider.go:69 | A stored "0x1F90" reads as 8080. |
| ViperProvider.LeadingZeroIsOctal | driver/configuration/viper_provider.go:69 | A stored "010" reads as 8, and "08080" does not parse, so it reads as 0 and a free port is chosen. |
| ViperProvider.FirstNonZero | driver/configuration/viper_provider.go:69-74 | The index of the first non-zero free-port answer. |
| ViperProvider.Provider.Port | driver/configuration/viper_provider.go:68-88 | A non-zero stored port is returned unchanged. At 0 the free-port answers are stored one by one until a non-zero one, which is returned and left stored. If all answers are 0 the lookup never ends. A returned port is what a second lookup reads. |
| ViperProvider.Provider.WebPort | driver/configuration/viper_provider.go:68-77 | Port for `web.port`: a non-zero stored port is returned unchanged; at 0 the first non-zero free-port answer is stored under `web.port` alone and returned; all-zero answers never end. |
| ViperProvider.Provider.ApiPort | driver/configuration/viper_provider.go:79-88 | Port for `api.port`: a non-zero stored port is returned unchanged; at 0 the first non-zero free-port answer is stored under `api.port` alone and returned; all-zero answers never end. |

## Left out

- The network, TLS, JSON encoding and decoding, and `url.URL` escaping. A request is its method, URL, header and a named payload. A decoder is an input.
- The goroutine and channel race in `request`. Cancellation is one boolean. `req.WithContext` in `x/unifi/request.go:35` discards its result, so the context does not reach the HTTP client.
- The `select`/errgroup mechanics of `boot`, the server `Start` methods and the signal channel. Only their outcome rules are kept. The shutdown calls' own errors are only logged, so they are not modelled.
- `boot` waiting forever when a service returns nil from Start. A `Wakeup` is the event that ends the select.
- The ticker and the exponential backoff of `Listener.Start`/`ping`. `ping` is an oracle, and its Authenticate call does not update a modelled client.
- Sleeps in the gate. Logging everywhere.
- cmd/run.go calls `Listener().Start()` without a context, while listener/listener.go takes `Start(ctx)`. web/api/server.go asks for `APIPort()`, while the provider defines `ApiPort()`. Each file is modelled against its own signatures.
- `HttpError.Code()` is not part of this model's sources; it is taken to return the `code` field.
- `http.FileServer` output is a named chunk. `fs.ReadFile` of index.html is an optional byte sequence.
- Headers edited after the status is written still change the modelled header map. No handler here edits headers after writing.
- Viper's case-insensitive keys, environment overrides and nested maps.
- ToInt: strings are read by strconv.ParseInt with base 0 (sign, `0b`/`0o`/`0x` prefixes, a leading `0` for octal, int64 range), but digit-grouping underscores are not modelled: "8_080" reads as 8080 in Go and as 0 in the model. Newer cast releases also drop a trailing ".0" before parsing ("8080.0" reads as 8080); the model reads it as 0.
- Viper casts of value kinds other than strings, booleans, integers and string lists (floats, maps) are not modelled. Non-ASCII white space other than NEL and NBSP does not split fields.
- `freeport.GetFreePort` errors are a 0 answer, as the ignored error makes them.
- The giant `Bootstrap`/`Camera` structs beyond the kind, name, ID, managed flag, last ring and MAC.
- `net.Interfaces` flags other than up and loopback.
- UnifiMessage.PayloadDuration: `duration.Seconds()` is floating point. The model uses exact integer division and truncation. For durations of about 97 days or more that are not whole seconds, float rounding can differ by a second. A negative float converted to uint64 is implementation-specific in Go; the model wraps it.
- A duplicate doorbell name is a property of the inventory, not an error. Listener.DuplicateNameRingsOnEveryPoll shows that the later doorbell of such a pair rings on every poll.
- The gate's nil branch is unreachable with the modelled boot, because boot's cancellation path returns `ctx.Err()`, which is never nil (RunCommand.GateWithBootNeverReturnsNil).
- A `DurationSec` above 9223372036 overflows `time.Duration` (ApiHandler.DurationOverflow). Nothing checks it, but it is an input out of any reasonable range, so it is not listed as a finding.

## Findings

| source | as written | input that shows it | evidently intended | confidence | as-written member | corrected member |
|---|---|---|---|---|---|---|
| web/api/hanlder.go:39 | `xerrors.Is(err, &unifi.HttpError{})` compares the chain with a freshly allocated pointer. HttpError has no `Is` method here, so every snapshot error is answered 500. | a snapshot request answered 404 | answer an HttpError with its own status code | not executed; high unless another revision adds an `Is` method | ApiHandler.AsWritten404Becomes500 | ApiHandler.IntendedSnapshotStatus |
| web/frontend/server.go:114 | `filepath.Ext` includes the dot, so `== "html"` never holds and missing `.html` paths get 404 | `/page.html` with no such embedded file | serve index.html for `.html` paths too | not executed; high | Frontend.MissingHtmlPageIsNotFound | Frontend.IntendedFallback |
