/**
 * web/frontend/server.go: the embedded-file check exist, the routing of ServeHTTP and the
 * well-known configuration endpoint. The embedded file system is the set of its file names
 * and the contents of index.html (None when it cannot be read).
 */
module Frontend {
  import opened Options
  import opened Net
  import Decimal
  import Strings
  import opened HttpWriter

  const WellKnownPath := "/.well-known/configuration"

  /**
   * exist: strings.SplitN(name, "/", 2) must give two parts, so a name without '/' fails;
   * the part after the first '/' is looked up among the embedded files.
   */
  predicate Exist(name: string, files: set<string>) {
    var k := Strings.IndexOf(name, '/');
    k < |name| && name[k + 1..] in files
  }

  /** A name without '/' never exists. */
  lemma ExistNeedsSlash(name: string, files: set<string>)
    requires forall j :: 0 <= j < |name| ==> name[j] != '/'
    ensures !Exist(name, files)
  {
  }

  /** A name x + "/" + y with no '/' in x exists iff y is an embedded file; later slashes stay in y. */
  lemma ExistLooksAfterFirstSlash(x: string, y: string, files: set<string>)
    requires forall j :: 0 <= j < |x| ==> x[j] != '/'
    ensures Exist(x + "/" + y, files) <==> y in files
  {
    Strings.IndexOfAfter(x, '/', y);
    assert (x + "/" + y)[|x| + 1..] == y;
  }

  /** filepath.Ext: the suffix from the last '.' of the final element, or "" when it has none. */
  function Ext(path: string): (e: string)
    ensures e == "" || (e[0] == '.' && forall j :: 1 <= j < |e| ==> e[j] != '.' && e[j] != '/')
    ensures |e| <= |path| && e == path[|path| - |e|..]
    ensures e == "" <==> forall j :: 0 <= j < |path| && '/' !in path[j..] ==> path[j] != '.'
    decreases |path|
  {
    if path == [] || path[|path| - 1] == '/' then ""
    else if path[|path| - 1] == '.' then "."
    else
      var e := Ext(path[..|path| - 1]);
      if e == "" then "" else e + [path[|path| - 1]]
  }

  /** The body handleWellKnownConfiguration writes: json encoding of {"api_endpoint": ...} and a newline. */
  function WellKnownConfiguration(apiPort: int): string {
    "{\"api_endpoint\":\"http://127.0.0.1:" + Decimal.IntToDecimal(apiPort) + "\"}\n"
  }

  const EndpointPrefix := "{\"api_endpoint\":\"http://127.0.0.1:"

  /** The endpoint text gives the API port back. */
  lemma WellKnownConfigurationNamesPort(apiPort: int)
    ensures var s := WellKnownConfiguration(apiPort);
      |s| >= |EndpointPrefix| + 3 && Decimal.ParseInt(s[|EndpointPrefix|..|s| - 3]) == Some(apiPort)
  {
    var d := Decimal.IntToDecimal(apiPort);
    var s := WellKnownConfiguration(apiPort);
    assert s == EndpointPrefix + d + "\"}\n";
    assert s[|EndpointPrefix|..|s| - 3] == d;
    Decimal.ParseIntToDecimal(apiPort);
  }

  /** handleWellKnownConfiguration: Content-Type application/json, then the body. */
  function HandleWellKnownConfiguration(apiPort: int, o: Output): (r: Output)
    ensures "Content-Type" !in o.header ==> "Content-Type" in r.header && r.header["Content-Type"] == ["application/json"]
    ensures r.body == o.body + [Text(WellKnownConfiguration(apiPort))]
    ensures FinalStatus(r) == FinalStatus(o)
  {
    WithChunk(o.(header := HeaderAdd(o.header, "Content-Type", "application/json")), Text(WellKnownConfiguration(apiPort)))
  }

  /** Which branch of ServeHTTP answered. */
  datatype Route = WellKnown | FileServer | IndexPage | NotFound

  /** The choice ServeHTTP makes, as written: the fallback test compares Ext with "html" and "". */
  function RouteOf(path: string, files: set<string>, index: Option<seq<byte>>): Route {
    if path == WellKnownPath then WellKnown
    else if Exist(path, files) then FileServer
    else if (Ext(path) == "html" || Ext(path) == "") && index.Some? then IndexPage
    else NotFound
  }

  /** The same choice with the dotted extension the fallback evidently means. */
  function RouteOfIntended(path: string, files: set<string>, index: Option<seq<byte>>): Route {
    if path == WellKnownPath then WellKnown
    else if Exist(path, files) then FileServer
    else if (Ext(path) == ".html" || Ext(path) == "") && index.Some? then IndexPage
    else NotFound
  }

  /** What each route writes. */
  function Answer(route: Route, path: string, apiPort: int, index: Option<seq<byte>>, o: Output): Output {
    match route
    case WellKnown => HandleWellKnownConfiguration(apiPort, o)
    case FileServer => WithChunk(o, StaticFile(path))
    case IndexPage =>
      var b := if index.Some? then index.value else [];
      WithChunk(o.(header := HeaderAdd(o.header, "Content-Type", "text/html")), Bytes(b))
    case NotFound => WithStatus(o, StatusNotFound)
  }

  /** Ext never returns "html" without the dot, so the "html" test never holds. */
  lemma ExtIsNeverBareHtml(path: string)
    ensures Ext(path) != "html"
  {
  }

  /** An existing file is served before any fallback; the well-known path comes before both. */
  lemma RoutingPrecedence(path: string, files: set<string>, index: Option<seq<byte>>)
    ensures path == WellKnownPath ==> RouteOf(path, files, index) == WellKnown
    ensures path != WellKnownPath && Exist(path, files) ==> RouteOf(path, files, index) == FileServer
    ensures RouteOf(path, files, index) == IndexPage ==> !Exist(path, files) && Ext(path) == "" && index.Some?
    ensures RouteOf(path, files, index) == NotFound <==>
      path != WellKnownPath && !Exist(path, files) && (Ext(path) != "" || index.None?)
  {
    ExtIsNeverBareHtml(path);
  }

  /** The extension of x + "." + y, for a y without '.' or '/', is "." + y. */
  lemma ExtOfDotted(x: string, y: string)
    requires forall j :: 0 <= j < |y| ==> y[j] != '.' && y[j] != '/'
    ensures Ext(x + "." + y) == "." + y
  {
    var p := x + "." + y;
    var n := |x|;
    assert p[n..] == "." + y;
    assert p[n] == '.' && '/' !in p[n..];
    var e := Ext(p);
    var m := |p| - |e|;
    assert e != "" && p[m] == e[0] == '.';
    assert forall j :: n < j < |p| ==> p[j] == y[j - n - 1];
    assert m == n;
  }

  /** As written, a missing "/page.html" gets 404 even though index.html can be read. */
  lemma MissingHtmlPageIsNotFound(index: seq<byte>)
    ensures RouteOf("/page.html", {}, Some(index)) == NotFound
    ensures RouteOfIntended("/page.html", {}, Some(index)) == IndexPage
  {
    assert "/page.html" == "/page" + "." + "html";
    ExtOfDotted("/page", "html");
  }

  /** In the intended routing, every path without a file and with extension "" or ".html" gets the SPA page. */
  lemma IntendedFallback(path: string, files: set<string>, index: seq<byte>)
    requires path != WellKnownPath && !Exist(path, files)
    ensures RouteOfIntended(path, files, Some(index)) == IndexPage <==> Ext(path) == "" || Ext(path) == ".html"
  {
  }

  class Server {
    const apiPort: int
    const files: set<string>
    const index: Option<seq<byte>>

    constructor (apiPort: int, files: set<string>, index: Option<seq<byte>>)
      ensures this.apiPort == apiPort && this.files == files && this.index == index
    {
      this.apiPort := apiPort;
      this.files := files;
      this.index := index;
    }

    /** ServeHTTP as written. */
    method ServeHTTP(path: string, w: ResponseWriter)
      modifies w
      ensures w.output == Answer(RouteOf(path, files, index), path, apiPort, index, old(w.output))
    {
      if path == WellKnownPath {
        w.AddHeader("Content-Type", "application/json");
        w.Write(Text(WellKnownConfiguration(apiPort)));
        return;
      }
      if Exist(path, files) {
        w.Write(StaticFile(path));
        return;
      }
      if Ext(path) == "html" || Ext(path) == "" {
        if index.Some? {
          w.AddHeader("Content-Type", "text/html");
          w.Write(Bytes(index.value));
          return;
        }
      }
      w.WriteHeader(StatusNotFound);
    }

    /** ServeHTTP with the fallback comparing against ".html". */
    method ServeHTTPIntended(path: string, w: ResponseWriter)
      modifies w
      ensures w.output == Answer(RouteOfIntended(path, files, index), path, apiPort, index, old(w.output))
    {
      if path == WellKnownPath {
        w.AddHeader("Content-Type", "application/json");
        w.Write(Text(WellKnownConfiguration(apiPort)));
        return;
      }
      if Exist(path, files) {
        w.Write(StaticFile(path));
        return;
      }
      if Ext(path) == ".html" || Ext(path) == "" {
        if index.Some? {
          w.AddHeader("Content-Type", "text/html");
          w.Write(Bytes(index.value));
          return;
        }
      }
      w.WriteHeader(StatusNotFound);
    }
  }
}
