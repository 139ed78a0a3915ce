/**
 * The serverless entry point of the back end: split the request path into
 * segments, answer the health check, dispatch `api/public`, `api/admin` and
 * `api/auth` to their handlers, answer 404 otherwise, and add the baseline
 * security headers a handler's response lacks.
 *
 * Headers follow the Fetch standard's `Headers` object: names are compared
 * case-insensitively, so the map is keyed by the lower-cased name. The route
 * handlers are parameters.
 */
module Router {
  import Strings
  import Seqs

  /** A `Headers` object: lower-cased name to value. */
  type Headers = map<string, string>

  datatype Response = Response(status: int, statusText: string, headers: Headers, body: string)

  /** The baseline headers every API response carries, in their declared order. */
  const SecurityHeaders: seq<(string, string)> := [
    ("X-Frame-Options", "DENY"),
    ("X-Content-Type-Options", "nosniff"),
    ("Referrer-Policy", "strict-origin-when-cross-origin"),
    ("Permissions-Policy", "camera=(), microphone=(), geolocation=(self)"),
    ("X-DNS-Prefetch-Control", "on")
  ]

  /** `headers.set(name, value)`. */
  function Set(h: Headers, name: string, value: string): Headers {
    h[Strings.Lower(name) := value]
  }

  /** `headers.has(name)`. */
  predicate Has(h: Headers, name: string) {
    Strings.Lower(name) in h
  }

  function IsNonEmpty(s: string): bool { s != "" }

  /** `pathname.split("/").filter(Boolean)`: the non-empty segments, in order. */
  function Segments(path: string): (segs: seq<string>)
    ensures forall i :: 0 <= i < |segs| ==> segs[i] != ""
  {
    var parts := Strings.Split(path, {'/'});
    Seqs.FilterMembers(parts, IsNonEmpty, "");
    Seqs.Filter(parts, IsNonEmpty)
  }

  /** The segments on both sides of a slash are the segments of the whole path. */
  lemma {:induction false} SegmentsAtSlash(a: string, b: string)
    ensures Segments(a + "/" + b) == Segments(a) + Segments(b)
  {
    Strings.SplitAtSeparator(a, '/', b, {'/'});
    Seqs.FilterAppend(Strings.Split(a, {'/'}), Strings.Split(b, {'/'}), IsNonEmpty);
  }

  /** A path without a slash is one segment, or none when it is empty. */
  lemma {:induction false} SegmentsOfWord(w: string)
    requires forall j :: 0 <= j < |w| ==> w[j] != '/'
    ensures Segments(w) == if w == "" then [] else [w]
  {
    Strings.SplitNoSeparator(w, {'/'});
    assert Strings.Split(w, {'/'}) == [w];
    assert Seqs.Filter([w], IsNonEmpty) == (if IsNonEmpty(w) then [w] else []) + Seqs.Filter([w][1..], IsNonEmpty);
    assert [w][1..] == [];
  }

  /** Doubled and trailing slashes do not change the segments. */
  lemma {:induction false} ExtraSlashesIgnored(a: string, b: string)
    ensures Segments(a + "/" + "/" + b) == Segments(a + "/" + b)
    ensures Segments(a + "/") == Segments(a)
  {
    LeadingSlashIgnored(b);
    assert a + "/" + "/" + b == a + "/" + ("/" + b);
    SegmentsAtSlash(a, "/" + b);
    SegmentsAtSlash(a, b);
    TrailingSlashIgnored(a);
  }

  /** A leading slash adds no segment. */
  lemma {:induction false} LeadingSlashIgnored(b: string)
    ensures Segments("/" + b) == Segments(b)
  {
    SegmentsOfWord("");
    SegmentsAtSlash("", b);
    assert "" + "/" + b == "/" + b;
  }

  /** A trailing slash adds no segment. */
  lemma {:induction false} TrailingSlashIgnored(a: string)
    ensures Segments(a + "/") == Segments(a)
  {
    SegmentsOfWord("");
    SegmentsAtSlash(a, "");
    assert a + "/" + "" == a + "/";
  }

  /** Where a request goes. */
  datatype Route = Health | PublicApi(rest: seq<string>) | AdminApi(rest: seq<string>) | AuthApi(rest: seq<string>) | NotFound

  /** The two exact paths of the health check. */
  predicate IsHealthPath(path: string) {
    path == "/health" || path == "/api/health"
  }

  /** The dispatch decision of `handleApiRequest`: the exact health paths first, then `api/<kind>/...`. */
  function RouteOf(path: string): (r: Route)
    ensures r == Health <==> IsHealthPath(path)
    ensures r.PublicApi? || r.AdminApi? || r.AuthApi? ==>
      var segs := Segments(path);
      |segs| >= 2 && segs[0] == "api" && r.rest == segs[2..]
    ensures r.PublicApi? ==> Segments(path)[1] == "public"
    ensures r.AdminApi? ==> Segments(path)[1] == "admin"
    ensures r.AuthApi? ==> Segments(path)[1] == "auth"
    ensures r == NotFound <==>
      !IsHealthPath(path) && !(|Segments(path)| >= 2 && Segments(path)[0] == "api" && Segments(path)[1] in {"public", "admin", "auth"})
  {
    if IsHealthPath(path) then Health
    else
      var segs := Segments(path);
      if |segs| >= 2 && segs[0] == "api" then
        if segs[1] == "public" then PublicApi(segs[2..])
        else if segs[1] == "admin" then AdminApi(segs[2..])
        else if segs[1] == "auth" then AuthApi(segs[2..])
        else NotFound
      else NotFound
  }

  /** Paths that differ only in doubled slashes are dispatched alike, unless one of them is a health path. */
  lemma {:induction false} RouteIgnoresDoubledSlashes(a: string, b: string)
    requires !IsHealthPath(a + "/" + "/" + b) && !IsHealthPath(a + "/" + b)
    ensures RouteOf(a + "/" + "/" + b) == RouteOf(a + "/" + b)
  {
    ExtraSlashesIgnored(a, b);
  }

  /** Two words between slashes, with a trailing slash, are two segments. */
  lemma {:induction false} TwoSegments(w1: string, w2: string)
    requires w1 != "" && w2 != ""
    requires forall j :: 0 <= j < |w1| ==> w1[j] != '/'
    requires forall j :: 0 <= j < |w2| ==> w2[j] != '/'
    ensures Segments("/" + w1 + "/" + w2 + "/") == [w1, w2]
  {
    SegmentsOfWord("");
    SegmentsOfWord(w1);
    SegmentsOfWord(w2);
    SegmentsAtSlash("", w1);
    assert "" + "/" + w1 == "/" + w1;
    SegmentsAtSlash("/" + w1, w2);
    ExtraSlashesIgnored("/" + w1 + "/" + w2, "");
  }

  /** The health check matches the path exactly: with a trailing slash it is a 404. */
  lemma {:induction false} HealthIsExact()
    ensures RouteOf("/api/health/") == NotFound
  {
    TwoSegments("api", "health");
    assert "/" + "api" + "/" + "health" + "/" == "/api/health/";
  }

  /** Fresh headers with every security header set, then `Content-Type`. */
  function BaselineHeaders(): Headers {
    SetAll(map[], SecurityHeaders)["content-type" := "application/json"]
  }

  /** `forEach(([key, value]) => headers.set(key, value))`. */
  function SetAll(h: Headers, pairs: seq<(string, string)>): (r: Headers)
    ensures forall i :: 0 <= i < |pairs| ==> Strings.Lower(pairs[i].0) in r
    ensures forall k :: k in h ==> k in r
    decreases |pairs|
  {
    if pairs == [] then h else SetAll(Set(h, pairs[0].0, pairs[0].1), pairs[1..])
  }

  /** `forEach(([key, value]) => { if (!headers.has(key)) headers.set(key, value) })`. */
  function SetMissing(h: Headers, pairs: seq<(string, string)>): (r: Headers)
    ensures forall k :: k in h ==> k in r && r[k] == h[k]
    ensures forall i :: 0 <= i < |pairs| ==> Strings.Lower(pairs[i].0) in r
    ensures forall k :: k in r ==> k in h || exists i :: 0 <= i < |pairs| && Strings.Lower(pairs[i].0) == k
    decreases |pairs|
  {
    if pairs == [] then h
    else
      var name := Strings.Lower(pairs[0].0);
      var next := if name in h then h else h[name := pairs[0].1];
      var r := SetMissing(next, pairs[1..]);
      assert forall k :: k in r ==> k in next || exists i :: 0 <= i < |pairs[1..]| && Strings.Lower(pairs[1..][i].0) == k;
      assert forall i :: 0 <= i < |pairs[1..]| ==> pairs[1..][i] == pairs[i + 1];
      r
  }

  /** A missing header gets the value of the first pair that names it. */
  lemma {:induction false} SetMissingValue(h: Headers, pairs: seq<(string, string)>, i: nat)
    requires i < |pairs| && Strings.Lower(pairs[i].0) !in h
    requires forall j :: 0 <= j < i ==> Strings.Lower(pairs[j].0) != Strings.Lower(pairs[i].0)
    ensures SetMissing(h, pairs)[Strings.Lower(pairs[i].0)] == pairs[i].1
    decreases i
  {
    var name := Strings.Lower(pairs[0].0);
    var next := if name in h then h else h[name := pairs[0].1];
    if i > 0 {
      assert pairs[1..][i - 1] == pairs[i];
      SetMissingValue(next, pairs[1..], i - 1);
    }
  }

  /** A copy of `resp` with every header of `pairs` it lacks added, and nothing else changed. */
  function AddMissingHeaders(resp: Response, pairs: seq<(string, string)>): (r: Response)
    ensures r.status == resp.status && r.statusText == resp.statusText && r.body == resp.body
    ensures forall k :: k in resp.headers ==> k in r.headers && r.headers[k] == resp.headers[k]
    ensures forall i :: 0 <= i < |pairs| ==> Has(r.headers, pairs[i].0)
  {
    Response(resp.status, resp.statusText, SetMissing(resp.headers, pairs), resp.body)
  }

  /** `addSecurityHeaders`. */
  function AddSecurityHeaders(resp: Response): Response {
    AddMissingHeaders(resp, SecurityHeaders)
  }

  /** The health check's JSON body. */
  function HealthBody(timestamp: string): string {
    "{\"status\":\"ok\",\"timestamp\":\"" + timestamp + "\"}"
  }

  const NotFoundBody: string := "{\"success\":false,\"error\":\"Not found\"}"

  /**
   * `handleApiRequest` for a request whose URL has path `path`. The health
   * body's timestamp is the request instant, rendered by the caller.
   */
  function HandleApiRequest(path: string, timestamp: string,
                            publicRoutes: seq<string> -> Response,
                            adminRoutes: seq<string> -> Response,
                            authRoutes: seq<string> -> Response): (r: Response)
    ensures forall i :: 0 <= i < |SecurityHeaders| ==> Has(r.headers, SecurityHeaders[i].0)
  {
    match RouteOf(path)
    case Health => Response(200, "", BaselineHeaders(), HealthBody(timestamp))
    case PublicApi(rest) => AddSecurityHeaders(publicRoutes(rest))
    case AdminApi(rest) => AddSecurityHeaders(adminRoutes(rest))
    case AuthApi(rest) => AddSecurityHeaders(authRoutes(rest))
    case NotFound => Response(404, "", BaselineHeaders(), NotFoundBody)
  }

  /** The handler a dispatched route goes to. */
  function HandlerFor(route: Route, publicRoutes: seq<string> -> Response,
                      adminRoutes: seq<string> -> Response,
                      authRoutes: seq<string> -> Response): Response
    requires route.PublicApi? || route.AdminApi? || route.AuthApi?
  {
    if route.PublicApi? then publicRoutes(route.rest)
    else if route.AdminApi? then adminRoutes(route.rest)
    else authRoutes(route.rest)
  }

  /** The health check answers 200 and an unknown path 404 with the not-found body. */
  lemma {:induction false} HandleApiRequestOwnAnswers(path: string, timestamp: string,
                                   publicRoutes: seq<string> -> Response,
                                   adminRoutes: seq<string> -> Response,
                                   authRoutes: seq<string> -> Response)
    ensures var r := HandleApiRequest(path, timestamp, publicRoutes, adminRoutes, authRoutes);
      (IsHealthPath(path) ==> r.status == 200 && r.body == HealthBody(timestamp))
      && (RouteOf(path) == NotFound ==> r.status == 404 && r.body == NotFoundBody)
  {
  }

  /** A dispatched request keeps its handler's status, body and every header the handler set. */
  lemma {:induction false} HandleApiRequestDispatched(path: string, timestamp: string,
                                   publicRoutes: seq<string> -> Response,
                                   adminRoutes: seq<string> -> Response,
                                   authRoutes: seq<string> -> Response)
    requires RouteOf(path).PublicApi? || RouteOf(path).AdminApi? || RouteOf(path).AuthApi?
    ensures var r := HandleApiRequest(path, timestamp, publicRoutes, adminRoutes, authRoutes);
      var h := HandlerFor(RouteOf(path), publicRoutes, adminRoutes, authRoutes);
      r.status == h.status && r.body == h.body
      && forall k :: k in h.headers ==> k in r.headers && r.headers[k] == h.headers[k]
  {
  }
}
