/**
 * The bridge that runs the Express back end inside a serverless function:
 * the request side (client address, which bodies are parsed) and the response
 * side, an object that captures status, headers, cookies and body as the
 * back end's handlers call `status`, `json`, `send`, `setHeader`, `cookie`,
 * `clearCookie` and `end`.
 *
 * Payloads are kept as the text the handler passed; JSON parsing and
 * form decoding are parameters.
 */
module BackendAdapter {
  import opened Wrappers
  import Strings
  import Seqs

  /** A header value as `setHeader` receives it: one string or an array of strings. */
  datatype HeaderValue = Single(value: string) | Multiple(values: seq<string>)

  /** The values a header value stands for, in order. */
  function Values(v: HeaderValue): (vs: seq<string>)
    ensures v.Single? ==> vs == [v.value]
    ensures v.Multiple? ==> vs == v.values
  {
    match v
    case Single(x) => [x]
    case Multiple(xs) => xs
  }

  /**
   * The options `cookie` reads. Each is used only when truthy: `httpOnly` and
   * `secure` when true, `sameSite` and `path` when a non-empty string,
   * `maxAge` when a non-zero number.
   */
  datatype CookieOptions = CookieOptions(httpOnly: bool, secure: bool, sameSite: Option<string>,
                                         path: Option<string>, maxAge: Option<int>)

  const NoOptions: CookieOptions := CookieOptions(false, false, None, None, None)

  /** A `Set-Cookie` attribute, as section 4.1.1 of RFC 6265 names them. */
  datatype Attribute = HttpOnly | Secure | SameSite(policy: string) | Path(path: string) | MaxAge(seconds: int)

  /** The position of an attribute in the order `cookie` emits them. */
  function Rank(a: Attribute): (r: nat)
    ensures r < 5
  {
    match a
    case HttpOnly => 0
    case Secure => 1
    case SameSite(_) => 2
    case Path(_) => 3
    case MaxAge(_) => 4
  }

  /** Whether the options ask for attribute `a`: the option is present, truthy and carries `a`'s value. */
  predicate Requested(o: CookieOptions, a: Attribute) {
    match a
    case HttpOnly => o.httpOnly
    case Secure => o.secure
    case SameSite(p) => o.sameSite == Some(p) && p != ""
    case Path(p) => o.path == Some(p) && p != ""
    case MaxAge(n) => o.maxAge == Some(n) && n != 0
  }

  /** The attributes `cookie` appends after `name=value`, one `if (options?.x) cookieParts.push(...)` after another. */
  function Attributes(o: CookieOptions): seq<Attribute> {
    Pushed(o, 5)
  }

  /** The parts after the first `k` of those conditional pushes. */
  function Pushed(o: CookieOptions, k: nat): seq<Attribute>
    requires k <= 5
  {
    if k == 0 then [] else Pushed(o, k - 1) + AskedFor(o, k - 1)
  }

  /** The attributes present are exactly the requested ones, in rank order. */
  lemma {:induction false} AttributesRequested(o: CookieOptions)
    ensures forall a :: a in Attributes(o) <==> Requested(o, a)
    ensures forall i, j :: 0 <= i < j < |Attributes(o)| ==> Rank(Attributes(o)[i]) < Rank(Attributes(o)[j])
  {
    PushedUpto(o, 5);
    UptoAll(o, Attributes(o));
  }

  /** After `k` pushes the parts are the requested attributes of rank below `k`, in rank order. */
  lemma {:induction false} PushedUpto(o: CookieOptions, k: nat)
    requires k <= 5
    ensures Upto(o, Pushed(o, k), k)
  {
    if k > 0 {
      PushedUpto(o, k - 1);
      Push(o, Pushed(o, k - 1), k - 1);
    }
  }

  /** Every attribute has rank below 5, so the parts pushed below rank 5 are all the requested ones. */
  lemma {:induction false} UptoAll(o: CookieOptions, parts: seq<Attribute>)
    requires Upto(o, parts, 5)
    ensures forall a :: a in parts <==> Requested(o, a)
    ensures forall i, j :: 0 <= i < j < |parts| ==> Rank(parts[i]) < Rank(parts[j])
  {
  }

  /** The attribute of rank `k`, when the options ask for it. */
  function AskedFor(o: CookieOptions, k: nat): (e: seq<Attribute>)
    ensures |e| <= 1
    ensures forall a :: a in e <==> Requested(o, a) && Rank(a) == k
  {
    if k == 0 then (if o.httpOnly then [HttpOnly] else [])
    else if k == 1 then (if o.secure then [Secure] else [])
    else if k == 2 then (if o.sameSite.Some? && o.sameSite.value != "" then [SameSite(o.sameSite.value)] else [])
    else if k == 3 then (if o.path.Some? && o.path.value != "" then [Path(o.path.value)] else [])
    else if k == 4 then (if o.maxAge.Some? && o.maxAge.value != 0 then [MaxAge(o.maxAge.value)] else [])
    else []
  }

  /** Pushing attribute `k` when asked for keeps the parts those requested below `k + 1`, in rank order. */
  lemma {:induction false} Push(o: CookieOptions, parts: seq<Attribute>, k: nat)
    requires Upto(o, parts, k)
    ensures Upto(o, parts + AskedFor(o, k), k + 1)
  {
    var e := AskedFor(o, k);
    forall a
      ensures a in parts + e <==> Requested(o, a) && Rank(a) < k + 1
    {
      assert a in parts + e <==> a in parts || a in e;
    }
  }

  /** The attributes pushed so far are the requested ones of rank below `k`, in rank order. */
  ghost predicate Upto(o: CookieOptions, parts: seq<Attribute>, k: nat) {
    (forall a :: a in parts <==> Requested(o, a) && Rank(a) < k)
    && (forall i :: 0 <= i < |parts| ==> Rank(parts[i]) < k)
    && (forall i, j :: 0 <= i < j < |parts| ==> Rank(parts[i]) < Rank(parts[j]))
  }

  /** An attribute as it appears in the header. */
  function Render(a: Attribute): string {
    match a
    case HttpOnly => "HttpOnly"
    case Secure => "Secure"
    case SameSite(p) => "SameSite=" + p
    case Path(p) => "Path=" + p
    case MaxAge(n) => "Max-Age=" + Strings.IntToString(n)
  }

  function RenderAll(attrs: seq<Attribute>): (parts: seq<string>)
    ensures |parts| == |attrs|
    ensures forall i :: 0 <= i < |attrs| ==> parts[i] == Render(attrs[i])
  {
    if attrs == [] then [] else [Render(attrs[0])] + RenderAll(attrs[1..])
  }

  /** The header value `cookie(name, value, options)` records. */
  function CookieHeader(name: string, value: string, o: CookieOptions): string {
    Strings.Join([name + "=" + value] + RenderAll(Attributes(o)), "; ")
  }

  /** The header value `clearCookie(name, options)` records; only `options.path` is read. */
  function ClearCookieHeader(name: string, path: Option<string>): string {
    Strings.Join([name + "="] + RenderAll([MaxAge(0)] + (if path.Some? && path.value != "" then [Path(path.value)] else [])), "; ")
  }

  /** Without options a cookie is just `name=value`, and it always starts with it. */
  lemma {:induction false} CookieHeaderShape(name: string, value: string, o: CookieOptions)
    ensures CookieHeader(name, value, NoOptions) == name + "=" + value
    ensures var h := CookieHeader(name, value, o);
      |name + "=" + value| <= |h| && h[..|name + "=" + value|] == name + "=" + value
  {
    assert Attributes(NoOptions) == [];
  }

  /** A `maxAge` of 0 is dropped like a missing one. */
  lemma {:induction false} ZeroMaxAgeOmitted(name: string, value: string, o: CookieOptions)
    requires o.maxAge == Some(0)
    ensures CookieHeader(name, value, o) == CookieHeader(name, value, o.(maxAge := None))
  {
    var dropped := o.(maxAge := None);
    forall k: nat | k < 5 ensures AskedFor(o, k) == AskedFor(dropped, k) {
    }
    PushedAlike(o, dropped, 5);
  }

  /** The pushes depend only on which attributes the options ask for. */
  lemma {:induction false} PushedAlike(o: CookieOptions, p: CookieOptions, k: nat)
    requires k <= 5
    requires forall j: nat :: j < k ==> AskedFor(o, j) == AskedFor(p, j)
    ensures Pushed(o, k) == Pushed(p, k)
  {
    if k > 0 {
      PushedAlike(o, p, k - 1);
    }
  }

  /** `Max-Age=0`, the attribute that expires a cookie at once. */
  lemma {:induction false} RenderExpire()
    ensures Render(MaxAge(0)) == "Max-Age=0"
  {
    assert Strings.DigitChar(0) == '0';
  }

  /** Clearing writes an empty value with `Max-Age=0`, then the path if one is given. */
  lemma {:induction false} ClearCookieShape(name: string, path: string)
    ensures ClearCookieHeader(name, None) == name + "=" + "; " + "Max-Age=0"
    ensures path != "" ==>
      ClearCookieHeader(name, Some(path)) == name + "=" + "; " + "Max-Age=0" + "; " + "Path=" + path
  {
    RenderExpire();
    assert RenderAll([MaxAge(0)]) == [Render(MaxAge(0))];
    assert [name + "="] + RenderAll([MaxAge(0)]) == [name + "=", "Max-Age=0"];
    Strings.JoinTwo(name + "=", "Max-Age=0", "; ");
    if path != "" {
      assert RenderAll([MaxAge(0), Path(path)]) == [Render(MaxAge(0)), Render(Path(path))];
      assert [name + "="] + RenderAll([MaxAge(0)] + [Path(path)]) == [name + "=", "Max-Age=0", "Path=" + path];
      Strings.JoinThree(name + "=", "Max-Age=0", "Path=" + path, "; ");
    }
  }

  /** The captured response: the closure variables of `createExpressResponse`. */
  datatype ResState = ResState(statusCode: int, headers: map<string, HeaderValue>, cookies: seq<string>,
                               body: Option<string>, finished: bool, headersSent: bool)

  const Initial: ResState := ResState(200, map[], [], None, false, false)

  /** A call a handler makes on the response object. */
  datatype Call =
    | Status(code: int)
    | Json(data: string)
    | Send(data: string)
    | SetHeader(name: string, headerValue: HeaderValue)
    | Cookie(name: string, cookieValue: string, options: CookieOptions)
    | ClearCookie(name: string, path: Option<string>)
    | End(chunk: Option<string>)

  /** `name.toLowerCase() === "set-cookie"`. */
  predicate IsSetCookie(name: string) {
    Strings.Lower(name) == "set-cookie"
  }

  /** A chunk is truthy when present and non-empty. */
  predicate Truthy(chunk: Option<string>) {
    chunk.Some? && chunk.value != ""
  }

  /** The effect of one call. */
  function Apply(s: ResState, c: Call): ResState {
    match c
    case Status(code) => s.(statusCode := code)
    case Json(data) =>
      if s.headersSent then s
      else s.(body := Some(data), headers := s.headers["content-type" := Single("application/json")],
              finished := true, headersSent := true)
    case Send(data) =>
      if s.headersSent then s
      else s.(body := Some(data), finished := true, headersSent := true)
    case SetHeader(name, value) =>
      if IsSetCookie(name) then s.(cookies := s.cookies + Values(value))
      else s.(headers := s.headers[Strings.Lower(name) := value])
    case Cookie(name, value, o) => s.(cookies := s.cookies + [CookieHeader(name, value, o)])
    case ClearCookie(name, path) => s.(cookies := s.cookies + [ClearCookieHeader(name, path)])
    case End(chunk) =>
      s.(body := if !s.finished && Truthy(chunk) then chunk else s.body, finished := true, headersSent := true)
  }

  /** A sequence of calls, in order. */
  function Run(s: ResState, calls: seq<Call>): ResState
    decreases |calls|
  {
    if calls == [] then s else Run(Apply(s, calls[0]), calls[1..])
  }

  /** The `Set-Cookie` values one call records, and the only calls that record any. */
  function CookiesOf(c: Call): seq<string> {
    match c
    case SetHeader(name, value) => if IsSetCookie(name) then Values(value) else []
    case Cookie(name, value, o) => [CookieHeader(name, value, o)]
    case ClearCookie(name, path) => [ClearCookieHeader(name, path)]
    case _ => []
  }

  function AllCookies(calls: seq<Call>): seq<string>
    decreases |calls|
  {
    if calls == [] then [] else CookiesOf(calls[0]) + AllCookies(calls[1..])
  }

  /** `finished` and `headersSent` are always set together. */
  predicate Consistent(s: ResState) {
    s.finished == s.headersSent
  }

  /** Every call keeps the two flags in step. */
  lemma {:induction false} ApplyConsistent(s: ResState, c: Call)
    requires Consistent(s)
    ensures Consistent(Apply(s, c))
  {
  }

  /** `status` applies at any time, even after the body was written, and changes nothing else. */
  lemma {:induction false} StatusAnyTime(s: ResState, code: int)
    ensures Apply(s, Status(code)) == s.(statusCode := code)
    ensures Apply(s, Status(code)).body == s.body
  {
  }

  /** What one call adds to the recorded cookies. */
  lemma {:induction false} ApplyCookies(s: ResState, c: Call)
    ensures Apply(s, c).cookies == s.cookies + CookiesOf(c)
  {
  }

  /**
   * `Set-Cookie` values accumulate in call order and are never overwritten,
   * whatever mix of `setHeader`, `cookie` and `clearCookie` records them.
   */
  lemma {:induction false} CookiesAccumulate(s: ResState, calls: seq<Call>)
    ensures Run(s, calls).cookies == s.cookies + AllCookies(calls)
    decreases |calls|
  {
    if calls != [] {
      var next := Apply(s, calls[0]);
      CookiesAccumulate(next, calls[1..]);
      ApplyCookies(s, calls[0]);
      assert Run(s, calls) == Run(next, calls[1..]);
      assert AllCookies(calls) == CookiesOf(calls[0]) + AllCookies(calls[1..]);
      Seqs.SeqAssoc(s.cookies, CookiesOf(calls[0]), AllCookies(calls[1..]));
    }
  }

  /** Once a response is finished its body never changes: the first `json`, `send` or `end` wins. */
  lemma {:induction false} BodyFixedOnceFinished(s: ResState, calls: seq<Call>)
    requires s.finished && Consistent(s)
    ensures Run(s, calls).body == s.body
    ensures Run(s, calls).finished
    decreases |calls|
  {
    if calls != [] {
      BodyFixedOnceFinished(Apply(s, calls[0]), calls[1..]);
    }
  }

  /** Only `json` adds `content-type: application/json`; `send` leaves the headers alone. */
  lemma {:induction false} ContentTypeOnlyFromJson(s: ResState, data: string)
    requires !s.headersSent
    ensures Apply(s, Json(data)).headers["content-type"] == Single("application/json")
    ensures Apply(s, Send(data)).headers == s.headers
    ensures Apply(s, Json(data)).body == Some(data) && Apply(s, Send(data)).body == Some(data)
  {
  }

  /** `getHeader(name)`: a case-insensitive lookup. */
  function GetHeader(s: ResState, name: string): Option<HeaderValue> {
    var key := Strings.Lower(name);
    if key in s.headers then Some(s.headers[key]) else None
  }

  /**
   * A header other than `Set-Cookie` set under one spelling is read back under
   * any other spelling of the same name, overwriting the earlier value.
   */
  lemma {:induction false} SetThenGetHeader(s: ResState, name: string, other: string, v: HeaderValue)
    requires !IsSetCookie(name) && Strings.Lower(other) == Strings.Lower(name)
    ensures GetHeader(Apply(s, SetHeader(name, v)), other) == Some(v)
    ensures Apply(s, SetHeader(name, v)).cookies == s.cookies
  {
  }

  /** `end` keeps a truthy chunk only when nothing was written before, and always finishes. */
  lemma {:induction false} EndKeepsFirstBody(s: ResState, chunk: Option<string>)
    ensures Apply(s, End(chunk)).finished && Apply(s, End(chunk)).headersSent
    ensures s.finished || !Truthy(chunk) ==> Apply(s, End(chunk)).body == s.body
    ensures !s.finished && Truthy(chunk) ==> Apply(s, End(chunk)).body == chunk
  {
  }

  /** The response object: the captured state, updated by its methods. */
  class ExpressResponse {
    var statusCode: int
    var headers: map<string, HeaderValue>
    var cookies: seq<string>
    var body: Option<string>
    var finished: bool
    var headersSent: bool

    function State(): ResState
      reads this
    {
      ResState(statusCode, headers, cookies, body, finished, headersSent)
    }

    constructor ()
      ensures State() == Initial
    {
      statusCode := 200;
      headers := map[];
      cookies := [];
      body := None;
      finished := false;
      headersSent := false;
    }

    method SetStatus(code: int)
      modifies this
      ensures State() == Apply(old(State()), Status(code))
    {
      statusCode := code;
    }

    method SendJson(data: string)
      modifies this
      ensures State() == Apply(old(State()), Json(data))
    {
      if headersSent {
        return;
      }
      body := Some(data);
      headers := headers["content-type" := Single("application/json")];
      finished := true;
      headersSent := true;
    }

    method SendData(data: string)
      modifies this
      ensures State() == Apply(old(State()), Send(data))
    {
      if headersSent {
        return;
      }
      body := Some(data);
      finished := true;
      headersSent := true;
    }

    method SetHeaderValue(name: string, value: HeaderValue)
      modifies this
      ensures State() == Apply(old(State()), SetHeader(name, value))
    {
      var key := Strings.Lower(name);
      if key == "set-cookie" {
        match value
        case Multiple(vs) => cookies := cookies + vs;
        case Single(v) => cookies := cookies + [v];
      } else {
        headers := headers[key := value];
      }
    }

    function GetHeaderValue(name: string): (v: Option<HeaderValue>)
      reads this
      ensures v.Some? <==> Strings.Lower(name) in headers
      ensures v.Some? ==> v.value == headers[Strings.Lower(name)]
    {
      GetHeader(State(), name)
    }

    method SetCookie(name: string, value: string, options: CookieOptions)
      modifies this
      ensures State() == Apply(old(State()), Cookie(name, value, options))
    {
      cookies := cookies + [CookieHeader(name, value, options)];
    }

    method ClearCookieNamed(name: string, path: Option<string>)
      modifies this
      ensures State() == Apply(old(State()), ClearCookie(name, path))
    {
      cookies := cookies + [ClearCookieHeader(name, path)];
    }

    method EndResponse(chunk: Option<string>)
      modifies this
      ensures State() == Apply(old(State()), End(chunk))
    {
      if !finished && chunk.Some? && chunk.value != "" {
        body := chunk;
      }
      finished := true;
      headersSent := true;
    }
  }

  /** `forwardedFor?.split(",")[0]?.trim() || realIp || "unknown"`. */
  function RemoteAddress(forwardedFor: Option<string>, realIp: Option<string>): (r: string)
    ensures r != ""
    ensures forwardedFor.Some? && Strings.Trim(Strings.FirstField(forwardedFor.value, {','})) != "" ==>
      r == Strings.Trim(Strings.FirstField(forwardedFor.value, {','}))
    ensures forwardedFor.Some? && Strings.Trim(Strings.FirstField(forwardedFor.value, {','})) != "" ==>
      ',' !in r && !Strings.IsJsSpace(r[0]) && !Strings.IsJsSpace(r[|r| - 1])
    ensures (forwardedFor.None? || Strings.Trim(Strings.FirstField(forwardedFor.value, {','})) == "") ==>
      r == (if realIp.Some? && realIp.value != "" then realIp.value else "unknown")
  {
    var first := if forwardedFor.Some? then Strings.Trim(Strings.FirstField(forwardedFor.value, {','})) else "";
    if first != "" then first
    else if realIp.Some? && realIp.value != "" then realIp.value
    else "unknown"
  }

  /** The methods whose body is never read. */
  predicate SkipsBody(method_: string) {
    method_ == "GET" || method_ == "HEAD" || method_ == "OPTIONS"
  }

  /** `req.body`: left undefined, a parsed JSON value, `{}` for malformed JSON, or the form fields. */
  datatype RequestBody = Undefined | JsonValue(text: string) | EmptyObject | FormFields(text: string)

  /**
   * The body the adapter hands on. `parsedJson` is what parsing the body as
   * JSON gives (`None` when it throws); `rawText` is the body text.
   */
  function BodyOf(method_: string, contentType: Option<string>, parsedJson: Option<string>, rawText: string): (b: RequestBody)
    ensures SkipsBody(method_) ==> b == Undefined
    ensures b.JsonValue? || b.EmptyObject? <==>
      !SkipsBody(method_) && Strings.Contains(contentType.GetOr(""), "application/json")
    ensures b.JsonValue? ==> parsedJson == Some(b.text)
    ensures b.EmptyObject? <==> !SkipsBody(method_) && Strings.Contains(contentType.GetOr(""), "application/json") && parsedJson.None?
    ensures b.FormFields? ==> b.text == rawText
    ensures !SkipsBody(method_) && !Strings.Contains(contentType.GetOr(""), "application/json") ==>
      b == (if Strings.Contains(contentType.GetOr(""), "application/x-www-form-urlencoded") then FormFields(rawText) else Undefined)
  {
    var ct := contentType.GetOr("");
    if SkipsBody(method_) then Undefined
    else if Strings.Contains(ct, "application/json") then
      if parsedJson.Some? then JsonValue(parsedJson.value) else EmptyObject
    else if Strings.Contains(ct, "application/x-www-form-urlencoded") then FormFields(rawText)
    else Undefined
  }
}
