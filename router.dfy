/** The edge content resolver (cloudflare-router/src/index.ts): maps a GET or HEAD
    request on `<label>.<serving domain>` to the stored object `<label><path>` of the
    content bucket, with the single-page-app fallback to `index.html`, conditional
    requests and the response headers. The bucket is a map from key to object; the keys
    whose lookup throws (a store or network failure) are given as a set. */
module Router {
  import opened JsText

  const OctetStream := "application/octet-stream"

  /** The extension table of the resolver, keyed by the lower-cased extension. */
  const ContentTypes: map<string, string> := map[
    "html" := "text/html; charset=utf-8",
    "htm" := "text/html; charset=utf-8",
    "css" := "text/css; charset=utf-8",
    "js" := "application/javascript; charset=utf-8",
    "mjs" := "application/javascript; charset=utf-8",
    "json" := "application/json; charset=utf-8",
    "png" := "image/png",
    "jpg" := "image/jpeg",
    "jpeg" := "image/jpeg",
    "gif" := "image/gif",
    "svg" := "image/svg+xml",
    "webp" := "image/webp",
    "ico" := "image/x-icon",
    "woff" := "font/woff",
    "woff2" := "font/woff2",
    "ttf" := "font/ttf",
    "otf" := "font/otf",
    "eot" := "application/vnd.ms-fontobject",
    "pdf" := "application/pdf",
    "xml" := "application/xml",
    "txt" := "text/plain; charset=utf-8",
    "webmanifest" := "application/manifest+json"
  ]

  predicate IsAlnum(c: char) { IsLowerAscii(c) || IsUpperAscii(c) || IsDigit(c) }
  predicate IsLabelChar(c: char) { IsAlnum(c) || c == '-' }

  /** Every key of the table is made of lower-case letters and digits. */
  lemma ContentTypeKeys(ext: string)
    requires ext in ContentTypes
    ensures forall i :: 0 <= i < |ext| ==> IsLowerAscii(ext[i]) || IsDigit(ext[i])
  {
  }

  /** The suffix after the last dot, when there is one and it is not the last character. */
  function Extension(path: string): (r: Option<string>)
    ensures r.Some? ==> r.value != [] && '.' !in r.value
    ensures r.Some? ==> exists d :: 0 <= d < |path| - 1 && path[d] == '.' && r.value == path[d + 1..]
    ensures r.None? <==> LastIndexOf(path, '.').None? || LastIndexOf(path, '.').value == |path| - 1
  {
    match LastIndexOf(path, '.')
    case None => None
    case Some(d) => if d == |path| - 1 then None else Some(path[d + 1..])
  }

  /** `getContentType`: the table entry of the lower-cased extension, or
      `application/octet-stream`. A path given a real type always has a file extension,
      so a typed path never takes the `index.html` fallback. */
  function ContentType(path: string): (r: string)
    ensures r == OctetStream || r in ContentTypes.Values
    ensures Extension(path).None? ==> r == OctetStream
    ensures Extension(path).Some? && ToLower(Extension(path).value) in ContentTypes ==>
      r == ContentTypes[ToLower(Extension(path).value)]
    ensures Extension(path).Some? && ToLower(Extension(path).value) !in ContentTypes ==> r == OctetStream
    ensures r != OctetStream ==> HasFileExtension(path)
  {
    match Extension(path)
    case None => OctetStream
    case Some(ext) =>
      var key := ToLower(ext);
      if key in ContentTypes then
        assert '/' !in ext by {
          ContentTypeKeys(key);
          forall i | 0 <= i < |ext| ensures ext[i] != '/' {
            assert key[i] == LowerChar(ext[i]);
          }
        }
        ContentTypes[key]
      else OctetStream
  }

  /** What `contentTypes[extension]` also finds on a plain object literal: the
      all-lower-case names it inherits from `Object.prototype`, stringified as a header
      value would be. */
  function InheritedProperty(key: string): Option<string> {
    if key == "constructor" then Some("function Object() { [native code] }")
    else if key == "__proto__" then Some("[object Object]")
    else None
  }

  /** `getContentType` as written: the lookup on the object literal also reaches the
      inherited `Object.prototype` members. */
  function ContentTypeAsWritten(path: string): (r: string)
    ensures Extension(path).None? ==> r == OctetStream
    ensures Extension(path).Some? && ToLower(Extension(path).value) in ContentTypes ==>
      r == ContentType(path)
  {
    match Extension(path)
    case None => OctetStream
    case Some(ext) =>
      var key := ToLower(ext);
      if key in ContentTypes then ContentTypes[key]
      else InheritedProperty(key).GetOr(OctetStream)
  }

  /** A path ending in `.constructor` gets a function's source text as its content type. */
  lemma ContentTypeAsWrittenLeaksPrototype()
    ensures ContentTypeAsWritten("/app.constructor") == "function Object() { [native code] }"
    ensures ContentType("/app.constructor") == OctetStream
  {
    ConstructorExtension();
    ConstructorIsNoContentType();
  }

  /** The extension of `/app.constructor`. */
  lemma ConstructorExtension()
    ensures Extension("/app.constructor") == Some("constructor")
  {
    LastDot("/app", "constructor");
    assert "/app" + "." + "constructor" == "/app.constructor";
  }

  /** `constructor` is already lower case and is not a key of the table. */
  lemma ConstructorIsNoContentType()
    ensures ToLower("constructor") == "constructor"
    ensures "constructor" !in ContentTypes
  {
    var k := "constructor";
    assert ToLower(k) == k by {
      forall i | 0 <= i < |k| ensures ToLower(k)[i] == k[i] {
        assert !IsUpperAscii(k[i]);
      }
    }
    assert k[0] == 'c';
    assert "webmanifest"[0] == 'w';
  }


  /** The last dot of `prefix.ext` is the one before `ext` when `ext` has none. */
  lemma LastDot(prefix: string, ext: string)
    requires '.' !in ext
    ensures LastIndexOf(prefix + "." + ext, '.') == Some(|prefix|)
  {
    var head := prefix + ".";
    assert head[..|head| - 1] == prefix;
    LastIndexOfSkips(head, ext, '.');
  }

  /** Characters other than `c` appended at the end do not move its last occurrence. */
  lemma {:induction false} LastIndexOfSkips(a: string, b: string, c: char)
    requires c !in b
    ensures LastIndexOf(a + b, c) == LastIndexOf(a, c)
    decreases |b|
  {
    if b == [] {
      assert a + b == a;
    } else {
      var init := b[..|b| - 1];
      LastIndexOfSkips(a, init, c);
      assert (a + b)[..|a + b| - 1] == a + init;
      assert (a + b)[|a + b| - 1] == b[|b| - 1];
    }
  }

  // ---------------------------------------------------------------------------
  // Host labels

  /** The states of a matcher for `/^[a-z0-9]([a-z0-9-]*[a-z0-9])?$/i`. */
  datatype LabelState = Start | AfterAlnum | AfterHyphen | Reject

  function LabelStep(q: LabelState, c: char): LabelState {
    match q
    case Start => if IsAlnum(c) then AfterAlnum else Reject
    case AfterAlnum => if IsAlnum(c) then AfterAlnum else if c == '-' then AfterHyphen else Reject
    case AfterHyphen => if IsAlnum(c) then AfterAlnum else if c == '-' then AfterHyphen else Reject
    case Reject => Reject
  }

  function RunLabel(q: LabelState, s: string): LabelState
    decreases |s|
  {
    if s == [] then q else RunLabel(LabelStep(q, s[0]), s[1..])
  }

  /** `isValidSubdomain`: the length test and the case-insensitive label pattern. */
  function IsValidSubdomain(s: string): bool {
    |s| > 0 && |s| <= 63 && RunLabel(Start, s) == AfterAlnum
  }

  lemma {:induction false} RejectSticks(s: string)
    ensures RunLabel(Reject, s) == Reject
    decreases |s|
  {
    if s != [] { RejectSticks(s[1..]); }
  }

  lemma {:induction false} RunInside(q: LabelState, s: string)
    requires q == AfterAlnum || q == AfterHyphen
    ensures RunLabel(q, s) == AfterAlnum <==>
      (forall i :: 0 <= i < |s| ==> IsLabelChar(s[i])) &&
      (if s == [] then q == AfterAlnum else IsAlnum(s[|s| - 1]))
    decreases |s|
  {
    if s != [] {
      var q' := LabelStep(q, s[0]);
      if q' == Reject {
        RejectSticks(s[1..]);
      } else {
        RunInside(q', s[1..]);
        assert forall i :: 1 <= i < |s| ==> s[i] == s[1..][i - 1];
      }
    }
  }

  /** A label is accepted exactly when it has 1 to 63 characters, all letters (either
      case), digits or `-`, and neither starts nor ends with `-`: the label syntax of
      section 2.3.1 of RFC 1035 as relaxed by section 2.1 of RFC 1123. */
  lemma IsValidSubdomainIff(s: string)
    ensures IsValidSubdomain(s) <==>
      && 1 <= |s| <= 63
      && (forall i :: 0 <= i < |s| ==> IsLabelChar(s[i]))
      && s[0] != '-' && s[|s| - 1] != '-'
  {
    if s != [] {
      if IsAlnum(s[0]) {
        RunInside(AfterAlnum, s[1..]);
        assert forall i :: 1 <= i < |s| ==> s[i] == s[1..][i - 1];
      } else {
        RejectSticks(s[1..]);
      }
    }
  }

  /** `hasFileExtension`. */
  function HasFileExtension(path: string): bool {
    match LastIndexOf(path, '.')
    case None => false
    case Some(d) => d != |path| - 1 && '/' !in path[d + 1..]
  }

  /** A path has a file extension exactly when some dot that is not the last character
      is followed by neither another dot nor a slash. */
  lemma HasFileExtensionIff(path: string)
    ensures HasFileExtension(path) <==>
      exists d :: 0 <= d < |path| - 1 && path[d] == '.' &&
        forall j :: d < j < |path| ==> path[j] != '.' && path[j] != '/'
  {
    match LastIndexOf(path, '.')
    case None =>
    case Some(d) =>
      if HasFileExtension(path) {
        assert forall j :: d < j < |path| ==> path[j] == path[d + 1..][j - d - 1];
      } else {
        forall e | 0 <= e < |path| - 1 && path[e] == '.'
          ensures exists j :: e < j < |path| && (path[j] == '.' || path[j] == '/')
        {
          if e < d {
            assert path[d] == '.';
          } else {
            var k :| 0 <= k < |path[d + 1..]| && path[d + 1..][k] == '/';
            assert path[d + 1 + k] == '/';
          }
        }
      }
  }

  // ---------------------------------------------------------------------------
  // Requests, objects, responses

  /** An `If-Modified-Since` header: its text, and the instant it parses to (`None` for
      an invalid date, against which every comparison is false). */
  datatype DateHeader = DateHeader(text: string, parsed: Option<int>)

  /** The parts of a request the resolver reads; `hostname` and `pathname` are those of
      the parsed URL. */
  datatype Request = Request(
    verb: string,
    hostname: string,
    pathname: string,
    ifNoneMatch: Option<string>,
    ifModifiedSince: Option<DateHeader>)

  /** A stored object: its bytes, `httpEtag`, upload instant and stored content type. */
  datatype Obj = Obj(body: seq<bv8>, httpEtag: string, uploaded: Option<int>, storedType: Option<string>)

  /** A header value: plain text, or an HTTP date, given by the instant (in
      milliseconds) its text denotes. */
  datatype HeaderValue = Literal(text: string) | HttpDate(instant: int)

  /** `new Date(t).toUTCString()` prints whole seconds: the date it denotes is `t`
      rounded down to the second. */
  function WholeSecond(t: int): (r: int)
    ensures r <= t < r + 1000 && r % 1000 == 0
  {
    t / 1000 * 1000
  }

  datatype Body = NoBody | Text(text: string) | Content(bytes: seq<bv8>)

  /** A response: status, body and the headers the handler sets. */
  datatype Response = Response(status: int, body: Body, headers: map<string, HeaderValue>)

  function Plain(status: int, text: string): Response {
    Response(status, Text(text), map[])
  }

  const ServerError := Plain(500, "Internal Server Error")
  const NotModifiedResponse := Response(304, NoBody, map[])

  const SecurityHeaders: map<string, HeaderValue> := map[
    "X-Content-Type-Options" := Literal("nosniff"),
    "X-Frame-Options" := Literal("DENY"),
    "X-XSS-Protection" := Literal("1; mode=block"),
    "Referrer-Policy" := Literal("strict-origin-when-cross-origin")
  ]

  /** `handleConditionalRequest`: whether the request is answered with 304. An exact,
      non-empty ETag match wins; otherwise a non-empty `If-Modified-Since` at or after
      the upload instant. */
  function IsNotModified(req: Request, obj: Obj): (r: bool)
    ensures Truthy(req.ifNoneMatch) && obj.httpEtag != "" && req.ifNoneMatch.value == obj.httpEtag ==> r
    ensures !(Truthy(req.ifNoneMatch) && obj.httpEtag != "" && req.ifNoneMatch.value == obj.httpEtag) ==>
      (r <==> req.ifModifiedSince.Some? && req.ifModifiedSince.value.text != "" && obj.uploaded.Some?
              && req.ifModifiedSince.value.parsed.Some?
              && obj.uploaded.value <= req.ifModifiedSince.value.parsed.value)
  {
    || (Truthy(req.ifNoneMatch) && obj.httpEtag != "" && req.ifNoneMatch.value == obj.httpEtag)
    || (req.ifModifiedSince.Some? && req.ifModifiedSince.value.text != "" && obj.uploaded.Some?
        && req.ifModifiedSince.value.parsed.Some?
        && obj.uploaded.value <= req.ifModifiedSince.value.parsed.value)
  }

  /** The content type sent: the extension's type, unless that is the opaque type, in
      which case the stored type when it is non-empty. */
  function EffectiveType(filePath: string, obj: Obj): (r: string)
    ensures ContentType(filePath) != OctetStream ==> r == ContentType(filePath)
    ensures ContentType(filePath) == OctetStream && Truthy(obj.storedType) ==> r == obj.storedType.value
    ensures ContentType(filePath) == OctetStream && !Truthy(obj.storedType) ==> r == OctetStream
    ensures r != ""
  {
    var detected := ContentType(filePath);
    if detected != OctetStream then detected else OrElse(obj.storedType, detected)
  }

  /** The headers of a 200 response. */
  function SuccessHeaders(filePath: string, obj: Obj): map<string, HeaderValue> {
    var typed := map["Content-Type" := Literal(EffectiveType(filePath, obj))];
    var tagged := if obj.httpEtag != "" then typed["ETag" := Literal(obj.httpEtag)] else typed;
    var dated := if obj.uploaded.Some? then tagged["Last-Modified" := HttpDate(WholeSecond(obj.uploaded.value))] else tagged;
    dated["Content-Disposition" := Literal("inline")]["Cache-Control" := Literal("public, max-age=3600")]
      + SecurityHeaders
  }

  /** The answer once an object was found under `filePath`. */
  function Serve(req: Request, filePath: string, obj: Obj): (r: Response)
    ensures r.status == 304 <==> IsNotModified(req, obj)
    ensures r.status == 304 ==> r.body == NoBody && r.headers == map[]
    ensures r.status != 304 ==> r.status == 200 && r.headers == SuccessHeaders(filePath, obj)
    ensures r.status == 200 ==> (r.body == NoBody <==> req.verb == "HEAD")
    ensures r.status == 200 && req.verb != "HEAD" ==> r.body == Content(obj.body)
  {
    if IsNotModified(req, obj) then NotModifiedResponse
    else Response(200, if req.verb == "HEAD" then NoBody else Content(obj.body), SuccessHeaders(filePath, obj))
  }

  /** The response, and the bucket keys looked up in order. */
  datatype Resolution = Resolution(response: Response, lookups: seq<string>)

  /** The leftmost host label. */
  function Label(hostname: string): string {
    Split(hostname, '.')[0]
  }

  function Normalize(pathname: string): string {
    if pathname == "/" then "/index.html" else pathname
  }

  /** `fetch`, as a function of the request, the bucket and its failing keys. */
  function Resolve(req: Request, bucket: map<string, Obj>, faulty: set<string>): (r: Resolution)
    ensures req.verb != "GET" && req.verb != "HEAD" ==> r == Resolution(Plain(405, "Method Not Allowed"), [])
    ensures (req.verb == "GET" || req.verb == "HEAD") && |Split(req.hostname, '.')| < 3 ==>
      r == Resolution(Plain(200, "Root domain - no site attached"), [])
    ensures ((req.verb == "GET" || req.verb == "HEAD") && |Split(req.hostname, '.')| >= 3
      && !IsValidSubdomain(Label(req.hostname))) ==> r == Resolution(Plain(400, "Invalid subdomain"), [])
    ensures (req.verb == "GET" || req.verb == "HEAD") && |Split(req.hostname, '.')| >= 3 ==>
      IsValidSubdomain(Label(req.hostname)) ==> r == FromBucket(req, Label(req.hostname), bucket, faulty)
    ensures 1 <= |r.lookups| ==> r.lookups[0] == Label(req.hostname) + Normalize(req.pathname)
    ensures |r.lookups| <= 2
    ensures |r.lookups| == 2 ==>
      && r.lookups[0] !in bucket && r.lookups[0] !in faulty
      && !HasFileExtension(Normalize(req.pathname))
      && r.lookups[1] == Label(req.hostname) + "/index.html"
    ensures r.response.status == 404 ==>
      r.lookups != [] && (forall k :: k in r.lookups ==> k !in bucket && k !in faulty)
      && (|r.lookups| == 1 <==> HasFileExtension(Normalize(req.pathname)))
    ensures r.response.status == 500 ==>
      r.response == ServerError && r.lookups != [] && r.lookups[|r.lookups| - 1] in faulty
  {
    if req.verb != "GET" && req.verb != "HEAD" then
      Resolution(Plain(405, "Method Not Allowed"), [])
    else if |Split(req.hostname, '.')| < 3 then
      Resolution(Plain(200, "Root domain - no site attached"), [])
    else
      var sub := Label(req.hostname);
      if !IsValidSubdomain(sub) then
        Resolution(Plain(400, "Invalid subdomain"), [])
      else FromBucket(req, sub, bucket, faulty)
  }

  /** The handler once the label is known to be valid: the bucket lookups and the
      answer they lead to. */
  function FromBucket(req: Request, sub: string, bucket: map<string, Obj>, faulty: set<string>): (r: Resolution)
    ensures 1 <= |r.lookups| <= 2 && r.lookups[0] == sub + Normalize(req.pathname)
    ensures |r.lookups| == 2 ==>
      && r.lookups[0] !in bucket && r.lookups[0] !in faulty
      && !HasFileExtension(Normalize(req.pathname))
      && r.lookups[1] == sub + "/index.html"
    ensures r.response.status == 404 ==>
      (forall k :: k in r.lookups ==> k !in bucket && k !in faulty)
      && (|r.lookups| == 1 <==> HasFileExtension(Normalize(req.pathname)))
    ensures r.response.status == 500 ==>
      r.response == ServerError && r.lookups[|r.lookups| - 1] in faulty
    ensures var key := sub + Normalize(req.pathname);
      && (key in faulty ==> r == Resolution(ServerError, [key]))
      && (key !in faulty && key in bucket ==>
            r == Resolution(Serve(req, Normalize(req.pathname), bucket[key]), [key]))
      && (key !in faulty && key !in bucket && HasFileExtension(Normalize(req.pathname)) ==>
            r == Resolution(Plain(404, "Not Found"), [key]))
    ensures var key, fallback := sub + Normalize(req.pathname), sub + "/index.html";
      key !in faulty && key !in bucket && !HasFileExtension(Normalize(req.pathname)) ==>
        && (fallback in faulty ==> r == Resolution(ServerError, [key, fallback]))
        && (fallback !in faulty && fallback in bucket ==>
              r == Resolution(Serve(req, "/index.html", bucket[fallback]), [key, fallback]))
        && (fallback !in faulty && fallback !in bucket ==>
              r == Resolution(Plain(404, "Not Found"), [key, fallback]))
  {
    var filePath := Normalize(req.pathname);
    var key := sub + filePath;
    if key in faulty then Resolution(ServerError, [key])
    else if key in bucket then Resolution(Serve(req, filePath, bucket[key]), [key])
    else if HasFileExtension(filePath) then Resolution(Plain(404, "Not Found"), [key])
    else
      var fallback := sub + "/index.html";
      if fallback in faulty then Resolution(ServerError, [key, fallback])
      else if fallback in bucket then Resolution(Serve(req, "/index.html", bucket[fallback]), [key, fallback])
      else Resolution(Plain(404, "Not Found"), [key, fallback])
  }

  // ---------------------------------------------------------------------------
  // The handler, as written: mutable locals and a headers object filled by `set`

  /** A `Headers` object; the names used here are distinct, so `set` is a map update. */
  class Headers {
    var entries: map<string, HeaderValue>

    constructor ()
      ensures entries == map[]
    {
      entries := map[];
    }

    method Set(name: string, value: HeaderValue)
      modifies this
      ensures entries == old(entries)[name := value]
    {
      entries := entries[name := value];
    }
  }

  /** `addSecurityHeaders`: the four hardening headers are added in place. */
  method AddSecurityHeaders(headers: Headers)
    modifies headers
    ensures headers.entries == old(headers.entries) + SecurityHeaders
  {
    headers.Set("X-Content-Type-Options", Literal("nosniff"));
    headers.Set("X-Frame-Options", Literal("DENY"));
    headers.Set("X-XSS-Protection", Literal("1; mode=block"));
    headers.Set("Referrer-Policy", Literal("strict-origin-when-cross-origin"));
  }

  /** `env.BUCKET.get(key)`: the object, or nothing; `threw` when the lookup fails. */
  method BucketGet(bucket: map<string, Obj>, faulty: set<string>, key: string)
    returns (found: Option<Obj>, threw: bool)
    ensures threw <==> key in faulty
    ensures !threw ==> found == (if key in bucket then Some(bucket[key]) else None)
  {
    threw := key in faulty;
    found := if !threw && key in bucket then Some(bucket[key]) else None;
  }

  /** `fetch`: the handler's steps, with the thrown error of a lookup caught as 500. */
  method Fetch(req: Request, bucket: map<string, Obj>, faulty: set<string>)
    returns (response: Response, lookups: seq<string>)
    ensures Resolution(response, lookups) == Resolve(req, bucket, faulty)
  {
    lookups := [];
    if req.verb != "GET" && req.verb != "HEAD" {
      return Plain(405, "Method Not Allowed"), lookups;
    }
    var parts := Split(req.hostname, '.');
    if |parts| < 3 {
      return Plain(200, "Root domain - no site attached"), lookups;
    }
    var subdomain := parts[0];
    if !IsValidSubdomain(subdomain) {
      return Plain(400, "Invalid subdomain"), lookups;
    }
    assert subdomain == Label(req.hostname);
    response, lookups := FetchFromBucket(req, subdomain, bucket, faulty);
  }

  /** The lookups of `fetch` and the response they lead to. */
  method FetchFromBucket(req: Request, subdomain: string, bucket: map<string, Obj>, faulty: set<string>)
    returns (response: Response, lookups: seq<string>)
    ensures Resolution(response, lookups) == FromBucket(req, subdomain, bucket, faulty)
  {
    lookups := [];
    var filePath := if req.pathname == "/" then "/index.html" else req.pathname;
    var r2Key := subdomain + filePath;
    var found, threw := BucketGet(bucket, faulty, r2Key);
    lookups := lookups + [r2Key];
    if threw {
      return ServerError, lookups;
    }
    if found.None? && !HasFileExtension(filePath) {
      filePath := "/index.html";
      r2Key := subdomain + filePath;
      found, threw := BucketGet(bucket, faulty, r2Key);
      lookups := lookups + [r2Key];
      if threw {
        return ServerError, lookups;
      }
    }
    if found.None? {
      return Plain(404, "Not Found"), lookups;
    }
    var obj := found.value;
    if IsNotModified(req, obj) {
      return NotModifiedResponse, lookups;
    }
    response := Succeed(req, filePath, obj);
  }

  /** The 200 response: the headers object is filled one `set` at a time. */
  method Succeed(req: Request, filePath: string, obj: Obj) returns (response: Response)
    ensures response == Response(200, if req.verb == "HEAD" then NoBody else Content(obj.body), SuccessHeaders(filePath, obj))
  {
    var headers := new Headers();
    var detectedType := ContentType(filePath);
    var contentType := if detectedType != OctetStream then detectedType else OrElse(obj.storedType, detectedType);
    headers.Set("Content-Type", Literal(contentType));
    if obj.httpEtag != "" {
      headers.Set("ETag", Literal(obj.httpEtag));
    }
    if obj.uploaded.Some? {
      headers.Set("Last-Modified", HttpDate(WholeSecond(obj.uploaded.value)));
    }
    headers.Set("Content-Disposition", Literal("inline"));
    headers.Set("Cache-Control", Literal("public, max-age=3600"));
    AddSecurityHeaders(headers);
    var body := if req.verb == "HEAD" then NoBody else Content(obj.body);
    response := Response(200, body, headers.entries);
  }

  // ---------------------------------------------------------------------------
  // Properties across requests

  /** `/` and `/index.html` resolve identically. */
  lemma RootIsIndex(req: Request, bucket: map<string, Obj>, faulty: set<string>)
    ensures Resolve(req.(pathname := "/"), bucket, faulty) == Resolve(req.(pathname := "/index.html"), bucket, faulty)
  {
  }

  /** A HEAD request gets the status, headers and lookups of the GET request, and no body. */
  lemma HeadMirrorsGet(req: Request, bucket: map<string, Obj>, faulty: set<string>)
    requires req.verb == "GET"
    ensures var g := Resolve(req, bucket, faulty);
      var h := Resolve(req.(verb := "HEAD"), bucket, faulty);
      && h.response.status == g.response.status
      && h.response.headers == g.response.headers
      && h.lookups == g.lookups
      && (g.response.status == 200 && g.lookups != [] ==> h.response.body == NoBody)
  {
    var head := req.(verb := "HEAD");
    if Resolve(req, bucket, faulty).response.status == 200 && Resolve(req, bucket, faulty).lookups != [] {
      var filePath, obj := ServedObject(req, head, bucket, faulty);
      assert IsNotModified(head, obj) == IsNotModified(req, obj);
    }
  }

  /** A 200 response to an object found in the bucket always carries the inline
      disposition, the one-hour cache lifetime and the hardening headers. */
  lemma SuccessCarriesFixedHeaders(req: Request, bucket: map<string, Obj>, faulty: set<string>)
    requires Resolve(req, bucket, faulty).response.status == 200
    requires Resolve(req, bucket, faulty).lookups != []
    ensures var h := Resolve(req, bucket, faulty).response.headers;
      && "Content-Disposition" in h && h["Content-Disposition"] == Literal("inline")
      && "Cache-Control" in h && h["Cache-Control"] == Literal("public, max-age=3600")
      && (forall name :: name in SecurityHeaders ==> name in h && h[name] == SecurityHeaders[name])
      && "Content-Type" in h
  {
    var filePath, obj := ServedObject(req, req, bucket, faulty);
    SuccessHeadersFixed(filePath, obj);
  }

  /** The headers every 200 response carries, whatever the object. */
  lemma SuccessHeadersFixed(filePath: string, obj: Obj)
    ensures var h := SuccessHeaders(filePath, obj);
      && "Content-Disposition" in h && h["Content-Disposition"] == Literal("inline")
      && "Cache-Control" in h && h["Cache-Control"] == Literal("public, max-age=3600")
      && (forall name :: name in SecurityHeaders ==> name in h && h[name] == SecurityHeaders[name])
      && "Content-Type" in h && h["Content-Type"] == Literal(EffectiveType(filePath, obj))
  {
    assert "Content-Disposition" !in SecurityHeaders && "Cache-Control" !in SecurityHeaders;
    assert "Content-Type" !in SecurityHeaders;
  }

  /** Sending back the ETag of a 200 response yields 304 with no body. */
  lemma ETagRevalidates(req: Request, bucket: map<string, Obj>, faulty: set<string>)
    requires Resolve(req, bucket, faulty).response.status == 200
    requires "ETag" in Resolve(req, bucket, faulty).response.headers
    ensures var etag := Resolve(req, bucket, faulty).response.headers["ETag"];
      etag.Literal? &&
      var again := Resolve(req.(ifNoneMatch := Some(etag.text)), bucket, faulty);
      again.response == NotModifiedResponse
  {
    var first := Resolve(req, bucket, faulty);
    HeadersOnlyWhenLookedUp(req, bucket, faulty, "ETag");
    var etag := first.response.headers["ETag"];
    var filePath, obj := ServedObject(req, req, bucket, faulty);
    SuccessHeadersETag(filePath, obj);
    var again := req.(ifNoneMatch := Some(etag.text));
    filePath, obj := ServedObject(req, again, bucket, faulty);
    SuccessHeadersETag(filePath, obj);
    assert IsNotModified(again, obj);
    assert Serve(again, filePath, obj) == NotModifiedResponse;
  }

  /** Only a response to an object from the bucket carries headers. */
  lemma HeadersOnlyWhenLookedUp(req: Request, bucket: map<string, Obj>, faulty: set<string>, name: string)
    requires name in Resolve(req, bucket, faulty).response.headers
    ensures Resolve(req, bucket, faulty).lookups != []
  {
  }

  /** The 200 headers carry an ETag exactly when the object has a non-empty one, and
      then it is that one. */
  lemma SuccessHeadersETag(filePath: string, obj: Obj)
    ensures "ETag" in SuccessHeaders(filePath, obj) <==> obj.httpEtag != ""
    ensures obj.httpEtag != "" ==> SuccessHeaders(filePath, obj)["ETag"] == Literal(obj.httpEtag)
  {
    assert "ETag" !in SecurityHeaders;
  }

  /** A request that was served an object from the bucket, and any GET or HEAD request
      for the same host and path, are answered from the same object under the same
      path; only the verb and the conditional headers may tell them apart. */
  lemma ServedObject(req: Request, other: Request, bucket: map<string, Obj>, faulty: set<string>)
    returns (filePath: string, obj: Obj)
    requires Resolve(req, bucket, faulty).response.status == 200
    requires Resolve(req, bucket, faulty).lookups != []
    requires (other.verb == "GET" || other.verb == "HEAD") && other.hostname == req.hostname
      && other.pathname == req.pathname
    ensures Resolve(req, bucket, faulty).response == Serve(req, filePath, obj)
    ensures Resolve(other, bucket, faulty).response == Serve(other, filePath, obj)
  {
    var sub := Label(req.hostname);
    var key := sub + Normalize(req.pathname);
    if key in bucket {
      filePath, obj := Normalize(req.pathname), bucket[key];
    } else {
      filePath, obj := "/index.html", bucket[sub + "/index.html"];
    }
  }

  /** Sending back the `Last-Modified` date of a 200 response as `If-Modified-Since`
      yields 304 exactly when the object was uploaded on a whole second: the date is
      printed to the second, while the upload instant keeps its milliseconds. An
      unmatched `If-None-Match` sent along does not change this. */
  lemma LastModifiedRevalidates(req: Request, filePath: string, obj: Obj, text: string)
    requires Serve(req, filePath, obj).status == 200
    requires "Last-Modified" in Serve(req, filePath, obj).headers
    requires text != ""
    ensures var date := Serve(req, filePath, obj).headers["Last-Modified"];
      && date.HttpDate? && obj.uploaded.Some?
      && var again := req.(ifModifiedSince := Some(DateHeader(text, Some(date.instant))));
        (Serve(again, filePath, obj) == NotModifiedResponse <==> obj.uploaded.value % 1000 == 0)
  {
    SuccessHeadersLastModified(filePath, obj);
    var date := Serve(req, filePath, obj).headers["Last-Modified"];
    var again := req.(ifModifiedSince := Some(DateHeader(text, Some(date.instant))));
    assert date.instant == WholeSecond(obj.uploaded.value);
    assert IsNotModified(again, obj) <==> obj.uploaded.value <= date.instant;
  }

  /** An object uploaded at 1.5 s is dated `00:00:01`; sending that date back gets the
      object again rather than 304. */
  lemma SubSecondUploadIsSentAgain()
    ensures var obj := Obj([], "", Some(1500), None);
      var req := Request("GET", "site.example.com", "/app.css", None, None);
      var date := Serve(req, "/app.css", obj).headers["Last-Modified"];
      && date == HttpDate(1000)
      && Serve(req.(ifModifiedSince := Some(DateHeader("Thu, 01 Jan 1970 00:00:01 GMT", Some(1000)))),
               "/app.css", obj).status == 200
  {
    var obj := Obj([], "", Some(1500), None);
    SuccessHeadersLastModified("/app.css", obj);
  }

  /** A GET without conditional headers for a stored, reachable key is answered 200
      with the stored bytes, after that single lookup. */
  lemma StoredObjectIsServed(req: Request, bucket: map<string, Obj>, faulty: set<string>)
    requires req.verb == "GET" && req.ifNoneMatch.None? && req.ifModifiedSince.None?
    requires |Split(req.hostname, '.')| >= 3 && IsValidSubdomain(Label(req.hostname))
    requires var key := Label(req.hostname) + Normalize(req.pathname); key in bucket && key !in faulty
    ensures var key := Label(req.hostname) + Normalize(req.pathname);
      var r := Resolve(req, bucket, faulty);
      && r.lookups == [key]
      && r.response == Response(200, Content(bucket[key].body), SuccessHeaders(Normalize(req.pathname), bucket[key]))
  {
  }

  /** The 200 headers carry a `Last-Modified` date exactly when the object has an
      upload instant, and then it is that instant to the second. */
  lemma SuccessHeadersLastModified(filePath: string, obj: Obj)
    ensures "Last-Modified" in SuccessHeaders(filePath, obj) <==> obj.uploaded.Some?
    ensures obj.uploaded.Some? ==> SuccessHeaders(filePath, obj)["Last-Modified"] == HttpDate(WholeSecond(obj.uploaded.value))
  {
    assert "Last-Modified" !in SecurityHeaders;
  }
}
