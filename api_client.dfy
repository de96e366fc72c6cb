/**
 * The browser-side request helper (next-app/lib/api-client.ts): URL
 * normalisation, header and body shaping before `fetch`, and the
 * classification of the response afterwards. The transport is not
 * modelled; the stored token, the API base URL and `JSON.parse` are
 * parameters.
 */
module ApiClient {
  import opened Wrappers
  import opened JsValues
  import opened JsStrings

  // --------------------------------------------------------------- URLs

  /** `makeUrl`: absolute URLs pass through; other paths get a leading `/` and the API base. */
  function MakeUrl(apiBase: string, path: string): (url: string)
    ensures StartsWith(path, "http") ==> url == path
    ensures !StartsWith(path, "http") && StartsWith(path, "/") ==> url == apiBase + path
    ensures !StartsWith(path, "http") && !StartsWith(path, "/") ==> url == apiBase + "/" + path
  {
    if StartsWith(path, "http") then path
    else
      var normalized := if StartsWith(path, "/") then path else "/" + path;
      apiBase + normalized
  }

  /** The leading slash is optional: `x` and `/x` name the same endpoint. */
  lemma LeadingSlashOptional(apiBase: string, path: string)
    requires !StartsWith(path, "http") && !StartsWith(path, "/")
    ensures MakeUrl(apiBase, path) == MakeUrl(apiBase, "/" + path)
  {
    var slashed := "/" + path;
    assert slashed[0] == '/';
    assert !StartsWith(slashed, "http") by {
      if |slashed| >= 4 {
        assert slashed[..4][0] == '/';
      }
    }
    assert StartsWith(slashed, "/") by {
      assert slashed[..1] == "/";
    }
  }

  // ------------------------------------------------------------ headers

  const ContentType := "Content-Type"
  const Authorization := "Authorization"

  /**
   * `buildHeaders`: JSON content type by default, the caller's headers over
   * it, and a bearer `Authorization` header exactly when a token is stored.
   */
  function BuildHeaders(callerHeaders: Option<map<string, string>>, token: Option<string>): (h: map<string, string>)
    ensures var caller := if callerHeaders.Some? then callerHeaders.value else map[];
      && h.Keys == caller.Keys + {ContentType} + (if Filled(token) then {Authorization} else {})
      && h[ContentType] == (if ContentType in caller then caller[ContentType] else "application/json")
      && (Filled(token) ==> h[Authorization] == "Bearer " + token.value)
      && (forall k :: k in caller && (k != Authorization || !Filled(token)) ==> h[k] == caller[k])
  {
    var caller := if callerHeaders.Some? then callerHeaders.value else map[];
    var base := map[ContentType := "application/json"] + caller;
    if Filled(token) then base[Authorization := "Bearer " + token.value] else base
  }

  // --------------------------------------------------------------- body

  /** What a caller may pass as `body`. */
  datatype RawBody =
    | Nullish
    | StringBody(s: string)
    | FormDataBody
    | BlobBody
    | ArrayBufferBody
    | SearchParamsBody
    | PlainObject(v: Value)

  /** What goes on the wire; `JsonOf(v)` stands for `JSON.stringify(v)`, whose text is not modelled. */
  datatype SentBody = Text(s: string) | FormData | Blob | ArrayBuffer | SearchParams | JsonOf(v: Value)

  /** Bodies the browser encodes itself, choosing its own content type. */
  predicate IsFormLike(b: RawBody) {
    b.FormDataBody? || b.BlobBody? || b.ArrayBufferBody? || b.SearchParamsBody?
  }

  /** `normalizedBody`: no body for null or undefined, built-in body types as they are, other objects as JSON. */
  function NormalizeBody(b: RawBody): (r: Option<SentBody>)
    ensures r.None? <==> b.Nullish?
    ensures b.StringBody? ==> r == Some(Text(b.s))
    ensures b.PlainObject? ==> r == Some(JsonOf(b.v))
    ensures IsFormLike(b) ==> r.Some? && !r.value.Text? && !r.value.JsonOf?
  {
    match b
    case Nullish => None
    case StringBody(s) => Some(Text(s))
    case FormDataBody => Some(FormData)
    case BlobBody => Some(Blob)
    case ArrayBufferBody => Some(ArrayBuffer)
    case SearchParamsBody => Some(SearchParams)
    case PlainObject(v) => Some(JsonOf(v))
  }

  /** Distinct bodies stay distinct on the wire: nothing a caller passes is lost or merged. */
  lemma NormalizeBodyInjective(a: RawBody, b: RawBody)
    requires NormalizeBody(a) == NormalizeBody(b)
    ensures a == b
  {
  }

  // ------------------------------------------------------------ request

  datatype RequestOptions = RequestOptions(
    verb: Option<string>,
    body: RawBody,
    headers: Option<map<string, string>>)

  datatype Request = Request(url: string, verb: string, headers: map<string, string>, body: Option<SentBody>)

  /**
   * The request `apiFetch` hands to `fetch`: the headers of `BuildHeaders`,
   * with a truthy content type deleted in place for form-like bodies.
   */
  method PrepareRequest(apiBase: string, path: string, options: RequestOptions, token: Option<string>)
    returns (req: Request)
    ensures req.url == MakeUrl(apiBase, path)
    ensures req.verb == (if Filled(options.verb) then options.verb.value else "GET")
    ensures req.body == NormalizeBody(options.body)
    ensures var built := BuildHeaders(options.headers, token);
      && (forall k :: k != ContentType ==> (k in req.headers <==> k in built) && (k in req.headers ==> req.headers[k] == built[k]))
      && (!IsFormLike(options.body) ==> ContentType in req.headers && req.headers[ContentType] == built[ContentType])
      && (IsFormLike(options.body) ==> ContentType !in req.headers || req.headers[ContentType] == "")
  {
    var headers := BuildHeaders(options.headers, token);
    if IsFormLike(options.body) && ContentType in headers && headers[ContentType] != "" {
      headers := headers - {ContentType};
    }
    var verb := if Filled(options.verb) then options.verb.value else "GET";
    req := Request(MakeUrl(apiBase, path), verb, headers, NormalizeBody(options.body));
  }

  // ----------------------------------------------------------- response

  /** How `apiFetch` settles: the parsed data, an `ApiError`, or the exception of `JSON.parse`. */
  datatype Outcome = Data(v: Value) | ApiError(status: int, message: Value) | ParseFailure

  /** The settled call, and whether the stored auth is cleared and `onUnauthorized` called. */
  datatype Settled = Settled(outcome: Outcome, signedOut: bool)

  /** `res.ok`. */
  predicate Ok(status: int) {
    200 <= status < 300
  }

  /**
   * The response handling of `apiFetch`: 401 and 403 sign the user out and
   * fail as "Unauthorized" whatever the body; otherwise empty text reads
   * as null, and a failing status fails with the body's truthy `message`
   * or "Request failed". `parse` is `JSON.parse`, None where it throws.
   */
  function Receive(status: int, text: string, parse: string -> Option<Value>): (s: Settled)
    ensures s.signedOut <==> status == 401 || status == 403
    ensures s.signedOut ==> s.outcome == ApiError(status, Str("Unauthorized"))
    ensures !s.signedOut && text == [] && Ok(status) ==> s.outcome == Data(Null)
    ensures !s.signedOut && text == [] && !Ok(status) ==> s.outcome == ApiError(status, Str("Request failed"))
    ensures !s.signedOut && text != [] && parse(text).None? ==> s.outcome == ParseFailure
    ensures !s.signedOut && text != [] && parse(text).Some? && Ok(status) ==> s.outcome == Data(parse(text).value)
    ensures !s.signedOut && text != [] && parse(text).Some? && !Ok(status) ==>
      var v := parse(text).value;
      s.outcome == ApiError(status, if v.Obj? && "message" in v.props && Truthy(v.props["message"])
                                    then v.props["message"] else Str("Request failed"))
    ensures s.outcome.ApiError? ==> s.outcome.status == status && Truthy(s.outcome.message)
  {
    if status == 401 || status == 403 then Settled(ApiError(status, Str("Unauthorized")), true)
    else
      var data := if text == [] then Some(Null) else parse(text);
      if data.None? then Settled(ParseFailure, false)
      else if Ok(status) then Settled(Data(data.value), false)
      else
        var m := Get(data.value, "message");
        var message := if m.Some? && Truthy(m.value) then m.value else Str("Request failed");
        Settled(ApiError(status, message), false)
  }

  /**
   * A failing response never settles as data: it carries the server's
   * message exactly when the body is an object with a truthy `message`, and
   * a body that parses to anything else (`null`, a number, a string, an
   * array) fails as "Request failed".
   */
  lemma ServerMessageSurfaces(status: int, text: string, parse: string -> Option<Value>)
    requires !Ok(status) && status != 401 && status != 403
    requires text != [] && parse(text).Some?
    ensures var v := parse(text).value;
      var out := Receive(status, text, parse).outcome;
      && out.ApiError? && out.status == status
      && (out.message != Str("Request failed") ==> v.Obj? && "message" in v.props && out.message == v.props["message"])
      && (!v.Obj? ==> out.message == Str("Request failed"))
  {
  }
}
