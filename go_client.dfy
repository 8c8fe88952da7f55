/**
 * The non-transport logic of the Go SDK client: base-URL normalisation and
 * the option loop of `NewClient`, the request headers, the routing of a
 * response by status and body, `handleErrorResponse`, the `Error()` strings
 * of the error types, and the query path of `ProfilesService.List`.
 *
 * The HTTP exchange is outside the model: a response arrives as its status,
 * its body, and what `json.Unmarshal` makes of the body (as an `APIResponse`,
 * and as the caller's result value).
 */
module GoClient {
  import opened Wrappers
  import opened Text

  // ---------------------------------------------------------------------------
  // Base URL and options
  // ---------------------------------------------------------------------------

  const ApiMarker: string := "/api"
  const ApiSuffix: string := "/api/v2"

  /** `time.Second`, in nanoseconds. */
  const Second: int := 1_000_000_000
  const DefaultTimeout: int := 30 * Second

  /**
   * `NewClient`'s normalisation: one trailing '/' is trimmed, then "/api/v2" is
   * appended unless "/api" occurs anywhere in what is left.
   */
  function NormalizeBaseURL(u: string): (r: string)
    ensures Contains(TrimSuffix(u, "/"), ApiMarker) ==> r == TrimSuffix(u, "/")
    ensures !Contains(TrimSuffix(u, "/"), ApiMarker) ==> r == TrimSuffix(u, "/") + ApiSuffix
  {
    var t := TrimSuffix(u, "/");
    if Contains(t, ApiMarker) then t else t + ApiSuffix
  }

  /** An occurrence of "/api" never uses a trailing '/', so trimming one keeps it. */
  lemma ApiMarkerSurvivesTrim(t: string)
    requires Contains(t, ApiMarker) && EndsWith(t, "/")
    ensures Contains(t[..|t| - 1], ApiMarker)
  {
    var i :| 0 <= i <= |t| - |ApiMarker| && OccursAt(t, ApiMarker, i);
    assert t[i + 3] == ApiMarker[3] == 'i';
    assert t[|t| - 1] == '/';
    assert i + |ApiMarker| <= |t| - 1;
    assert t[..|t| - 1][i..i + |ApiMarker|] == t[i..i + |ApiMarker|];
    ContainsAt(t[..|t| - 1], ApiMarker, i);
  }

  /**
   * The normalised URL always contains "/api". Normalising again changes it
   * only when it still ends in '/' (the input ended in "//" and already
   * contained "/api"), and then only by that one '/'.
   */
  lemma NormalizeAgain(u: string)
    ensures Contains(NormalizeBaseURL(u), ApiMarker)
    ensures !EndsWith(NormalizeBaseURL(u), "/") ==> NormalizeBaseURL(NormalizeBaseURL(u)) == NormalizeBaseURL(u)
    ensures EndsWith(NormalizeBaseURL(u), "/") ==>
              NormalizeBaseURL(NormalizeBaseURL(u)) == NormalizeBaseURL(u)[..|NormalizeBaseURL(u)| - 1]
  {
    var t := TrimSuffix(u, "/");
    var r := NormalizeBaseURL(u);
    if !Contains(t, ApiMarker) {
      assert r == t + ApiSuffix;
      assert r[|t|..|t| + |ApiMarker|] == ApiMarker;
      ContainsAt(r, ApiMarker, |t|);
      assert r[|r| - 1] == '2';
    }
    if EndsWith(r, "/") {
      ApiMarkerSurvivesTrim(r);
    }
  }

  /** The client's own `*http.Client`, reduced to its timeout (in nanoseconds). */
  datatype HttpClient = HttpClient(timeout: int)

  /** The three option constructors; `WithHTTPClient(nil)` is `WithHTTPClient(None)`. */
  datatype ClientOption =
    | WithAPIKey(apiKey: string)
    | WithHTTPClient(httpClient: Option<HttpClient>)
    | WithTimeout(timeout: int)

  /** The fields of `Client` the options set. */
  datatype Settings = Settings(baseURL: string, apiKey: string, httpClient: Option<HttpClient>)

  /** One option on the settings; `WithTimeout` on a nil client is a nil dereference (None). */
  function ApplyOption(s: Settings, opt: ClientOption): Option<Settings> {
    match opt
    case WithAPIKey(k) => Some(s.(apiKey := k))
    case WithHTTPClient(h) => Some(s.(httpClient := h))
    case WithTimeout(d) =>
      if s.httpClient.None? then None else Some(s.(httpClient := Some(HttpClient(d))))
  }

  /** The options in order, stopping at a panic. */
  function ApplyOptions(s: Settings, opts: seq<ClientOption>): Option<Settings>
    decreases |opts|
  {
    if opts == [] then Some(s)
    else match ApplyOptions(s, opts[..|opts| - 1])
      case None => None
      case Some(t) => ApplyOption(t, opts[|opts| - 1])
  }

  /** Before any option: the normalised URL, no key, a client with the 30-second timeout. */
  function InitialSettings(baseURL: string): Settings {
    Settings(NormalizeBaseURL(baseURL), "", Some(HttpClient(DefaultTimeout)))
  }

  function Configure(baseURL: string, opts: seq<ClientOption>): Option<Settings> {
    ApplyOptions(InitialSettings(baseURL), opts)
  }

  lemma ApplyOptionsSnoc(s: Settings, opts: seq<ClientOption>, o: ClientOption)
    ensures ApplyOptions(s, opts + [o]) == if ApplyOptions(s, opts).None? then None else ApplyOption(ApplyOptions(s, opts).value, o)
  {
    assert (opts + [o])[..|opts|] == opts;
  }

  /** The key the last `WithAPIKey` sets, or the default when there is none. */
  function LastApiKey(opts: seq<ClientOption>, default: string): string
    decreases |opts|
  {
    if opts == [] then default
    else if opts[|opts| - 1].WithAPIKey? then opts[|opts| - 1].apiKey
    else LastApiKey(opts[..|opts| - 1], default)
  }

  /**
   * Options apply in order, so the key a client ends with is the one the last
   * `WithAPIKey` set; the base URL is never touched by an option.
   */
  lemma {:induction false} ApiKeyIsLastSet(s: Settings, opts: seq<ClientOption>)
    requires ApplyOptions(s, opts).Some?
    ensures ApplyOptions(s, opts).value.apiKey == LastApiKey(opts, s.apiKey)
    ensures ApplyOptions(s, opts).value.baseURL == s.baseURL
    decreases |opts|
  {
    if opts != [] {
      ApiKeyIsLastSet(s, opts[..|opts| - 1]);
    }
  }

  /**
   * Without options the client has the normalised URL, no key and the
   * 30-second timeout; a final `WithTimeout` wins whenever a client is set,
   * and on a nil client it panics.
   */
  lemma NewClientDefaultsAndOverrides(baseURL: string, opts: seq<ClientOption>, d: int)
    ensures Configure(baseURL, []) == Some(InitialSettings(baseURL))
    ensures InitialSettings(baseURL).httpClient == Some(HttpClient(30 * Second))
    ensures Configure(baseURL, opts).Some? && Configure(baseURL, opts).value.httpClient.Some? ==>
              Configure(baseURL, opts + [WithTimeout(d)]) == Some(Configure(baseURL, opts).value.(httpClient := Some(HttpClient(d))))
    ensures Configure(baseURL, opts + [WithHTTPClient(None), WithTimeout(d)]) == None
  {
    var s := InitialSettings(baseURL);
    ApplyOptionsSnoc(s, opts, WithTimeout(d));
    ApplyOptionsSnoc(s, opts, WithHTTPClient(None));
    assert opts + [WithHTTPClient(None), WithTimeout(d)] == (opts + [WithHTTPClient(None)]) + [WithTimeout(d)];
    ApplyOptionsSnoc(s, opts + [WithHTTPClient(None)], WithTimeout(d));
  }

  class Client {
    var baseURL: string
    var apiKey: string
    var httpClient: Option<HttpClient>

    function Current(): Settings
      reads this
    {
      Settings(baseURL, apiKey, httpClient)
    }

    /** The struct literal of `NewClient`. */
    constructor (baseURL: string)
      ensures Current() == InitialSettings(baseURL)
    {
      this.baseURL := NormalizeBaseURL(baseURL);
      apiKey := "";
      httpClient := Some(HttpClient(DefaultTimeout));
    }

    /** `opt(c)`: false when the option dereferences a nil client. */
    method Apply(opt: ClientOption) returns (ok: bool)
      modifies this
      ensures ok == ApplyOption(old(Current()), opt).Some?
      ensures ok ==> Current() == ApplyOption(old(Current()), opt).value
      ensures !ok ==> Current() == old(Current())
    {
      match opt
      case WithAPIKey(k) =>
        apiKey := k;
        ok := true;
      case WithHTTPClient(h) =>
        httpClient := h;
        ok := true;
      case WithTimeout(d) =>
        if httpClient.None? {
          return false;
        }
        httpClient := Some(HttpClient(d));
        ok := true;
    }
  }

  /** `NewClient`: the normalised client, then each option in turn; None is a panic. */
  method NewClient(baseURL: string, opts: seq<ClientOption>) returns (r: Option<Client>)
    ensures r.Some? <==> Configure(baseURL, opts).Some?
    ensures r.Some? ==> fresh(r.value) && r.value.Current() == Configure(baseURL, opts).value
  {
    var c := new Client(baseURL);
    for i := 0 to |opts|
      invariant Configure(baseURL, opts[..i]) == Some(c.Current())
    {
      ApplyOptionsSnoc(InitialSettings(baseURL), opts[..i], opts[i]);
      assert opts[..i + 1] == opts[..i] + [opts[i]];
      var ok := c.Apply(opts[i]);
      if !ok {
        PanicPersists(InitialSettings(baseURL), opts, i + 1);
        return None;
      }
    }
    assert opts[..|opts|] == opts;
    return Some(c);
  }

  /** Once an option panics, the whole option list does. */
  lemma {:induction false} PanicPersists(s: Settings, opts: seq<ClientOption>, i: nat)
    requires i <= |opts| && ApplyOptions(s, opts[..i]).None?
    ensures ApplyOptions(s, opts).None?
    decreases |opts| - i
  {
    if i < |opts| {
      ApplyOptionsSnoc(s, opts[..i], opts[i]);
      assert opts[..i + 1] == opts[..i] + [opts[i]];
      PanicPersists(s, opts, i + 1);
    } else {
      assert opts[..i] == opts;
    }
  }

  // ---------------------------------------------------------------------------
  // Requests
  // ---------------------------------------------------------------------------

  const ContentTypeHeader: string := "Content-Type"
  const AcceptHeader: string := "Accept"
  const AuthorizationHeader: string := "Authorization"
  const BearerPrefix: string := "Bearer "
  const JsonMediaType: string := "application/json"

  /** The headers `request` sets: JSON content and accept types, and a bearer token only for a non-empty key. */
  function RequestHeaders(apiKey: string): (h: map<string, string>)
    ensures h.Keys == {ContentTypeHeader, AcceptHeader} + if apiKey != "" then {AuthorizationHeader} else {}
    ensures h[ContentTypeHeader] == JsonMediaType && h[AcceptHeader] == JsonMediaType
    ensures apiKey != "" ==> h[AuthorizationHeader] == BearerPrefix + apiKey
  {
    var base := map[ContentTypeHeader := JsonMediaType, AcceptHeader := JsonMediaType];
    if apiKey != "" then base[AuthorizationHeader := BearerPrefix + apiKey] else base
  }

  /** `APIResponse` as decoded; `data` is the raw message, empty when absent. */
  datatype ApiResponse = ApiResponse(success: bool, data: string, error: string, message: string)

  /** The error types of the package. */
  datatype ApiError =
    | GenericError(message: string, code: string, statusCode: int)
    | AuthenticationError(message: string)
    | NotFoundError(message: string)
    | ValidationError(message: string)
    | RateLimitError(message: string, retryAfter: int)

  /** The outcome of `request` once a response has been read. */
  datatype RequestOutcome = Ok | Failed(err: ApiError) | DecodeError

  /**
   * `handleErrorResponse`: when the body decodes with a non-empty error field
   * that message is carried, otherwise fixed messages or the raw body; the
   * status alone decides the error type, and only the generic error keeps it.
   */
  function HandleErrorResponse(status: int, body: string, asApi: Option<ApiResponse>): (e: ApiError)
    ensures e.AuthenticationError? <==> status == 401
    ensures e.NotFoundError? <==> status == 404
    ensures e.ValidationError? <==> status == 400
    ensures e.RateLimitError? <==> status == 429
    ensures e.GenericError? ==> e.statusCode == status && e.code == ""
    ensures e.RateLimitError? ==> e.retryAfter == 0
    ensures asApi.Some? && asApi.value.error != "" ==> e.message == asApi.value.error
    ensures !(asApi.Some? && asApi.value.error != "") ==>
              e.message == match status
                case 401 => "authentication failed"
                case 404 => "resource not found"
                case 429 => "rate limit exceeded"
                case _ => body
  {
    if asApi.Some? && asApi.value.error != "" then
      var m := asApi.value.error;
      match status
      case 401 => AuthenticationError(m)
      case 404 => NotFoundError(m)
      case 400 => ValidationError(m)
      case 429 => RateLimitError(m, 0)
      case _ => GenericError(m, "", status)
    else
      match status
      case 401 => AuthenticationError("authentication failed")
      case 404 => NotFoundError("resource not found")
      case 400 => ValidationError(body)
      case 429 => RateLimitError("rate limit exceeded", 0)
      case _ => GenericError(body, "", status)
  }

  /**
   * `request` after the body is read. `decodes` says whether `json.Unmarshal`
   * succeeds on a text for the caller's result; `wantsResult` is
   * `result != nil`.
   */
  function Route(status: int, body: string, asApi: Option<ApiResponse>, wantsResult: bool, decodes: string -> bool): (r: RequestOutcome)
    ensures r.Failed? <==> status >= 400 || (asApi.Some? && !asApi.value.success && asApi.value.error != "")
    ensures status >= 400 ==> r == Failed(HandleErrorResponse(status, body, asApi))
    ensures status < 400 && r.Failed? ==> r.err == GenericError(asApi.value.error, "", status)
    ensures r == DecodeError ==> wantsResult && status < 400
    ensures status < 400 && asApi.None? ==> r == if wantsResult && !decodes(body) then DecodeError else Ok
  {
    if status >= 400 then Failed(HandleErrorResponse(status, body, asApi))
    else if asApi.None? then
      if wantsResult && !decodes(body) then DecodeError else Ok
    else if !asApi.value.success && asApi.value.error != "" then
      Failed(GenericError(asApi.value.error, "", status))
    else if wantsResult && |asApi.value.data| > 0 && !decodes(asApi.value.data) then DecodeError
    else Ok
  }

  /** A successful decoded response with data is decoded into the result; without data it is left alone. */
  lemma RouteDataOnlyWhenPresent(status: int, body: string, a: ApiResponse, decodes: string -> bool)
    requires status < 400 && (a.success || a.error == "")
    ensures Route(status, body, Some(a), true, decodes) == if |a.data| > 0 && !decodes(a.data) then DecodeError else Ok
    ensures Route(status, body, Some(a), false, decodes) == Ok
  {
  }

  // ---------------------------------------------------------------------------
  // Error strings
  // ---------------------------------------------------------------------------

  const AuthPrefix: string := "authentication error: "
  const NotFoundPrefix: string := "not found: "
  const ValidationPrefix: string := "validation error: "
  const RateLimitPrefix: string := "rate limit exceeded: "

  function TypedPrefix(e: ApiError): string
    requires !e.GenericError?
  {
    match e
    case AuthenticationError(_) => AuthPrefix
    case NotFoundError(_) => NotFoundPrefix
    case ValidationError(_) => ValidationPrefix
    case RateLimitError(_, _) => RateLimitPrefix
  }

  /** `Error()`: "[code] message" for a generic error with a code, else the message; the typed errors prefix theirs. */
  function ErrorString(e: ApiError): (s: string)
    ensures EndsWith(s, e.message)
    ensures e.GenericError? && e.code == "" ==> s == e.message
    ensures e.GenericError? && e.code != "" ==> s == "[" + e.code + "] " + e.message
    ensures !e.GenericError? ==> s == TypedPrefix(e) + e.message
  {
    match e
    case GenericError(m, code, _) => if code != "" then "[" + code + "] " + m else m
    case _ => TypedPrefix(e) + e.message
  }

  /**
   * The typed errors' strings identify the type: two of different types never
   * print alike, and two of the same type print alike only with the same
   * message.
   */
  lemma TypedErrorStringsDistinguish(a: ApiError, b: ApiError)
    requires !a.GenericError? && !b.GenericError?
    ensures TypedPrefix(a) != TypedPrefix(b) ==> ErrorString(a) != ErrorString(b)
    ensures TypedPrefix(a) == TypedPrefix(b) && ErrorString(a) == ErrorString(b) ==> a.message == b.message
  {
    var pa, pb := TypedPrefix(a), TypedPrefix(b);
    if pa != pb {
      assert ErrorString(a)[0] == pa[0];
      assert ErrorString(b)[0] == pb[0];
    } else if ErrorString(a) == ErrorString(b) {
      assert a.message == ErrorString(a)[|pa|..];
      assert b.message == ErrorString(b)[|pb|..];
    }
  }

  // ---------------------------------------------------------------------------
  // Profiles list path
  // ---------------------------------------------------------------------------

  const ProfilesPath: string := "/profiles"

  datatype ListOptions = ListOptions(page: int, limit: int)

  /**
   * `ProfilesService.List`'s path: page and limit are included only when
   * positive, in the key order `url.Values.Encode` produces (limit before
   * page), and '?' only when one of them is.
   */
  function ListPath(opts: Option<ListOptions>): (path: string)
    ensures StartsWith(path, ProfilesPath)
    ensures path == ProfilesPath <==> opts.None? || (opts.value.page <= 0 && opts.value.limit <= 0)
    ensures path != ProfilesPath ==> path[|ProfilesPath|] == '?'
  {
    if opts.None? then ProfilesPath
    else
      var pairs := QueryPairs(opts.value);
      if |pairs| == 0 then ProfilesPath
      else ProfilesPath + "?" + JoinQuery(pairs)
  }

  function LimitPair(n: nat): string { "limit=" + NatToString(n) }
  function PagePair(n: nat): string { "page=" + NatToString(n) }

  /** The encoded `url.Values`, one entry per included option, sorted by key. */
  function QueryPairs(o: ListOptions): (pairs: seq<string>)
    ensures |pairs| == (if o.limit > 0 then 1 else 0) + (if o.page > 0 then 1 else 0)
  {
    (if o.limit > 0 then [LimitPair(o.limit)] else []) + (if o.page > 0 then [PagePair(o.page)] else [])
  }

  /** `&`-joined query pairs. */
  function JoinQuery(pairs: seq<string>): string
    requires |pairs| > 0
    decreases |pairs|
  {
    if |pairs| == 1 then pairs[0] else pairs[0] + "&" + JoinQuery(pairs[1..])
  }

  /** The query of a list call with both options set, and with only one. */
  lemma ListPathQueries(page: nat, limit: nat)
    requires page > 0 && limit > 0
    ensures ListPath(Some(ListOptions(page, limit))) == ProfilesPath + "?" + LimitPair(limit) + "&" + PagePair(page)
    ensures ListPath(Some(ListOptions(page, 0))) == ProfilesPath + "?" + PagePair(page)
    ensures ListPath(Some(ListOptions(0, limit))) == ProfilesPath + "?" + LimitPair(limit)
  {
    var both := [LimitPair(limit), PagePair(page)];
    assert QueryPairs(ListOptions(page, limit)) == both;
    assert both[1..] == [PagePair(page)];
    assert JoinQuery(both) == LimitPair(limit) + "&" + PagePair(page);
    assert QueryPairs(ListOptions(page, 0)) == [PagePair(page)];
    assert QueryPairs(ListOptions(0, limit)) == [LimitPair(limit)];
  }
}
