/**
 * The non-transport logic of the Python SDK client: the base URL and the
 * session headers set by the constructor, the classification of a response
 * by `_handle_response`, and the query and body dicts the resources build.
 *
 * A response arrives as its status, its text, what `response.json()` makes of
 * it (None when it is not JSON) and its `Retry-After` header.
 */
module PyClient {
  import opened Wrappers
  import opened Json
  import opened Text
  import opened PyErrors

  // ---------------------------------------------------------------------------
  // Constructor
  // ---------------------------------------------------------------------------

  const ApiSuffix: string := "/api/v2"

  /** Every trailing '/' is stripped, then "/api/v2" is appended unless the URL already ends with it. */
  function NormalizeBaseUrl(u: string): (r: string)
    ensures EndsWith(r, ApiSuffix)
    ensures EndsWith(RStrip(u, '/'), ApiSuffix) ==> r == RStrip(u, '/')
    ensures !EndsWith(RStrip(u, '/'), ApiSuffix) ==> r == RStrip(u, '/') + ApiSuffix
  {
    var t := RStrip(u, '/');
    if EndsWith(t, ApiSuffix) then t else t + ApiSuffix
  }

  /** Normalisation is idempotent. */
  lemma NormalizeIdempotent(u: string)
    ensures NormalizeBaseUrl(NormalizeBaseUrl(u)) == NormalizeBaseUrl(u)
  {
    var r := NormalizeBaseUrl(u);
    assert r[|r| - 1] == ApiSuffix[|ApiSuffix| - 1] == '2';
    assert RStrip(r, '/') == r;
  }

  const ContentTypeHeader: string := "Content-Type"
  const AcceptHeader: string := "Accept"
  const AuthorizationHeader: string := "Authorization"
  const JsonMediaType: string := "application/json"

  class AntidetectClient {
    var baseUrl: string
    var apiKey: Option<string>
    var timeout: int
    /** The headers the constructor puts on the session. */
    var headers: map<string, string>

    /**
     * `__init__`: the normalised base URL, the key and the timeout as given,
     * JSON content and accept headers, and a bearer token only when the key is
     * truthy.
     */
    constructor (baseUrl: string, apiKey: Option<string>, timeout: int)
      ensures this.baseUrl == NormalizeBaseUrl(baseUrl) && this.apiKey == apiKey && this.timeout == timeout
      ensures headers.Keys == {ContentTypeHeader, AcceptHeader} + if TruthyStr(apiKey) then {AuthorizationHeader} else {}
      ensures headers[ContentTypeHeader] == JsonMediaType && headers[AcceptHeader] == JsonMediaType
      ensures TruthyStr(apiKey) ==> headers[AuthorizationHeader] == "Bearer " + apiKey.value
    {
      var url := RStrip(baseUrl, '/');
      if !EndsWith(url, ApiSuffix) {
        url := url + ApiSuffix;
      }
      this.baseUrl := url;
      this.apiKey := apiKey;
      this.timeout := timeout;
      var h := map[ContentTypeHeader := JsonMediaType, AcceptHeader := JsonMediaType];
      if TruthyStr(apiKey) {
        h := h[AuthorizationHeader := "Bearer " + apiKey.value];
      }
      headers := h;
    }
  }

  // ---------------------------------------------------------------------------
  // Responses
  // ---------------------------------------------------------------------------

  /** The `Retry-After` header: absent or empty, a value `int()` accepts, or one it rejects. */
  datatype RetryHeader = NoRetryHeader | RetryValue(seconds: int) | RetryUnparseable

  /** How `_handle_response` ends: a value (None for a non-JSON success), an SDK error, or `int()`'s ValueError. */
  datatype Handled = Returned(value: Option<Json>) | Raised(error: SdkError) | IntValueError

  /**
   * The message of a `success: false` body: its `error` field, "Unknown error"
   * when that is absent. Python stores a non-string `error` value as it is,
   * and `__str__` would then hand back that value; the model keeps messages
   * as strings, so `show` stands for the rendering of such a value.
   */
  function FailureMessage(fields: map<string, Json>, show: Json -> string): string {
    if "error" !in fields then "Unknown error"
    else match fields["error"]
      case JStr(s) => s
      case other => show(other)
  }

  /**
   * `_handle_response`: 401, 404, 429 and 5xx are classified before the body
   * is read, in that order; a body that is not JSON raises for an error status
   * and gives None otherwise; an object with `success` exactly false raises
   * (a validation error on 400); an object otherwise gives its `data` field
   * if it has one and itself if not; any other JSON value is returned as is.
   */
  function HandleResponse(status: int, text: string, body: Option<Json>, retry: RetryHeader, show: Json -> string): (h: Handled)
    ensures status == 401 ==> h == Raised(AuthenticationError(DefaultAuthMessage))
    ensures status == 404 ==> h == Raised(NotFoundError(DefaultResource))
    ensures status == 429 ==> h == match retry
                                  case NoRetryHeader => Raised(RateLimitError(None))
                                  case RetryValue(n) => Raised(RateLimitError(Some(n)))
                                  case RetryUnparseable => IntValueError
    ensures status >= 500 ==> h == Raised(ServerError(text))
    ensures h == IntValueError ==> status == 429
    ensures h.Returned? ==> status < 500 && status !in {401, 404, 429}
    ensures h.Returned? && status >= 400 ==> body.Some?
    ensures body.None? && status !in {401, 404, 429} && 400 <= status < 500 ==>
              h == Raised(AntidetectError(text, None, Some(status)))
  {
    if status == 401 then Raised(AuthenticationError(DefaultAuthMessage))
    else if status == 404 then Raised(NotFoundError(DefaultResource))
    else if status == 429 then
      match retry
      case NoRetryHeader => Raised(RateLimitError(None))
      case RetryValue(n) => Raised(RateLimitError(Some(n)))
      case RetryUnparseable => IntValueError
    else if status >= 500 then Raised(ServerError(text))
    else if body.None? then
      if status >= 400 then Raised(AntidetectError(text, None, Some(status))) else Returned(None)
    else match body.value
      case JObj(fields) =>
        if "success" in fields && fields["success"] == JBool(false) then
          var m := FailureMessage(fields, show);
          if status == 400 then Raised(ValidationError(m)) else Raised(AntidetectError(m, None, Some(status)))
        else if "data" in fields then Returned(Some(fields["data"]))
        else Returned(body)
      case other => Returned(body)
  }

  /**
   * On a JSON body with a status the early checks pass: an object whose
   * `success` is false raises with the body's message (as a validation error
   * exactly on 400), other objects give their data or themselves, and
   * anything else comes back unchanged.
   */
  lemma HandleJsonBody(status: int, text: string, j: Json, retry: RetryHeader, show: Json -> string)
    requires status < 500 && status !in {401, 404, 429}
    ensures var h := HandleResponse(status, text, Some(j), retry, show);
            && (j.JObj? && "success" in j.fields && j.fields["success"] == JBool(false) ==>
                  h == Raised(if status == 400 then ValidationError(FailureMessage(j.fields, show))
                              else AntidetectError(FailureMessage(j.fields, show), None, Some(status))))
            && (j.JObj? && !("success" in j.fields && j.fields["success"] == JBool(false)) ==>
                  h == Returned(Some(if "data" in j.fields then j.fields["data"] else j)))
            && (!j.JObj? ==> h == Returned(Some(j)))
  {
  }

  /** Only `success` equal to false counts as a failure: a missing flag, null or 0 returns the data. */
  lemma OnlyFalseFails(status: int, text: string, fields: map<string, Json>, retry: RetryHeader, show: Json -> string)
    requires status < 400 && status !in {401, 404, 429}
    requires "success" !in fields || fields["success"] != JBool(false)
    ensures HandleResponse(status, text, Some(JObj(fields)), retry, show).Returned?
  {
  }

  // ---------------------------------------------------------------------------
  // Query and body dicts
  // ---------------------------------------------------------------------------

  /** A query or body value: the dicts mix strings and integers. */
  datatype Value = VStr(s: string) | VInt(n: int)

  /** `get_detection_history`'s params: only truthy filters are included. */
  method DetectionHistoryParams(profileId: Option<string>, startDate: Option<string>, endDate: Option<string>)
    returns (params: map<string, Value>)
    ensures params.Keys == (if TruthyStr(profileId) then {"profileId"} else {})
                         + (if TruthyStr(startDate) then {"startDate"} else {})
                         + (if TruthyStr(endDate) then {"endDate"} else {})
    ensures TruthyStr(profileId) ==> params["profileId"] == VStr(profileId.value)
    ensures TruthyStr(startDate) ==> params["startDate"] == VStr(startDate.value)
    ensures TruthyStr(endDate) ==> params["endDate"] == VStr(endDate.value)
  {
    params := map[];
    if TruthyStr(profileId) {
      params := params["profileId" := VStr(profileId.value)];
    }
    if TruthyStr(startDate) {
      params := params["startDate" := VStr(startDate.value)];
    }
    if TruthyStr(endDate) {
      params := params["endDate" := VStr(endDate.value)];
    }
  }

  /** `get_session_history`'s params: `limit` always, `profileId` only when truthy. */
  method SessionHistoryParams(profileId: Option<string>, limit: int) returns (params: map<string, Value>)
    ensures params.Keys == {"limit"} + if TruthyStr(profileId) then {"profileId"} else {}
    ensures params["limit"] == VInt(limit)
    ensures TruthyStr(profileId) ==> params["profileId"] == VStr(profileId.value)
  {
    params := map["limit" := VInt(limit)];
    if TruthyStr(profileId) {
      params := params["profileId" := VStr(profileId.value)];
    }
  }

  /** `duplicate`'s body: the name when it is truthy, `{}` otherwise. */
  function DuplicateBody(name: Option<string>): (body: map<string, Value>)
    ensures !TruthyStr(name) ==> body == map[]
    ensures TruthyStr(name) ==> body.Keys == {"name"} && body["name"] == VStr(name.value)
  {
    if TruthyStr(name) then map["name" := VStr(name.value)] else map[]
  }

  /** `profiles.list`'s params: both always, with their defaults 1 and 20. */
  function ProfilesListParams(page: int, limit: int): (params: map<string, Value>)
    ensures params.Keys == {"page", "limit"}
    ensures params["page"] == VInt(page) && params["limit"] == VInt(limit)
  {
    map["page" := VInt(page), "limit" := VInt(limit)]
  }
}
