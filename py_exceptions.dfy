/**
 * The error hierarchy of the Python SDK: every error carries a message, an
 * optional code and an optional HTTP status; the subclasses fix the code and
 * status and build their messages; `str(e)` prefixes a code when there is one.
 */
module PyErrors {
  import opened Wrappers
  import opened Text

  datatype ErrorKind = Base | Authentication | NotFound | Validation | Connection | RateLimit | Server

  /** An `AntidetectError` instance; `retryAfter` is the attribute only `RateLimitError` sets. */
  datatype SdkError = SdkError(kind: ErrorKind, message: string, code: Option<string>, statusCode: Option<int>, retryAfter: Option<int>)

  const AuthCode: string := "AUTH_ERROR"
  const NotFoundCode: string := "NOT_FOUND"
  const ValidationCode: string := "VALIDATION_ERROR"
  const ConnectionCode: string := "CONNECTION_ERROR"
  const RateLimitCode: string := "RATE_LIMIT"
  const ServerCode: string := "SERVER_ERROR"

  const DefaultAuthMessage: string := "Authentication failed"
  const DefaultResource: string := "Resource"
  const DefaultConnectionMessage: string := "Failed to connect to server"
  const DefaultServerMessage: string := "Internal server error"
  const RateLimitMessage: string := "Rate limit exceeded"

  /** `AntidetectError(message, code, status_code)`: the three values are stored as given. */
  function AntidetectError(message: string, code: Option<string>, statusCode: Option<int>): (e: SdkError)
    ensures e.kind == Base && e.message == message && e.code == code && e.statusCode == statusCode
    ensures e.retryAfter == None
  {
    SdkError(Base, message, code, statusCode, None)
  }

  function AuthenticationError(message: string): (e: SdkError)
    ensures e.kind == Authentication && e.message == message
    ensures e.code == Some(AuthCode) && e.statusCode == Some(401)
  {
    SdkError(Authentication, message, Some(AuthCode), Some(401), None)
  }

  function NotFoundError(resource: string): (e: SdkError)
    ensures e.kind == NotFound && e.message == resource + " not found"
    ensures e.code == Some(NotFoundCode) && e.statusCode == Some(404)
  {
    SdkError(NotFound, resource + " not found", Some(NotFoundCode), Some(404), None)
  }

  function ValidationError(message: string): (e: SdkError)
    ensures e.kind == Validation && e.message == message
    ensures e.code == Some(ValidationCode) && e.statusCode == Some(400)
  {
    SdkError(Validation, message, Some(ValidationCode), Some(400), None)
  }

  /** `ConnectionError` is the one typed error without a status. */
  function ConnectionError(message: string): (e: SdkError)
    ensures e.kind == Connection && e.message == message
    ensures e.code == Some(ConnectionCode) && e.statusCode == None
  {
    SdkError(Connection, message, Some(ConnectionCode), None, None)
  }

  function ServerError(message: string): (e: SdkError)
    ensures e.kind == Server && e.message == message
    ensures e.code == Some(ServerCode) && e.statusCode == Some(500)
  {
    SdkError(Server, message, Some(ServerCode), Some(500), None)
  }

  /** Python truthiness of an optional integer: None and 0 are false. */
  predicate TruthyInt(x: Option<int>) {
    x.Some? && x.value != 0
  }

  function RetrySuffix(n: int): string {
    ". Retry after " + IntToString(n) + " seconds"
  }

  /** `RateLimitError(retry_after)`: the retry hint is appended only for a truthy value, and stored either way. */
  function RateLimitError(retryAfter: Option<int>): (e: SdkError)
    ensures e.kind == RateLimit && e.retryAfter == retryAfter
    ensures e.code == Some(RateLimitCode) && e.statusCode == Some(429)
    ensures StartsWith(e.message, RateLimitMessage)
    ensures TruthyInt(retryAfter) <==> e.message != RateLimitMessage
    ensures TruthyInt(retryAfter) ==> e.message == RateLimitMessage + RetrySuffix(retryAfter.value)
  {
    var message := if TruthyInt(retryAfter) then RateLimitMessage + RetrySuffix(retryAfter.value) else RateLimitMessage;
    SdkError(RateLimit, message, Some(RateLimitCode), Some(429), retryAfter)
  }

  /** Python truthiness of an optional string. */
  predicate TruthyStr(x: Option<string>) {
    x.Some? && x.value != ""
  }

  /** `__str__`: "[code] message" when the code is truthy, else the message. */
  function Str(e: SdkError): (s: string)
    ensures EndsWith(s, e.message)
    ensures !TruthyStr(e.code) ==> s == e.message
    ensures TruthyStr(e.code) ==> s == "[" + e.code.value + "] " + e.message
  {
    if TruthyStr(e.code) then "[" + e.code.value + "] " + e.message else e.message
  }

  /** Every subclass sets a code, so its string always carries the bracketed code. */
  lemma TypedErrorsShowCode(m: string, r: Option<int>)
    ensures Str(AuthenticationError(m)) == "[" + AuthCode + "] " + m
    ensures Str(NotFoundError(m)) == "[" + NotFoundCode + "] " + m + " not found"
    ensures Str(ValidationError(m)) == "[" + ValidationCode + "] " + m
    ensures Str(ConnectionError(m)) == "[" + ConnectionCode + "] " + m
    ensures Str(ServerError(m)) == "[" + ServerCode + "] " + m
    ensures Str(RateLimitError(r)) == "[" + RateLimitCode + "] " + RateLimitError(r).message
  {
  }

  /** A plain error's string gives back its message: the code and the message can be read off it. */
  lemma StrRecoversMessage(a: SdkError, b: SdkError)
    requires a.code == b.code && Str(a) == Str(b)
    ensures a.message == b.message
  {
    if TruthyStr(a.code) {
      var p := "[" + a.code.value + "] ";
      assert Str(a) == p + a.message && Str(b) == p + b.message;
      assert a.message == Str(a)[|p|..];
      assert b.message == Str(b)[|p|..];
    }
  }

  /** A retry hint of 0 is falsy: the message is the bare one, yet 0 is stored. */
  lemma ZeroRetryAfterIsDropped()
    ensures RateLimitError(Some(0)).message == RateLimitMessage
    ensures RateLimitError(Some(0)).retryAfter == Some(0)
  {
  }
}
