/** The errors of the client: the API error built from a non-2xx response,
    its message, and the three status predicates. */
module Errors {
  import opened Json
  import Text

  datatype ErrorDetail = ErrorDetail(reason: string, id: int64)

  datatype APIError = APIError(
    statusCode: int, httpMethod: string, endpoint: string, message: string, rawBody: string, errors: seq<ErrorDetail>)

  /** The Go error values the modelled code produces or inspects. */
  datatype Error =
    | API(api: APIError)
    | Validation(field: string, message: string)
    /** The error doRequestWithRetry wraps around the context's error. */
    | RetryCancelled(cause: string)
    /** A failure of the HTTP transport or of reading the body. */
    | Transport(description: string)
    /** http.NewRequestWithContext refusing the method or the URL. */
    | InvalidRequest(description: string)
    /** json.Unmarshal of a response body into the caller's target. */
    | Decode(decodeError: DecodeError)

  predicate ErrorDetailFits(v: Json)
  {
    StructFits(v) && StrFits(v, "reason") && IntFits(v, "id")
  }

  function ErrorDetailFrom(v: Json): ErrorDetail
  {
    ErrorDetail(Str(v, "reason"), Int(v, "id"))
  }

  /** The `{ "errors": [...] }` body. */
  predicate ErrorResponseFits(v: Json)
  {
    StructFits(v) && ListFits(Field(v, "errors"), ErrorDetailFits)
  }

  function Reasons(v: Json): seq<ErrorDetail>
  {
    ListFrom(Field(v, "errors"), ErrorDetailFrom)
  }

  /** parseAPIError. `parsed` is the JSON value of `body` when the body is
      well-formed JSON, and None otherwise. The reason list is taken only
      from a body that decodes without error and holds at least one reason;
      otherwise the body text becomes the message. */
  function ParseAPIError(statusCode: int, httpMethod: string, endpoint: string, body: string, parsed: Option<Json>): (e: APIError)
    ensures e.statusCode == statusCode && e.httpMethod == httpMethod && e.endpoint == endpoint && e.rawBody == body
    ensures e.errors != [] <==> parsed.Some? && ErrorResponseFits(parsed.value) && Reasons(parsed.value) != []
    ensures e.errors != [] ==> e.errors == Reasons(parsed.value) && e.message == ""
    ensures e.errors == [] ==> e.message == body
  {
    var e := APIError(statusCode, httpMethod, endpoint, "", body, []);
    if parsed.Some? && ErrorResponseFits(parsed.value) && |Reasons(parsed.value)| > 0 then e.(errors := Reasons(parsed.value))
    else e.(message := body)
  }

  /** A body that is not JSON, or a JSON body without reasons, becomes the message. */
  lemma UnparsedBodyIsMessage(statusCode: int, httpMethod: string, endpoint: string, body: string)
    ensures ParseAPIError(statusCode, httpMethod, endpoint, body, None).message == body
    ensures ParseAPIError(statusCode, httpMethod, endpoint, body, Some(JObject(map[]))).message == body
  {
  }

  const ErrorPrefix := "flespi API error: "

  /** APIError.Error: method, endpoint and status, then the first reason when
      there is one and the message otherwise. */
  function ErrorText(e: APIError): (s: string)
    ensures Text.HasPrefix(s, ErrorPrefix)
    ensures var tail := if |e.errors| > 0 then e.errors[0].reason else e.message;
      |tail| <= |s| && s[|s| - |tail|..] == tail
  {
    var detail := if |e.errors| > 0 then e.errors[0].reason else e.message;
    var s := ErrorPrefix + e.httpMethod + " " + e.endpoint + " (status " + Text.Decimal(e.statusCode) + "): " + detail;
    assert s[..|ErrorPrefix|] == ErrorPrefix;
    s
  }

  predicate IsNotFoundError(err: Option<Error>)
  {
    err.Some? && err.value.API? && err.value.api.statusCode == 404
  }

  predicate IsUnauthorizedError(err: Option<Error>)
  {
    err.Some? && err.value.API? && err.value.api.statusCode == 401
  }

  predicate IsRateLimitError(err: Option<Error>)
  {
    err.Some? && err.value.API? && err.value.api.statusCode == 429
  }

  /** On an error built by parseAPIError each predicate holds exactly for its
      status, whatever the body; so at most one of them holds. */
  lemma StatusPredicates(statusCode: int, httpMethod: string, endpoint: string, body: string, parsed: Option<Json>)
    ensures var err := Some(API(ParseAPIError(statusCode, httpMethod, endpoint, body, parsed)));
      && (IsNotFoundError(err) <==> statusCode == 404)
      && (IsUnauthorizedError(err) <==> statusCode == 401)
      && (IsRateLimitError(err) <==> statusCode == 429)
  {
  }

  /** No error, or an error that is not an APIError, satisfies none of them. */
  lemma OtherErrorsUnclassified(err: Option<Error>)
    requires err.None? || !err.value.API?
    ensures !IsNotFoundError(err) && !IsUnauthorizedError(err) && !IsRateLimitError(err)
  {
  }
}
