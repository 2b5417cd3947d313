/** The configured HTTP client: its defaults (JSON, a 10-second timeout), the
    request interceptor that adds the bearer credential of section 2.1 of
    RFC 6750, and the response interceptor that tears the session down on a
    401 (section 15.5.2 of RFC 9110) and turns every failure into an error
    carrying one message. */
module HttpClient {
  import opened Wrappers
  import opened TokenStorage

  const TimeoutMs: nat := 10000
  const AuthorizationHeader: string := "Authorization"
  const FallbackMessage: string := "An unexpected error occurred"

  datatype Verb = Get | Post | Delete

  datatype RequestConfig = RequestConfig(
    verb: Verb, path: string, params: seq<(string, string)>,
    headers: map<string, string>, timeoutMs: nat)

  /** A request as the client builds it from its defaults. */
  function NewRequest(verb: Verb, path: string, params: seq<(string, string)>): (r: RequestConfig)
    ensures r.verb == verb && r.path == path && r.params == params
    ensures r.timeoutMs == TimeoutMs
    ensures r.headers == map["Content-Type" := "application/json"]
  {
    RequestConfig(verb, path, params, map["Content-Type" := "application/json"], TimeoutMs)
  }

  /** The request interceptor: with a non-empty stored token the request
      gets `Authorization: Bearer <token>`; otherwise it goes out as it was. */
  function WithBearer(config: RequestConfig, token: Option<string>): (r: RequestConfig)
    ensures HasToken(token) ==> r == config.(headers := config.headers[AuthorizationHeader := "Bearer " + token.value])
    ensures !HasToken(token) ==> r == config
  {
    if HasToken(token) then config.(headers := config.headers[AuthorizationHeader := "Bearer " + token.value])
    else config
  }

  /** A fresh request carries the credential exactly when a token is
      stored, carries the timeout either way, and the credential names the
      stored token after the `Bearer` scheme. */
  lemma BearerExactlyWhenToken(verb: Verb, path: string, params: seq<(string, string)>, token: Option<string>)
    ensures var r := WithBearer(NewRequest(verb, path, params), token);
      && (AuthorizationHeader in r.headers <==> HasToken(token))
      && (HasToken(token) ==> r.headers[AuthorizationHeader][..7] == "Bearer "
                              && r.headers[AuthorizationHeader][7..] == token.value)
      && r.timeoutMs == TimeoutMs
  {
  }

  /** A failed call as the transport reports it: the status (absent when no
      response came back), the body's `error` and `message` fields, and the
      transport's own message. */
  datatype HttpFailure = HttpFailure(
    status: Option<int>, bodyError: Option<string>, bodyMessage: Option<string>, transportMessage: string)

  /** A call's raw outcome. */
  datatype Outcome<T> = Answered(payload: T) | Failed(failure: HttpFailure)

  function NonEmpty(s: Option<string>): bool {
    s.Some? && s.value != ""
  }

  /** The error message: the first non-empty of the body's error field, the
      body's message field and the transport message, else the fallback. */
  function ErrorMessage(f: HttpFailure): (m: string)
    ensures m != ""
    ensures NonEmpty(f.bodyError) ==> m == f.bodyError.value
    ensures !NonEmpty(f.bodyError) && NonEmpty(f.bodyMessage) ==> m == f.bodyMessage.value
    ensures !NonEmpty(f.bodyError) && !NonEmpty(f.bodyMessage) && f.transportMessage != "" ==> m == f.transportMessage
    ensures !NonEmpty(f.bodyError) && !NonEmpty(f.bodyMessage) && f.transportMessage == "" ==> m == FallbackMessage
  {
    if NonEmpty(f.bodyError) then f.bodyError.value
    else if NonEmpty(f.bodyMessage) then f.bodyMessage.value
    else if f.transportMessage != "" then f.transportMessage
    else FallbackMessage
  }

  predicate IsUnauthorized(f: HttpFailure) {
    f.status == Some(401)
  }

  class ApiClient {
    const storage: Storage
    /** `defaults.headers.common`. */
    var defaultHeaders: map<string, string>

    constructor (storage: Storage)
      ensures this.storage == storage && defaultHeaders == map[]
    {
      this.storage := storage;
      defaultHeaders := map[];
    }

    /** The request interceptor, reading the stored token. */
    method Prepare(config: RequestConfig) returns (r: RequestConfig)
      ensures r == WithBearer(config, storage.adminToken)
      ensures HasToken(storage.adminToken)
              ==> AuthorizationHeader in r.headers && r.headers[AuthorizationHeader] == "Bearer " + storage.adminToken.value
      ensures !HasToken(storage.adminToken) ==> r == config
      ensures r.verb == config.verb && r.path == config.path && r.params == config.params && r.timeoutMs == config.timeoutMs
    {
      r := WithBearer(config, storage.adminToken);
    }

    /** The response interceptor. A success passes through unchanged. Every
      failure is re-raised with its chosen message; a 401 first removes the
      stored token and the default Authorization header, any other failure
      leaves both alone. */
    method Receive<T>(outcome: Outcome<T>) returns (r: Result<T, string>)
      modifies storage, this
      ensures outcome.Answered? ==> r == Success(outcome.payload)
      ensures outcome.Failed? ==> r == Failure(ErrorMessage(outcome.failure))
      ensures outcome.Failed? && IsUnauthorized(outcome.failure)
              ==> storage.adminToken == None && defaultHeaders == old(defaultHeaders) - {AuthorizationHeader}
      ensures !(outcome.Failed? && IsUnauthorized(outcome.failure))
              ==> storage.adminToken == old(storage.adminToken) && defaultHeaders == old(defaultHeaders)
    {
      match outcome
      case Answered(p) =>
        r := Success(p);
      case Failed(f) =>
        if IsUnauthorized(f) {
          storage.RemoveToken();
          defaultHeaders := defaultHeaders - {AuthorizationHeader};
        }
        r := Failure(ErrorMessage(f));
    }
  }
}
