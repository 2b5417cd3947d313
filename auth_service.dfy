/** The authentication and invite API wrappers as far as they hold logic:
    storing the session token after a login or a registration, removing it
    on logout, reading it back, and shaping the invite requests. */
module AuthService {
  import opened Wrappers
  import opened AuthTypes
  import opened TokenStorage
  import opened HttpClient
  import Decimal

  /** Shared by login and registration: the answer passes the response
      interceptor, and a successful answer's token is stored only when it is
      non-empty. */
  method ReceiveSession(client: ApiClient, outcome: Outcome<AuthResponse>) returns (r: Result<AuthResponse, string>)
    modifies client, client.storage
    ensures outcome.Answered? ==> r == Success(outcome.payload)
    ensures outcome.Failed? ==> r == Failure(ErrorMessage(outcome.failure))
    ensures outcome.Answered? && outcome.payload.token != ""
            ==> client.storage.adminToken == Some(outcome.payload.token)
    ensures outcome.Answered? && outcome.payload.token == ""
            ==> client.storage.adminToken == old(client.storage.adminToken)
    ensures outcome.Failed? && IsUnauthorized(outcome.failure) ==> client.storage.adminToken == None
    ensures outcome.Failed? && !IsUnauthorized(outcome.failure)
            ==> client.storage.adminToken == old(client.storage.adminToken)
    ensures outcome.Failed? && IsUnauthorized(outcome.failure)
            ==> client.defaultHeaders == old(client.defaultHeaders) - {AuthorizationHeader}
    ensures !(outcome.Failed? && IsUnauthorized(outcome.failure)) ==> client.defaultHeaders == old(client.defaultHeaders)
  {
    r := client.Receive(outcome);
    if r.Success? && r.value.token != "" {
      client.storage.SetToken(r.value.token);
    }
  }

  /** `authApi.login`: POST /login, then the token rule above. */
  method Login(client: ApiClient, data: LoginRequest, outcome: Outcome<AuthResponse>)
    returns (request: RequestConfig, r: Result<AuthResponse, string>)
    modifies client, client.storage
    ensures request.verb == Post && request.path == "/login"
    ensures outcome.Answered? ==> r == Success(outcome.payload)
    ensures outcome.Failed? ==> r == Failure(ErrorMessage(outcome.failure))
    ensures outcome.Answered? && outcome.payload.token != ""
            ==> client.storage.adminToken == Some(outcome.payload.token)
    ensures outcome.Answered? && outcome.payload.token == ""
            ==> client.storage.adminToken == old(client.storage.adminToken)
    ensures outcome.Failed? && IsUnauthorized(outcome.failure) ==> client.storage.adminToken == None
    ensures outcome.Failed? && !IsUnauthorized(outcome.failure)
            ==> client.storage.adminToken == old(client.storage.adminToken)
    ensures outcome.Failed? && IsUnauthorized(outcome.failure)
            ==> client.defaultHeaders == old(client.defaultHeaders) - {AuthorizationHeader}
    ensures !(outcome.Failed? && IsUnauthorized(outcome.failure)) ==> client.defaultHeaders == old(client.defaultHeaders)
  {
    request := client.Prepare(NewRequest(Post, "/login", []));
    r := ReceiveSession(client, outcome);
  }

  /** `authApi.register`: POST /register, then the same token rule. */
  method Register(client: ApiClient, data: RegisterRequest, outcome: Outcome<AuthResponse>)
    returns (request: RequestConfig, r: Result<AuthResponse, string>)
    modifies client, client.storage
    ensures request.verb == Post && request.path == "/register"
    ensures outcome.Answered? ==> r == Success(outcome.payload)
    ensures outcome.Failed? ==> r == Failure(ErrorMessage(outcome.failure))
    ensures outcome.Answered? && outcome.payload.token != ""
            ==> client.storage.adminToken == Some(outcome.payload.token)
    ensures outcome.Answered? && outcome.payload.token == ""
            ==> client.storage.adminToken == old(client.storage.adminToken)
    ensures outcome.Failed? && IsUnauthorized(outcome.failure) ==> client.storage.adminToken == None
    ensures outcome.Failed? && !IsUnauthorized(outcome.failure)
            ==> client.storage.adminToken == old(client.storage.adminToken)
    ensures outcome.Failed? && IsUnauthorized(outcome.failure)
            ==> client.defaultHeaders == old(client.defaultHeaders) - {AuthorizationHeader}
    ensures !(outcome.Failed? && IsUnauthorized(outcome.failure)) ==> client.defaultHeaders == old(client.defaultHeaders)
  {
    request := client.Prepare(NewRequest(Post, "/register", []));
    r := ReceiveSession(client, outcome);
  }

  /** `authApi.getMe`: GET /me, authorised by the request interceptor. */
  function MeRequest(): (r: RequestConfig)
    ensures r.verb == Get && r.path == "/me" && r.params == []
  {
    NewRequest(Get, "/me", [])
  }

  /** `authApi.logout`: the token is gone whatever was stored, so a second
      logout finds nothing left to change. */
  method Logout(storage: Storage)
    modifies storage
    ensures storage.adminToken == None
  {
    storage.RemoveToken();
  }

  /** `authApi.isAuthenticated`: a non-empty token is stored. */
  method IsAuthenticated(storage: Storage) returns (b: bool)
    ensures b <==> HasToken(storage.adminToken)
  {
    b := storage.adminToken.Some? && storage.adminToken.value != "";
  }

  /** `authApi.getToken`: the stored string or null. */
  method GetToken(storage: Storage) returns (t: Option<string>)
    ensures t == storage.adminToken
  {
    t := storage.adminToken;
  }

  function BoolString(b: bool): (s: string)
    ensures s == "true" <==> b
    ensures s == "false" <==> !b
  {
    if b then "true" else "false"
  }

  /** `inviteApi.getAll(showUsed = false)`: GET /invites with the flag as
      the string "true" or "false". */
  function GetAllRequest(showUsed: Option<bool>): (r: RequestConfig)
    ensures r.verb == Get && r.path == "/invites"
    ensures r.params == [("showUsed", if showUsed == Some(true) then "true" else "false")]
  {
    NewRequest(Get, "/invites", [("showUsed", BoolString(showUsed.GetOr(false)))])
  }

  /** `inviteApi.generate(data = {})`: POST /generate-invite with the given
      body, an empty one by default. */
  function GenerateBody(data: Option<GenerateInviteRequest>): (b: GenerateInviteRequest)
    ensures data.Some? ==> b == data.value
    ensures data.None? ==> b.expiresInDays.None?
  {
    data.GetOr(GenerateInviteRequest(None))
  }

  const InvitesPath: string := "/invites/"

  /** `inviteApi.revoke(id)`: DELETE /invites/{id}. */
  function RevokeRequest(id: int): (r: RequestConfig)
    ensures r.verb == Delete && r.params == []
    ensures |r.path| > |InvitesPath| && r.path[..|InvitesPath|] == InvitesPath
  {
    NewRequest(Delete, InvitesPath + Decimal.IntToString(id), [])
  }

  /** The id a revoke is sent for can be read back from its path: distinct
      ids never share a path. */
  lemma RevokePathNamesId(id: int)
    ensures var tail := RevokeRequest(id).path[|InvitesPath|..];
      && ((|tail| > 0 && tail[0] == '-' && Decimal.AllDigits(tail[1..])) || Decimal.AllDigits(tail))
      && Decimal.ParseInt(tail) == id
  {
    var tail := RevokeRequest(id).path[|InvitesPath|..];
    assert tail == Decimal.IntToString(id);
    Decimal.IntToStringRoundTrip(id);
  }
}
