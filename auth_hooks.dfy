/** The session and invite queries and mutations: which queries run only
    with a token, what a login or registration writes into the cache, what a
    logout clears, and what an invite mutation marks stale. */
module AuthHooks {
  import opened Wrappers
  import opened AuthTypes
  import opened TokenStorage
  import opened HttpClient
  import opened QueryClient
  import AuthService
  import InventoryHooks

  const MeKey: QueryKey := [Str("auth"), Str("me")]

  /** The filter both invite mutations invalidate with. */
  const InvitesPrefix: QueryKey := [Str("invites")]

  /** `authKeys.invites(showUsed)`. */
  function InvitesKey(showUsed: bool): (k: QueryKey)
    ensures |k| == 2 && Matches(InvitesPrefix, k) && k[1].ShowUsed? && k[1].flag == showUsed
  {
    InvitesPrefix + [ShowUsed(showUsed)]
  }

  const MeStaleTimeMs: nat := 5 * 60 * 1000
  const InvitesStaleTimeMs: nat := 1 * 60 * 1000

  const LoginLanding: string := "/inventory"
  const RegisterLanding: string := "/dashboard"
  const LogoutLanding: string := "/login"

  /** `useMe`: runs only while a token is stored, is never retried, and
      stays fresh for five minutes. */
  function MeOptions(token: Option<string>): (o: QueryOptions)
    ensures o.key == MeKey
    ensures o.enabled <==> HasToken(token)
    ensures o.retry == 0 && o.staleTimeMs == 300000 && o.refetchIntervalMs.None?
  {
    QueryOptions(MeKey, HasToken(token), 0, MeStaleTimeMs, None)
  }

  /** `useInviteCodes(showUsed = false)`: runs only while a token is stored,
      keeps the client's retry default, and stays fresh for a minute. */
  function InviteCodesOptions(showUsed: Option<bool>, token: Option<string>): (o: QueryOptions)
    ensures o.key == InvitesKey(showUsed == Some(true))
    ensures o.enabled <==> HasToken(token)
    ensures o.retry == DefaultRetry && o.staleTimeMs == 60000 && o.refetchIntervalMs.None?
  {
    QueryOptions(InvitesKey(showUsed.GetOr(false)), HasToken(token), DefaultRetry, InvitesStaleTimeMs, None)
  }

  /** The session queries are gated by the token while the inventory
      queries always run: with no token (or an empty one) neither session
      query fires. */
  lemma SessionQueriesNeedToken(showUsed: Option<bool>, token: Option<string>)
    ensures !HasToken(token) ==> !MeOptions(token).enabled && !InviteCodesOptions(showUsed, token).enabled
    ensures HasToken(token) ==> MeOptions(token).enabled && InviteCodesOptions(showUsed, token).enabled
    ensures MeOptions(Some("")).enabled == false
    ensures InventoryHooks.InventoryOptions().enabled
  {
  }

  /** The two invite lists are cached apart, both sit under the invites
      prefix, and neither the session entry nor the inventory entries do. */
  lemma InvitesKeysLayout()
    ensures InvitesKey(true) != InvitesKey(false)
    ensures Matches(InvitesPrefix, InvitesKey(true)) && Matches(InvitesPrefix, InvitesKey(false))
    ensures !Matches(InvitesPrefix, MeKey)
    ensures !Matches(InvitesPrefix, InventoryHooks.InventoryKey)
    ensures !Matches(InvitesPrefix, InventoryHooks.TodayProfitKey)
    ensures !Matches(InvitesPrefix, InventoryHooks.ProductProfitsKey)
  {
    assert InvitesKey(true)[1] != InvitesKey(false)[1];
    assert MeKey[0] != InvitesPrefix[0];
    assert InventoryHooks.InventoryKey[0] != InvitesPrefix[0];
    assert InventoryHooks.TodayProfitKey[0] != InvitesPrefix[0];
    assert InventoryHooks.ProductProfitsKey[0] != InvitesPrefix[0];
  }

  /** After a generate or a revoke both invite lists (used shown or hidden)
      are stale, and the session and inventory entries are untouched. */
  lemma InviteInvalidationExact(m: Cache)
    ensures forall b :: InvitesKey(b) in m ==> Invalidate(m, InvitesPrefix)[InvitesKey(b)].stale
    ensures MeKey in m ==> Invalidate(m, InvitesPrefix)[MeKey] == m[MeKey]
    ensures InventoryHooks.InventoryKey in m
            ==> Invalidate(m, InvitesPrefix)[InventoryHooks.InventoryKey] == m[InventoryHooks.InventoryKey]
    ensures InventoryHooks.TodayProfitKey in m
            ==> Invalidate(m, InvitesPrefix)[InventoryHooks.TodayProfitKey] == m[InventoryHooks.TodayProfitKey]
    ensures InventoryHooks.ProductProfitsKey in m
            ==> Invalidate(m, InvitesPrefix)[InventoryHooks.ProductProfitsKey] == m[InventoryHooks.ProductProfitsKey]
  {
    InvitesKeysLayout();
  }

  /** The mutation state a login or registration request ends in. */
  function SessionState(r: Result<AuthResponse, string>): (s: MutationState)
    ensures s.Succeeded? <==> r.Success?
    ensures r.Failure? ==> s == Errored(r.error)
  {
    match r
    case Success(_) => Succeeded
    case Failure(msg) => Errored(msg)
  }

  /** `useLogin`: the request, then on success the session entry holds the
      returned admin and the page moves to the inventory. */
  method UseLogin(client: ApiClient, cache: QueryCache, data: LoginRequest, outcome: Outcome<AuthResponse>)
    returns (state: MutationState, landing: Option<string>)
    modifies client, client.storage, cache
    ensures outcome.Answered? ==> state == Succeeded && landing == Some(LoginLanding)
    ensures outcome.Answered?
            ==> cache.entries == old(cache.entries)[MeKey := Entry(false, MeData(outcome.payload.admin))]
    ensures outcome.Failed? ==> state == Errored(ErrorMessage(outcome.failure)) && landing.None?
    ensures outcome.Failed? ==> cache.entries == old(cache.entries)
    ensures outcome.Answered? && outcome.payload.token != ""
            ==> client.storage.adminToken == Some(outcome.payload.token)
    ensures outcome.Answered? && outcome.payload.token == ""
            ==> client.storage.adminToken == old(client.storage.adminToken)
    ensures outcome.Failed? && IsUnauthorized(outcome.failure) ==> client.storage.adminToken == None
    ensures outcome.Failed? && !IsUnauthorized(outcome.failure)
            ==> client.storage.adminToken == old(client.storage.adminToken)
    ensures outcome.Failed? && IsUnauthorized(outcome.failure)
            ==> client.defaultHeaders == old(client.defaultHeaders) - {AuthorizationHeader}
    ensures !(outcome.Failed? && IsUnauthorized(outcome.failure)) ==> client.defaultHeaders == old(client.defaultHeaders)
  {
    var _, r := AuthService.Login(client, data, outcome);
    state := SessionState(r);
    landing := None;
    if r.Success? {
      cache.SetQueryData(MeKey, MeData(r.value.admin));
      landing := Some(LoginLanding);
    }
  }

  /** `useRegister`: as a login, landing on the dashboard. */
  method UseRegister(client: ApiClient, cache: QueryCache, data: RegisterRequest, outcome: Outcome<AuthResponse>)
    returns (state: MutationState, landing: Option<string>)
    modifies client, client.storage, cache
    ensures outcome.Answered? ==> state == Succeeded && landing == Some(RegisterLanding)
    ensures outcome.Answered?
            ==> cache.entries == old(cache.entries)[MeKey := Entry(false, MeData(outcome.payload.admin))]
    ensures outcome.Failed? ==> state == Errored(ErrorMessage(outcome.failure)) && landing.None?
    ensures outcome.Failed? ==> cache.entries == old(cache.entries)
    ensures outcome.Answered? && outcome.payload.token != ""
            ==> client.storage.adminToken == Some(outcome.payload.token)
    ensures outcome.Answered? && outcome.payload.token == ""
            ==> client.storage.adminToken == old(client.storage.adminToken)
    ensures outcome.Failed? && IsUnauthorized(outcome.failure) ==> client.storage.adminToken == None
    ensures outcome.Failed? && !IsUnauthorized(outcome.failure)
            ==> client.storage.adminToken == old(client.storage.adminToken)
    ensures outcome.Failed? && IsUnauthorized(outcome.failure)
            ==> client.defaultHeaders == old(client.defaultHeaders) - {AuthorizationHeader}
    ensures !(outcome.Failed? && IsUnauthorized(outcome.failure)) ==> client.defaultHeaders == old(client.defaultHeaders)
  {
    var _, r := AuthService.Register(client, data, outcome);
    state := SessionState(r);
    landing := None;
    if r.Success? {
      cache.SetQueryData(MeKey, MeData(r.value.admin));
      landing := Some(RegisterLanding);
    }
  }

  /** `useLogout`: the token is removed, then every cached entry is dropped,
      then the page moves to the login form. */
  method UseLogout(storage: Storage, cache: QueryCache) returns (landing: string)
    modifies storage, cache
    ensures storage.adminToken == None
    ensures cache.entries == map[]
    ensures landing == LogoutLanding
  {
    AuthService.Logout(storage);
    cache.Clear();
    landing := LogoutLanding;
  }

  /** `useGenerateInvite` and `useRevokeInvite` share this `onSuccess`. */
  method InvitesChanged(cache: QueryCache, s: Settlement)
    modifies cache
    ensures cache.entries == if s.Ok? then Invalidate(old(cache.entries), InvitesPrefix) else old(cache.entries)
  {
    if s.Ok? {
      cache.InvalidateQueries(InvitesPrefix);
    }
  }
}
