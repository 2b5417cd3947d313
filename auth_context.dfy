/** The value the auth provider hands to the pages, derived from the `me`
    query, and the hook that reads it. */
module AuthContext {
  import opened Wrappers
  import opened AuthTypes
  import opened QueryClient
  import AuthHooks

  datatype AuthContextValue = AuthContextValue(
    admin: Option<Admin>,
    isLoading: bool,
    isAuthenticated: bool,
    isError: bool)

  const OutsideProviderMessage: string := "useAuthContext must be used within AuthProvider"

  /** `AuthProvider`: the admin of the `me` answer or null; authenticated
      exactly when there is an admin; loading and error flags passed on. */
  function ContextValue(me: Option<MeResponse>, isLoading: bool, isError: bool): (v: AuthContextValue)
    ensures v.isAuthenticated <==> me.Some?
    ensures v.isAuthenticated <==> v.admin.Some?
    ensures me.Some? ==> v.admin == Some(me.value.admin)
    ensures v.isLoading == isLoading && v.isError == isError
  {
    match me
    case None => AuthContextValue(None, isLoading, false, isError)
    case Some(resp) => AuthContextValue(Some(resp.admin), isLoading, true, isError)
  }

  /** `useAuthContext`: fails with the provider message outside a provider. */
  function UseAuthContext(provided: Option<AuthContextValue>): (r: Result<AuthContextValue, string>)
    ensures provided.None? <==> r.Failure?
    ensures r.Failure? ==> r.error == OutsideProviderMessage
    ensures provided.Some? ==> r == Success(provided.value)
  {
    match provided
    case None => Failure(OutsideProviderMessage)
    case Some(v) => Success(v)
  }

  /** The `me` query's data as the cache holds it. */
  function MeFromCache(m: Cache): (me: Option<MeResponse>)
    ensures me.Some? <==> AuthHooks.MeKey in m && m[AuthHooks.MeKey].data.MeData?
    ensures me.Some? ==> me.value.admin == m[AuthHooks.MeKey].data.admin
  {
    if AuthHooks.MeKey in m && m[AuthHooks.MeKey].data.MeData?
    then Some(MeResponse(m[AuthHooks.MeKey].data.admin))
    else None
  }

  /** A login (or registration) writes the session entry, so the provider
      sees the admin without another request. */
  lemma LoginAuthenticatesContext(m: Cache, admin: Admin, isLoading: bool, isError: bool)
    ensures var v := ContextValue(MeFromCache(m[AuthHooks.MeKey := Entry(false, MeData(admin))]), isLoading, isError);
      v.isAuthenticated && v.admin == Some(admin)
  {
  }

  /** After a logout the cache is empty and the provider reports nobody. */
  lemma LogoutDeauthenticatesContext(isLoading: bool, isError: bool)
    ensures !ContextValue(MeFromCache(map[]), isLoading, isError).isAuthenticated
    ensures ContextValue(MeFromCache(map[]), isLoading, isError).admin.None?
  {
  }
}
