/** The browser storage slot 'adminToken' shared by the HTTP client and the
    auth service. */
module TokenStorage {
  import opened Wrappers

  const TokenKey: string := "adminToken"

  /** A stored token counts only when it is a non-empty string (`!!token`). */
  predicate HasToken(token: Option<string>) {
    token.Some? && token.value != ""
  }

  class Storage {
    /** `localStorage.getItem('adminToken')`: the string, or null. */
    var adminToken: Option<string>

    constructor (initial: Option<string>)
      ensures adminToken == initial
    {
      adminToken := initial;
    }

    method SetToken(token: string)
      modifies this
      ensures adminToken == Some(token)
    {
      adminToken := Some(token);
    }

    method RemoveToken()
      modifies this
      ensures adminToken == None
    {
      adminToken := None;
    }
  }
}
