/** The login form: local validation first, the login mutation only for a
    valid form, and one error line that prefers the local message. */
module LoginPage {
  import opened Wrappers
  import opened AuthTypes
  import opened HttpClient
  import opened QueryClient
  import AuthSchema
  import AuthHooks

  /** The error line: shown when either message exists, the form's own
      message winning over the request's. */
  function ShownError(formError: Option<string>, mutation: MutationState): (r: Option<string>)
    ensures r.Some? <==> formError.Some? || mutation.Errored?
    ensures formError.Some? ==> r == formError
    ensures formError.None? && mutation.Errored? ==> r == Some(mutation.message)
  {
    if formError.Some? then formError
    else if mutation.Errored? then Some(mutation.message)
    else None
  }

  /** Both inputs and the submit button are disabled while the request runs. */
  predicate InputsDisabled(mutation: MutationState) {
    mutation.IsPending()
  }

  function SubmitLabel(mutation: MutationState): (s: string)
    ensures s == "Logging in..." <==> InputsDisabled(mutation)
  {
    if mutation.IsPending() then "Logging in..." else "Sign in"
  }

  class LoginForm {
    var username: string
    var password: string
    var formError: Option<string>
    var mutation: MutationState
    /** Every request handed to the login mutation, in order. */
    var loginCalls: seq<LoginRequest>
    var landing: Option<string>

    constructor ()
      ensures username == "" && password == "" && formError.None?
      ensures mutation == Idle && loginCalls == [] && landing.None?
    {
      username := "";
      password := "";
      formError := None;
      mutation := Idle;
      loginCalls := [];
      landing := None;
    }

    method EnterUsername(value: string)
      modifies this`username
      ensures username == value
    {
      username := value;
    }

    method EnterPassword(value: string)
      modifies this`password
      ensures password == value
    {
      password := value;
    }

    /** `handleSubmit`: an invalid form shows the first issue and sends
        nothing; a valid one clears the message and starts the login. */
    method HandleSubmit()
      modifies this`formError, this`mutation, this`loginCalls
      ensures var v := AuthSchema.ValidateLogin(old(username), old(password));
        && (v.Failure? ==> formError == Some(v.error[0].message)
                           && loginCalls == old(loginCalls) && mutation == old(mutation))
        && (v.Success? ==> formError.None? && loginCalls == old(loginCalls) + [v.value]
                           && mutation == Pending)
    {
      formError := None;
      var v := AuthSchema.ValidateLogin(username, password);
      if v.Failure? {
        formError := Some(v.error[0].message);
        return;
      }
      loginCalls := loginCalls + [v.value];
      mutation := Pending;
    }

    /** The login request settles: the mutation records its outcome and a
        success writes the session entry and leaves for the inventory. */
    method LoginSettled(client: ApiClient, cache: QueryCache, outcome: Outcome<AuthResponse>)
      requires |loginCalls| > 0
      modifies this`mutation, this`landing, client, client.storage, cache
      ensures outcome.Answered? ==> mutation == Succeeded && landing == Some(AuthHooks.LoginLanding)
      ensures outcome.Failed? ==> mutation == Errored(ErrorMessage(outcome.failure))
                                   && landing == old(landing)
      ensures outcome.Answered?
              ==> cache.entries == old(cache.entries)[AuthHooks.MeKey := Entry(false, MeData(outcome.payload.admin))]
      ensures outcome.Failed? ==> cache.entries == old(cache.entries)
      ensures outcome.Answered? && outcome.payload.token != ""
              ==> client.storage.adminToken == Some(outcome.payload.token)
      ensures outcome.Answered? && outcome.payload.token == ""
              ==> client.storage.adminToken == old(client.storage.adminToken)
      ensures outcome.Failed? && IsUnauthorized(outcome.failure) ==> client.storage.adminToken == None
      ensures outcome.Failed? && !IsUnauthorized(outcome.failure)
              ==> client.storage.adminToken == old(client.storage.adminToken)
      ensures outcome.Failed? && IsUnauthorized(outcome.failure)
              ==> client.defaultHeaders == old(client.defaultHeaders) - {AuthorizationHeader}
      ensures !(outcome.Failed? && IsUnauthorized(outcome.failure)) ==> client.defaultHeaders == old(client.defaultHeaders)
    {
      var state, next := AuthHooks.UseLogin(client, cache, loginCalls[|loginCalls| - 1], outcome);
      mutation := state;
      if next.Some? {
        landing := next;
      }
    }
  }

  /** A short username is reported before anything is sent, and its message
      is the one shown even when an earlier request failed. */
  lemma ShortUsernameShownFirst(username: string, password: string, previous: MutationState)
    requires AuthSchema.Utf16Length(username) < 3
    ensures var v := AuthSchema.ValidateLogin(username, password);
      v.Failure? && ShownError(Some(v.error[0].message), previous) == Some(AuthSchema.UsernameMessage)
  {
  }

  /** Once a valid form is submitted the line shows the request's error, if
      it fails, and nothing while it runs. */
  lemma ValidSubmitShowsServerError(message: string)
    ensures ShownError(None, Errored(message)) == Some(message)
    ensures ShownError(None, Pending) == None
  {
  }
}
