/** The admin dashboard: the show-used switch that picks which invite list
    is fetched, the expiry field sent with each generate, the confirmed
    revoke, and the list's loading / empty / table display. */
module InviteDashboard {
  import opened Wrappers
  import opened AuthTypes
  import opened QueryClient
  import AuthHooks
  import InviteTable

  const DefaultExpiresInDays: int := 7

  /** The list area: a spinner while loading, a message for an answer with
      no codes, and otherwise the table (empty when there is no answer). */
  datatype ListView = Spinner | NoInvites | Table(rows: seq<InviteTable.InviteRow>)

  function ListViewOf(isLoading: bool, data: Option<InviteCodesResponse>, nowMs: int, isRevoking: bool): (v: ListView)
    ensures v.Spinner? <==> isLoading
    ensures v.NoInvites? <==> !isLoading && data.Some? && |data.value.inviteCodes| == 0
    ensures v.Table? && data.None? ==> v.rows == []
    ensures v.Table? && data.Some?
            ==> v.rows == InviteTable.Rows(data.value.inviteCodes, nowMs, isRevoking) && |v.rows| > 0
  {
    if isLoading then Spinner
    else if data.Some? && |data.value.inviteCodes| == 0 then NoInvites
    else if data.None? then Table([])
    else Table(InviteTable.Rows(data.value.inviteCodes, nowMs, isRevoking))
  }

  class Dashboard {
    var showUsed: bool
    /** The number field's value; None stands for the NaN a cleared field
        parses to, which the request body carries as null. */
    var expiresInDays: Option<int>
    var generateMutation: MutationState
    var revokeMutation: MutationState
    /** Bodies handed to the generate mutation, in order. */
    var generateRequests: seq<GenerateInviteRequest>
    /** Ids handed to the revoke mutation, in order. */
    var revokeRequests: seq<int>

    constructor ()
      ensures !showUsed && expiresInDays == Some(DefaultExpiresInDays)
      ensures generateMutation == Idle && revokeMutation == Idle
      ensures generateRequests == [] && revokeRequests == []
    {
      showUsed := false;
      expiresInDays := Some(DefaultExpiresInDays);
      generateMutation := Idle;
      revokeMutation := Idle;
      generateRequests := [];
      revokeRequests := [];
    }

    /** The invite query the page runs follows the switch. */
    function ListOptions(token: Option<string>): (o: QueryOptions)
      reads this
      ensures o.key == AuthHooks.InvitesKey(showUsed)
      ensures o.enabled <==> AuthHooks.InviteCodesOptions(Some(showUsed), token).enabled
    {
      AuthHooks.InviteCodesOptions(Some(showUsed), token)
    }

    method ToggleShowUsed(checked: bool)
      modifies this`showUsed
      ensures showUsed == checked
    {
      showUsed := checked;
    }

    method SetExpiresInDays(days: Option<int>)
      modifies this`expiresInDays
      ensures expiresInDays == days
    {
      expiresInDays := days;
    }

    /** `handleGenerateInvite`: the current expiry goes out as the body. */
    method HandleGenerate()
      modifies this`generateRequests, this`generateMutation
      ensures generateRequests == old(generateRequests) + [GenerateInviteRequest(expiresInDays)]
      ensures generateMutation == Pending
    {
      generateRequests := generateRequests + [GenerateInviteRequest(expiresInDays)];
      generateMutation := Pending;
    }

    /** `handleRevokeInvite`: the revoke goes out only when the user confirms. */
    method HandleRevoke(id: int, confirmed: bool)
      modifies this`revokeRequests, this`revokeMutation
      ensures confirmed ==> revokeRequests == old(revokeRequests) + [id] && revokeMutation == Pending
      ensures !confirmed ==> revokeRequests == old(revokeRequests) && revokeMutation == old(revokeMutation)
    {
      if confirmed {
        revokeRequests := revokeRequests + [id];
        revokeMutation := Pending;
      }
    }

    method GenerateSettled(cache: QueryCache, s: Settlement)
      modifies this`generateMutation, cache
      ensures generateMutation == Settle(s)
      ensures cache.entries == if s.Ok? then Invalidate(old(cache.entries), AuthHooks.InvitesPrefix) else old(cache.entries)
    {
      AuthHooks.InvitesChanged(cache, s);
      generateMutation := Settle(s);
    }

    method RevokeSettled(cache: QueryCache, s: Settlement)
      modifies this`revokeMutation, cache
      ensures revokeMutation == Settle(s)
      ensures cache.entries == if s.Ok? then Invalidate(old(cache.entries), AuthHooks.InvitesPrefix) else old(cache.entries)
    {
      AuthHooks.InvitesChanged(cache, s);
      revokeMutation := Settle(s);
    }
  }

  /** Whichever list the switch shows, a successful generate or revoke
      marks that list stale, so the page refetches it. */
  lemma ShownListRefreshed(m: Cache, showUsed: bool)
    requires AuthHooks.InvitesKey(showUsed) in m
    ensures Invalidate(m, AuthHooks.InvitesPrefix)[AuthHooks.InvitesKey(showUsed)].stale
  {
  }

  /** While a revoke runs every offered revoke button is disabled. */
  lemma RevokeLockedWhilePending(invites: seq<InviteCode>, nowMs: int, i: int)
    requires 0 <= i < |invites| && !invites[i].used
    ensures var rows := InviteTable.Rows(invites, nowMs, Pending.IsPending());
      rows[i].actions.Some? && rows[i].actions.value.revokeDisabled
  {
  }
}
