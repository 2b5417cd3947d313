/** One row per invite code: its status at the current instant, its
    creator and user labels, and the copy / revoke actions offered only for
    codes not yet used. */
module InviteTable {
  import opened Wrappers
  import opened AuthTypes

  datatype InviteStatus = Used | Expired | Available

  /** A used code is Used whatever its expiry; otherwise it is Expired once
      its expiry instant lies strictly before now. */
  function StatusOf(invite: InviteCode, nowMs: int): (s: InviteStatus)
    ensures s == Used <==> invite.used
    ensures s == Expired <==> !invite.used && invite.expiresAt < nowMs
    ensures s == Available <==> !invite.used && invite.expiresAt >= nowMs
  {
    if invite.used then Used
    else if invite.expiresAt < nowMs then Expired
    else Available
  }

  /** `value || fallback` on a nullable string: null and "" both fall back. */
  function OrLabel(value: Option<string>, fallback: string): (r: string)
    ensures value.Some? && value.value != "" ==> r == value.value
    ensures value.None? || value.value == "" ==> r == fallback
  {
    if value.Some? && value.value != "" then value.value else fallback
  }

  const NoCreatorLabel: string := "System"
  const NoUserLabel: string := "-"

  /** The copy button hands over the code; the revoke button hands over the
      id and is disabled while a revoke runs. */
  datatype Actions = Actions(copyText: string, revokeId: int, revokeDisabled: bool)

  datatype InviteRow = InviteRow(
    code: string,
    status: InviteStatus,
    expiresAt: int,
    createdBy: string,
    usedBy: string,
    actions: Option<Actions>)

  function RowFor(invite: InviteCode, nowMs: int, isRevoking: bool): (r: InviteRow)
    ensures r.code == invite.code && r.expiresAt == invite.expiresAt
    ensures r.status == StatusOf(invite, nowMs)
    ensures r.createdBy == OrLabel(invite.createdBy, NoCreatorLabel)
    ensures r.usedBy == OrLabel(invite.usedBy, NoUserLabel)
    ensures r.actions.Some? <==> !invite.used
    ensures r.actions.Some? ==> r.actions.value == Actions(invite.code, invite.id, isRevoking)
  {
    InviteRow(
      invite.code,
      StatusOf(invite, nowMs),
      invite.expiresAt,
      OrLabel(invite.createdBy, NoCreatorLabel),
      OrLabel(invite.usedBy, NoUserLabel),
      if invite.used then None else Some(Actions(invite.code, invite.id, isRevoking)))
  }

  /** The table body: the answer's codes in order, one row each. */
  function Rows(invites: seq<InviteCode>, nowMs: int, isRevoking: bool): (rs: seq<InviteRow>)
    ensures |rs| == |invites|
    ensures forall i :: 0 <= i < |invites| ==> rs[i] == RowFor(invites[i], nowMs, isRevoking)
    ensures forall i :: 0 <= i < |invites| ==> rs[i].code == invites[i].code
    ensures forall i :: 0 <= i < |invites| ==> (rs[i].actions.Some? <==> rs[i].status != Used)
    ensures forall i :: 0 <= i < |invites| && rs[i].actions.Some? ==> rs[i].actions.value.revokeId == invites[i].id
  {
    seq(|invites|, i requires 0 <= i < |invites| => RowFor(invites[i], nowMs, isRevoking))
  }

  /** As time passes an unused code can only go from Available to Expired,
      never back; a used code stays Used. */
  lemma StatusMonotoneInTime(invite: InviteCode, earlier: int, later: int)
    requires earlier <= later
    ensures StatusOf(invite, earlier) == Expired ==> StatusOf(invite, later) == Expired
    ensures StatusOf(invite, later) == Available ==> StatusOf(invite, earlier) == Available
    ensures StatusOf(invite, earlier) == Used <==> StatusOf(invite, later) == Used
  {
  }

  /** An expired code can still be revoked: actions depend on use only. */
  lemma ExpiredCodesKeepActions(invite: InviteCode, nowMs: int, isRevoking: bool)
    requires StatusOf(invite, nowMs) == Expired
    ensures RowFor(invite, nowMs, isRevoking).actions == Some(Actions(invite.code, invite.id, isRevoking))
  {
  }
}
