/** The authentication and invite-code entities exchanged with the server.
    Timestamps the client compares are milliseconds since the epoch. */
module AuthTypes {
  import opened Wrappers

  datatype Admin = Admin(id: int, username: string, email: string, createdAt: Option<string>)

  datatype LoginRequest = LoginRequest(username: string, password: string)

  datatype RegisterRequest = RegisterRequest(username: string, email: string, password: string, inviteCode: string)

  /** Answer to a login or a registration; `token` may come back empty. */
  datatype AuthResponse = AuthResponse(message: string, admin: Admin, token: string)

  datatype MeResponse = MeResponse(admin: Admin)

  datatype InviteCode = InviteCode(
    id: int,
    code: string,
    used: bool,
    expiresAt: int,
    createdAt: string,
    usedAt: Option<string>,
    createdBy: Option<string>,
    usedBy: Option<string>)

  datatype InviteCodesResponse = InviteCodesResponse(inviteCodes: seq<InviteCode>)

  datatype GenerateInviteRequest = GenerateInviteRequest(expiresInDays: Option<int>)
}
