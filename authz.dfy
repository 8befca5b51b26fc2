/** The admin check that RPC procedures run before doing admin-only work (src/lib/trpc/authz.ts). */
module Authz {
  import opened Common

  /** The part of the RPC context the check reads: the caller's role, if any. */
  datatype Ctx = Ctx(role: Option<Role>)

  /** An RPC error: an error code and a human-readable message. */
  datatype TrpcError = TrpcError(code: string, message: string)

  const ForbiddenCode := "FORBIDDEN"
  const AdminRequiredMessage := "This requires admin access"

  /** The role the check admits. */
  predicate IsAdmin(ctx: Ctx) {
    ctx.role == Some(Admin)
  }

  /** Passes exactly when the role is `Admin`; any other role, or none, fails with FORBIDDEN.
      The method has no `modifies` clause: it changes nothing, `ctx` included. */
  method RequiresAdmin(ctx: Ctx) returns (r: Outcome<TrpcError>)
    ensures r.Pass? <==> IsAdmin(ctx)
    ensures r.Fail? ==> r.error.code == ForbiddenCode && r.error.message == AdminRequiredMessage
  {
    if ctx.role != Some(Admin) {
      return Fail(TrpcError(ForbiddenCode, AdminRequiredMessage));
    }
    return Pass;
  }
}
