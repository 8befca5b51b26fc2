/** The server request pipeline (src/hooks.server.ts): correlation id, session and role
    resolution, and the access guard, run in that order for every request. */
module Hooks {
  import opened Common
  import LogContext
  import Authz

  const AdminPrefix := "/admin"
  const AuthPrefix := "/auth"
  const LoginPath := "/auth"
  const HomePath := "/"
  const SeeOther := 303

  /** JavaScript's `s.startsWith(prefix)`: a plain character prefix, no path-segment logic. */
  predicate StartsWith(s: string, prefix: string) {
    |prefix| <= |s| && s[..|prefix|] == prefix
  }

  // ---------------------------------------------------------------- access guard

  /** What the guard decides: let the request through, or end it with a redirect. */
  datatype Decision = Allow | Redirect(status: int, location: string)

  /** A verified user of the auth provider; only its id matters to the core. */
  datatype User = User(id: string)

  /** `authGuards`: the first of three rules that fires decides.
      (1) no user, path not under `/admin`: to the login page;
      (2) a user, path under `/auth`: home;
      (3) role not `Admin`, path under `/admin`: home;
      otherwise the request proceeds. */
  function AuthGuard(user: Option<User>, role: Option<Role>, pathname: string): (d: Decision)
    ensures user.None? && !StartsWith(pathname, AdminPrefix) ==> d == Redirect(SeeOther, LoginPath)
    ensures user.Some? && StartsWith(pathname, AuthPrefix) ==> d == Redirect(SeeOther, HomePath)
    ensures role != Some(Admin) && StartsWith(pathname, AdminPrefix) ==> d == Redirect(SeeOther, HomePath)
    ensures d == Allow <==>
              (user.Some? ==> !StartsWith(pathname, AuthPrefix)) &&
              (user.None? ==> StartsWith(pathname, AdminPrefix)) &&
              (StartsWith(pathname, AdminPrefix) ==> role == Some(Admin))
    ensures d.Redirect? ==> d.status == SeeOther && (d.location == LoginPath || d.location == HomePath)
  {
    if user.None? && !StartsWith(pathname, AdminPrefix) then Redirect(SeeOther, LoginPath)
    else if user.Some? && StartsWith(pathname, AuthPrefix) then Redirect(SeeOther, HomePath)
    else if role != Some(Admin) && StartsWith(pathname, AdminPrefix) then Redirect(SeeOther, HomePath)
    else Allow
  }

  /** Rule 1's condition excludes both of the others (rule 2 needs a user, rule 3 an admin path),
      and rules 2 and 3 both redirect home; so the rules could be tried in any order and the
      guard would decide the same. */
  lemma RuleOrderIrrelevant(user: Option<User>, role: Option<Role>, pathname: string)
    ensures var rule1 := user.None? && !StartsWith(pathname, AdminPrefix);
            var rule2 := user.Some? && StartsWith(pathname, AuthPrefix);
            var rule3 := role != Some(Admin) && StartsWith(pathname, AdminPrefix);
            !(rule1 && rule2) && !(rule1 && rule3) &&
            AuthGuard(user, role, pathname) ==
              if rule1 then Redirect(SeeOther, LoginPath)
              else if rule2 || rule3 then Redirect(SeeOther, HomePath)
              else Allow
  {
  }

  /** No path lies under both `/admin` and `/auth`: they differ in their third character. */
  lemma AdminPathNotAuthPath(pathname: string)
    ensures StartsWith(pathname, AdminPrefix) ==> !StartsWith(pathname, AuthPrefix)
  {
    if StartsWith(pathname, AdminPrefix) {
      assert pathname[2] == AdminPrefix[2] != AuthPrefix[2];
    }
  }

  /** A signed-in Admin is let through on every admin path. */
  lemma AdminAllowedOnAdminPaths(u: User, pathname: string)
    requires StartsWith(pathname, AdminPrefix)
    ensures AuthGuard(Some(u), Some(Admin), pathname) == Allow
  {
    AdminPathNotAuthPath(pathname);
  }

  /** The prefix tests are raw: `/administrators` is an admin path and `/authors` an auth path,
      so a signed-in user is sent home from `/authors` and a Staff user from `/administrators`. */
  lemma RawPrefixExamples(u: User)
    ensures StartsWith("/administrators", AdminPrefix) && StartsWith("/authors", AuthPrefix)
    ensures AuthGuard(Some(u), Some(Staff), "/administrators") == Redirect(SeeOther, HomePath)
    ensures AuthGuard(Some(u), Some(Admin), "/authors") == Redirect(SeeOther, HomePath)
    ensures AuthGuard(None, None, "/administrators") == Redirect(SeeOther, HomePath)
  {
  }

  // ---------------------------------------------------------------- session resolution

  /** A session found by the auth provider in the request's cookies; opaque to the core. */
  datatype Session = Session(token: string)

  /** The reply of the provider's authoritative `getUser` round trip. */
  datatype UserReply = UserReply(user: Option<User>, error: bool)

  /** What `safeGetSession` returns. */
  datatype SessionPair = SessionPair(session: Option<Session>, user: Option<User>)

  /** `safeGetSession`, given what `getSession` finds and what `getUser` would answer.
      Without a session, or when validation reports an error, the result is empty; otherwise it
      is the found session with the verified user, unchanged. */
  function ResolveSession(found: Option<Session>, reply: UserReply): (p: SessionPair)
    ensures p.session.Some? <==> found.Some? && !reply.error
    ensures p.session.None? ==> p.user.None?
    ensures p.session.Some? ==> p.session == found && p.user == reply.user
  {
    if found.None? then SessionPair(None, None)
    else if reply.error then SessionPair(None, None)
    else SessionPair(found, reply.user)
  }

  /** Session and user come back both present or both absent, provided the provider never
      answers "no error" without a user: the pairing rests on the provider, not on this code. */
  lemma SessionAndUserTogether(found: Option<Session>, reply: UserReply)
    requires reply.error || reply.user.Some?
    ensures ResolveSession(found, reply).session.Some? <==> ResolveSession(found, reply).user.Some?
  {
  }

  /** The auth provider behind `event.locals.supabase.auth` for one request: what its two
      calls answer, and how many `getUser` round trips were made. */
  class AuthClient {
    const session: Option<Session>
    const userReply: UserReply
    var getUserCalls: nat

    constructor (session: Option<Session>, userReply: UserReply)
      ensures this.session == session && this.userReply == userReply && getUserCalls == 0
    {
      this.session := session;
      this.userReply := userReply;
      getUserCalls := 0;
    }

    /** `auth.getSession()`: the session decoded from the cookies, without validation. */
    method GetSession() returns (s: Option<Session>)
      ensures s == session
    {
      s := session;
    }

    /** `auth.getUser()`: the authoritative round trip. */
    method GetUser() returns (r: UserReply)
      modifies this
      ensures r == userReply && getUserCalls == old(getUserCalls) + 1
    {
      r := userReply;
      getUserCalls := getUserCalls + 1;
    }
  }

  /** `safeGetSession`, with its early returns: `getUser` is asked only when a session was found. */
  method SafeGetSession(auth: AuthClient) returns (p: SessionPair)
    modifies auth
    ensures p == ResolveSession(auth.session, auth.userReply)
    ensures auth.getUserCalls == old(auth.getUserCalls) + (if auth.session.Some? then 1 else 0)
  {
    var session := auth.GetSession();
    if session.None? {
      return SessionPair(None, None);
    }
    var reply := auth.GetUser();
    if reply.error {
      return SessionPair(None, None);
    }
    return SessionPair(session, reply.user);
  }

  // ---------------------------------------------------------------- role lookup

  /** The role a user ends up with: the row keyed by the user's id, when there is a user and a
      row; nothing otherwise. A role is never found without a user. */
  function RoleOf(user: Option<User>, roles: map<string, Role>): (r: Option<Role>)
    ensures r.Some? <==> user.Some? && user.value.id in roles
    ensures r.Some? ==> r.value == roles[user.value.id]
  {
    if user.Some? && user.value.id in roles then Some(roles[user.value.id]) else None
  }

  /** `event.locals` for one request; SvelteKit creates it empty. */
  class Locals {
    var session: Option<Session>
    var user: Option<User>
    var role: Option<Role>

    constructor ()
      ensures session == None && user == None && role == None
    {
      session, user, role := None, None, None;
    }
  }

  /** The state-changing part of `handleAuth`: resolve the session, store session and user, and
      assign the role only when a user is present and a role row exists (else leave it as it was). */
  method HandleAuth(locals: Locals, auth: AuthClient, roles: map<string, Role>)
    modifies locals, auth
    ensures var p := ResolveSession(auth.session, auth.userReply);
            locals.session == p.session && locals.user == p.user &&
            locals.role == (if RoleOf(p.user, roles).Some? then RoleOf(p.user, roles) else old(locals.role))
    ensures auth.getUserCalls == old(auth.getUserCalls) + (if auth.session.Some? then 1 else 0)
  {
    var p := SafeGetSession(auth);
    locals.user := p.user;
    locals.session := p.session;
    if p.user.Some? {
      if p.user.value.id in roles {
        locals.role := Some(roles[p.user.value.id]);
      }
    }
  }

  // ---------------------------------------------------------------- cookies

  /** A cookie option value. */
  datatype OptionValue = Text(text: string) | Number(number: int) | Flag(flag: bool)

  /** Cookie options (`path`, `domain`, `maxAge`, `httpOnly`, ...) by name. */
  type CookieOptions = map<string, OptionValue>

  /** One cookie the auth client asks to have set. */
  datatype Cookie = Cookie(name: string, value: string, options: CookieOptions)

  /** `{ ...options, path: '/' }`: the path becomes `/`, every other option is kept. */
  function WithRootPath(options: CookieOptions): (r: CookieOptions)
    ensures "path" in r && r["path"] == Text("/")
    ensures forall k :: k != "path" ==> (k in r <==> k in options)
    ensures forall k :: k in options && k != "path" ==> r[k] == options[k]
  {
    options["path" := Text("/")]
  }

  function Rooted(c: Cookie): Cookie {
    c.(options := WithRootPath(c.options))
  }

  /** The cookies `setAll` writes for `cookiesToSet`, in order. */
  function RootPathed(cookiesToSet: seq<Cookie>): (r: seq<Cookie>)
    ensures |r| == |cookiesToSet|
  {
    if cookiesToSet == [] then []
    else RootPathed(cookiesToSet[..|cookiesToSet| - 1]) + [Rooted(cookiesToSet[|cookiesToSet| - 1])]
  }

  /** The i-th cookie written keeps the i-th requested name and value, has path `/` and keeps
      every other option. */
  lemma {:induction false} RootPathedAt(cookiesToSet: seq<Cookie>, i: nat)
    requires i < |cookiesToSet|
    ensures RootPathed(cookiesToSet)[i].name == cookiesToSet[i].name
    ensures RootPathed(cookiesToSet)[i].value == cookiesToSet[i].value
    ensures RootPathed(cookiesToSet)[i].options == WithRootPath(cookiesToSet[i].options)
  {
    if i < |cookiesToSet| - 1 {
      var init := cookiesToSet[..|cookiesToSet| - 1];
      RootPathedAt(init, i);
      assert init[i] == cookiesToSet[i];
    }
  }

  /** `event.cookies`: the cookies set on the response so far, in call order. */
  class Cookies {
    var written: seq<Cookie>

    constructor ()
      ensures written == []
    {
      written := [];
    }

    /** `event.cookies.set(name, value, options)`. */
    method Set(c: Cookie)
      modifies this
      ensures written == old(written) + [c]
    {
      written := written + [c];
    }

    /** The `setAll` callback handed to the auth client: sets each cookie in turn, with path `/`. */
    method SetAll(cookiesToSet: seq<Cookie>)
      modifies this
      ensures written == old(written) + RootPathed(cookiesToSet)
    {
      var i := 0;
      while i < |cookiesToSet|
        invariant 0 <= i <= |cookiesToSet|
        invariant written == old(written) + RootPathed(cookiesToSet[..i])
      {
        assert cookiesToSet[..i + 1][..i] == cookiesToSet[..i];
        Set(Rooted(cookiesToSet[i]));
        i := i + 1;
      }
      assert cookiesToSet[..|cookiesToSet|] == cookiesToSet;
    }
  }

  // ---------------------------------------------------------------- the pipeline

  /** How a request ends: redirected, or handed downstream inside the correlation-id scope of
      `requestId`, with the user and role the downstream handlers read from `locals`. */
  datatype Response =
    | Redirected(status: int, location: string)
    | Resolved(requestId: string, user: Option<User>, role: Option<Role>)

  /** The request's identity cannot be established. */
  predicate Anonymous(found: Option<Session>, reply: UserReply) {
    found.None? || reply.error || reply.user.None?
  }

  /** `sequence(addTraceIds, handleAuth, authGuards, ...)` over one request with fresh `locals`. */
  function Pipeline(requestId: string, found: Option<Session>, reply: UserReply,
                    roles: map<string, Role>, pathname: string): (r: Response)
    ensures Anonymous(found, reply) && !StartsWith(pathname, AdminPrefix) ==>
              r == Redirected(SeeOther, LoginPath)
    ensures Anonymous(found, reply) && StartsWith(pathname, AdminPrefix) ==>
              r == Redirected(SeeOther, HomePath)
    ensures !Anonymous(found, reply) && StartsWith(pathname, AuthPrefix) ==>
              r == Redirected(SeeOther, HomePath)
    ensures !Anonymous(found, reply) && !StartsWith(pathname, AuthPrefix) &&
            StartsWith(pathname, AdminPrefix) && RoleOf(reply.user, roles) != Some(Admin) ==>
              r == Redirected(SeeOther, HomePath)
    ensures r.Redirected? ==> r.status == SeeOther && (r.location == LoginPath || r.location == HomePath)
    ensures r.Resolved? <==>
              !Anonymous(found, reply) && !StartsWith(pathname, AuthPrefix) &&
              (StartsWith(pathname, AdminPrefix) ==>
                 reply.user.value.id in roles && roles[reply.user.value.id] == Admin)
    ensures r.Resolved? ==> r.requestId == requestId && r.user == reply.user && r.user.Some?
    ensures r.Resolved? ==> r.role == RoleOf(reply.user, roles)
    ensures r.Resolved? && StartsWith(pathname, AdminPrefix) ==> r.role == Some(Admin)
  {
    var p := ResolveSession(found, reply);
    var role := RoleOf(p.user, roles);
    match AuthGuard(p.user, role, pathname)
    case Allow => Resolved(requestId, p.user, role)
    case Redirect(status, location) => Redirected(status, location)
  }

  /** A request that reaches RPC dispatch on any path carries its user's role row into the
      RPC context, so `requiresAdmin` there passes exactly when that row says Admin. */
  lemma ResolvedRpcAdminCheck(requestId: string, found: Option<Session>, reply: UserReply,
                              roles: map<string, Role>, pathname: string)
    requires Pipeline(requestId, found, reply, roles, pathname).Resolved?
    ensures reply.user.Some?
    ensures Authz.IsAdmin(Authz.Ctx(Pipeline(requestId, found, reply, roles, pathname).role)) <==>
              reply.user.value.id in roles && roles[reply.user.value.id] == Admin
  {
  }

  /** A request whose session validates, for a user whose role row says Admin, reaches
      downstream on every admin path, carrying that user and role. */
  lemma AdminRequestResolved(requestId: string, found: Option<Session>, reply: UserReply,
                             roles: map<string, Role>, pathname: string)
    requires !Anonymous(found, reply) && StartsWith(pathname, AdminPrefix)
    requires RoleOf(reply.user, roles) == Some(Admin)
    ensures Pipeline(requestId, found, reply, roles, pathname) == Resolved(requestId, reply.user, Some(Admin))
  {
    AdminPathNotAuthPath(pathname);
  }

  /** One request through the handle chain: install the contextual console, bind `requestId`,
      run `handleAuth` on fresh `locals`, then the guard. */
  method HandleRequest(requestId: string, console: LogContext.Console, auth: AuthClient,
                       roles: map<string, Role>, pathname: string) returns (r: Response)
    requires console.Valid()
    modifies console, auth
    ensures console.Valid() && console.State() == LogContext.Install(old(console.State()))
    ensures console.output == old(console.output)
    ensures auth.getUserCalls == old(auth.getUserCalls) + (if auth.session.Some? then 1 else 0)
    ensures r == Pipeline(requestId, auth.session, auth.userReply, roles, pathname)
  {
    console.SetContextualConsole();
    var locals := new Locals();
    HandleAuth(locals, auth, roles);
    var d := AuthGuard(locals.user, locals.role, pathname);
    match d
    case Allow =>
      r := Resolved(requestId, locals.user, locals.role);
    case Redirect(status, location) =>
      r := Redirected(status, location);
  }
}
