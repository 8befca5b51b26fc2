# Request authentication, authorization and contextual logging — a Dafny model

This project models the request-handling core of a small SvelteKit admin application that keeps a timeline of kings. Every server request goes through the same fixed chain (`sequence(addTraceIds, handleAuth, authGuards, configureTrpc)`):

1. a correlation id is bound to the request, and the global `console.log` is patched once per process so each line carries `requestId=<id>`;
2. the request's session is resolved through the auth provider, and the session is dropped when the provider's authoritative check fails;
3. the user's role (Admin or Staff) is looked up by user id;
4. an access guard either lets the request through or redirects it with HTTP 303, to `/auth` (login) or to `/` (home).

One RPC procedure, `listKings`, repeats the admin check itself (`requiresAdmin`, src/lib/trpc/queries/kings.ts:8). `createKing` and `updateKing` do not call it. The guard checks the role only under `/admin`, so in the visible code nothing refuses a signed-in Staff user's call to those two procedures, unless the RPC endpoint's path (set by the `trpc-sveltekit` library, which is not part of this model) lies under `/admin`. In the browser, the RPC client factory keeps the first client it makes in a one-slot cache.

Modules:

- `Common` (common.dfy): `Option`, `Outcome` and the `Role` enum.
- `Hooks` (hooks.dfy), for src/hooks.server.ts:
  - the guard `AuthGuard`, a pure decision function;
  - session resolution: `ResolveSession`, and the method `SafeGetSession` over an `AuthClient` object that counts `getUser` round trips;
  - the role lookup `RoleOf` and the `locals` updates of `HandleAuth`;
  - the cookie `setAll` loop over a `Cookies` object;
  - the whole chain, as the function `Pipeline` and the method `HandleRequest`.
- `Authz` (authz.dfy), for src/lib/trpc/authz.ts: `RequiresAdmin`.
- `LogContext` (log_context.dfy), for src/lib/utility/api/context.ts: a `Console` class holding `console.log`, the saved original (`__log`) and what the native output has printed. Its methods are tied to the pure functions `Install` and `Emitted`.
- `TrpcClient` (trpc_client.dfy), for src/lib/trpc/client.ts: a `ClientModule` class holding `browserClient`. Its `Trpc` method is tied to the pure step function `TrpcCall`, and `Run` folds that function over a sequence of calls.

Inputs taken as parameters instead of effects:

- what the auth provider's `getSession` and `getUser` answer;
- the role table, as a `map<string, Role>` from user id;
- the generated request id;
- the request id bound to the calling context when something is logged;
- whether the code runs in a browser.

Two points where the code does something different from what a reader might expect. The model follows the code in both:

- `safeGetSession` returns the found session together with whatever user `getUser` reported when there is no error. The code does not itself ensure that the session and the user are both present or both absent. `ResolveSession` therefore promises only that no user comes back without a session. `SessionAndUserTogether` shows that the both-or-neither pairing holds once the provider never reports success without a user.
- On its own, the guard lets through a request with no user, role `Admin` and an `/admin…` path: rule 1 exempts admin paths and rule 3 only checks the role. The pipeline never produces that input, because a role is assigned only when a user is present. So `Pipeline` allows a request exactly when a user is present, the path is not under `/auth`, and either the path is not under `/admin` or the user's role is `Admin`.

## Model

| member | source | states |
|---|---|---|
| `Hooks.AuthGuard` | src/hooks.server.ts:94-107 | Decision table with the first matching rule winning. No user on a non-admin path redirects 303 to `/auth`. A user on a path under `/auth` redirects 303 to `/`. A role other than Admin on a path under `/admin` redirects 303 to `/`. Allow holds exactly when: a user implies the path is not under `/auth`; no user implies the path is under `/admin`; an admin path implies role Admin. Every redirect is 303 to `/auth` or `/`. |
| `Hooks.RuleOrderIrrelevant` | src/hooks.server.ts:98-104 | Rule 1 never fires together with rule 2 (which needs a user) or with rule 3 (which needs an admin path), and rules 2 and 3 both redirect home. So the guard redirects to `/auth` when rule 1 fires, to `/` when rule 2 or 3 fires, and otherwise allows, whatever the order of the rules. An anonymous `/admin…` request ends at `/` because of rule 1's admin-path exemption. |
| `Hooks.AdminPathNotAuthPath` | src/hooks.server.ts:101-104 | No pathname starts with both `/admin` and `/auth`. |
| `Hooks.AdminAllowedOnAdminPaths` | src/hooks.server.ts:98-106 | A signed-in user with role Admin is allowed on every path under `/admin`. |
| `Hooks.RawPrefixExamples` | src/hooks.server.ts:98-104 | Prefix tests are raw string prefixes. `/administrators` counts as an admin path, so Staff and anonymous requests to it go home. `/authors` counts as an auth path, so a signed-in user is sent home from it. |
| `Hooks.ResolveSession` | src/hooks.server.ts:53-71 | The result has a session exactly when a session was found and `getUser` reported no error. Without a session there is no user. With a session, the result is the found session and the reported user, unchanged. |
| `Hooks.SessionAndUserTogether` | src/hooks.server.ts:53-71 | Session and user come back both present or both absent, provided the provider never reports "no error" without a user. |
| `Hooks.AuthClient.GetSession` | src/hooks.server.ts:54-56 | Returns the session the provider decodes from the cookies. |
| `Hooks.AuthClient.GetUser` | src/hooks.server.ts:61-64 | Returns the provider's verification reply and counts one round trip. |
| `Hooks.SafeGetSession` | src/hooks.server.ts:53-71 | Returns `ResolveSession` of the provider's answers. It calls `getUser` exactly once when a session was found, and never otherwise. |
| `Hooks.RoleOf` | src/hooks.server.ts:78-81 | A role is found exactly when a user is present and the table has a row for the user's id, and it is that row's role. So a role implies a user. |
| `Hooks.HandleAuth` | src/hooks.server.ts:74-81 | `locals.session` and `locals.user` become the resolved pair. `locals.role` is assigned only when a user and a role row exist. Otherwise it keeps its previous (unset) value. |
| `Hooks.WithRootPath` | src/hooks.server.ts:41 | The written options have `path` = `/`, and every other option is present and equal exactly as supplied. |
| `Hooks.RootPathed` | src/hooks.server.ts:39-43 | One written cookie per requested cookie. |
| `Hooks.RootPathedAt` | src/hooks.server.ts:39-43 | The i-th cookie written has the i-th requested name and value, and its options are the requested ones with path `/`. |
| `Hooks.Cookies.Set` | src/hooks.server.ts:41 | Appends the cookie to those set on the response. |
| `Hooks.Cookies.SetAll` | src/hooks.server.ts:39-43 | Sets the requested cookies in order, each with path `/`, after the ones already set. |
| `Hooks.Pipeline` | src/hooks.server.ts:13-111 | The handler order, end to end. Anonymous (no session, a failed validation, or no user) on a non-admin path redirects to `/auth`. Anonymous on an admin path redirects to `/`, never `/auth`. A signed-in user under `/auth` redirects to `/`. A signed-in user whose role is not Admin (Staff, or no role row) on a path under `/admin` redirects to `/`. Every redirect is 303, to `/auth` or `/`. The request reaches downstream exactly when a user is present, the path is not under `/auth`, and an admin path means the user's role row is Admin. Downstream runs under the request's id with the verified user and, on every path, the role `RoleOf` finds for that user. On admin paths that role is Admin. |
| `Hooks.ResolvedRpcAdminCheck` | src/lib/trpc/context.ts:4-6 | On any path, including RPC paths outside `/admin`, a request that reaches downstream hands its user's role row to the RPC context. `requiresAdmin` there passes exactly when that row says Admin. |
| `Hooks.AdminRequestResolved` | src/hooks.server.ts:13-111 | A request with a validated session whose user's role row says Admin reaches downstream on every admin path, with that user and role Admin. |
| `Hooks.HandleRequest` | src/hooks.server.ts:13-111 | Installs the contextual console (printing nothing) and resolves identity on fresh `locals`. It calls `getUser` only when a session was found, and its outcome equals `Pipeline`. |
| `Authz.RequiresAdmin` | src/lib/trpc/authz.ts:4-11 | Passes exactly when the role is Admin. Otherwise it fails with code `FORBIDDEN` and message `This requires admin access`. It modifies nothing. |
| `LogContext.Startup` | src/lib/utility/api/context.ts:7 | At process start nothing is saved and `console.log` is native. |
| `LogContext.Install` | src/lib/utility/api/context.ts:8-12 | The first call saves the current native logger and installs the wrapper. Any later call changes nothing. The original output never changes. |
| `LogContext.Prefixed` | src/lib/utility/api/context.ts:15-17 | With a non-empty bound id, the arguments gain exactly one leading `requestId=<id>`. With no id or an empty id, they are unchanged. Either way they end with the original arguments in their original order. |
| `LogContext.Emitted` | src/lib/utility/api/context.ts:13-20 | A log call prints exactly one line, to the original logger's output. Once installed, the line carries the prefixed arguments. Before that, it carries the arguments as given. |
| `LogContext.InstallTimes` | src/lib/utility/api/context.ts:8-12 | Any number of installations keeps the console coherent. |
| `LogContext.InstallIdempotent` | src/lib/utility/api/context.ts:8-12 | Installing n ≥ 1 times gives the same state as installing once. |
| `LogContext.NoDoublePrefix` | src/lib/utility/api/context.ts:10-19 | After any n ≥ 1 installations from startup, a log call prints one line to the original output. That line carries a single prefix, because the wrapper calls the saved original and not itself. |
| `LogContext.Console.constructor` | src/lib/utility/api/context.ts:7 | A new console is in the startup state and has printed nothing. |
| `LogContext.Console.SetContextualConsole` | src/lib/utility/api/context.ts:8-21 | The new state is `Install` of the old one. Nothing is printed. |
| `LogContext.Console.Log` | src/lib/utility/api/context.ts:13-20 | The console state is unchanged, and the output grows by exactly the `Emitted` line. |
| `TrpcClient.TrpcCall` | src/lib/trpc/client.ts:7-14 | In the browser with a client cached, that client is returned, the state is unchanged and `init` is ignored. Otherwise a new client is made from `init`. Only a browser call stores it. A server call leaves the cache as it was. Cached clients are always ones created earlier, so a newly made client is never the cached one. |
| `TrpcClient.ServerCallsLeaveCache` | src/lib/trpc/client.ts:8-13 | Any sequence of server calls leaves the cache as it was and creates one client per call. |
| `TrpcClient.FirstBrowserCallCreates` | src/lib/trpc/client.ts:10-12 | After server calls only, starting from an empty cache, the first browser call creates a new client from its own `init` and caches it. |
| `TrpcClient.CachedClientPersists` | src/lib/trpc/client.ts:10-12 | Once a client is cached, no sequence of calls replaces it, and every later browser call returns it whatever its `init`. |
| `TrpcClient.ClientModule.constructor` | src/lib/trpc/client.ts:5 | The module starts with no cached client, in a valid state. |
| `TrpcClient.ClientModule.Trpc` | src/lib/trpc/client.ts:7-14 | The returned client and the new module state are those of `TrpcCall` on the old state. The module stays valid: any cached client was created earlier. |

## Left out

- Creating the Supabase client and the real `getSession`/`getUser` calls (src/hooks.server.ts:31-46, 56, 64) are network I/O. Only their answers are modelled, as inputs.
- `prisma.userRole.findUnique` (src/hooks.server.ts:79) is database I/O. It is a lookup in a `map<string, Role>` from user id.
- `uuidv4()` (src/hooks.server.ts:14) is randomness. The request id is a parameter.
- `AsyncLocalStorage` propagation (src/lib/utility/api/context.ts:5, src/hooks.server.ts:19-22) is runtime async-context behaviour. The id bound to the calling context is an explicit argument of `Console.Log`, and `Response.Resolved` records the id the downstream handler runs under. Uniqueness of ids across concurrent requests is not modelled.
- When the auth client calls `setAll` is decided inside the provider library. `HandleAuth` does not call it; `Cookies.SetAll` models what one call does.
- Storing `safeGetSession` in `locals` for reuse by downstream handlers (src/hooks.server.ts:72) is a closure handed to the framework and is not modelled.
- `filterSerializedResponseHeaders` (src/hooks.server.ts:84-90) is a response-serialisation option passed to SvelteKit's `resolve`. It does not affect authentication or authorization.
- `configureTrpc`/`createTRPCHandle`, `createContext`, the router and the king queries (src/lib/trpc/context.ts, src/lib/trpc/router.ts, src/lib/trpc/queries/kings.ts) are framework wiring and database calls. The admin check `listKings` makes, `requiresAdmin`, is modelled; `createKing` and `updateKing` make none.
- The zod schemas, the Prisma types and the page loaders and actions (prisma/generated/zod/index.ts, src/lib/model, src/routes) are declarations or library calls.
- The SvelteKit mechanics of `sequence` and `resolve`, and the fact that `redirect` throws, are not modelled. A redirect is a terminal return value.
- `LogContext.Console.Log`: the wrapper's in-place `args.unshift` is modelled on a sequence. The rest-parameter array is local to each call, so nothing outside sees the mutation. `apply(console, …)`'s receiver is not modelled.
- `TrpcClient.ClientModule.Trpc`: object identity of clients is modelled by a serial number taken from a creation counter. The `init` argument and the client are opaque.
