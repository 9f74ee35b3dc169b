# CiveLampus client-side authentication session, in Dafny

This project models the authentication core of the CiveLampus frontend. It has three parts.

- **API client** (`frontend/src/services/api.ts`), in `transport.dfy`.
  - The bearer token is stored under the `localStorage` key `token`. It is modelled as the class `Transport.TokenStorage`.
  - `authService.login`, `verifyOTP` and `logout` write or erase the token.
  - The request interceptor turns the token into an `Authorization` header.
  - The user-returning calls of `userService` copy `_id` into `id` when `_id` is truthy and `id` is falsy (absent or `""`). That patch, and the records it works on, are in `identity.dfy`.
  - `authService.login` and `verifyOTP` return the response unpatched. The session store applies the same patch to `response.user` afterwards.
- **Session store** (`frontend/src/context/AuthContext.tsx`), in `auth_context.dfy`.
  - It has three state cells: `user`, `isAuthenticated` and `isLoading`. The token storage is shared with the API client.
  - Each operation is first written as a function on a `State` value (`CheckAuthStep`, `LoginStep`, …). Those functions are the specification.
  - The class `AuthProvider` updates its fields step by step, and each of its methods is proved to match its step function.
  - `Run` chains operations, so lemmas can state what holds after any sequence of them.
- **Route guard** (`frontend/src/hooks/useProtectedRoute.ts`), in `route_guard.dfy`.
  - The hook's effect is modelled as the pure function `RouteGuard.Decide`. It returns `NoDecision`, `Redirect(path, notice)` or `Allow`.

The network is not modelled. Each operation takes the server's outcome as a parameter: either the response body or the error the request rejected with. A payload field the code dereferences without checking, such as `response.user` or `response.data.user`, gives `Error.MalformedResponse` when it is missing. That is the `TypeError` the JavaScript would raise. JavaScript truthiness, where absent and `""` are both falsy, is written out as `Identity.Truthy`. It is used for the token checks and the `_id`/`id` checks.

Behaviours of the code that the model keeps as written:

- No state is kept for a login that waits for a second factor. When a response has `requireOTP` set, `login` stores any truthy token the response carries, leaves the user and the flag unchanged, and returns the response (`LoginStep`, `SecondFactorSignIn`).
- A `register` that fails rethrows without erasing the stored token. Only the success path erases it (`RegisterStep`).
- `updateUser` sets `user` even when the session is signed out (`UpdateUserWhileSignedOut`). So a held user does not imply authentication. The converse does hold in every reachable state (`Inv`, `RunPreservesInv`).
- The `_id` field stays on a patched record alongside `id`.
- A direct-login response can carry a token but no user. The token is stored before the session rejects the response (`TokenStoredOnMalformedLogin`).
- `verifyOTP` authenticates even when its response carries no token.

`frontend/src/types/user.ts` is not part of this model. The fields of `AuthResponse` and `User` are the ones the core reads, and roles are compared as strings.

## Model

| member | source | states |
|---|---|---|
| `Identity.Normalize` | frontend/src/services/api.ts:89-91 | the result is normalised; only `id` may change; `id := _id` when `_id` is truthy and `id` is not; a truthy `id` or a falsy `_id` leaves the record unchanged |
| `Identity.NormalizeIdempotent` | frontend/src/services/api.ts:89-91 | patching twice equals patching once |
| `Identity.NormalizeFixesExactlyNormalized` | frontend/src/services/api.ts:113-115 | the patch leaves a record unchanged iff the record is already normalised |
| `Identity.NormalizeAll` | frontend/src/services/api.ts:112-117 | the list keeps its length and order, and element i is the patched element i |
| `Identity.NormalizeAllIdempotent` | frontend/src/services/api.ts:128-133 | patching a list twice equals patching it once; every element of a patched list is normalised |
| `Identity.NormalizeAllConcat` | frontend/src/services/api.ts:128-133 | each element is patched independently: the patch distributes over concatenation |
| `Transport.TokenStorage.Set` | frontend/src/services/api.ts:44 | the stored token becomes the given string |
| `Transport.TokenStorage.Remove` | frontend/src/services/api.ts:50 | no token is stored afterwards |
| `Transport.TokenStorage.Intercept` | frontend/src/services/api.ts:21-28 | with a truthy stored token, `Authorization` is `"Bearer " + token`; otherwise the headers are passed through unchanged; no other header changes |
| `Transport.TokenAfterAuth` | frontend/src/services/api.ts:43-45 | the token in a response is stored iff it is truthy; otherwise the prior token is kept |
| `Transport.LaterTokenOverwrites` | frontend/src/services/api.ts:55-57 | a later response that carries a token replaces whatever an earlier one stored |
| `Transport.Login` | frontend/src/services/api.ts:41-47 | returns the server outcome unchanged; storage follows the token rule |
| `Transport.VerifyOtp` | frontend/src/services/api.ts:53-59 | the same token rule as login; the outcome is returned unchanged |
| `Transport.Logout` | frontend/src/services/api.ts:49-51 | no token is stored afterwards, whatever was stored before |
| `Transport.Register` | frontend/src/services/api.ts:36-39 | returns the server outcome unchanged; it neither reads nor writes the storage |
| `Transport.ReadUser` | frontend/src/services/api.ts:86-93 | a rejected call propagates its error; a missing `user` is an error; otherwise the result is the patched user |
| `Transport.ReadUsers` | frontend/src/services/api.ts:109-119 | a rejected call propagates its error; a missing array is an error; otherwise each element is patched in place, with length and order preserved |
| `Transport.GetCurrentUser` | frontend/src/services/api.ts:79-94 | succeeds iff the call succeeds with a user; the result is that user, patched |
| `Transport.GetEtudiantDetails` | frontend/src/services/api.ts:96-106 | succeeds iff the call succeeds with a user; the result is that user, patched |
| `Transport.UpdateUser` | frontend/src/services/api.ts:138-152 | succeeds iff the call succeeds with a user; the result is that user, patched |
| `Transport.GetAllEtudiants` | frontend/src/services/api.ts:108-120 | succeeds iff the call succeeds with an array; the result is the array with every element patched |
| `Transport.GetAllIntervenants` | frontend/src/services/api.ts:122-136 | succeeds iff the call succeeds with an array; the result is the array with every element patched |
| `AuthContext.Initial` | frontend/src/context/AuthContext.tsx:24-26 | no user, not authenticated, loading; the token is whatever storage already holds |
| `AuthContext.InitialSatisfiesInv` | frontend/src/context/AuthContext.tsx:24-26 | the initial state satisfies the session invariant |
| `AuthContext.CheckAuthStep` | frontend/src/context/AuthContext.tsx:30-44 | loading ends on every path; no token leaves the session as it was; a token plus a fetched user authenticates with the patched user; a token plus a failure erases the token and leaves the user and the flag unchanged |
| `AuthContext.LoginStep` | frontend/src/context/AuthContext.tsx:50-67 | the token rule of the API client; failure changes nothing and rethrows; `requireOTP` leaves the user and the flag unchanged and returns the response; otherwise authenticated with the patched user, and the returned response carries it; a missing user rejects |
| `AuthContext.VerifyOtpStep` | frontend/src/context/AuthContext.tsx:91-106 | the token rule of the API client; failure changes nothing and rethrows; success authenticates with the patched user, and the returned response carries it; a missing user rejects |
| `AuthContext.RegisterStep` | frontend/src/context/AuthContext.tsx:70-81 | the user, the flags and the result are unchanged; the token is erased on success and kept on failure |
| `AuthContext.LogoutStep` | frontend/src/context/AuthContext.tsx:84-88 | from any state: no user, not authenticated, no token; `isLoading` unchanged |
| `AuthContext.UpdateUserStep` | frontend/src/context/AuthContext.tsx:109-116 | the user becomes the patched argument and nothing else changes |
| `AuthContext.ApplyPreservesInv` | frontend/src/context/AuthContext.tsx:23-116 | every operation preserves the invariant: authenticated implies a user is held, and a held user is normalised |
| `AuthContext.RunPreservesInv` | frontend/src/context/AuthContext.tsx:23-116 | any sequence of operations from a valid state ends in a valid state |
| `AuthContext.LoadingEndsOnlyAtCheckAuth` | frontend/src/context/AuthContext.tsx:29-47 | after a run, the session is loading iff it was loading before and no restoration ran; loading never starts again |
| `AuthContext.LogoutClearsAfterAnyRun` | frontend/src/context/AuthContext.tsx:84-88 | whatever ran before, a final logout leaves no user, no authentication and no token |
| `AuthContext.FailedRequestChangesNothing` | frontend/src/context/AuthContext.tsx:63-66 | a login, verification or registration that the server rejected leaves the whole state, token included, unchanged |
| `AuthContext.SecondFactorSignIn` | frontend/src/context/AuthContext.tsx:91-106 | a login answered with `requireOTP` and no token leaves a signed-out session unchanged; a successful verification then signs in with the patched user and the new token |
| `AuthContext.TokenStoredOnMalformedLogin` | frontend/src/context/AuthContext.tsx:52-66 | a response with a token but no user is rejected, the session stays signed out, and the token stays stored |
| `AuthContext.UpdateUserWhileSignedOut` | frontend/src/context/AuthContext.tsx:109-116 | on a signed-out session, `updateUser` holds a user without authenticating |
| `AuthContext.UseAuth` | frontend/src/context/AuthContext.tsx:137-143 | fails with the provider message iff no provider value is present; otherwise returns that value |
| `AuthContext.AuthProvider.Exposed` | frontend/src/context/AuthContext.tsx:119-129 | the provider value is the three cells of the current state |
| `AuthContext.AuthProvider.constructor` | frontend/src/context/AuthContext.tsx:23-26 | the initial state over the shared storage, and a valid object |
| `AuthContext.AuthProvider.CheckAuth` | frontend/src/context/AuthContext.tsx:30-44 | the new state is `CheckAuthStep` of the old state; validity is kept |
| `AuthContext.AuthProvider.Login` | frontend/src/context/AuthContext.tsx:50-67 | the new state and the result are those of `LoginStep`; validity is kept |
| `AuthContext.AuthProvider.Register` | frontend/src/context/AuthContext.tsx:70-81 | the new state and the result are those of `RegisterStep`; validity is kept |
| `AuthContext.AuthProvider.Logout` | frontend/src/context/AuthContext.tsx:84-88 | the new state is `LogoutStep` of the old state; validity is kept |
| `AuthContext.AuthProvider.VerifyOtp` | frontend/src/context/AuthContext.tsx:91-106 | the new state and the result are those of `VerifyOtpStep`; validity is kept |
| `AuthContext.AuthProvider.UpdateUser` | frontend/src/context/AuthContext.tsx:109-116 | the new state is `UpdateUserStep` of the old state; validity is kept |
| `RouteGuard.RequiredRoles` | frontend/src/hooks/useProtectedRoute.ts:13 | an absent `requiredRoles` defaults to the empty list |
| `RouteGuard.RedirectTarget` | frontend/src/hooks/useProtectedRoute.ts:13 | an absent `redirectTo` defaults to `/login` |
| `RouteGuard.Decide` | frontend/src/hooks/useProtectedRoute.ts:17-31 | no decision iff loading; not loading and not authenticated redirects to `redirectTo`, which takes precedence over any role check; the insufficient-permissions redirect, always to `/`, happens iff authenticated with a non-empty role list and a user whose role is not in it; allowed iff authenticated and the role list is empty, the user is absent, or the role is listed |
| `RouteGuard.UseProtectedRoute` | frontend/src/hooks/useProtectedRoute.ts:12-35 | fails iff no provider is present; returns the session cells unchanged, together with the decision taken on them under the defaulted options |
| `RouteGuard.DefaultOptions` | frontend/src/hooks/useProtectedRoute.ts:13-24 | with default options, a loaded session is let through iff authenticated, and is otherwise sent to `/login` |
| `RouteGuard.SingleRoleGate` | frontend/src/hooks/useProtectedRoute.ts:27-30 | on a single-role route, another role is sent home and the required role is allowed |
| `RouteGuard.RoleGateOnValidSessions` | frontend/src/hooks/useProtectedRoute.ts:27 | for a reachable signed-in session on a role-restricted route, the user is present, so access is allowed iff the role is listed |
| `RouteGuard.LogoutThenGuardRedirects` | frontend/src/hooks/useProtectedRoute.ts:18-24 | after a logout on a loaded session, every guarded route redirects to its sign-in target |

## Left out

- HTTP transport: the axios instance, the base URL, the JSON header and `withCredentials` (frontend/src/services/api.ts:9-18). The server's outcome is a parameter instead, so request bodies, credentials, ids and URLs are not modelled.
- The interceptor's error handler (frontend/src/services/api.ts:29-31) only forwards the rejection. Nothing reaches it in this model.
- `setupOTP`, `verifyAndEnableOTP`, `disableOTP` and `deleteUser` are not modelled. They pass the server's answer through and touch no token.
- React scheduling is not modelled: `createContext`, `useState` batching, and the effect re-running when its dependencies change. Each operation is one atomic step on the state, and the guard is a function that is evaluated again for each new input.
- `navigate` and `toast` in the route guard become the `Decision` value. The two notices are `Notice` constants, not their French text.
- Console logging (`console.log`, `console.error`) in the API client and the session store is not modelled.
- Identity.Normalize: returns a patched copy, whereas the source patches the record in place. So the mutation of the caller's own object (for example the `updatedUser` passed to `updateUser`, or the response objects) is not captured.
- The HTTP client's rejection reasons are one opaque `Error.Rejected`. The session code rethrows them without telling them apart.
- Overlapping asynchronous calls are not modelled. The source does not serialise them, and the model treats each operation as atomic.
- Password hashing, OTP code validity and server-side authorisation belong to the server and are not modelled.
- `backend/scripts/create-admin.js` is a one-shot database script with no client-side logic.
