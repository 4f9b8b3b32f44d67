# Session bookkeeping of the Nommy employee app, in Dafny

This project models the client-side authentication bookkeeping of the Nommy
employee mobile app. It proves the rules that decide what is stored,
deleted, cached and redirected:

- the session store (`useAuthStore`): the development login, logout,
  biometric enable/disable/unlock, the plain setters and the persisted
  snapshot;
- the sign-in service (`authService`): sign-in against the employee
  endpoint, sign-out, the stored-token check, the current user and token
  refresh;
- the axios client's two interceptors: credential headers, and the purge on
  a 401 reply;
- the query layer: query keys, `apiRequest`, the retry rule, the mock login
  table and the query-cache updates;
- the three navigation decisions: `AuthGuard`, `useAuthRedirect` and the
  `Index` screen.

The world outside the app is modelled as inputs:

- **Secure store.** The platform's secure store is one shared object,
  `SecureStorage.SecureStore`. Its contents are a `map<string, string>`.
  A set of faulty keys stands for platform failure: every get, set or delete
  of a faulty key raises the store's error.
- **Sequential deletions.** A run of awaited deletions is specified by
  `SecureStorage.DeleteInOrder`. The deletions happen in order and stop at
  the first one that raises.
- **Biometric device.** The device is the value `BiometricDevice(hasHardware,
  isEnrolled, promptSucceeds)`.
- **HTTP replies.** The reply to an axios request is `HttpReply`: a status,
  a decoded body and the body's optional `message`, or no reply at all. The
  reply to a `fetch` is `FetchReply`.
- **Store key names.** Each source file keeps its own key names, as the
  code does: `access_token` (the session store and the query layer),
  `authToken` (the service) and `auth-token` (the client).
  `AuthService.StoredTokenNotSentByInterceptor` proves the consequence: the
  token that sign-in stores never reaches the client's `Authorization`
  header. `AuthService.StoredTokenSurvivesUnauthorizedPurge` proves that
  the client's 401 purge never deletes that token either.

Modules: `Common` and `Decimal` (common.dfy), `SecureStorage`
(secure_store.dfy), `AuthTypes` (auth_types.dfy), `AuthStore`
(auth_store.dfy), `ApiClient` (api_client.dfy), `AuthService`
(auth_service.dfy), `AuthQueries` (auth_queries.dfy), `Navigation`
(navigation.dfy).

Where the code and the written design differ, the model follows the code:

- **Refresh failure.** `refreshToken` sends its request through the axios
  client. A 401 reply to it therefore deletes `auth-token`, `user-id` and
  `employee-id`. A failed refresh does leave the service's own `authToken`
  untouched.
- **Logout order.** The design says logout clears the session first and then
  deletes keys on a best-effort basis. The store's `logout` deletes first.
  It clears the session only if all three deletions succeed.
- **Tenant selection.** The written design describes tenant selection and
  per-email preferences. Neither is in these files.
- **Two mock tables.** The session store's development login signs in user
  `1` / `EMP001` for `test@nommy.app`. The query layer's table has user
  `5` / `EMP005` for the same credentials.

## Model

| member | source | states |
|---|---|---|
| `AuthStore.Session.constructor` | stores/authStore.ts:65-68 | Initial state: no user, not authenticated, loading, biometric off; the session invariant holds |
| `AuthStore.Session.Login` | stores/authStore.ts:70-100 | Succeeds iff the credentials are `test@nommy.app`/`password` and both token writes succeed. Success stores `access_token` then `refresh_token`, then sets the fixed mock user (id `1`, `EMP001`) and authenticates. Bad credentials raise `Invalid credentials` and leave the store alone. A failed write raises the store's error; the first write may already have happened. Every outcome ends with loading off, with the biometric flag and the invariant kept |
| `AuthStore.MockUser` | stores/authStore.ts:77-82 | The mock user has id `1`, employee id `EMP001` and the login's email |
| `AuthStore.Session.Logout` | stores/authStore.ts:102-117 | Deletes `access_token`, `refresh_token`, `biometric_credentials` in order (DeleteInOrder). Clears user, authentication and biometric flag only if all three deletions succeed; a failure is swallowed. `isLoading` never changes |
| `AuthStore.Session.EnableBiometric` | stores/authStore.ts:119-147 | The prompt is shown iff hardware and enrolment are present; otherwise it raises `Biometric authentication not available` and changes nothing. The credentials record is written and the flag set only when the prompt succeeds and a user is present. A failed write raises the store's error and changes nothing |
| `AuthStore.Session.DisableBiometric` | stores/authStore.ts:149-156 | Deletes `biometric_credentials` and clears the flag; a failed deletion is swallowed and changes nothing. The resulting state does not depend on the flag before, so a second call changes nothing |
| `AuthStore.Session.AuthenticateWithBiometric` | stores/authStore.ts:158-177 | Prompts iff hardware and enrolment are present; succeeds iff it prompted and the prompt succeeded; never raises |
| `AuthStore.Session.SetUser` | stores/authStore.ts:179 | Sets the user only; keeps the invariant |
| `AuthStore.Session.SetLoading` | stores/authStore.ts:180 | Sets `isLoading` only; the persisted snapshot is unchanged |
| `AuthStore.BiometricCredentialsJson` | stores/authStore.ts:136-139 | The record written under `biometric_credentials` is `{"userId":"<id>","enabled":true}`: the user id sits between a fixed 11-character prefix and a fixed 17-character suffix, so it can be read back |
| `AuthStore.Partialize` | stores/authStore.ts:185-189 | The persisted snapshot holds exactly user, authentication flag and biometric flag |
| `AuthStore.PartializeForgetsOnlyLoading` | stores/authStore.ts:185-189 | Two states have the same snapshot iff they differ at most in `isLoading` |
| `AuthStore.StorageGetItem` | stores/authStore.ts:38-45 | The adapter returns the stored value, and null for a missing key or a failing read |
| `AuthStore.StorageSetItem` | stores/authStore.ts:46-52 | The adapter writes the value, or leaves the store as it was when the write fails; it never raises |
| `AuthStore.StorageRemoveItem` | stores/authStore.ts:53-59 | The adapter deletes the key, or leaves the store as it was when the deletion fails; it never raises |
| `SecureStorage.DeleteInOrder` | stores/authStore.ts:105-107 | Awaited deletions in order: all keys go iff none is faulty. A failure names a faulty key of the list. Nothing outside the list is touched and no value changes |
| `SecureStorage.DeleteInOrderStopsAtFirstFault` | stores/authStore.ts:104-116 | At the first faulty key the run stops: exactly the keys before it are gone |
| `Decimal.NatDigits` | services/api/auth.ts:60 | The digits `toString` prints for a non-negative integer below 10^21: non-empty decimal digits with no leading zero |
| `Decimal.IntString` | services/api/auth.ts:60-64 | `id.toString()` for an integral id: non-empty, starting with a minus sign iff the id is negative. IntStringRoundTrip proves that it parses back to the id |
| `Decimal.NatDigitsRoundTrip` | services/api/auth.ts:60 | Reading the digits back gives the number |
| `Decimal.IntStringRoundTrip` | services/api/auth.ts:64 | Parsing the string stored for an id gives the id back |
| `Decimal.IntStringInjective` | services/api/auth.ts:60-64 | Distinct ids are stored as distinct strings |
| `AuthService.SignIn` | services/api/auth.ts:49-77 | Succeeds iff the reply is 2xx, `employees` is non-empty and the three writes succeed. Success stores `authToken` = token, `userId` = decimal user id and `employeeId` = decimal id of the first employee, and returns the body unchanged. An empty `employees` list fails with `Acceso limitado a empleados` before any write. A write that fails stops the later writes. A non-2xx reply or no reply goes through the client's error interceptor, which purges on a 401, and yields the mapped error |
| `AuthService.SignInErrorMessage` | services/api/auth.ts:68-76 | The message is the reply body's `message` if truthy, else the error's own message if non-empty, else `Error al iniciar sesión`; it is never empty |
| `AuthService.SignInErrorMessageKeepsOwnMessages` | services/api/auth.ts:54-56 | The employee-check error reaches the caller with its text intact; mapping twice changes nothing |
| `AuthService.SignOut` | services/api/auth.ts:82-87 | Deletes `authToken`, `userId`, `employeeId`, `deviceToken` in order; a failing deletion is raised and stops the rest |
| `AuthService.SignOutIsExact` | services/api/auth.ts:83-86 | A completed sign-out removes exactly those four keys |
| `AuthService.IsAuthenticated` | services/api/auth.ts:92-95 | True iff `authToken` is present and non-empty; a failing read is raised |
| `AuthService.GetCurrentUser` | services/api/auth.ts:100-108 | The body of a 2xx reply, otherwise null (after the client's 401 purge) |
| `AuthService.RefreshToken` | services/api/auth.ts:113-124 | On a 2xx reply with a working store, stores and returns the new token. Otherwise returns null and leaves `authToken` as it was; a 401 still purges the client's keys |
| `AuthService.StoredTokenNotSentByInterceptor` | services/api/auth.ts:59 | Writing `authToken` never changes the headers the client's interceptor sets |
| `AuthService.StoredTokenSurvivesUnauthorizedPurge` | services/api/auth.ts:59 | The client's 401 purge leaves `authToken` as it was |
| `ApiClient.HeadersFromStore` | services/api/client.ts:22-45 | `Authorization` = `Bearer <auth-token>` iff that read succeeds and the token is truthy. `Employee` = `employee-id` and `DeviceToken` = `device-token` likewise, provided the earlier reads also succeeded. In every other case a header keeps its previous entry, and every other header is untouched |
| `ApiClient.InterceptRequest` | services/api/client.ts:21-45 | Mutates the config's headers to HeadersFromStore of the old headers and returns the same config; a failing read is swallowed |
| `ApiClient.AxiosError` | services/api/client.ts:52-54 | A failed request rejects with the reply's status text and body `message`, or the transport's message when there is no reply |
| `ApiClient.AfterRejection` | services/api/client.ts:55-62 | Only a 401 status deletes anything, and then exactly `auth-token`, `user-id`, `employee-id` in order |
| `ApiClient.UnauthorizedPurgeIsExact` | services/api/client.ts:57-59 | A completed 401 purge removes exactly the three keys and keeps `device-token` |
| `ApiClient.InterceptResponseError` | services/api/client.ts:54-66 | Purges on 401, then rejects with the same error, or with the store's error if a deletion raised. A non-401 leaves the store unchanged. `device-token` always survives |
| `ApiClient.Dispatch` | services/api/client.ts:52-66 | A 2xx reply passes through unchanged; any other reply goes through the error interceptor and is rejected |
| `AuthQueries.CurrentUserKey` | queries/authQueries.ts:11 | `authKeys.all` extended by `currentUser` |
| `AuthQueries.ProfileKey` | queries/authQueries.ts:12 | `authKeys.all` extended by `profile` |
| `AuthQueries.QueryKeysDistinct` | queries/authQueries.ts:9-13 | The keys are `['auth','currentUser']` and `['auth','profile']`, and they differ |
| `AuthQueries.GetAuthToken` | queries/authQueries.ts:16-23 | The stored `access_token`, or null when missing or when the read fails |
| `AuthQueries.RequestHeaders` | queries/authQueries.ts:30-34 | Headers are the caller's plus `Content-Type`, plus `Authorization` exactly when the token is truthy. Caller values win; the defaults are `application/json` and `Bearer <token>` |
| `AuthQueries.Settle` | queries/authQueries.ts:37-47 | An ok reply yields its body. A 401 deletes `access_token` then `refresh_token` and raises `Unauthorized`, or the store's error if a deletion raised. Any other status raises `API Error: <status>` and leaves the store alone. A fetch rejection propagates |
| `AuthQueries.UnauthorizedPurgeIsExact` | queries/authQueries.ts:40-41 | A completed 401 purge removes exactly the two tokens |
| `AuthQueries.ApiRequest` | queries/authQueries.ts:25-48 | Sends to the base URL + endpoint with RequestHeaders of the stored token, then settles the reply as Settle says |
| `AuthQueries.FetchCurrentUser` | queries/authQueries.ts:54 | The current-user query requests `/auth/me` through ApiRequest |
| `AuthQueries.ShouldRetry` | queries/authQueries.ts:56-60 | Never retries `Unauthorized`; otherwise retries iff fewer than two failures |
| `AuthQueries.RetryFollowsSettledError` | queries/authQueries.ts:56-60 | A 401 whose purge completed is never retried; any other failing status is retried iff fewer than two failures |
| `AuthQueries.Find` | queries/authQueries.ts:137-139 | Returns the first row matching both email and password, and none iff no row matches |
| `AuthQueries.MockLogin` | queries/authQueries.ts:141-150 | Succeeds iff some row matches, returning that row's user with tokens `mock_jwt_token`/`mock_refresh_token`. Otherwise fails with `Invalid credentials` |
| `AuthQueries.MockTableWellFormed` | queries/authQueries.ts:74-135 | Each row's user has the row's email, and the rows' emails differ |
| `AuthQueries.MockLoginUserOwnsEmail` | queries/authQueries.ts:137-147 | A successful login returns the user of the row with the login's email |
| `AuthQueries.QueryCache.SetQueryData` | queries/authQueries.ts:156 | Replaces the entry under one key only |
| `AuthQueries.QueryCache.Clear` | queries/authQueries.ts:171 | Empties the cache |
| `AuthQueries.LoginMutation` | queries/authQueries.ts:65-158 | The mock login's result. On success the current-user entry becomes the returned user; on failure the cache is unchanged |
| `AuthQueries.LogoutMutation` | queries/authQueries.ts:161-174 | The cache ends empty |
| `AuthQueries.UpdateProfileMutation` | queries/authQueries.ts:176-190 | A `PUT` to `/auth/profile`, settled as by ApiRequest. On success the current-user entry becomes the returned user; on failure the cache is unchanged |
| `Navigation.AuthGuardDecision` | components/AuthGuard.tsx:11-34 | No redirect before navigation is ready or while loading. Redirects to login iff signed out and outside `(auth)`, and to `/(tabs)/home` iff signed in and inside `(auth)`. Never both |
| `Navigation.GuardSeesOnlyAuthGroup` | components/AuthGuard.tsx:15-16 | Routes with the same auth-group membership get the same decision, so `inTabsGroup` plays no part |
| `Navigation.GuardTargetIsFixedPoint` | components/AuthGuard.tsx:26-34 | At the route it redirects to, the guard asks for no further redirect |
| `Navigation.UseAuthRedirectDecision` | hooks/useAuthRedirect.ts:10-31 | No redirect while loading. Otherwise the same two redirect rules as the guard |
| `Navigation.HookAgreesWithGuard` | hooks/useAuthRedirect.ts:10-32 | Equals the guard's decision whenever navigation is ready |
| `Navigation.IndexScreen` | app/index.tsx:20-28 | Loading screen with `Verificando autenticación...` iff loading. Otherwise `/(tabs)` iff signed in and `/(auth)/login` iff not |
| `Navigation.IndexIgnoresUser` | app/index.tsx:7-18 | The user record does not affect what is rendered |
| `Navigation.IndexTargetSatisfiesGuard` | app/index.tsx:24-28 | Where the entry screen redirects, the guard finds nothing to correct |

## Left out

- Transport: the axios instance, its base URL and timeout, `fetch`, and JSON
  encoding and decoding. Replies are inputs, already decoded.
- Request bodies: the sign-in request's email and password, and the profile
  update's body, go only to the transport, so the model does not carry them.
- The request interceptor's error handler (`Promise.reject(error)`) passes
  errors through unchanged and is not modelled separately.
- Persistence internals: the zustand `persist` middleware's rehydration and
  JSON storage under `auth-storage`. Only `partialize` and the storage
  adapter are modelled. A rehydrated state is not checked against the
  session invariant.
- `AuthStore.BiometricCredentialsJson` is the JSON text for an id that needs
  no escaping; JSON escaping of quotes, backslashes or control characters in
  a user id is not modelled.
- `Decimal.IntString` renders integral ids only. Non-integral and non-finite
  JavaScript numbers are not modelled. Neither are ids of magnitude 10^21 or
  more, which JavaScript prints in exponent form (`1e+21`), nor integers
  above 2^53 that a JavaScript number cannot hold exactly. For such ids,
  `Decimal.NatDigits`, `Decimal.IntString` and `Decimal.IntStringInjective`
  do not describe what the app stores.
- `ApiClient.AxiosError` uses axios's own "Request failed with status code N"
  message for a non-2xx reply. A reply body's `message` that is not a string
  is not modelled.
- Platform internals: failures of the biometric capability queries
  themselves, and the prompt's options, are not modelled. A store failure is
  a fixed set of faulty keys, not a failure that changes over time.
- TanStack Query internals: the retry loop, `staleTime`, and caching by the
  current-user query. The cache is a plain map from query key to user.
- React effect scheduling, the 1000 ms mock delay, console logging and the
  router itself. Only the chosen target is modelled.
- Concurrency: each action is one sequential step; interleaved actions and
  the visible `isLoading = true` during a login are not modelled.
- The screens, styling, build configuration and the `LoadingScreen`
  component are outside this model.
