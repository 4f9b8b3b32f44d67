/** The query layer (queries/authQueries.ts): query keys, the fetch-based
    request helper with its 401 handling, the retry rule for the current-user
    query, the development login table, and the query-cache updates the
    mutations make. The cache is a map from query key to cached user. */
module AuthQueries {
  import opened Common
  import opened AuthTypes
  import opened SecureStorage
  import Decimal

  const ApiBaseUrl := "https://api.nommy.app/v1"

  const AccessTokenKey := "access_token"
  const RefreshTokenKey := "refresh_token"

  /** The keys a 401 reply deletes, in the order they are deleted. */
  const UnauthorizedKeys := [AccessTokenKey, RefreshTokenKey]

  const ContentTypeHeader := "Content-Type"
  const AuthorizationHeader := "Authorization"
  const JsonContentType := "application/json"

  const UnauthorizedMessage := "Unauthorized"
  const InvalidCredentialsMessage := "Invalid credentials"
  const MockToken := "mock_jwt_token"
  const MockRefreshToken := "mock_refresh_token"

  // ---------------------------------------------------------------- query keys

  const AllKey: seq<string> := ["auth"]

  /** `authKeys.currentUser()`: `authKeys.all` extended by one segment. */
  function CurrentUserKey(): (k: seq<string>)
    ensures |k| == |AllKey| + 1 && k[..|AllKey|] == AllKey && k[|AllKey|] == "currentUser"
  {
    AllKey + ["currentUser"]
  }

  /** `authKeys.profile()`: `authKeys.all` extended by one segment. */
  function ProfileKey(): (k: seq<string>)
    ensures |k| == |AllKey| + 1 && k[..|AllKey|] == AllKey && k[|AllKey|] == "profile"
  {
    AllKey + ["profile"]
  }

  /** The two keys are distinct, so caching one never overwrites the other. */
  lemma QueryKeysDistinct()
    ensures CurrentUserKey() != ProfileKey()
    ensures CurrentUserKey() == ["auth", "currentUser"] && ProfileKey() == ["auth", "profile"]
  {
    assert CurrentUserKey()[1] != ProfileKey()[1];
  }

  // ------------------------------------------------------------ request helper

  /** `getAuthToken`: the stored access token, null when the read fails. */
  method GetAuthToken(secure: SecureStore) returns (token: Option<string>)
    ensures AccessTokenKey in secure.faulty ==> token.None?
    ensures AccessTokenKey !in secure.faulty ==> token == Lookup(secure.items, AccessTokenKey)
  {
    var r := secure.GetItem(AccessTokenKey);
    token := if r.Ok? then r.value else None;
  }

  /** The headers `apiRequest` sends: JSON content type, a bearer token when
      one is truthy, and the caller's headers on top, overriding both. */
  function RequestHeaders(token: Option<string>, callerHeaders: map<string, string>): (h: map<string, string>)
    ensures h.Keys == callerHeaders.Keys + {ContentTypeHeader} + (if Truthy(token) then {AuthorizationHeader} else {})
    ensures forall k :: k in callerHeaders ==> h[k] == callerHeaders[k]
    ensures ContentTypeHeader !in callerHeaders ==> h[ContentTypeHeader] == JsonContentType
    ensures AuthorizationHeader !in callerHeaders && Truthy(token) ==> h[AuthorizationHeader] == "Bearer " + token.value
  {
    var defaults := map[ContentTypeHeader := JsonContentType];
    var withToken := if Truthy(token) then defaults[AuthorizationHeader := "Bearer " + token.value] else defaults;
    withToken + callerHeaders
  }

  /** What `fetch` yields: a reply whose body decodes to a `T`, or a rejection. */
  datatype FetchReply<+T> = FetchResponse(status: int, body: T) | FetchFailure(error: JsError)

  /** `response.ok`. */
  predicate IsOkStatus(status: int)
  {
    200 <= status < 300
  }

  /** The request `apiRequest` hands to `fetch`. */
  datatype FetchRequest = FetchRequest(url: string, httpMethod: string, headers: map<string, string>)

  /** The store and the outcome once `apiRequest` has handled a reply. */
  datatype Settled<+T> = Settled(items: map<string, string>, result: Result<T, JsError>)

  /** How `apiRequest` handles a reply: an ok reply yields its body; a 401
      deletes the two tokens in order and raises `Unauthorized` (or the
      store's error if a deletion raises); any other status raises
      `API Error: <status>`; a fetch rejection propagates. Only a 401 touches
      the store. */
  function Settle<T>(items: map<string, string>, faulty: set<string>, fault: JsError, reply: FetchReply<T>): (s: Settled<T>)
    ensures reply.FetchFailure? ==> s == Settled(items, Err(reply.error))
    ensures reply.FetchResponse? && IsOkStatus(reply.status) ==> s == Settled(items, Ok(reply.body))
    ensures reply.FetchResponse? && !IsOkStatus(reply.status) && reply.status != 401 ==>
              s == Settled(items, Err(PlainError("API Error: " + Decimal.IntString(reply.status))))
    ensures reply.FetchResponse? && reply.status == 401 ==>
              var d := DeleteInOrder(items, faulty, UnauthorizedKeys);
              s == Settled(d.items, Err(if d.failedAt.None? then PlainError(UnauthorizedMessage) else fault))
  {
    match reply
    case FetchFailure(error) => Settled(items, Err(error))
    case FetchResponse(status, body) =>
      if IsOkStatus(status) then Settled(items, Ok(body))
      else if status == 401 then
        var d := DeleteInOrder(items, faulty, UnauthorizedKeys);
        Settled(d.items, Err(if d.failedAt.None? then PlainError(UnauthorizedMessage) else fault))
      else Settled(items, Err(PlainError("API Error: " + Decimal.IntString(status))))
  }

  /** A completed 401 purge removes exactly the two tokens. */
  lemma UnauthorizedPurgeIsExact<T>(items: map<string, string>, faulty: set<string>, fault: JsError, body: T)
    requires AccessTokenKey !in faulty && RefreshTokenKey !in faulty
    ensures Settle(items, faulty, fault, FetchResponse(401, body)).items == items - {AccessTokenKey, RefreshTokenKey}
  {
    assert (set k | k in UnauthorizedKeys) == {AccessTokenKey, RefreshTokenKey};
  }

  /** `apiRequest`: read the token, build the request, and settle the reply. */
  method ApiRequest<T>(secure: SecureStore, endpoint: string, httpMethod: string, callerHeaders: map<string, string>, reply: FetchReply<T>)
    returns (request: FetchRequest, r: Result<T, JsError>)
    modifies secure
    ensures request.url == ApiBaseUrl + endpoint && request.httpMethod == httpMethod
    ensures request.headers == RequestHeaders(if AccessTokenKey in secure.faulty then None else Lookup(old(secure.items), AccessTokenKey), callerHeaders)
    ensures Settled(secure.items, r) == Settle(old(secure.items), secure.faulty, secure.Fault(), reply)
  {
    var token := GetAuthToken(secure);
    request := FetchRequest(ApiBaseUrl + endpoint, httpMethod, RequestHeaders(token, callerHeaders));
    match reply {
      case FetchFailure(error) =>
        r := Err(error);
      case FetchResponse(status, body) =>
        if IsOkStatus(status) {
          r := Ok(body);
        } else if status == 401 {
          ghost var todo := UnauthorizedKeys;
          DeleteHead(secure.items, secure.faulty, todo);
          var d := secure.DeleteItem(AccessTokenKey);
          if d.Fail? {
            return request, Err(d.error);
          }
          todo := todo[1..];
          DeleteHead(secure.items, secure.faulty, todo);
          d := secure.DeleteItem(RefreshTokenKey);
          if d.Fail? {
            return request, Err(d.error);
          }
          assert todo[1..] == [];
          r := Err(PlainError(UnauthorizedMessage));
        } else {
          r := Err(PlainError("API Error: " + Decimal.IntString(status)));
        }
    }
  }

  /** The `queryFn` of `useCurrentUser`. */
  method FetchCurrentUser(secure: SecureStore, reply: FetchReply<User>) returns (request: FetchRequest, r: Result<User, JsError>)
    modifies secure
    ensures request == FetchRequest(ApiBaseUrl + "/auth/me", "GET",
                                    RequestHeaders(if AccessTokenKey in secure.faulty then None else Lookup(old(secure.items), AccessTokenKey), map[]))
    ensures Settled(secure.items, r) == Settle(old(secure.items), secure.faulty, secure.Fault(), reply)
  {
    request, r := ApiRequest(secure, "/auth/me", "GET", map[], reply);
  }

  // ------------------------------------------------------------------- retries

  /** The `retry` option of `useCurrentUser`. */
  function ShouldRetry(failureCount: int, error: JsError): (retry: bool)
    ensures error.message == UnauthorizedMessage ==> !retry
    ensures error.message != UnauthorizedMessage ==> (retry <==> failureCount < 2)
  {
    if error.message == UnauthorizedMessage then false else failureCount < 2
  }

  /** A 401 whose purge completed is never retried; any other failing reply
      is retried after the first and second failures only. */
  lemma RetryFollowsSettledError<T>(items: map<string, string>, faulty: set<string>, fault: JsError, reply: FetchReply<T>, failureCount: int)
    requires reply.FetchResponse? && !IsOkStatus(reply.status)
    ensures var s := Settle(items, faulty, fault, reply);
            reply.status == 401 && AccessTokenKey !in faulty && RefreshTokenKey !in faulty ==>
              !ShouldRetry(failureCount, s.result.error)
    ensures var s := Settle(items, faulty, fault, reply);
            reply.status != 401 ==> (ShouldRetry(failureCount, s.result.error) <==> failureCount < 2)
  {
    var s := Settle(items, faulty, fault, reply);
    if reply.status != 401 {
      var msg := "API Error: " + Decimal.IntString(reply.status);
      assert s.result.error.message == msg;
      assert msg[0] == 'A' && UnauthorizedMessage[0] == 'U';
    }
  }

  // ------------------------------------------------------------- mock sign-in

  /** One row of the development login table. */
  datatype MockAccount = MockAccount(email: string, password: string, user: User)

  function Staff(id: string, email: string, name: string, employeeId: string, department: string, position: string): User
  {
    User(id, email, name, None, employeeId, Some(department), Some(position), None)
  }

  const MockAccounts: seq<MockAccount> := [
    MockAccount("juan.perez@nommy.app", "password123",
      Staff("1", "juan.perez@nommy.app", "Juan Pérez", "EMP001", "Recursos Humanos", "Gerente de RRHH")),
    MockAccount("maria.garcia@nommy.app", "password123",
      Staff("2", "maria.garcia@nommy.app", "María García", "EMP002", "Tecnología", "Desarrolladora Senior")),
    MockAccount("carlos.lopez@nommy.app", "password123",
      Staff("3", "carlos.lopez@nommy.app", "Carlos López", "EMP003", "Ventas", "Ejecutivo de Ventas")),
    MockAccount("ana.martinez@nommy.app", "password123",
      Staff("4", "ana.martinez@nommy.app", "Ana Martínez", "EMP004", "Marketing", "Coordinadora de Marketing")),
    MockAccount("test@nommy.app", "password",
      Staff("5", "test@nommy.app", "Usuario de Prueba", "EMP005", "Desarrollo", "Tester"))
  ]

  predicate Matches(account: MockAccount, credentials: LoginCredentials)
  {
    account.email == credentials.email && account.password == credentials.password
  }

  /** `mockUsers.find(...)`: the first row whose email and password both match. */
  function Find(accounts: seq<MockAccount>, credentials: LoginCredentials): (r: Option<MockAccount>)
    ensures r.None? <==> forall i :: 0 <= i < |accounts| ==> !Matches(accounts[i], credentials)
    ensures r.Some? ==> exists i :: 0 <= i < |accounts| && accounts[i] == r.value && Matches(r.value, credentials)
                                    && forall j :: 0 <= j < i ==> !Matches(accounts[j], credentials)
  {
    if accounts == [] then None
    else if Matches(accounts[0], credentials) then Some(accounts[0])
    else
      var r := Find(accounts[1..], credentials);
      assert forall i :: 0 < i < |accounts| ==> accounts[i] == accounts[1..][i - 1];
      r
  }

  /** The mock `mutationFn`: a matching row's user with the fixed mock
      tokens, otherwise `Invalid credentials`. */
  function MockLogin(credentials: LoginCredentials): (r: Result<LoginResponse, JsError>)
    ensures r.Ok? <==> exists i :: 0 <= i < |MockAccounts| && Matches(MockAccounts[i], credentials)
    ensures r.Ok? ==> r.value.token == MockToken && r.value.refreshToken == MockRefreshToken
                      && exists i :: 0 <= i < |MockAccounts| && Matches(MockAccounts[i], credentials)
                                     && r.value.user == MockAccounts[i].user
    ensures r.Err? ==> r.error == PlainError(InvalidCredentialsMessage)
  {
    match Find(MockAccounts, credentials)
    case Some(account) => Ok(LoginResponse(account.user, MockToken, MockRefreshToken))
    case None => Err(PlainError(InvalidCredentialsMessage))
  }

  /** Each row's user carries the row's email, and the rows' emails are
      pairwise distinct (they already differ in their first letter). */
  lemma MockTableWellFormed()
    ensures forall i :: 0 <= i < |MockAccounts| ==> MockAccounts[i].user.email == MockAccounts[i].email
    ensures forall i, j :: 0 <= i < |MockAccounts| && 0 <= j < |MockAccounts| && i != j ==>
              MockAccounts[i].email[0] != MockAccounts[j].email[0]
  {
    assert MockAccounts[0].email[0] == 'j';
    assert MockAccounts[1].email[0] == 'm';
    assert MockAccounts[2].email[0] == 'c';
    assert MockAccounts[3].email[0] == 'a';
    assert MockAccounts[4].email[0] == 't';
  }

  /** A successful login's user is the row of the login's email. */
  lemma MockLoginUserOwnsEmail(credentials: LoginCredentials, k: nat)
    requires MockLogin(credentials).Ok?
    requires k < |MockAccounts| && MockAccounts[k].email == credentials.email
    ensures MockLogin(credentials).value.user == MockAccounts[k].user
    ensures MockLogin(credentials).value.user.email == credentials.email
  {
    MockTableWellFormed();
    var r := MockLogin(credentials);
    var i :| 0 <= i < |MockAccounts| && Matches(MockAccounts[i], credentials) && r.value.user == MockAccounts[i].user;
    assert MockAccounts[i].email[0] == MockAccounts[k].email[0];
  }

  // --------------------------------------------------------------- query cache

  /** The query client's cache, as far as these hooks use it. */
  class QueryCache {
    var data: map<seq<string>, User>

    constructor ()
      ensures data == map[]
    {
      data := map[];
    }

    /** `setQueryData`. */
    method SetQueryData(key: seq<string>, user: User)
      modifies this
      ensures data == old(data)[key := user]
    {
      data := data[key := user];
    }

    /** `clear`. */
    method Clear()
      modifies this
      ensures data == map[]
    {
      data := map[];
    }
  }

  /** `useLoginMutation`: the mock login, and on success the returned user
      cached as the current user. */
  method LoginMutation(cache: QueryCache, credentials: LoginCredentials) returns (r: Result<LoginResponse, JsError>)
    modifies cache
    ensures r == MockLogin(credentials)
    ensures r.Ok? ==> cache.data == old(cache.data)[CurrentUserKey() := r.value.user]
    ensures r.Err? ==> cache.data == old(cache.data)
  {
    r := MockLogin(credentials);
    if r.Ok? {
      cache.SetQueryData(CurrentUserKey(), r.value.user);
    }
  }

  /** `useLogoutMutation`: the cache is emptied. */
  method LogoutMutation(cache: QueryCache)
    modifies cache
    ensures cache.data == map[]
  {
    cache.Clear();
  }

  /** `useUpdateProfileMutation`: a PUT to the profile endpoint, and on
      success the returned user cached as the current user. */
  method UpdateProfileMutation(secure: SecureStore, cache: QueryCache, reply: FetchReply<User>)
    returns (request: FetchRequest, r: Result<User, JsError>)
    modifies secure, cache
    ensures request == FetchRequest(ApiBaseUrl + "/auth/profile", "PUT",
                                    RequestHeaders(if AccessTokenKey in secure.faulty then None else Lookup(old(secure.items), AccessTokenKey), map[]))
    ensures Settled(secure.items, r) == Settle(old(secure.items), secure.faulty, secure.Fault(), reply)
    ensures r.Ok? ==> cache.data == old(cache.data)[CurrentUserKey() := r.value]
    ensures r.Err? ==> cache.data == old(cache.data)
  {
    request, r := ApiRequest(secure, "/auth/profile", "PUT", map[], reply);
    if r.Ok? {
      cache.SetQueryData(CurrentUserKey(), r.value);
    }
  }
}
