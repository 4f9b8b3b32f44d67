/** The authentication service (services/api/auth.ts): sign-in against the
    employee endpoint, sign-out, the stored-token check, the current user and
    token refresh. Every request goes through the axios client, so a 401
    reply also runs that client's purge. */
module AuthService {
  import opened Common
  import opened SecureStorage
  import opened ApiClient
  import Decimal

  const AuthTokenKey := "authToken"
  const UserIdKey := "userId"
  const EmployeeIdKey := "employeeId"
  const DeviceTokenKey := "deviceToken"

  /** The keys sign-out deletes, in the order it deletes them. */
  const SignOutKeys := [AuthTokenKey, UserIdKey, EmployeeIdKey, DeviceTokenKey]

  const NoEmployeesMessage := "Acceso limitado a empleados"
  const DefaultSignInMessage := "Error al iniciar sesión"

  /** The fields of the API's employee record that the model uses. */
  datatype Employee = Employee(id: int, nombre: string, activo: bool)

  /** The fields of the API's user record that the model uses. */
  datatype ApiUser = ApiUser(id: int, username: string, email: string, employees: seq<Employee>)

  datatype SignInResponse = SignInResponse(token: string, user: ApiUser)

  /** The body of a token refresh reply. */
  datatype TokenReply = TokenReply(token: string)

  /** The sign-in `catch`: the reply body's `message` first, then the
      error's own message, then a fixed fallback. The result is never empty. */
  function SignInErrorMessage(e: JsError): (m: string)
    ensures m != ""
    ensures Truthy(e.responseMessage) ==> m == e.responseMessage.value
    ensures !Truthy(e.responseMessage) && e.message != "" ==> m == e.message
    ensures !Truthy(e.responseMessage) && e.message == "" ==> m == DefaultSignInMessage
  {
    if Truthy(e.responseMessage) then e.responseMessage.value
    else if e.message != "" then e.message
    else DefaultSignInMessage
  }

  /** An error raised inside the `try` reaches the caller with its message
      intact, and mapping an already-mapped error changes nothing. */
  lemma SignInErrorMessageKeepsOwnMessages(e: JsError)
    ensures SignInErrorMessage(PlainError(NoEmployeesMessage)) == NoEmployeesMessage
    ensures SignInErrorMessage(PlainError(SignInErrorMessage(e))) == SignInErrorMessage(e)
  {
  }

  /** `signIn`: the request, then the employee check before any write, then
      the three writes in order; any failure is mapped to a message and
      nothing later happens. A success returns the reply body unchanged. */
  method SignIn(secure: SecureStore, reply: HttpReply<SignInResponse>) returns (r: Result<SignInResponse, string>)
    modifies secure
    ensures r.Ok? <==> Succeeded(reply) && |reply.body.user.employees| > 0
                       && AuthTokenKey !in secure.faulty && UserIdKey !in secure.faulty && EmployeeIdKey !in secure.faulty
    ensures r.Ok? ==>
              r.value == reply.body
              && secure.items == old(secure.items)[AuthTokenKey := reply.body.token]
                                                   [UserIdKey := Decimal.IntString(reply.body.user.id)]
                                                   [EmployeeIdKey := Decimal.IntString(reply.body.user.employees[0].id)]
    ensures !Succeeded(reply) ==>
              var d := AfterRejection(old(secure.items), secure.faulty, StatusOf(reply));
              secure.items == d.items
              && r == Err(SignInErrorMessage(if d.failedAt.None? then AxiosError(reply) else secure.Fault()))
    ensures Succeeded(reply) && |reply.body.user.employees| == 0 ==>
              r == Err(NoEmployeesMessage) && secure.items == old(secure.items)
    ensures Succeeded(reply) && |reply.body.user.employees| > 0 && AuthTokenKey in secure.faulty ==>
              r == Err(SignInErrorMessage(secure.Fault())) && secure.items == old(secure.items)
    ensures Succeeded(reply) && |reply.body.user.employees| > 0 && AuthTokenKey !in secure.faulty && UserIdKey in secure.faulty ==>
              r == Err(SignInErrorMessage(secure.Fault()))
              && secure.items == old(secure.items)[AuthTokenKey := reply.body.token]
    ensures Succeeded(reply) && |reply.body.user.employees| > 0 && AuthTokenKey !in secure.faulty && UserIdKey !in secure.faulty
            && EmployeeIdKey in secure.faulty ==>
              r == Err(SignInErrorMessage(secure.Fault()))
              && secure.items == old(secure.items)[AuthTokenKey := reply.body.token]
                                                   [UserIdKey := Decimal.IntString(reply.body.user.id)]
  {
    var response := Dispatch(secure, reply);
    if response.Err? {
      return Err(SignInErrorMessage(response.error));
    }
    var data := response.value;
    if |data.user.employees| == 0 {
      return Err(SignInErrorMessage(PlainError(NoEmployeesMessage)));
    }
    var w := secure.SetItem(AuthTokenKey, data.token);
    if w.Fail? {
      return Err(SignInErrorMessage(w.error));
    }
    w := secure.SetItem(UserIdKey, Decimal.IntString(data.user.id));
    if w.Fail? {
      return Err(SignInErrorMessage(w.error));
    }
    if |data.user.employees| > 0 {
      w := secure.SetItem(EmployeeIdKey, Decimal.IntString(data.user.employees[0].id));
      if w.Fail? {
        return Err(SignInErrorMessage(w.error));
      }
    }
    r := Ok(data);
  }

  /** `signOut`: the four deletions in order, with no `catch`: the first
      that raises is what the caller sees. */
  method SignOut(secure: SecureStore) returns (r: Outcome<JsError>)
    modifies secure
    ensures secure.items == DeleteInOrder(old(secure.items), secure.faulty, SignOutKeys).items
    ensures r.Pass? <==> DeleteInOrder(old(secure.items), secure.faulty, SignOutKeys).failedAt.None?
    ensures r.Fail? ==> r == Fail(secure.Fault())
  {
    ghost var todo := SignOutKeys;
    DeleteHead(secure.items, secure.faulty, todo);
    r := secure.DeleteItem(AuthTokenKey);
    if r.Fail? {
      return;
    }
    todo := todo[1..];
    DeleteHead(secure.items, secure.faulty, todo);
    r := secure.DeleteItem(UserIdKey);
    if r.Fail? {
      return;
    }
    todo := todo[1..];
    DeleteHead(secure.items, secure.faulty, todo);
    r := secure.DeleteItem(EmployeeIdKey);
    if r.Fail? {
      return;
    }
    todo := todo[1..];
    DeleteHead(secure.items, secure.faulty, todo);
    r := secure.DeleteItem(DeviceTokenKey);
    if r.Fail? {
      return;
    }
    assert todo[1..] == [];
  }

  /** A completed sign-out removes exactly the four keys. */
  lemma SignOutIsExact(items: map<string, string>, faulty: set<string>)
    requires AuthTokenKey !in faulty && UserIdKey !in faulty && EmployeeIdKey !in faulty && DeviceTokenKey !in faulty
    ensures DeleteInOrder(items, faulty, SignOutKeys).failedAt.None?
    ensures DeleteInOrder(items, faulty, SignOutKeys).items == items - {AuthTokenKey, UserIdKey, EmployeeIdKey, DeviceTokenKey}
  {
    assert (set k | k in SignOutKeys) == {AuthTokenKey, UserIdKey, EmployeeIdKey, DeviceTokenKey};
  }

  /** `isAuthenticated`: whether a truthy token is stored. A failing read is
      not caught. */
  method IsAuthenticated(secure: SecureStore) returns (r: Result<bool, JsError>)
    ensures AuthTokenKey in secure.faulty ==> r == Err(secure.Fault())
    ensures AuthTokenKey !in secure.faulty ==>
              r.Ok? && (r.value <==> AuthTokenKey in secure.items && secure.items[AuthTokenKey] != "")
  {
    var token := secure.GetItem(AuthTokenKey);
    if token.Err? {
      return Err(token.error);
    }
    r := Ok(Truthy(token.value));
  }

  /** `getCurrentUser`: the reply body, or null on any failure. */
  method GetCurrentUser(secure: SecureStore, reply: HttpReply<ApiUser>) returns (u: Option<ApiUser>)
    modifies secure
    ensures u.Some? <==> Succeeded(reply)
    ensures u.Some? ==> u.value == reply.body && secure.items == old(secure.items)
    ensures u.None? ==> secure.items == AfterRejection(old(secure.items), secure.faulty, StatusOf(reply)).items
  {
    var response := Dispatch(secure, reply);
    u := if response.Ok? then Some(response.value) else None;
  }

  /** `refreshToken`: on success the new token is stored and returned; any
      failure yields null. This module's own token key is then untouched. */
  method RefreshToken(secure: SecureStore, reply: HttpReply<TokenReply>) returns (t: Option<string>)
    modifies secure
    ensures t.Some? <==> Succeeded(reply) && AuthTokenKey !in secure.faulty
    ensures t.Some? ==> t.value == reply.body.token
                        && secure.items == old(secure.items)[AuthTokenKey := reply.body.token]
    ensures Succeeded(reply) && t.None? ==> secure.items == old(secure.items)
    ensures !Succeeded(reply) ==> secure.items == AfterRejection(old(secure.items), secure.faulty, StatusOf(reply)).items
    ensures t.None? ==> SameEntry(old(secure.items), secure.items, AuthTokenKey)
  {
    var response := Dispatch(secure, reply);
    if response.Err? {
      return None;
    }
    var newToken := response.value.token;
    var w := secure.SetItem(AuthTokenKey, newToken);
    if w.Fail? {
      return None;
    }
    t := Some(newToken);
  }

  /** The token sign-in stores is not the one the client's interceptor
      reads: storing it leaves every request's headers as they were. */
  lemma StoredTokenNotSentByInterceptor(items: map<string, string>, faulty: set<string>, headers: map<string, string>, token: string)
    ensures HeadersFromStore(items[AuthTokenKey := token], faulty, headers) == HeadersFromStore(items, faulty, headers)
  {
    var stored := items[AuthTokenKey := token];
    assert Lookup(stored, ApiClient.AuthTokenKey) == Lookup(items, ApiClient.AuthTokenKey);
    assert Lookup(stored, ApiClient.EmployeeIdKey) == Lookup(items, ApiClient.EmployeeIdKey);
    assert Lookup(stored, ApiClient.DeviceTokenKey) == Lookup(items, ApiClient.DeviceTokenKey);
  }

  /** Nor does the client's 401 purge delete it. */
  lemma StoredTokenSurvivesUnauthorizedPurge(items: map<string, string>, faulty: set<string>)
    ensures SameEntry(items, AfterRejection(items, faulty, Some(401)).items, AuthTokenKey)
  {
    assert AuthTokenKey !in UnauthorizedKeys;
  }
}
