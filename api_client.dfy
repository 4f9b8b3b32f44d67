/** The axios client (services/api/client.ts): a request interceptor that
    copies stored credentials into the request headers, and a response
    interceptor that forgets the stored session on a 401 reply. The network
    itself is an input: a request's reply is given, not computed. */
module ApiClient {
  import opened Common
  import opened SecureStorage
  import Decimal

  const AuthTokenKey := "auth-token"
  const UserIdKey := "user-id"
  const EmployeeIdKey := "employee-id"
  const DeviceTokenKey := "device-token"

  /** The keys a 401 reply deletes, in the order they are deleted. */
  const UnauthorizedKeys := [AuthTokenKey, UserIdKey, EmployeeIdKey]

  const AuthorizationHeader := "Authorization"
  const EmployeeHeader := "Employee"
  const DeviceTokenHeader := "DeviceToken"

  /** What the transport delivers for one request: a reply with a status, a
      decoded body and the body's optional `message`, or no reply at all. */
  datatype HttpReply<+T> = Response(status: int, body: T, serverMessage: Option<string>) | NoResponse(message: string)

  /** axios's default `validateStatus`. */
  predicate IsSuccessStatus(status: int)
  {
    200 <= status < 300
  }

  predicate Succeeded<T>(reply: HttpReply<T>)
  {
    reply.Response? && IsSuccessStatus(reply.status)
  }

  /** `error.response?.status`. */
  function StatusOf<T>(reply: HttpReply<T>): (s: Option<int>)
    ensures s.Some? <==> reply.Response?
    ensures s.Some? ==> s.value == reply.status
  {
    if reply.Response? then Some(reply.status) else None
  }

  /** The error axios rejects a failed request with. */
  function AxiosError<T>(reply: HttpReply<T>): (e: JsError)
    requires !Succeeded(reply)
    ensures reply.Response? ==> e.responseMessage == reply.serverMessage
                                && e.message == "Request failed with status code " + Decimal.IntString(reply.status)
    ensures reply.NoResponse? ==> e == PlainError(reply.message)
  {
    match reply
    case Response(status, _, serverMessage) =>
      JsError("Request failed with status code " + Decimal.IntString(status), serverMessage)
    case NoResponse(message) => PlainError(message)
  }

  /** The store has `key` with a truthy value. */
  predicate HasTruthy(items: map<string, string>, key: string)
  {
    Truthy(Lookup(items, key))
  }

  /** The request interceptor's effect on the headers. The three keys are
      read in order and a read that raises ends the interceptor, so a header
      is set only when its own read and every earlier read succeeded and the
      value is truthy. Every other header is left as it was. */
  function HeadersFromStore(items: map<string, string>, faulty: set<string>, headers: map<string, string>): (h: map<string, string>)
    ensures AuthTokenKey !in faulty && HasTruthy(items, AuthTokenKey) ==>
              AuthorizationHeader in h && h[AuthorizationHeader] == "Bearer " + items[AuthTokenKey]
    ensures !(AuthTokenKey !in faulty && HasTruthy(items, AuthTokenKey)) ==>
              SameEntry(headers, h, AuthorizationHeader)
    ensures AuthTokenKey !in faulty && EmployeeIdKey !in faulty && HasTruthy(items, EmployeeIdKey) ==>
              EmployeeHeader in h && h[EmployeeHeader] == items[EmployeeIdKey]
    ensures !(AuthTokenKey !in faulty && EmployeeIdKey !in faulty && HasTruthy(items, EmployeeIdKey)) ==>
              SameEntry(headers, h, EmployeeHeader)
    ensures AuthTokenKey !in faulty && EmployeeIdKey !in faulty && DeviceTokenKey !in faulty && HasTruthy(items, DeviceTokenKey) ==>
              DeviceTokenHeader in h && h[DeviceTokenHeader] == items[DeviceTokenKey]
    ensures !(AuthTokenKey !in faulty && EmployeeIdKey !in faulty && DeviceTokenKey !in faulty && HasTruthy(items, DeviceTokenKey)) ==>
              SameEntry(headers, h, DeviceTokenHeader)
    ensures forall k :: k != AuthorizationHeader && k != EmployeeHeader && k != DeviceTokenHeader ==>
              SameEntry(headers, h, k)
  {
    if AuthTokenKey in faulty then headers
    else
      var h1 := if HasTruthy(items, AuthTokenKey) then headers[AuthorizationHeader := "Bearer " + items[AuthTokenKey]] else headers;
      if EmployeeIdKey in faulty then h1
      else
        var h2 := if HasTruthy(items, EmployeeIdKey) then h1[EmployeeHeader := items[EmployeeIdKey]] else h1;
        if DeviceTokenKey in faulty then h2
        else if HasTruthy(items, DeviceTokenKey) then h2[DeviceTokenHeader := items[DeviceTokenKey]]
        else h2
  }

  /** The config object the request interceptor receives and mutates. */
  class RequestConfig {
    var headers: map<string, string>

    constructor (headers: map<string, string>)
      ensures this.headers == headers
    {
      this.headers := headers;
    }
  }

  /** The request interceptor: set the headers in place and hand back the
      same config; a failing read is swallowed. */
  method InterceptRequest(secure: SecureStore, config: RequestConfig) returns (result: RequestConfig)
    modifies config
    ensures result == config
    ensures config.headers == HeadersFromStore(secure.items, secure.faulty, old(config.headers))
  {
    result := config;
    var token := secure.GetItem(AuthTokenKey);
    if token.Err? {
      return;
    }
    if Truthy(token.value) {
      config.headers := config.headers[AuthorizationHeader := "Bearer " + token.value.value];
    }
    var employeeId := secure.GetItem(EmployeeIdKey);
    if employeeId.Err? {
      return;
    }
    if Truthy(employeeId.value) {
      config.headers := config.headers[EmployeeHeader := employeeId.value.value];
    }
    var deviceToken := secure.GetItem(DeviceTokenKey);
    if deviceToken.Err? {
      return;
    }
    if Truthy(deviceToken.value) {
      config.headers := config.headers[DeviceTokenHeader := deviceToken.value.value];
    }
  }

  /** The store after the response interceptor has seen a failed request
      with this status: a 401 deletes the session keys in order, anything
      else deletes nothing. */
  function AfterRejection(items: map<string, string>, faulty: set<string>, status: Option<int>): (d: Deletion)
    ensures status != Some(401) ==> d == Deletion(items, None)
    ensures status == Some(401) ==> d == DeleteInOrder(items, faulty, UnauthorizedKeys)
  {
    if status == Some(401) then DeleteInOrder(items, faulty, UnauthorizedKeys) else Deletion(items, None)
  }

  /** A 401 purge deletes exactly the three session keys: the device token
      and every other key survive. */
  lemma UnauthorizedPurgeIsExact(items: map<string, string>, faulty: set<string>)
    requires AuthTokenKey !in faulty && UserIdKey !in faulty && EmployeeIdKey !in faulty
    ensures AfterRejection(items, faulty, Some(401)).items == items - {AuthTokenKey, UserIdKey, EmployeeIdKey}
    ensures SameEntry(items, AfterRejection(items, faulty, Some(401)).items, DeviceTokenKey)
  {
    assert (set k | k in UnauthorizedKeys) == {AuthTokenKey, UserIdKey, EmployeeIdKey};
  }

  /** The response interceptor's error handler: purge on 401, then reject
      with the same error. A deletion that raises rejects with its error
      instead. */
  method InterceptResponseError(secure: SecureStore, status: Option<int>, error: JsError) returns (rejection: JsError)
    modifies secure
    ensures secure.items == AfterRejection(old(secure.items), secure.faulty, status).items
    ensures rejection == if AfterRejection(old(secure.items), secure.faulty, status).failedAt.None? then error else secure.Fault()
    ensures SameEntry(old(secure.items), secure.items, DeviceTokenKey)
  {
    rejection := error;
    if status == Some(401) {
      ghost var todo := UnauthorizedKeys;
      DeleteHead(secure.items, secure.faulty, todo);
      var d := secure.DeleteItem(AuthTokenKey);
      if d.Fail? {
        return d.error;
      }
      todo := todo[1..];
      DeleteHead(secure.items, secure.faulty, todo);
      d := secure.DeleteItem(UserIdKey);
      if d.Fail? {
        return d.error;
      }
      todo := todo[1..];
      DeleteHead(secure.items, secure.faulty, todo);
      d := secure.DeleteItem(EmployeeIdKey);
      if d.Fail? {
        return d.error;
      }
      assert todo[1..] == [];
    }
  }

  /** One request through the client, given the transport's reply: a
      successful reply passes through unchanged; any other goes through the
      response interceptor and is rejected. */
  method Dispatch<T>(secure: SecureStore, reply: HttpReply<T>) returns (r: Result<T, JsError>)
    modifies secure
    ensures Succeeded(reply) ==> r == Ok(reply.body) && secure.items == old(secure.items)
    ensures !Succeeded(reply) ==>
              var d := AfterRejection(old(secure.items), secure.faulty, StatusOf(reply));
              secure.items == d.items
              && r == Err(if d.failedAt.None? then AxiosError(reply) else secure.Fault())
  {
    if Succeeded(reply) {
      return Ok(reply.body);
    }
    var e := InterceptResponseError(secure, StatusOf(reply), AxiosError(reply));
    r := Err(e);
  }
}
