/** The session store (stores/authStore.ts): who is signed in, whether the
    session is still loading, whether biometric unlock is on, and the secure
    store writes and deletions that go with each action. Each action is one
    sequential step; the biometric device is an input. */
module AuthStore {
  import opened Common
  import opened AuthTypes
  import opened SecureStorage

  const AccessTokenKey := "access_token"
  const RefreshTokenKey := "refresh_token"
  const BiometricCredentialsKey := "biometric_credentials"

  /** The keys logout deletes, in the order it deletes them. */
  const LogoutKeys := [AccessTokenKey, RefreshTokenKey, BiometricCredentialsKey]

  const MockEmail := "test@nommy.app"
  const MockPassword := "password"
  const MockAccessToken := "mock_jwt_token"
  const MockRefreshToken := "mock_refresh_token"

  const InvalidCredentialsMessage := "Invalid credentials"
  const BiometricUnavailableMessage := "Biometric authentication not available"

  /** The one account the development login accepts. */
  predicate MockCredentials(credentials: LoginCredentials)
  {
    credentials.email == MockEmail && credentials.password == MockPassword
  }

  /** The fixed user a successful development login signs in. */
  function MockUser(email: string): (u: User)
    ensures u.id == "1" && u.employeeId == "EMP001" && u.email == email
  {
    User("1", email, "John Doe", None, "EMP001", None, None, None)
  }

  /** `JSON.stringify({ userId, enabled: true })` for an id that needs no escaping. */
  function BiometricCredentialsJson(userId: string): (j: string)
    ensures |j| == |userId| + 28
    ensures j[..11] == "{\"userId\":\"" && j[|j| - 17..] == "\",\"enabled\":true}"
    ensures j[11..|j| - 17] == userId
  {
    "{\"userId\":\"" + userId + "\",\"enabled\":true}"
  }

  /** What the device reports: hardware present, a biometric enrolled, and
      how the next prompt will end. */
  datatype BiometricDevice = BiometricDevice(hasHardware: bool, isEnrolled: bool, promptSucceeds: bool)
  {
    predicate Available() { hasHardware && isEnrolled }
  }

  /** The store's state fields. */
  datatype AuthState = AuthState(user: Option<User>, isAuthenticated: bool, isLoading: bool, biometricEnabled: bool)

  /** What the persistence middleware saves across restarts. */
  datatype PersistedState = PersistedState(user: Option<User>, isAuthenticated: bool, biometricEnabled: bool)

  /** The state before rehydration or any action. */
  const InitialState := AuthState(None, false, true, false)

  /** `partialize`: only the user, the authentication flag and the biometric
      flag are persisted; `isLoading` is not. */
  function Partialize(s: AuthState): (p: PersistedState)
    ensures p.user == s.user
    ensures p.isAuthenticated == s.isAuthenticated
    ensures p.biometricEnabled == s.biometricEnabled
  {
    PersistedState(s.user, s.isAuthenticated, s.biometricEnabled)
  }

  /** The snapshot does not depend on `isLoading`, and two states with the
      same snapshot differ at most in `isLoading`. */
  lemma PartializeForgetsOnlyLoading(s: AuthState, t: AuthState)
    ensures Partialize(s) == Partialize(t) <==> s.(isLoading := t.isLoading) == t
  {
  }

  /** The `secureStorage` adapter handed to the persistence middleware: a
      failing read yields null. */
  method StorageGetItem(secure: SecureStore, name: string) returns (value: Option<string>)
    ensures name in secure.faulty ==> value.None?
    ensures name !in secure.faulty ==> (value.Some? <==> name in secure.items)
    ensures value.Some? ==> name in secure.items && value.value == secure.items[name]
  {
    var r := secure.GetItem(name);
    value := if r.Ok? then r.value else None;
  }

  /** The adapter's write: a failing write is swallowed. */
  method StorageSetItem(secure: SecureStore, name: string, value: string)
    modifies secure
    ensures secure.items == if name in secure.faulty then old(secure.items) else old(secure.items)[name := value]
  {
    var _ := secure.SetItem(name, value);
  }

  /** The adapter's delete: a failing delete is swallowed. */
  method StorageRemoveItem(secure: SecureStore, name: string)
    modifies secure
    ensures secure.items == if name in secure.faulty then old(secure.items) else old(secure.items) - {name}
  {
    var _ := secure.DeleteItem(name);
  }

  class Session {
    var user: Option<User>
    var isAuthenticated: bool
    var isLoading: bool
    var biometricEnabled: bool
    const secure: SecureStore

    function State(): AuthState
      reads this
    {
      AuthState(user, isAuthenticated, isLoading, biometricEnabled)
    }

    /** Kept by every action: authentication and biometric unlock both
        require a signed-in user. */
    predicate Consistent()
      reads this
    {
      (isAuthenticated || biometricEnabled) ==> user.Some?
    }

    constructor (secure: SecureStore)
      ensures State() == InitialState && this.secure == secure
      ensures Consistent()
    {
      user, isAuthenticated, isLoading, biometricEnabled := None, false, true, false;
      this.secure := secure;
    }

    /** `login`: the development credential check, then the two token
        writes, then the state update. Any failure ends loading and is
        rethrown, leaving the session as it was. */
    method Login(credentials: LoginCredentials) returns (r: Outcome<JsError>)
      modifies this, secure
      ensures old(Consistent()) ==> Consistent()
      ensures !isLoading && biometricEnabled == old(biometricEnabled)
      ensures r.Pass? <==> MockCredentials(credentials)
                           && AccessTokenKey !in secure.faulty && RefreshTokenKey !in secure.faulty
      ensures r.Pass? ==> user == Some(MockUser(credentials.email)) && isAuthenticated
                          && secure.items == old(secure.items)[AccessTokenKey := MockAccessToken][RefreshTokenKey := MockRefreshToken]
      ensures r.Fail? ==> user == old(user) && isAuthenticated == old(isAuthenticated)
      ensures !MockCredentials(credentials) ==> r == Fail(PlainError(InvalidCredentialsMessage))
                                                && secure.items == old(secure.items)
      ensures MockCredentials(credentials) && AccessTokenKey in secure.faulty ==>
                r == Fail(secure.Fault()) && secure.items == old(secure.items)
      ensures MockCredentials(credentials) && AccessTokenKey !in secure.faulty && RefreshTokenKey in secure.faulty ==>
                r == Fail(secure.Fault()) && secure.items == old(secure.items)[AccessTokenKey := MockAccessToken]
    {
      isLoading := true;
      if !MockCredentials(credentials) {
        isLoading := false;
        return Fail(PlainError(InvalidCredentialsMessage));
      }
      var w := secure.SetItem(AccessTokenKey, MockAccessToken);
      if w.Fail? {
        isLoading := false;
        return w;
      }
      w := secure.SetItem(RefreshTokenKey, MockRefreshToken);
      if w.Fail? {
        isLoading := false;
        return w;
      }
      user, isAuthenticated, isLoading := Some(MockUser(credentials.email)), true, false;
      r := Pass;
    }

    /** `logout`: delete the three keys in order; only if all three deletions
        succeed is the session cleared. A failing deletion is swallowed and
        stops the rest. `isLoading` is never touched. */
    method Logout()
      modifies this, secure
      ensures old(Consistent()) ==> Consistent()
      ensures secure.items == DeleteInOrder(old(secure.items), secure.faulty, LogoutKeys).items
      ensures isLoading == old(isLoading)
      ensures DeleteInOrder(old(secure.items), secure.faulty, LogoutKeys).failedAt.None? ==>
                user.None? && !isAuthenticated && !biometricEnabled
      ensures DeleteInOrder(old(secure.items), secure.faulty, LogoutKeys).failedAt.Some? ==>
                user == old(user) && isAuthenticated == old(isAuthenticated) && biometricEnabled == old(biometricEnabled)
    {
      ghost var todo := LogoutKeys;
      DeleteHead(secure.items, secure.faulty, todo);
      var d := secure.DeleteItem(AccessTokenKey);
      if d.Fail? {
        return;
      }
      todo := todo[1..];
      DeleteHead(secure.items, secure.faulty, todo);
      d := secure.DeleteItem(RefreshTokenKey);
      if d.Fail? {
        return;
      }
      todo := todo[1..];
      DeleteHead(secure.items, secure.faulty, todo);
      d := secure.DeleteItem(BiometricCredentialsKey);
      if d.Fail? {
        return;
      }
      assert todo[1..] == [];
      user, isAuthenticated, biometricEnabled := None, false, false;
    }

    /** `enableBiometric`: refuses when the device cannot do biometrics;
        otherwise prompts, and only a successful prompt with a signed-in user
        writes the credentials record and turns the flag on. */
    method EnableBiometric(device: BiometricDevice) returns (prompted: bool, r: Outcome<JsError>)
      modifies this, secure
      ensures old(Consistent()) ==> Consistent()
      ensures prompted == device.Available()
      ensures user == old(user) && isAuthenticated == old(isAuthenticated) && isLoading == old(isLoading)
      ensures !device.Available() ==> r == Fail(PlainError(BiometricUnavailableMessage))
      ensures r.Fail? || !device.promptSucceeds || old(user).None? ==>
                biometricEnabled == old(biometricEnabled) && secure.items == old(secure.items)
      ensures device.Available() && (!device.promptSucceeds || old(user).None?) ==> r == Pass
      ensures device.Available() && device.promptSucceeds && old(user).Some? ==>
                (r.Pass? <==> BiometricCredentialsKey !in secure.faulty)
                && (r.Fail? ==> r == Fail(secure.Fault()))
                && (r.Pass? ==> biometricEnabled
                                && secure.items == old(secure.items)[BiometricCredentialsKey := BiometricCredentialsJson(old(user).value.id)])
    {
      prompted := device.Available();
      if !prompted {
        return prompted, Fail(PlainError(BiometricUnavailableMessage));
      }
      r := Pass;
      if device.promptSucceeds && user.Some? {
        var w := secure.SetItem(BiometricCredentialsKey, BiometricCredentialsJson(user.value.id));
        if w.Fail? {
          return prompted, w;
        }
        biometricEnabled := true;
      }
    }

    /** `disableBiometric`: delete the credentials record and turn the flag
        off; a failing deletion is swallowed and changes nothing. Running it
        twice leaves the same state as running it once. */
    method DisableBiometric()
      modifies this, secure
      ensures old(Consistent()) ==> Consistent()
      ensures user == old(user) && isAuthenticated == old(isAuthenticated) && isLoading == old(isLoading)
      ensures BiometricCredentialsKey in secure.faulty ==>
                biometricEnabled == old(biometricEnabled) && secure.items == old(secure.items)
      ensures BiometricCredentialsKey !in secure.faulty ==>
                !biometricEnabled && secure.items == old(secure.items) - {BiometricCredentialsKey}
    {
      var d := secure.DeleteItem(BiometricCredentialsKey);
      if d.Pass? {
        biometricEnabled := false;
      }
    }

    /** `authenticateWithBiometric`: no prompt without hardware and an
        enrolled biometric; otherwise the prompt's outcome. It never throws. */
    method AuthenticateWithBiometric(device: BiometricDevice) returns (prompted: bool, success: bool)
      ensures prompted <==> device.hasHardware && device.isEnrolled
      ensures success <==> prompted && device.promptSucceeds
    {
      if !device.hasHardware || !device.isEnrolled {
        return false, false;
      }
      prompted := true;
      success := device.promptSucceeds;
    }

    /** `setUser`. */
    method SetUser(u: User)
      modifies this
      ensures old(Consistent()) ==> Consistent()
      ensures State() == old(State()).(user := Some(u))
    {
      user := Some(u);
    }

    /** `setLoading`; the persisted snapshot does not change. */
    method SetLoading(loading: bool)
      modifies this
      ensures old(Consistent()) ==> Consistent()
      ensures State() == old(State()).(isLoading := loading)
      ensures Partialize(State()) == Partialize(old(State()))
    {
      isLoading := loading;
    }
  }
}
