/**
 * The auth store: who is logged in, the session token, whether a login is in
 * progress, and the three fields of that state which are kept across page
 * loads. The credential check runs against a fixed table of three users.
 */
module Auth {
  import opened Types

  /** The shared password of every table user. */
  const Password := "password"

  /** Every token the credential check issues starts with this text. */
  const TokenPrefix := "mock-jwt-token-"

  /** The credential table, keyed by login email. */
  const MockUsers: map<string, User> := map[
    "admin@clinic.com" :=
      User("1", "admin@clinic.com", "Alisher", "Abdullayev", "admin",
           "2024-01-01T00:00:00Z", "2024-01-01T00:00:00Z"),
    "doctor@clinic.com" :=
      User("2", "doctor@clinic.com", "Ahmadjon", "Qo`shboqov", "doktor",
           "2024-01-01T00:00:00Z", "2024-01-01T00:00:00Z"),
    "reception@clinic.com" :=
      User("3", "foydalanuvchi@clinic.com", "Sutonbek", "O`skanboyev", "foydalanuvchi",
           "2024-01-01T00:00:00Z", "2024-01-01T00:00:00Z")
  ]

  datatype Session = Session(user: User, token: string)

  datatype AuthError = InvalidCredentials

  /**
   * The acceptance test as written: `mockUsers[email]` is truthy for the
   * table's own keys and also for the prototype names.
   */
  predicate AcceptedAsWritten(email: string, password: string) {
    (email in MockUsers || email in ObjectPrototypeNames) && password == Password
  }

  /** The email "constructor" with the shared password passes the check as written. */
  lemma PrototypeNameAccepted()
    ensures AcceptedAsWritten("constructor", Password)
    ensures "constructor" !in MockUsers
  {
  }

  /**
   * The credential check, looking up own keys of the table only. `stamp` is
   * the text of the clock reading appended to the token.
   */
  function MockLogin(email: string, password: string, stamp: string): (r: Result<Session, AuthError>)
    ensures r.Success? <==> email in MockUsers && password == Password
    ensures r.Success? ==> r.value.user == MockUsers[email] && TokenPrefix <= r.value.token
    ensures r.Failure? ==> r.error == InvalidCredentials
  {
    if email in MockUsers && password == Password then
      Success(Session(MockUsers[email], TokenPrefix + stamp))
    else
      Failure(InvalidCredentials)
  }

  /** The own-key check agrees with the check as written except on the prototype names. */
  lemma MockLoginAgreesAwayFromPrototype(email: string, password: string, stamp: string)
    requires email !in ObjectPrototypeNames
    ensures MockLogin(email, password, stamp).Success? <==> AcceptedAsWritten(email, password)
  {
  }

  /** Every user of the table carries a declared role. */
  lemma TableUsersWellTyped()
    ensures forall e :: e in MockUsers ==> WellTypedUser(MockUsers[e])
  {
  }

  /**
   * The doctor logs in with role "doktor"; the wrong password fails; the
   * reception key yields a user whose email is not the key.
   */
  lemma LoginFixtures(stamp: string)
    ensures MockLogin("doctor@clinic.com", Password, stamp).Success?
    ensures MockLogin("doctor@clinic.com", Password, stamp).value.user.role == "doktor"
    ensures MockLogin("doctor@clinic.com", "wrong", stamp) == Failure(InvalidCredentials)
    ensures MockLogin("reception@clinic.com", Password, stamp).value.user.email == "foydalanuvchi@clinic.com"
  {
  }

  /** The whole state of the store. */
  datatype AuthState = AuthState(
    user: Option<User>,
    token: Option<string>,
    isAuthenticated: bool,
    isLoading: bool)

  /** The part of the state that is kept across page loads. */
  datatype PersistedAuth = PersistedAuth(
    user: Option<User>,
    token: Option<string>,
    isAuthenticated: bool)

  /** The state before anyone logs in. */
  const InitialState := AuthState(None, None, false, false)

  /** `partialize`: the persisted projection. */
  function Partialize(s: AuthState): PersistedAuth {
    PersistedAuth(s.user, s.token, s.isAuthenticated)
  }

  /** Restoring saved fields over the current state, as a shallow merge does. */
  function Rehydrate(current: AuthState, saved: PersistedAuth): AuthState {
    AuthState(saved.user, saved.token, saved.isAuthenticated, current.isLoading)
  }

  /**
   * The projection ignores the loading flag, and restoring what it saved
   * gives back the saved state except for the loading flag.
   */
  lemma PersistRoundTrip(s: AuthState, current: AuthState, b: bool)
    ensures Partialize(s.(isLoading := b)) == Partialize(s)
    ensures Partialize(Rehydrate(current, Partialize(s))) == Partialize(s)
    ensures Rehydrate(current, Partialize(s)) == s.(isLoading := current.isLoading)
  {
  }

  class AuthStore {
    var user: Option<User>
    var token: Option<string>
    var isAuthenticated: bool
    var isLoading: bool

    /** The store's fields as one value; `Partialize(State())` is what persistence writes. */
    function State(): AuthState
      reads this
    {
      AuthState(user, token, isAuthenticated, isLoading)
    }

    /** The store at start-up, with whatever was saved restored over the initial state. */
    constructor (saved: Option<PersistedAuth>)
      ensures saved.None? ==> State() == InitialState
      ensures saved.Some? ==> State() == Rehydrate(InitialState, saved.value)
      ensures saved.Some? ==> Partialize(State()) == saved.value
    {
      var s := if saved.Some? then Rehydrate(InitialState, saved.value) else InitialState;
      user, token, isAuthenticated, isLoading := s.user, s.token, s.isAuthenticated, s.isLoading;
    }

    /**
     * `login`: on success stores the session and marks it authenticated; on
     * failure leaves the session as it was and rethrows. Loading ends either way.
     */
    method Login(email: string, password: string, stamp: string) returns (outcome: Outcome<AuthError>)
      modifies this
      ensures !isLoading
      ensures MockLogin(email, password, stamp).Success? ==>
        && outcome == Pass
        && user == Some(MockLogin(email, password, stamp).value.user)
        && token == Some(MockLogin(email, password, stamp).value.token)
        && isAuthenticated
      ensures MockLogin(email, password, stamp).Failure? ==>
        && outcome == Fail(InvalidCredentials)
        && user == old(user) && token == old(token) && isAuthenticated == old(isAuthenticated)
    {
      isLoading := true;
      var r := MockLogin(email, password, stamp);
      if r.Success? {
        user, token, isAuthenticated, isLoading := Some(r.value.user), Some(r.value.token), true, false;
        outcome := Pass;
      } else {
        isLoading := false;
        outcome := Fail(r.error);
      }
    }

    /** `logout`: clears the session, and with it what is persisted; the loading flag stays. */
    method Logout()
      modifies this
      ensures State() == old(State()).(user := None, token := None, isAuthenticated := false)
      ensures Partialize(State()) == Partialize(InitialState)
    {
      user, token, isAuthenticated := None, None, false;
    }

    /** `setLoading(b)`: changes the loading flag and nothing persisted. */
    method SetLoading(b: bool)
      modifies this
      ensures State() == old(State()).(isLoading := b)
      ensures Partialize(State()) == Partialize(old(State()))
    {
      isLoading := b;
    }
  }
}
