/**
 * The session context (src/context/AuthContext.tsx): the `auth` record, the
 * browser's key-value storage, and `login` / `logout`, which write the two
 * storage keys and then replace the record.
 */
module Auth {
  import opened Js

  /** The account object the login response carries; `id` is its `_id`. */
  datatype User = User(id: string, name: string, city: string)

  /**
   * What the record's `user` field holds: nothing, the bare id string read
   * from storage at start-up, or the account object installed by `login`.
   */
  datatype SessionUser = NoUser | StoredUserId(id: string) | Account(user: User)

  datatype AuthState = AuthState(token: Option<string>, user: SessionUser, isSignedIn: bool)

  /** The `resData` passed to `login`. */
  datatype LoginResponse = LoginResponse(token: string, user: User)

  const TokenKey := "token"
  const UserIdKey := "userID"

  /** `localStorage.getItem(key)`: null for an absent key. */
  function GetItem(storage: map<string, string>, key: string): (v: Option<string>)
    ensures v.Some? <==> key in storage
    ensures v.Some? ==> v.value == storage[key]
  {
    if key in storage then Some(storage[key]) else None
  }

  /** The record the provider starts with: both storage values are read, yet nobody is signed in. */
  function InitialAuth(storage: map<string, string>): (a: AuthState)
    ensures !a.isSignedIn
    ensures a.token == GetItem(storage, TokenKey)
    ensures a.user == if UserIdKey in storage then StoredUserId(storage[UserIdKey]) else NoUser
  {
    var id := GetItem(storage, UserIdKey);
    AuthState(GetItem(storage, TokenKey), if id.Some? then StoredUserId(id.value) else NoUser, false)
  }

  /** The two `setItem` calls of `login`. */
  function LoginStorage(storage: map<string, string>, res: LoginResponse): (m: map<string, string>)
    ensures TokenKey in m && m[TokenKey] == res.token
    ensures UserIdKey in m && m[UserIdKey] == res.user.id
    ensures forall k :: k != TokenKey && k != UserIdKey ==> (k in m <==> k in storage)
    ensures forall k :: k != TokenKey && k != UserIdKey && k in storage ==> m[k] == storage[k]
  {
    storage[TokenKey := res.token][UserIdKey := res.user.id]
  }

  /** The two `removeItem` calls of `logout`. */
  function LogoutStorage(storage: map<string, string>): (m: map<string, string>)
    ensures TokenKey !in m && UserIdKey !in m
    ensures forall k :: k != TokenKey && k != UserIdKey ==> (k in m <==> k in storage)
    ensures forall k :: k in m ==> m[k] == storage[k]
  {
    storage - {TokenKey} - {UserIdKey}
  }

  /** `{ ...pre, user: resData.user, isSignedIn: true }`: the record's token is left as it was. */
  function LoginState(pre: AuthState, res: LoginResponse): (a: AuthState)
    ensures a.isSignedIn && a.user == Account(res.user)
    ensures a.token == pre.token
  {
    pre.(user := Account(res.user), isSignedIn := true)
  }

  /** `{ ...pre, user: null, isSignedIn: false }`: the record's token is left as it was. */
  function LogoutState(pre: AuthState): (a: AuthState)
    ensures !a.isSignedIn && a.user == NoUser
    ensures a.token == pre.token
  {
    pre.(user := NoUser, isSignedIn := false)
  }

  /** Whenever someone is signed in, the record holds an account object, never a bare id. */
  predicate SessionConsistent(a: AuthState) {
    a.isSignedIn ==> a.user.Account?
  }

  lemma SessionConsistentAlways(storage: map<string, string>, a: AuthState, res: LoginResponse)
    ensures SessionConsistent(InitialAuth(storage))
    ensures SessionConsistent(LoginState(a, res))
    ensures SessionConsistent(LogoutState(a))
  {
  }

  /** Logging out twice leaves the same storage and record as logging out once. */
  lemma LogoutIdempotent(storage: map<string, string>, a: AuthState)
    ensures LogoutStorage(LogoutStorage(storage)) == LogoutStorage(storage)
    ensures LogoutState(LogoutState(a)) == LogoutState(a)
  {
  }

  /** Logging out after logging in removes exactly what login wrote, whatever was stored under those keys before. */
  lemma LoginThenLogout(storage: map<string, string>, res: LoginResponse)
    ensures LogoutStorage(LoginStorage(storage, res)) == LogoutStorage(storage)
  {
    var lhs := LogoutStorage(LoginStorage(storage, res));
    var rhs := LogoutStorage(storage);
    assert lhs.Keys == rhs.Keys;
  }

  class AuthProvider {
    /** The browser's `localStorage`. */
    var storage: map<string, string>
    var auth: AuthState

    ghost predicate Valid()
      reads this
    {
      SessionConsistent(auth)
    }

    constructor (initialStorage: map<string, string>)
      ensures Valid()
      ensures storage == initialStorage && auth == InitialAuth(initialStorage)
    {
      storage := initialStorage;
      auth := InitialAuth(initialStorage);
    }

    method Login(res: LoginResponse)
      requires Valid()
      modifies this
      ensures Valid()
      ensures storage == LoginStorage(old(storage), res)
      ensures auth == LoginState(old(auth), res)
    {
      storage := storage[TokenKey := res.token];
      storage := storage[UserIdKey := res.user.id];
      auth := auth.(user := Account(res.user), isSignedIn := true);
    }

    method Logout()
      requires Valid()
      modifies this
      ensures Valid()
      ensures storage == LogoutStorage(old(storage))
      ensures auth == LogoutState(old(auth))
    {
      storage := storage - {TokenKey};
      storage := storage - {UserIdKey};
      auth := auth.(user := NoUser, isSignedIn := false);
    }
  }
}
