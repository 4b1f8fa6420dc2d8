// service.UserService: registration, login, logout and token checks over the in-memory user and
// authorisation stores. Each operation is first given as a function on the contents of both
// stores; the class's methods work on the stores themselves and are proved to agree with those
// functions.

module UserServices {
  import opened Wrappers
  import opened Records
  import opened AuthStore
  import opened UserStore

  const Characters := "ABCDEFGHIJKLMNOPQRSTUVWXYZabcdefghijklmnopqrstuvwxyz0123456789"
  const AuthLength := 20

  /** The shape of every token generateAuthToken produces. */
  predicate TokenShape(t: string) {
    |t| == AuthLength && forall i :: 0 <= i < |t| ==> t[i] in Characters
  }

  /** The contents of the user store and of both maps of the authorisation store. */
  datatype Stores = Stores(users: map<Option<string>, UserData>,
                           authsByUsername: map<string, AuthData>,
                           authsByToken: map<string, AuthData>)

  /**
   * What the service keeps true: every record is filed under its own key, no user is filed under
   * a null name, and every live token belongs to a stored user.
   */
  ghost predicate Coherent(st: Stores) {
    FiledByName(st.users) && None !in st.users &&
    FiledByUsername(st.authsByUsername) && FiledByToken(st.authsByToken) &&
    forall t :: t in st.authsByToken ==> Some(st.authsByToken[t].username) in st.users
  }

  /** Files a (username, token) record under both keys, as AuthDAO.addAuthToken does. */
  function AddAuth(st: Stores, username: string, token: string): Stores {
    st.(authsByUsername := st.authsByUsername[username := AuthData(username, token)],
        authsByToken := st.authsByToken[token := AuthData(username, token)])
  }

  /** registerUser, given the token generateAuthToken will draw for it. */
  function Register(st: Stores, newUser: UserData, token: string): (r: (Result<AuthData, Error>, Stores))
    ensures r.0.Failure? ==> r.1 == st
    ensures r.0 == Failure(BadRequest) <==> newUser.username.None? || newUser.password.None? || newUser.email.None?
    ensures r.0 == Failure(AlreadyTaken) <==>
      newUser.username.Some? && newUser.password.Some? && newUser.email.Some? && newUser.username in st.users
    ensures r.0.Success? <==>
      newUser.username.Some? && newUser.password.Some? && newUser.email.Some? && newUser.username !in st.users
    ensures r.0.Success? ==>
      newUser.username.Some? && newUser.username !in st.users &&
      r.0.value == AuthData(newUser.username.value, token) &&
      r.1.users == st.users[newUser.username := newUser] &&
      r.1.authsByUsername == st.authsByUsername[newUser.username.value := r.0.value] &&
      r.1.authsByToken == st.authsByToken[token := r.0.value]
  {
    if newUser.username.None? || newUser.password.None? || newUser.email.None? then (Failure(BadRequest), st)
    else if newUser.username in st.users then (Failure(AlreadyTaken), st)
    else
      var u := newUser.username.value;
      (Success(AuthData(u, token)), AddAuth(st.(users := st.users[newUser.username := newUser]), u, token))
  }

  /** loginUser, given the token generateAuthToken will draw for it. Passwords compare as Objects.equals. */
  function Login(st: Stores, userInfo: UserData, token: string): (r: (Result<AuthData, Error>, Stores))
    requires None !in st.users
    ensures r.0.Failure? ==> r.1 == st
    ensures r.0 == Failure(NoSuchUser) <==> userInfo.username !in st.users
    ensures r.0 == Failure(WrongPassword) <==>
      userInfo.username in st.users && st.users[userInfo.username].password != userInfo.password
    ensures r.0.Success? <==>
      userInfo.username in st.users && st.users[userInfo.username].password == userInfo.password
    ensures r.0.Success? ==>
      userInfo.username.Some? && r.0.value == AuthData(userInfo.username.value, token) &&
      r.1.users == st.users && r.1.authsByToken == st.authsByToken[token := r.0.value] &&
      r.1.authsByUsername == st.authsByUsername[userInfo.username.value := r.0.value]
  {
    if userInfo.username !in st.users then (Failure(NoSuchUser), st)
    else if st.users[userInfo.username].password != userInfo.password then (Failure(WrongPassword), st)
    else
      var u := userInfo.username.value;
      (Success(AuthData(u, token)), AddAuth(st, u, token))
  }

  /** logoutUser: authorises the token, then removes the user name and the token of its record. */
  function Logout(st: Stores, authToken: string): (r: (Outcome<Error>, Stores))
    requires FiledByToken(st.authsByToken)
    ensures r.0 == Fail(Unauthorized) <==> authToken !in st.authsByToken
    ensures r.0.Fail? ==> r.0 == Fail(Unauthorized) && r.1 == st
    ensures r.0.Pass? ==>
      r.1.users == st.users && authToken !in r.1.authsByToken &&
      r.1.authsByToken == st.authsByToken - {authToken} &&
      r.1.authsByUsername == st.authsByUsername - {st.authsByToken[authToken].username}
  {
    if authToken !in st.authsByToken then (Fail(Unauthorized), st)
    else
      var a := st.authsByToken[authToken];
      (Pass, st.(authsByUsername := st.authsByUsername - {a.username},
                 authsByToken := st.authsByToken - {a.authToken}))
  }

  lemma RegisterKeepsCoherent(st: Stores, newUser: UserData, token: string)
    requires Coherent(st)
    ensures Coherent(Register(st, newUser, token).1)
  {
  }

  lemma LoginKeepsCoherent(st: Stores, userInfo: UserData, token: string)
    requires Coherent(st)
    ensures Coherent(Login(st, userInfo, token).1)
  {
  }

  lemma LogoutKeepsCoherent(st: Stores, authToken: string)
    requires Coherent(st)
    ensures Coherent(Logout(st, authToken).1)
  {
  }

  /** Registering into empty authorisation maps and logging out with the token received empties them again. */
  lemma RegisterThenLogoutLeavesNoAuths(st: Stores, newUser: UserData, token: string)
    requires st.authsByUsername == map[] && st.authsByToken == map[]
    requires Register(st, newUser, token).0.Success?
    ensures var reg := Register(st, newUser, token);
            var out := Logout(reg.1, reg.0.value.authToken);
            out.0 == Pass && out.1.authsByUsername == map[] && out.1.authsByToken == map[] &&
            out.1.users == reg.1.users
  {
    var reg := Register(st, newUser, token);
    var u := newUser.username.value;
    assert reg.1.authsByToken == map[token := AuthData(u, token)];
    assert reg.1.authsByUsername == map[u := AuthData(u, token)];
    var out := Logout(reg.1, token);
    assert out.1.authsByToken == map[];
    assert out.1.authsByUsername == map[];
  }

  /** A user that registered with a password can then log in with it. */
  lemma RegisterThenLogin(st: Stores, newUser: UserData, t1: string, t2: string)
    requires Coherent(st) && Register(st, newUser, t1).0.Success?
    ensures None !in Register(st, newUser, t1).1.users
    ensures var next := Register(st, newUser, t1).1;
            Login(next, UserData(newUser.username, newUser.password, None), t2).0 ==
              Success(AuthData(newUser.username.value, t2))
  {
    RegisterKeepsCoherent(st, newUser, t1);
  }

  /**
   * Logging in twice and then logging out with the FIRST token removes the user's entry from the
   * user-name map, although that entry holds the second token; the second token still authorises.
   */
  lemma LogoutOfStaleTokenDropsNewerEntry(st: Stores, userInfo: UserData, t1: string, t2: string)
    requires Coherent(st) && t1 != t2
    requires Login(st, userInfo, t1).0.Success?
    ensures None !in Login(st, userInfo, t1).1.users
    ensures var s1 := Login(st, userInfo, t1).1;
            var s2 := Login(s1, userInfo, t2).1;
            var s3 := Logout(s2, t1).1;
            Login(s1, userInfo, t2).0.Success? && Logout(s2, t1).0 == Pass &&
            userInfo.username.value !in s3.authsByUsername && t2 in s3.authsByToken
  {
  }

  class UserService {
    const userDataAccess: UserDAO
    const authDataAccess: AuthDAO

    ghost function State(): Stores
      reads this, userDataAccess, authDataAccess
    {
      Stores(userDataAccess.users, authDataAccess.authsByUsername, authDataAccess.authsByToken)
    }

    ghost predicate Valid()
      reads this, userDataAccess, authDataAccess
    {
      userDataAccess.Valid() && authDataAccess.Valid() && Coherent(State())
    }

    constructor ()
      ensures Valid() && fresh(userDataAccess) && fresh(authDataAccess)
      ensures State() == Stores(map[], map[], map[])
    {
      userDataAccess := new UserDAO();
      authDataAccess := new AuthDAO();
    }

    method RegisterUser(newUser: UserData) returns (r: Result<AuthData, Error>)
      requires Valid()
      modifies userDataAccess, authDataAccess
      ensures Valid()
      ensures r.Success? ==> TokenShape(r.value.authToken) && (r, State()) == Register(old(State()), newUser, r.value.authToken)
      ensures r.Failure? ==> (r, State()) == Register(old(State()), newUser, "")
    {
      if newUser.username.None? || newUser.password.None? || newUser.email.None? {
        return Failure(BadRequest);
      }
      if userDataAccess.GetUser(newUser.username).Some? {
        return Failure(AlreadyTaken);
      } else {
        ghost var st := State();
        userDataAccess.AddUser(newUser);
        var token := GenerateAuthToken();
        authDataAccess.AddAuthToken(newUser.username.value, token);
        RegisterKeepsCoherent(st, newUser, token);
      }
      return Success(authDataAccess.GetAuthInfoByUsername(newUser.username.value).value);
    }

    method LoginUser(userInfo: UserData) returns (r: Result<AuthData, Error>)
      requires Valid()
      modifies authDataAccess
      ensures Valid() && userDataAccess.users == old(userDataAccess.users)
      ensures r.Success? ==> TokenShape(r.value.authToken) && (r, State()) == Login(old(State()), userInfo, r.value.authToken)
      ensures r.Failure? ==> (r, State()) == Login(old(State()), userInfo, "")
    {
      var user := userDataAccess.GetUser(userInfo.username);
      if user.None? {
        return Failure(NoSuchUser);
      }
      if user.value.password == userInfo.password {
        ghost var st := State();
        var token := GenerateAuthToken();
        authDataAccess.AddAuthToken(userInfo.username.value, token);
        LoginKeepsCoherent(st, userInfo, token);
        return Success(authDataAccess.GetAuthInfoByUsername(userInfo.username.value).value);
      } else {
        return Failure(WrongPassword);
      }
    }

    method LogoutUser(authToken: string) returns (r: Outcome<Error>)
      requires Valid()
      modifies authDataAccess
      ensures Valid() && userDataAccess.users == old(userDataAccess.users)
      ensures (r, State()) == Logout(old(State()), authToken)
    {
      r := AuthorizeUser(authToken);
      if r.Fail? {
        return r;
      }
      ghost var st := State();
      authDataAccess.RemoveAuthorization(authDataAccess.GetAuthInfoByToken(authToken).value);
      LogoutKeepsCoherent(st, authToken);
    }

    /** authorizeUser: throws 401 exactly when no record is filed under the token. */
    method AuthorizeUser(authToken: string) returns (r: Outcome<Error>)
      requires Valid()
      ensures r.Fail? <==> authToken !in authDataAccess.authsByToken
      ensures r.Fail? ==> r.error == Unauthorized
    {
      var auth := authDataAccess.GetAuthInfoByToken(authToken);
      if auth.None? {
        return Fail(Unauthorized);
      }
      return Pass;
    }

    method ClearUsersAndAuths()
      requires Valid()
      modifies userDataAccess, authDataAccess
      ensures Valid() && State() == Stores(map[], map[], map[])
    {
      userDataAccess.ClearUsers();
      authDataAccess.ClearAuths();
    }

    /** generateAuthToken: AUTHLENGTH characters, each picked from CHARACTERS at an arbitrary index. */
    method GenerateAuthToken() returns (token: string)
      ensures TokenShape(token)
    {
      token := "";
      for i := 0 to AuthLength
        invariant |token| == i
        invariant forall j :: 0 <= j < i ==> token[j] in Characters
      {
        var index :| 0 <= index < |Characters|;
        token := token + [Characters[index]];
      }
    }

    /** getUserOnAuthToken: a token with no record dereferences null. */
    method GetUserOnAuthToken(authToken: string) returns (r: Result<Option<UserData>, Error>)
      requires Valid()
      ensures authToken !in authDataAccess.authsByToken ==> r == Failure(NullPointerException)
      ensures authToken in authDataAccess.authsByToken ==>
        var name := Some(authDataAccess.authsByToken[authToken].username);
        name in userDataAccess.users && r == Success(Some(userDataAccess.users[name]))
    {
      var auth := authDataAccess.GetAuthInfoByToken(authToken);
      if auth.None? {
        return Failure(NullPointerException);
      }
      return Success(userDataAccess.GetUser(Some(auth.value.username)));
    }
  }
}
