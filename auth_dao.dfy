// dataaccess.AuthDAO: the in-memory authorisation store, two hash maps kept side by side, one keyed
// by user name and one keyed by token. Nothing keeps the two in step beyond addAuthToken writing both.

module AuthStore {
  import opened Wrappers
  import opened Records

  /** The values of a user-name-keyed map whose every entry is filed under its own user name. */
  function AuthValues(m: map<string, AuthData>): set<AuthData> {
    set u | u in m :: m[u]
  }

  predicate FiledByUsername(m: map<string, AuthData>) {
    forall u :: u in m ==> m[u].username == u
  }

  predicate FiledByToken(m: map<string, AuthData>) {
    forall t :: t in m ==> m[t].authToken == t
  }

  /** Entries filed under their own user name are pairwise distinct, so there is one value per key. */
  lemma {:induction false} AuthValuesCount(m: map<string, AuthData>)
    requires FiledByUsername(m)
    ensures |AuthValues(m)| == |m|
    decreases |m|
  {
    if |m| > 0 {
      var u :| u in m;
      var rest := m - {u};
      assert |rest| == |m| - 1;
      AuthValuesCount(rest);
      assert m[u] !in AuthValues(rest);
      forall x | x in AuthValues(m) ensures x in AuthValues(rest) + {m[u]} {
        var w :| w in m && m[w] == x;
        if w != u { assert w in rest; }
      }
      forall x | x in AuthValues(rest) ensures x in AuthValues(m) {
        var w :| w in rest && rest[w] == x;
        assert w in m;
      }
      assert AuthValues(m) == AuthValues(rest) + {m[u]};
    } else {
      assert AuthValues(m) == {};
    }
  }

  class AuthDAO {
    var authsByUsername: map<string, AuthData>
    var authsByToken: map<string, AuthData>

    ghost predicate Valid()
      reads this
    {
      FiledByUsername(authsByUsername) && FiledByToken(authsByToken)
    }

    constructor ()
      ensures Valid() && authsByUsername == map[] && authsByToken == map[]
    {
      authsByUsername := map[];
      authsByToken := map[];
    }

    /** A user name with no entry gives None (null). */
    function GetAuthInfoByUsername(username: string): (a: Option<AuthData>)
      reads this
      requires Valid()
      ensures a.Some? <==> username in authsByUsername
      ensures a.Some? ==> a.value == authsByUsername[username] && a.value.username == username
    {
      if username in authsByUsername then Some(authsByUsername[username]) else None
    }

    /**
     * Files the same (username, authToken) record under both keys. An earlier token of the same user
     * loses its user-name entry but keeps its own token entry.
     */
    method AddAuthToken(username: string, authToken: string)
      requires Valid()
      modifies this
      ensures Valid()
      ensures authsByUsername == old(authsByUsername)[username := AuthData(username, authToken)]
      ensures authsByToken == old(authsByToken)[authToken := AuthData(username, authToken)]
    {
      authsByUsername := authsByUsername[username := AuthData(username, authToken)];
      authsByToken := authsByToken[authToken := AuthData(username, authToken)];
    }

    /** A token with no entry gives None (null). */
    function GetAuthInfoByToken(authToken: string): (a: Option<AuthData>)
      reads this
      requires Valid()
      ensures a.Some? <==> authToken in authsByToken
      ensures a.Some? ==> a.value == authsByToken[authToken] && a.value.authToken == authToken
    {
      if authToken in authsByToken then Some(authsByToken[authToken]) else None
    }

    /** Drops the record's user name from the one map and its token from the other, whatever they map to. */
    method RemoveAuthorization(authData: AuthData)
      requires Valid()
      modifies this
      ensures Valid()
      ensures authsByUsername == old(authsByUsername) - {authData.username}
      ensures authsByToken == old(authsByToken) - {authData.authToken}
    {
      authsByUsername := authsByUsername - {authData.username};
      authsByToken := authsByToken - {authData.authToken};
    }

    method ClearAuths()
      modifies this
      ensures Valid() && authsByUsername == map[] && authsByToken == map[]
    {
      authsByUsername := map[];
      authsByToken := map[];
    }

    /** getAllAuths: the values of the user-name map, one per user name that holds a token. */
    function GetAllAuths(): (auths: set<AuthData>)
      reads this
      requires Valid()
      ensures |auths| == |authsByUsername|
      ensures forall a :: a in auths <==> a.username in authsByUsername && authsByUsername[a.username] == a
    {
      AuthValuesCount(authsByUsername);
      AuthValues(authsByUsername)
    }
  }
}
