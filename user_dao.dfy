// dataaccess.UserDAO: the in-memory user store, a hash map from user name to the record filed under
// it. A HashMap accepts a null key, so the key is the record's (optional) user name.

module UserStore {
  import opened Wrappers
  import opened Records

  function UserValues(m: map<Option<string>, UserData>): set<UserData> {
    set k | k in m :: m[k]
  }

  predicate FiledByName(m: map<Option<string>, UserData>) {
    forall k :: k in m ==> m[k].username == k
  }

  /** Records filed under their own user name are pairwise distinct, so there is one value per key. */
  lemma {:induction false} UserValuesCount(m: map<Option<string>, UserData>)
    requires FiledByName(m)
    ensures |UserValues(m)| == |m|
    decreases |m|
  {
    if |m| > 0 {
      var k :| k in m;
      var rest := m - {k};
      assert |rest| == |m| - 1;
      UserValuesCount(rest);
      assert m[k] !in UserValues(rest);
      forall x | x in UserValues(m) ensures x in UserValues(rest) + {m[k]} {
        var w :| w in m && m[w] == x;
        if w != k { assert w in rest; }
      }
      forall x | x in UserValues(rest) ensures x in UserValues(m) {
        var w :| w in rest && rest[w] == x;
        assert w in m;
      }
      assert UserValues(m) == UserValues(rest) + {m[k]};
    } else {
      assert UserValues(m) == {};
    }
  }

  class UserDAO {
    var users: map<Option<string>, UserData>

    ghost predicate Valid()
      reads this
    {
      FiledByName(users)
    }

    constructor ()
      ensures Valid() && users == map[]
    {
      users := map[];
    }

    /** A name with no entry gives None (null). */
    function GetUser(username: Option<string>): (u: Option<UserData>)
      reads this
      requires Valid()
      ensures u.Some? <==> username in users
      ensures u.Some? ==> u.value == users[username] && u.value.username == username
    {
      if username in users then Some(users[username]) else None
    }

    /** listUsers: the stored records, one per stored user name. */
    function ListUsers(): (all: set<UserData>)
      reads this
      requires Valid()
      ensures |all| == |users|
      ensures forall u :: u in all <==> u.username in users && users[u.username] == u
    {
      UserValuesCount(users);
      UserValues(users)
    }

    /** Adds the record, or replaces the one already filed under the same user name. */
    method AddUser(user: UserData)
      requires Valid()
      modifies this
      ensures Valid() && users == old(users)[user.username := user]
    {
      users := users[user.username := user];
    }

    method RemoveUser(username: Option<string>)
      requires Valid()
      modifies this
      ensures Valid() && users == old(users) - {username}
    {
      users := users - {username};
    }

    method ClearUsers()
      modifies this
      ensures Valid() && users == map[]
    {
      users := map[];
    }
  }
}
