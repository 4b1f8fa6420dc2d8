// dataaccess.old.UserDAO: the earlier user store, the same map as UserDAO without removeUser.

module OldUserStore {
  import opened Wrappers
  import opened Records
  import UserStore

  class UserDAO {
    var users: map<Option<string>, UserData>

    ghost predicate Valid()
      reads this
    {
      UserStore.FiledByName(users)
    }

    constructor ()
      ensures Valid() && users == map[]
    {
      users := map[];
    }

    /** A name with no entry gives None (null). */
    function GetUser(username: Option<string>): (u: Option<UserData>)
      reads this
      requires Valid()
      ensures u.Some? <==> username in users
      ensures u.Some? ==> u.value == users[username] && u.value.username == username
    {
      if username in users then Some(users[username]) else None
    }

    /** listUsers: exactly the stored records, one per stored user name. */
    function ListUsers(): (all: set<UserData>)
      reads this
      requires Valid()
      ensures |all| == |users|
      ensures forall u :: u in all <==> u.username in users && users[u.username] == u
    {
      UserStore.UserValuesCount(users);
      UserStore.UserValues(users)
    }

    /** Adds the record, or overwrites the one already filed under the same user name. */
    method AddUser(user: UserData)
      requires Valid()
      modifies this
      ensures Valid() && users == old(users)[user.username := user]
    {
      users := users[user.username := user];
    }

    method ClearUsers()
      modifies this
      ensures Valid() && users == map[]
    {
      users := map[];
    }
  }
}
