// server.websocket.ConnectionManager: the registry of live WebSocket connections, keyed by
// authorisation token. A Jetty session is modelled by what the registry uses of it: whether it is
// open, and the texts sent on it so far. Messages arrive already encoded as JSON text.

module Registry {
  import opened Wrappers

  /** A session: open or closed, and everything sent on it, oldest first. */
  datatype Session = Session(open: bool, outbox: seq<string>)

  /** server.websocket.Connection: the game it watches, its token and its session. */
  datatype Connection = Connection(gameId: int, authToken: string, session: Session)

  /** Connection.send: the text goes out on the connection's session. */
  function Send(c: Connection, msg: string): (d: Connection)
    ensures d.session.outbox == c.session.outbox + [msg]
    ensures d.gameId == c.gameId && d.authToken == c.authToken && d.session.open == c.session.open
  {
    c.(session := c.session.(outbox := c.session.outbox + [msg]))
  }

  /** Who broadcast writes to: an open connection on the game whose token is not the excluded one. */
  predicate Recipient(c: Connection, gameId: int, exclude: Option<string>) {
    c.session.open && c.gameId == gameId && exclude != Some(c.authToken)
  }

  function Notified(c: Connection, gameId: int, msg: string, exclude: Option<string>): Connection {
    if Recipient(c, gameId, exclude) then Send(c, msg) else c
  }

  /** The table after broadcast: recipients have the text appended, closed connections are gone. */
  function Broadcasted(conns: map<string, Connection>, gameId: int, msg: string, exclude: Option<string>)
    : map<string, Connection>
  {
    map k | k in conns && conns[k].session.open :: Notified(conns[k], gameId, msg, exclude)
  }

  /** The tokens of a list of connections. */
  function Tokens(cs: seq<Connection>): set<string> {
    set i | 0 <= i < |cs| :: cs[i].authToken
  }

  lemma TokensAppend(cs: seq<Connection>, c: Connection)
    ensures Tokens(cs + [c]) == Tokens(cs) + {c.authToken}
  {
    assert forall i :: 0 <= i < |cs| ==> (cs + [c])[i] == cs[i];
    assert (cs + [c])[|cs|] == c;
  }

  /** The two passes of broadcast together: notify in place, then drop exactly the closed entries. */
  lemma BroadcastAssembled(start: map<string, Connection>, scanned: map<string, Connection>, closed: set<string>,
                           result: map<string, Connection>, gameId: int, msg: string, exclude: Option<string>)
    requires scanned.Keys == start.Keys
    requires forall k :: k in start ==> scanned[k] == Notified(start[k], gameId, msg, exclude)
    requires forall k :: k in closed <==> k in start && !start[k].session.open
    requires forall k :: k in result <==> k in scanned && k !in closed
    requires forall k :: k in result ==> result[k] == scanned[k]
    ensures result == Broadcasted(start, gameId, msg, exclude)
  {
    var expected := Broadcasted(start, gameId, msg, exclude);
    assert result.Keys == expected.Keys;
    forall k | k in result ensures result[k] == expected[k] {
    }
  }

  /**
   * What broadcast does to one entry: a recipient receives the text exactly once; an open
   * connection of another game, or the excluded one, is left as it was; a closed one is dropped.
   */
  lemma BroadcastEntry(conns: map<string, Connection>, gameId: int, msg: string, exclude: Option<string>, k: string)
    requires k in conns
    ensures var after := Broadcasted(conns, gameId, msg, exclude);
            (k in after <==> conns[k].session.open) &&
            (Recipient(conns[k], gameId, exclude) ==>
              after[k].session.outbox == conns[k].session.outbox + [msg] &&
              after[k].gameId == gameId && after[k].authToken == conns[k].authToken) &&
            (conns[k].session.open && !Recipient(conns[k], gameId, exclude) ==> after[k] == conns[k])
  {
  }

  /** Broadcast never adds a connection, so it adds no token. */
  lemma BroadcastOnlyShrinks(conns: map<string, Connection>, gameId: int, msg: string, exclude: Option<string>)
    ensures Broadcasted(conns, gameId, msg, exclude).Keys <= conns.Keys
  {
  }

  /** With a null excluded token, every open connection on the game receives the text. */
  lemma NullExclusionReachesAll(conns: map<string, Connection>, gameId: int, msg: string, k: string)
    requires k in conns && conns[k].session.open && conns[k].gameId == gameId
    ensures k in Broadcasted(conns, gameId, msg, None)
    ensures Broadcasted(conns, gameId, msg, None)[k].session.outbox == conns[k].session.outbox + [msg]
  {
  }

  class ConnectionManager {
    var connections: map<string, Connection>

    /** Every connection is filed under its own token. */
    ghost predicate Valid()
      reads this
    {
      forall k :: k in connections ==> connections[k].authToken == k
    }

    constructor ()
      ensures Valid() && connections == map[]
    {
      connections := map[];
    }

    /** add: files a new connection under its token, replacing any earlier one with that token. */
    method Add(gameId: int, authToken: string, session: Session)
      requires Valid()
      modifies this
      ensures Valid()
      ensures connections == old(connections)[authToken := Connection(gameId, authToken, session)]
    {
      var connection := Connection(gameId, authToken, session);
      connections := connections[authToken := connection];
    }

    method Remove(authToken: string)
      requires Valid()
      modifies this
      ensures Valid() && connections == old(connections) - {authToken}
    {
      connections := connections - {authToken};
    }

    /** The body shared by sendGame and sendErrorMessage: one text to the token's connection, if any. */
    method SendTo(json: string, authToken: string)
      requires Valid()
      modifies this
      ensures Valid() && connections.Keys == old(connections).Keys
      ensures authToken in old(connections) ==> connections == old(connections)[authToken := Send(old(connections)[authToken], json)]
      ensures authToken !in old(connections) ==> connections == old(connections)
    {
      if authToken in connections {
        var connection := connections[authToken];
        connections := connections[authToken := Send(connection, json)];
      }
    }

    /** sendGame, with the LoadGameMessage already encoded as JSON text. */
    method SendGame(message: string, authToken: string)
      requires Valid()
      modifies this
      ensures Valid() && connections.Keys == old(connections).Keys
      ensures authToken in old(connections) ==> connections == old(connections)[authToken := Send(old(connections)[authToken], message)]
      ensures authToken !in old(connections) ==> connections == old(connections)
    {
      SendTo(message, authToken);
    }

    /** sendErrorMessage, with the ErrorMessage already encoded as JSON text. */
    method SendErrorMessage(message: string, authToken: string)
      requires Valid()
      modifies this
      ensures Valid() && connections.Keys == old(connections).Keys
      ensures authToken in old(connections) ==> connections == old(connections)[authToken := Send(old(connections)[authToken], message)]
      ensures authToken !in old(connections) ==> connections == old(connections)
    {
      SendTo(message, authToken);
    }

    /**
     * The first pass of broadcast: visits every connection once, in no fixed order, writes to the
     * recipients and collects the closed connections into removeList.
     */
    method NotifyPass(gameId: int, notification: string, authToken: Option<string>) returns (removeList: seq<Connection>)
      requires Valid()
      modifies this
      ensures Valid() && connections.Keys == old(connections).Keys
      ensures forall k :: k in old(connections) ==>
        connections[k] == Notified(old(connections)[k], gameId, notification, authToken)
      ensures forall k :: k in Tokens(removeList) <==> k in old(connections) && !old(connections)[k].session.open
    {
      ghost var start := connections;
      removeList := [];
      var pending := connections.Keys;
      while pending != {}
        invariant pending <= start.Keys && connections.Keys == start.Keys
        invariant forall k :: k in pending ==> connections[k] == start[k]
        invariant forall k :: k in start && k !in pending ==> connections[k] == Notified(start[k], gameId, notification, authToken)
        invariant forall k :: k in Tokens(removeList) <==> k in start && k !in pending && !start[k].session.open
        decreases pending
      {
        var token :| token in pending;
        var c := connections[token];
        if c.session.open {
          if c.gameId == gameId && authToken != Some(c.authToken) {
            connections := connections[token := Send(c, notification)];
          }
        } else {
          TokensAppend(removeList, c);
          removeList := removeList + [c];
        }
        pending := pending - {token};
      }
    }

    /** The second pass of broadcast: removes the entry of every collected connection's token. */
    method RemovePass(removeList: seq<Connection>)
      requires Valid()
      modifies this
      ensures Valid()
      ensures forall k :: k in connections <==> k in old(connections) && k !in Tokens(removeList)
      ensures forall k :: k in connections ==> connections[k] == old(connections)[k]
    {
      for i := 0 to |removeList|
        invariant Valid()
        invariant forall k :: k in connections <==> k in old(connections) && k !in Tokens(removeList[..i])
        invariant forall k :: k in connections ==> connections[k] == old(connections)[k]
      {
        TokensAppend(removeList[..i], removeList[i]);
        assert removeList[..i + 1] == removeList[..i] + [removeList[i]];
        connections := connections - {removeList[i].authToken};
      }
      assert removeList[..|removeList|] == removeList;
    }

    /**
     * broadcast: writes the text to every open connection on the game except the excluded token,
     * and drops every connection found closed, whatever its game.
     */
    method Broadcast(gameId: int, notification: string, authToken: Option<string>)
      requires Valid()
      modifies this
      ensures Valid()
      ensures connections == Broadcasted(old(connections), gameId, notification, authToken)
    {
      ghost var start := connections;
      var removeList := NotifyPass(gameId, notification, authToken);
      ghost var scanned := connections;
      RemovePass(removeList);
      BroadcastAssembled(start, scanned, Tokens(removeList), connections, gameId, notification, authToken);
    }
  }
}
