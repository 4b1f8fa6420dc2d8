// dataaccess.GameDAO: the in-memory game store. A new game's id is 1001 plus the number of games
// already stored, so as long as only createNewGame and clearGames touch the map, the ids are
// exactly 1001, 1002, ... up to 1000 + the number of games.

module GameStore {
  import opened Wrappers
  import opened ChessTypes
  import opened ChessBoardModel
  import opened ChessGameModel

  const FirstGameId := 1001

  /** model.GameData: the id, the two seated players (null while free), the name and the game. */
  datatype GameData = GameData(gameID: int, whiteUsername: Option<string>, blackUsername: Option<string>,
                               gameName: Option<string>, game: ChessGame)

  /** The ids of a store holding n games. */
  ghost predicate IdsDense(games: map<int, GameData>) {
    forall id :: id in games <==> FirstGameId <= id < FirstGameId + |games|
  }

  class GameDAO {
    var games: map<int, GameData>

    ghost predicate Valid()
      reads this
    {
      IdsDense(games) && forall id :: id in games ==> games[id].gameID == id
    }

    constructor ()
      ensures Valid() && games == map[]
    {
      games := map[];
    }

    /**
     * Stores GameData(1001 + size, null, null, gameName, new ChessGame()) and returns that entry.
     * The id is new to the store, so earlier games are untouched.
     */
    method CreateNewGame(gameName: Option<string>) returns (created: GameData)
      requires Valid()
      modifies this
      ensures Valid() && |games| == |old(games)| + 1
      ensures created.gameID == FirstGameId + |old(games)| && created.gameID !in old(games)
      ensures created.whiteUsername == None && created.blackUsername == None && created.gameName == gameName
      ensures fresh(created.game) && fresh(created.game.currentBoard) && fresh(created.game.currentBoard.cells)
      ensures created.game.Valid()
      ensures created.game.currentBoard.grid == EmptyGrid() && created.game.teamTurn == White
      ensures games == old(games)[created.gameID := created]
    {
      var gameId := FirstGameId + |games|;
      var game := new ChessGame();
      games := games[gameId := GameData(gameId, None, None, gameName, game)];
      created := games[gameId];
    }

    /** A missing id gives None (null). */
    function GetGame(gameId: int): (g: Option<GameData>)
      reads this
      requires Valid()
      ensures g.Some? <==> FirstGameId <= gameId < FirstGameId + |games|
      ensures g.Some? ==> g.value == games[gameId] && g.value.gameID == gameId
    {
      if gameId in games then Some(games[gameId]) else None
    }

    /** After clearGames the next game is numbered 1001 again. */
    method ClearGames()
      modifies this
      ensures Valid() && games == map[]
    {
      games := map[];
    }
  }
}
