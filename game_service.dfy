// service.GameService: game creation, clearing every store, and the guards in front of listing and
// joining games. The store calls behind those guards (getAllGames, addUserToGame) are not defined
// by GameDAO, so the model stops where they would be called.

module GameServices {
  import opened Wrappers
  import opened ChessTypes
  import opened ChessBoardModel
  import opened ChessGameModel
  import opened Records
  import opened UserServices
  import opened GameStore

  /** The name check of createGame: a null or empty name is refused. */
  predicate MissingName(gameName: Option<string>) {
    gameName.None? || gameName.value == ""
  }

  /** The colour check of joinGame, written as Objects.equals against both names. */
  predicate KnownColor(playerColor: Option<string>) {
    playerColor == Some("WHITE") || playerColor == Some("BLACK")
  }

  class GameService {
    const gameDataAccess: GameDAO
    const userService: UserService

    ghost predicate Valid()
      reads this, gameDataAccess, userService, userService.userDataAccess, userService.authDataAccess
    {
      gameDataAccess.Valid() && userService.Valid()
    }

    constructor (userService: UserService)
      requires userService.Valid()
      ensures Valid() && this.userService == userService
      ensures fresh(gameDataAccess) && gameDataAccess.games == map[]
    {
      gameDataAccess := new GameDAO();
      this.userService := userService;
    }

    /**
     * createGame: the name is checked before the token, so a bad name fails with 500 whatever the
     * token; a good name with an unknown token fails with 401; otherwise the new game is stored.
     * Only the request's name is read, so the request is given as that name.
     */
    method CreateGame(gameName: Option<string>, authToken: string) returns (r: Result<GameData, Error>)
      requires Valid()
      modifies gameDataAccess
      ensures Valid()
      ensures MissingName(gameName) ==> r == Failure(NoGameName) && gameDataAccess.games == old(gameDataAccess.games)
      ensures !MissingName(gameName) && authToken !in userService.authDataAccess.authsByToken ==>
        r == Failure(Unauthorized) && gameDataAccess.games == old(gameDataAccess.games)
      ensures !MissingName(gameName) && authToken in userService.authDataAccess.authsByToken ==>
        r.Success? && r.value.gameID == FirstGameId + |old(gameDataAccess.games)| &&
        r.value.gameName == gameName && r.value.whiteUsername.None? && r.value.blackUsername.None? &&
        fresh(r.value.game) && fresh(r.value.game.currentBoard) && fresh(r.value.game.currentBoard.cells) &&
        r.value.game.Valid() &&
        r.value.game.currentBoard.grid == EmptyGrid() && r.value.game.teamTurn == White &&
        gameDataAccess.games == old(gameDataAccess.games)[r.value.gameID := r.value]
    {
      if gameName.None? || gameName.value == "" {
        return Failure(NoGameName);
      }
      var auth := userService.AuthorizeUser(authToken);
      if auth.Fail? {
        return Failure(auth.error);
      }
      var created := gameDataAccess.CreateNewGame(gameName);
      return Success(created);
    }

    /**
     * clearDatabase empties users, authorisations and games. Nothing in the in-memory stores
     * can throw, so the 500 "error thrown in clear database" path is never taken.
     */
    method ClearDatabase()
      requires Valid()
      modifies gameDataAccess, userService.userDataAccess, userService.authDataAccess
      ensures Valid()
      ensures userService.State() == Stores(map[], map[], map[]) && gameDataAccess.games == map[]
    {
      userService.ClearUsersAndAuths();
      gameDataAccess.ClearGames();
    }

    /** getAllGames: only the 401 guard; Pass means the request reaches the store's listing. */
    method GetAllGames(authToken: string) returns (r: Outcome<Error>)
      requires Valid()
      ensures r.Fail? <==> authToken !in userService.authDataAccess.authsByToken
      ensures r.Fail? ==> r.error == Unauthorized
    {
      r := userService.AuthorizeUser(authToken);
    }

    /**
     * joinGame up to the store call: 401 for an unknown token first, then 400 for a colour other
     * than "WHITE" and "BLACK". Past both guards the token's user is looked up (it always exists,
     * as every live token belongs to a stored user), and its name is what addUserToGame receives.
     */
    method JoinGame(authToken: string, gameData: JoinGameData) returns (r: Result<string, Error>)
      requires Valid()
      ensures authToken !in userService.authDataAccess.authsByToken ==> r == Failure(Unauthorized)
      ensures authToken in userService.authDataAccess.authsByToken && !KnownColor(gameData.playerColor) ==>
        r == Failure(BadRequest)
      ensures authToken in userService.authDataAccess.authsByToken && KnownColor(gameData.playerColor) ==>
        r == Success(userService.authDataAccess.authsByToken[authToken].username)
    {
      var auth := userService.AuthorizeUser(authToken);
      if auth.Fail? {
        return Failure(auth.error);
      }
      if gameData.playerColor != Some("WHITE") && gameData.playerColor != Some("BLACK") {
        return Failure(BadRequest);
      }
      var user := userService.GetUserOnAuthToken(authToken);
      return Success(user.value.value.username.value);
    }
  }
}
