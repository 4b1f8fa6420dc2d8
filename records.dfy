// The plain records the server passes between its layers, and the exceptions its services throw.
// A Java reference that the code tests against null, or that a caller may leave null, is an Option.

module Records {
  import opened Wrappers

  /** model.UserData: any of the three fields may be null in a request. */
  datatype UserData = UserData(username: Option<string>, password: Option<string>, email: Option<string>)

  /** model.AuthData: a session token issued to a user name. */
  datatype AuthData = AuthData(username: string, authToken: string)

  /** model.JoinGameData: the colour a player asks for and the game it names. */
  datatype JoinGameData = JoinGameData(playerColor: Option<string>, gameID: Option<int>)

  /** The exceptions the services let escape: ServiceException(statusCode, message), or a null dereference. */
  datatype Error = ServiceException(statusCode: int, message: string) | NullPointerException

  const BadRequest := ServiceException(400, "Error: bad request")
  const AlreadyTaken := ServiceException(403, "Error: already taken")
  const NoSuchUser := ServiceException(401, "Error: unauthorized, no matching user registered")
  const WrongPassword := ServiceException(401, "Error: unauthorized, wrong password")
  const Unauthorized := ServiceException(401, "Error: unauthorized")
  const NoGameName := ServiceException(500, "Error: game name is null or empty, must give a game name")
}
