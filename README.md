# Chess server core in Dafny

This project models the core of a client/server chess application written in Java. It has two halves.

- **The rules engine** (`shared/.../chess`): the board, move generation for each piece, and the game object that holds the board and the side to move.
- **The server side**: the registry of live WebSocket connections, the in-memory stores for users, authorisation tokens and games, and the user and game services built on them.

The model follows the Java code, not what the code was meant to do. Where the two differ, the code wins. The main differences:

- **9x9 board.** The board is a `9 x 9` array indexed 0..8. Generated moves always land inside the 0..8 array, and on rows and columns 1..8 whenever the start column is 1..8. The pawn double step does not check the column, so a pawn standing in column 0 can reach another column-0 square. Row and column 0 can also be written directly, and `getBoardPieces` reports them. The resign marker placed at `(0,0)` is written there.
- **A new board is empty.** A fresh `ChessGame` holds an empty board, because its constructor never calls `resetBoard`. `resetBoard` writes the 32 opening pieces and leaves every other square as it was.
- **No check test.** `isInCheck` always answers `false`, because its king search is commented out. `isInCheckmate` and `isInStalemate` always throw "Not implemented".
- **`validMoves` plays on the live board.** Its "simulated" board is the game's own board, so each pseudo-legal move is played on that board in order, and nothing is filtered. It returns `null` for an empty square.
- **`makeMove` plays the chosen move twice.** It calls `validMoves` first, then plays the chosen move again on the scanned board. So a successful move without promotion leaves both its start and its end square empty. The proofs are `PlainMoveVacatesEnd` and `OpeningDoubleStepLandsShort`. In that second lemma, e2-e4 from the standard opening leaves the pawn on e3.
- **A refused move still changes the board.** An "Invalid move!" failure comes after that scan, so it leaves the board changed too.

How the model is built:

- **Board.** `ChessBoard` is a class over an `array2`, with a ghost 9x9 `Grid` that its methods keep in step with the array.
- **Move generation.** Each Java helper that appends moves is a method. It is proved to append exactly the list given by a specification function (`Ray`, `Jumps`, `PawnMoves`, `PseudoMoves`). The properties of the generated moves are lemmas about those functions.
- **Game.** `ChessGame` is a class sharing the board object. `MakeMoveSpec` states what `makeMove` does to the board contents and the turn.
- **Stores and services.**
  - Each store is a class over `map` fields.
  - The user service operations are also given as functions on the contents of the stores (`Register`, `Login`, `Logout`). The methods are proved to agree with those functions, and the lemmas relate several calls.
  - A WebSocket session is modelled as an open flag plus the list of texts sent on it.

## Model

| member | source | states |
|---|---|---|
| ChessTypes.Opponent | shared/src/main/java/chess/ChessGame.java:101 | the turn flip always yields the other colour |
| ChessTypes.PutAt | shared/src/main/java/chess/ChessBoard.java:46-48 | writing one cell changes that cell and no other |
| ChessBoardModel.ApplyMove | shared/src/main/java/chess/ChessBoard.java:54-65 | after a board move: without promotion, the end holds the former start occupant; with one, a new piece of the `teamTurn` colour, whatever colour moved. The start is empty unless start and end coincide, and every other cell is unchanged |
| ChessBoardModel.ResetGrid | shared/src/main/java/chess/ChessBoard.java:116-156 | the 32 standard placements on rows 1, 2, 7 and 8 (columns 1..8); every other cell keeps its prior contents |
| ChessBoardModel.BoardPiecesMembers | shared/src/main/java/chess/ChessBoard.java:67-99 | a pair is listed exactly when its cell (indices 0..8) holds that piece, and, for the coloured overload, the piece has that colour |
| ChessBoardModel.BoardPiecesOrdered | shared/src/main/java/chess/ChessBoard.java:67-81 | the pairs come in strict row-major order, so each occupied cell is listed once |
| ChessBoardModel.BoardPiecesOfColor | shared/src/main/java/chess/ChessBoard.java:83-99 | the coloured overload returns exactly the pairs of the uncoloured one whose piece has that colour, in the same order |
| ChessBoardModel.ResignMarkerComesFirst | shared/src/main/java/chess/ChessBoard.java:67-81 | a piece stored at (0,0) is reported, and reported first |
| ChessBoardModel.ChessBoard.constructor | shared/src/main/java/chess/ChessBoard.java:14-17 | a new board is a 9x9 array with every cell null |
| ChessBoardModel.ChessBoard.GetPiece | shared/src/main/java/chess/ChessBoard.java:108-110 | reads the cell at the position's row and column |
| ChessBoardModel.ChessBoard.AddPiece | shared/src/main/java/chess/ChessBoard.java:46-48 | the new board is the old one with that one cell replaced |
| ChessBoardModel.ChessBoard.RemovePiece | shared/src/main/java/chess/ChessBoard.java:50-52 | the new board is the old one with that one cell null |
| ChessBoardModel.ChessBoard.MakeMove | shared/src/main/java/chess/ChessBoard.java:54-65 | the array now holds `ApplyMove` of its old contents |
| ChessBoardModel.ChessBoard.GetBoardPieces | shared/src/main/java/chess/ChessBoard.java:67-81 | the nested loops return the row-major list of every occupied cell |
| ChessBoardModel.ChessBoard.GetBoardPiecesOf | shared/src/main/java/chess/ChessBoard.java:83-99 | the nested loops return the row-major list of the cells holding that colour |
| ChessBoardModel.ChessBoard.ResetBoard | shared/src/main/java/chess/ChessBoard.java:116-156 | the array now holds `ResetGrid` of its old contents |
| ChessBoardModel.ChessBoard.Equals | shared/src/main/java/chess/ChessBoard.java:27-33 | true exactly when both boards hold equal pieces in every cell |
| ChessPieceModel.PieceMoves | shared/src/main/java/chess/ChessPiece.java:85-99 | returns `PseudoMoves` for the piece's kind, reading the board only |
| ChessPieceModel.AddBishopMoves | shared/src/main/java/chess/ChessPiece.java:109-114 | appends the four diagonal rays, in the order (-1,-1), (1,-1), (-1,1), (1,1) |
| ChessPieceModel.AddRookMoves | shared/src/main/java/chess/ChessPiece.java:124-129 | appends the four orthogonal rays, in the order (0,-1), (0,1), (-1,0), (1,0) |
| ChessPieceModel.AddQueenMoves | shared/src/main/java/chess/ChessPiece.java:140-143 | appends exactly the bishop moves followed by the rook moves |
| ChessPieceModel.AddKnightMoves | shared/src/main/java/chess/ChessPiece.java:152-173 | appends one move per knight offset whose square is on the board and not friendly, in table order |
| ChessPieceModel.AddKingMoves | shared/src/main/java/chess/ChessPiece.java:184-205 | appends one move per king offset whose square is on the board and not friendly, in table order |
| ChessPieceModel.AddOffsetMoves | shared/src/main/java/chess/ChessPiece.java:153-172 | the loop over an offset table appends `Jumps` of that table |
| ChessPieceModel.AddPawnMoves | shared/src/main/java/chess/ChessPiece.java:214-241 | appends push, double step and the two captures, in that order |
| ChessPieceModel.AddPromotions | shared/src/main/java/chess/ChessPiece.java:222-229 | a pawn move onto row 1 or 8 becomes four moves (QUEEN, BISHOP, KNIGHT, ROOK); any other becomes one move without promotion |
| ChessPieceModel.AddPawnCapture | shared/src/main/java/chess/ChessPiece.java:322-337 | appends the diagonal capture only onto an on-board enemy piece, with the promotion fan-out on rows 1 and 8 |
| ChessPieceModel.AddDiagonalMoves | shared/src/main/java/chess/ChessPiece.java:252-276 | the `while (true)` loop appends exactly the ray in one direction |
| ChessPieceModel.AddStraightMoves | shared/src/main/java/chess/ChessPiece.java:287-311 | the `while (true)` loop appends exactly the ray in one direction |
| ChessPieceModel.RayMoves | shared/src/main/java/chess/ChessPiece.java:252-276 | every ray move starts at the piece, ends on the board (rows and columns 1..8) on an empty or enemy square, and has no promotion |
| ChessPieceModel.RayShape | shared/src/main/java/chess/ChessPiece.java:287-311 | the i-th ray move ends i+1 steps away, and all but the last end on empty squares. The ray stops at the edge, before a friendly piece, or on the first enemy piece |
| ChessPieceModel.RayPathClear | shared/src/main/java/chess/ChessPiece.java:252-276 | every square strictly between the start and a ray move's end is empty |
| ChessPieceModel.JumpsExact | shared/src/main/java/chess/ChessPiece.java:152-173 | an offset table of n entries yields at most n moves. A move is yielded exactly when its end is the start plus a table offset, on the board and not friendly |
| ChessPieceModel.KnightMoves | shared/src/main/java/chess/ChessPiece.java:152-173 | at most 8 knight moves, each the start plus a knight offset, on the board and not friendly, and every such square is a move |
| ChessPieceModel.KingMoves | shared/src/main/java/chess/ChessPiece.java:184-205 | at most 8 king moves, each the start plus a king offset, on the board and not friendly, and every such square is a move |
| ChessPieceModel.PromotionsExact | shared/src/main/java/chess/ChessPiece.java:222-229 | the fan-out yields exactly the moves to that square whose promotion fits the row |
| ChessPieceModel.PawnMovesExact | shared/src/main/java/chess/ChessPiece.java:214-241 | a pawn move is exactly one of three kinds: a push onto an empty square; a double step off row 2 (WHITE) or 7 (BLACK) over two empty squares; or a diagonal step onto an enemy piece |
| ChessPieceModel.PawnPromotionFanOut | shared/src/main/java/chess/ChessPiece.java:322-337 | a pawn move onto row 1 or 8 carries a promotion, and all four promotion kinds are present |
| ChessPieceModel.BishopMovesFacts | shared/src/main/java/chess/ChessPiece.java:109-114 | bishop moves start at the piece and end on the board on a non-friendly square other than the start |
| ChessPieceModel.RookMovesFacts | shared/src/main/java/chess/ChessPiece.java:124-129 | rook moves start at the piece and end on the board on a non-friendly square other than the start |
| ChessPieceModel.PseudoMovesFacts | shared/src/main/java/chess/ChessPiece.java:85-99 | every generated move starts at the piece and ends inside the array on a non-friendly square other than the start. When the start column is 1..8, the end is in rows and columns 1..8 (double steps included). Only pawn moves onto rows 1 and 8 carry a promotion |
| ChessGameModel.MakeMoveSpec | shared/src/main/java/chess/ChessGame.java:88-102 | fails with "Its not this team's turn." exactly when the start square is empty or holds the other side's piece, and then changes nothing. Succeeds exactly when the piece belongs to the side to move and the move is one of its pseudo-legal moves; the turn then passes to the other colour, and the board is the scanned board with the move played again. Any other move fails with "Invalid move!", leaving the scanned board and the same turn |
| ChessGameModel.PseudoMovesInBounds | shared/src/main/java/chess/ChessGame.java:64-70 | every candidate `validMoves` plays is inside the array, so the catch block is never entered |
| ChessGameModel.ApplyMovesFrame | shared/src/main/java/chess/ChessGame.java:67-77 | playing the candidates leaves every square that none of them mentions unchanged |
| ChessGameModel.ScanEmptiesStart | shared/src/main/java/chess/ChessGame.java:67-77 | after the scan of `validMoves`, the piece's square is empty whenever it had a candidate |
| ChessGameModel.PlainMoveVacatesEnd | shared/src/main/java/chess/ChessGame.java:88-102 | a successful move without promotion leaves both its start and its end square empty |
| ChessGameModel.PromotionPlacesNewPiece | shared/src/main/java/chess/ChessGame.java:88-102 | a successful promoting move puts a new piece of the mover's colour on the end square and empties the start |
| ChessGameModel.MakeMoveFrame | shared/src/main/java/chess/ChessGame.java:88-102 | `makeMove`, successful or not, leaves alone every square that is neither the move's start, nor its end, nor touched by a candidate |
| ChessGameModel.OpeningDoubleStepLandsShort | shared/src/main/java/chess/ChessGame.java:57-102 | on the opening layout, e2-e4 succeeds and passes the turn to BLACK, but leaves a WHITE pawn on e3 and e2 and e4 empty |
| ChessGameModel.ChessGame.constructor | shared/src/main/java/chess/ChessGame.java:16-19 | a new game has a fresh, empty board and WHITE to move |
| ChessGameModel.ChessGame.GetTeamTurn | shared/src/main/java/chess/ChessGame.java:29-31 | the side to move |
| ChessGameModel.ChessGame.SetTeamTurn | shared/src/main/java/chess/ChessGame.java:38-40 | sets the side to move, board untouched |
| ChessGameModel.ChessGame.GetBoard | shared/src/main/java/chess/ChessGame.java:162-164 | the board object itself, not a copy |
| ChessGameModel.ChessGame.SetBoard | shared/src/main/java/chess/ChessGame.java:153-155 | the game now shares the given board object; the turn is unchanged |
| ChessGameModel.ChessGame.IsInCheck | shared/src/main/java/chess/ChessGame.java:110-125 | false for every colour and board |
| ChessGameModel.ChessGame.IsInCheckmate | shared/src/main/java/chess/ChessGame.java:133-135 | never answers; always fails with "Not implemented" |
| ChessGameModel.ChessGame.IsInStalemate | shared/src/main/java/chess/ChessGame.java:144-146 | never answers; always fails with "Not implemented" |
| ChessGameModel.ChessGame.ValidMoves | shared/src/main/java/chess/ChessGame.java:57-80 | null (None) for an empty square, with the board unchanged. Otherwise every pseudo-legal move, unfiltered, and the live board has had each of them played on it in order |
| ChessGameModel.ChessGame.MakeMove | shared/src/main/java/chess/ChessGame.java:88-102 | outcome, new board contents and new turn are exactly `MakeMoveSpec` of the old ones |
| Registry.Send | server/src/main/java/server/websocket/Connection.java:18-20 | sending appends the text to that session's outbox and changes nothing else of the connection |
| Registry.BroadcastEntry | server/src/main/java/server/websocket/ConnectionManager.java:46-59 | each open connection on the game, other than the excluded token, gets the text exactly once. Other open connections are left as they were, and closed ones are removed |
| Registry.BroadcastOnlyShrinks | server/src/main/java/server/websocket/ConnectionManager.java:42-60 | broadcast adds no connection |
| Registry.NullExclusionReachesAll | server/src/main/java/server/websocket/ConnectionManager.java:48 | with a null excluded token every open connection on the game receives the text |
| Registry.ConnectionManager.constructor | server/src/main/java/server/websocket/ConnectionManager.java:13 | the connection table starts empty |
| Registry.ConnectionManager.Add | server/src/main/java/server/websocket/ConnectionManager.java:15-18 | files Connection(gameId, token, session) under the token, replacing any earlier entry for that token |
| Registry.ConnectionManager.Remove | server/src/main/java/server/websocket/ConnectionManager.java:20-22 | deletes only that token's entry |
| Registry.ConnectionManager.SendTo | server/src/main/java/server/websocket/ConnectionManager.java:24-40 | one text to the token's connection when it exists, nothing otherwise; the set of tokens is unchanged |
| Registry.ConnectionManager.SendGame | server/src/main/java/server/websocket/ConnectionManager.java:24-31 | one text to the token's connection when it exists, nothing otherwise; the set of tokens is unchanged |
| Registry.ConnectionManager.SendErrorMessage | server/src/main/java/server/websocket/ConnectionManager.java:33-40 | one text to the token's connection when it exists, nothing otherwise; the set of tokens is unchanged |
| Registry.ConnectionManager.NotifyPass | server/src/main/java/server/websocket/ConnectionManager.java:46-55 | the loop over all connections writes to every recipient and collects exactly the closed connections |
| Registry.ConnectionManager.RemovePass | server/src/main/java/server/websocket/ConnectionManager.java:57-59 | the removal loop deletes exactly the collected tokens |
| Registry.ConnectionManager.Broadcast | server/src/main/java/server/websocket/ConnectionManager.java:42-60 | the table becomes `Broadcasted` of the old one |
| AuthStore.AuthValuesCount | server/src/main/java/dataaccess/AuthDAO.java:41-43 | the values of the by-username map are as many as its user names |
| AuthStore.AuthDAO.constructor | server/src/main/java/dataaccess/AuthDAO.java:9-10 | both maps start empty |
| AuthStore.AuthDAO.GetAuthInfoByUsername | server/src/main/java/dataaccess/AuthDAO.java:13-15 | the record filed under the name, or null when there is none |
| AuthStore.AuthDAO.AddAuthToken | server/src/main/java/dataaccess/AuthDAO.java:18-21 | (u, t) is filed under u in one map and under t in the other. An earlier token of u keeps its own token entry |
| AuthStore.AuthDAO.GetAuthInfoByToken | server/src/main/java/dataaccess/AuthDAO.java:24-26 | the record filed under the token, or null when there is none |
| AuthStore.AuthDAO.RemoveAuthorization | server/src/main/java/dataaccess/AuthDAO.java:29-32 | removes the record's user name from one map and its token from the other, nothing else |
| AuthStore.AuthDAO.ClearAuths | server/src/main/java/dataaccess/AuthDAO.java:35-38 | both maps empty |
| AuthStore.AuthDAO.GetAllAuths | server/src/main/java/dataaccess/AuthDAO.java:41-43 | the by-username map's values: one per user name holding a token |
| UserStore.UserValuesCount | server/src/main/java/dataaccess/UserDAO.java:16-18 | the stored users are as many as the stored user names |
| UserStore.UserDAO.constructor | server/src/main/java/dataaccess/UserDAO.java:8 | the store starts empty |
| UserStore.UserDAO.GetUser | server/src/main/java/dataaccess/UserDAO.java:11-13 | the user filed under the name, or null when absent |
| UserStore.UserDAO.ListUsers | server/src/main/java/dataaccess/UserDAO.java:16-18 | exactly the stored users, one per stored user name |
| UserStore.UserDAO.AddUser | server/src/main/java/dataaccess/UserDAO.java:21-23 | files the user under its name, replacing an earlier one of that name |
| UserStore.UserDAO.RemoveUser | server/src/main/java/dataaccess/UserDAO.java:26-28 | deletes only that name |
| UserStore.UserDAO.ClearUsers | server/src/main/java/dataaccess/UserDAO.java:31-33 | the store is empty, so `listUsers` is empty |
| OldUserStore.UserDAO.constructor | server/src/main/java/dataaccess/old/UserDAO.java:9 | the store starts empty |
| OldUserStore.UserDAO.GetUser | server/src/main/java/dataaccess/old/UserDAO.java:12-14 | the user filed under the name, or null when absent |
| OldUserStore.UserDAO.ListUsers | server/src/main/java/dataaccess/old/UserDAO.java:17-19 | exactly the stored users, one per stored user name |
| OldUserStore.UserDAO.AddUser | server/src/main/java/dataaccess/old/UserDAO.java:22-24 | files the user under its name, overwriting an earlier one |
| OldUserStore.UserDAO.ClearUsers | server/src/main/java/dataaccess/old/UserDAO.java:27-29 | the store is empty |
| GameStore.GameDAO.constructor | server/src/main/java/dataaccess/GameDAO.java:8 | the game store starts empty |
| GameStore.GameDAO.CreateNewGame | server/src/main/java/dataaccess/GameDAO.java:10-14 | stores and returns GameData(1001 + size, null, null, name, a fresh game, with its own fresh board array, empty and WHITE to move). The id is new and earlier games are unchanged; the ids remain exactly 1001 .. 1000 + size |
| GameStore.GameDAO.GetGame | server/src/main/java/dataaccess/GameDAO.java:16-18 | the game with that id, present exactly for ids 1001 .. 1000 + size, null otherwise |
| GameStore.GameDAO.ClearGames | server/src/main/java/dataaccess/GameDAO.java:20-22 | the store is empty, so the next game is 1001 again |
| UserServices.Register | server/src/main/java/service/UserService.java:21-34 | 400 exactly when a field is null, 403 exactly when the name is taken, and a failure changes nothing. Every other request succeeds: it stores the user, files the new (name, token) record under both keys while keeping every other user and authorisation, and returns that record |
| UserServices.Login | server/src/main/java/service/UserService.java:36-47 | 401 "no matching user" exactly for an unknown name, 401 "wrong password" exactly on a password mismatch, and a failure adds no token. A known name with the matching password succeeds and files a new (name, token) record under both keys |
| UserServices.Logout | server/src/main/java/service/UserService.java:49-52 | 401 exactly for an unknown token, with nothing changed. Otherwise the token is gone, and so is its record's user name entry |
| UserServices.RegisterKeepsCoherent | server/src/main/java/service/UserService.java:21-34 | registration keeps every token pointing at a stored user |
| UserServices.LoginKeepsCoherent | server/src/main/java/service/UserService.java:36-47 | login keeps every token pointing at a stored user |
| UserServices.LogoutKeepsCoherent | server/src/main/java/service/UserService.java:49-52 | logout keeps every token pointing at a stored user |
| UserServices.RegisterThenLogoutLeavesNoAuths | server/src/main/java/service/UserService.java:21-52 | register then logout with the returned token leaves no authorisations |
| UserServices.RegisterThenLogin | server/src/main/java/service/UserService.java:21-47 | after registering, logging in with the same name and password succeeds |
| UserServices.LogoutOfStaleTokenDropsNewerEntry | server/src/main/java/service/UserService.java:36-52 | after two logins, logging out with the first token removes the user's name entry, although it held the second token, and the second token keeps working |
| UserServices.UserService.constructor | server/src/main/java/service/UserService.java:16-19 | fresh, empty user and authorisation stores |
| UserServices.UserService.RegisterUser | server/src/main/java/service/UserService.java:21-34 | agrees with `Register`; a new token has 20 characters from CHARACTERS |
| UserServices.UserService.LoginUser | server/src/main/java/service/UserService.java:36-47 | agrees with `Login`, and the users are unchanged; a new token has 20 characters from CHARACTERS |
| UserServices.UserService.LogoutUser | server/src/main/java/service/UserService.java:49-52 | agrees with `Logout` |
| UserServices.UserService.AuthorizeUser | server/src/main/java/service/UserService.java:54-59 | fails with 401 "Error: unauthorized" exactly when the token is unknown |
| UserServices.UserService.ClearUsersAndAuths | server/src/main/java/service/UserService.java:61-64 | users and both token maps empty |
| UserServices.UserService.GenerateAuthToken | server/src/main/java/service/UserService.java:66-76 | 20 characters, each drawn from CHARACTERS |
| UserServices.UserService.GetUserOnAuthToken | server/src/main/java/service/UserService.java:78-81 | a null dereference for an unknown token; otherwise the token's user, which is always stored |
| GameServices.GameService.constructor | server/src/main/java/service/GameService.java:15-18 | a fresh, empty game store beside the given user service |
| GameServices.GameService.CreateGame | server/src/main/java/service/GameService.java:20-26 | 500 for a null or empty name, whatever the token. Then 401 for an unknown token, with no game stored. Otherwise the next game (id 1001 + size, no players, a fresh empty board, WHITE to move) is stored and returned |
| GameServices.GameService.ClearDatabase | server/src/main/java/service/GameService.java:28-35 | users, authorisations and games all empty |
| GameServices.GameService.GetAllGames | server/src/main/java/service/GameService.java:37-40 | fails with 401 exactly when the token is unknown |
| GameServices.GameService.JoinGame | server/src/main/java/service/GameService.java:42-49 | 401 for an unknown token is checked first, then 400 for a colour other than "WHITE" or "BLACK". Past both, the token's user name is what the store call receives |

## Left out

- WebSocketHandler, the SQL-backed stores (MySQLGameDAO, MySQL_AuthDAO, MySQL_UserDAO, MySQL_GameDAO), Server, Main, the client (Client, Repl, WebSocketFacade, NotificationHandler) and ServerFacade are not part of this model. They are network, database and terminal I/O around the core.
- The message classes (ServerMessage, LoadGameMessage, MakeMoveCommand) and Gson encoding are not modelled. `sendGame`, `sendErrorMessage` and `broadcast` take the message already encoded as text.
- ChessService, the store interfaces (AuthDataAccess, UserDataAccess, GameDataAccess) and the exception classes are not modelled. ChessService is dead code. The interfaces disagree with the concrete classes; the model uses the concrete in-memory classes the services construct. Exceptions are `Error` values carried in `Result`/`Outcome`.
- Concurrency: the connection table is modelled sequentially. The table's thread safety is not captured.
- Sessions: a session is an open flag and an outbox. I/O failures of `send` (IOException) and a session closing during a call are not modelled.
- Randomness: the index `java.util.Random` picks in `generateAuthToken` is an arbitrary choice. Only the token's length and alphabet are stated.
- Missing engine features: check, checkmate and stalemate detection, castling and en passant. The code does not have them either.
- GameDAO defines neither `getAllGames` nor `addUserToGame`, so GameService's listing and seat assignment are not modelled, and neither is the "already taken" seat rule.
- ChessMove, ChessPosition, the records UserData, AuthData and GameData, and the PiecePositionPair class are datatypes. Their `equals` is taken as field-wise value equality, and so is ChessPiece's `equals`. `toString` and `hashCode` are not modelled.
- ChessBoardModel.ChessBoard.GetPiece, AddPiece, RemovePiece and MakeMove require positions in 0..8. Outside that range Java throws ArrayIndexOutOfBoundsException; that exception is not modelled.
- ChessGameModel.ChessGame.ValidMoves and MakeMove require the start position in 0..8 for the same reason. The board they hold is never null; `setBoard(null)` is not modelled.
- ChessPieceModel.AddDiagonalMoves and AddStraightMoves require single-step increments of -1, 0 or 1. All their callers pass such increments; other increments are not modelled.
- UserServices.Login requires that no user is filed under a null name, and UserServices.Logout that every token record is filed under its own token. The services keep both invariants (`Coherent`).
- UserServices.UserService and the stores take tokens and user names as non-null strings, except where the code tests for null (UserData fields, the null excluded token of `broadcast`). A null token behaves like an unknown one in every lookup, since no null key is ever stored.
- Registry.ConnectionManager.Add takes a non-null token and game id. ConcurrentHashMap rejects a null key, and `broadcast` would dereference a null game id; neither NullPointerException is modelled.
- GameServices.GameService.CreateGame takes the request's game name instead of the whole GameData, because only the name is read.
- GameServices.GameService.GetAllGames returns Pass where the code would go on to call `getAllGames` on the store.
- GameServices.GameService.JoinGame returns the user name where the code would go on to call `addUserToGame` with it.
- GameServices.GameService.ClearDatabase: the catch block that throws 500 "Error: error thrown in clear database" is unreachable, because the in-memory stores cannot throw; it is not modelled.
