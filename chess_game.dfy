// The game layer: whose turn it is, the move list for one square, and making a move.
//
// validMoves does not copy the board. Its "simulated" board is the live board itself, so every
// pseudo-legal move of the piece is played, in list order, on the game's own board. The check test
// after each one is a stub that always answers false, so nothing is ever filtered out. makeMove
// calls validMoves first and then plays the chosen move once more on the board that scan left behind.
// The model keeps that behaviour and proves what follows from it.

module ChessGameModel {
  import opened Wrappers
  import opened ChessTypes
  import opened ChessBoardModel
  import opened ChessPieceModel

  const NotYourTurn := "Its not this team's turn."
  const InvalidMove := "Invalid move!"
  const NotImplemented := "Not implemented"

  /** Every move of the list stays inside the 9x9 array. */
  predicate MovesInBounds(ms: seq<Move>) {
    forall i :: 0 <= i < |ms| ==> InBounds(ms[i].start) && InBounds(ms[i].end)
  }

  /** The board after playing the moves one after another, each through ChessBoard.makeMove. */
  function ApplyMoves(g: Grid, ms: seq<Move>, turn: Color): Grid
    requires MovesInBounds(ms)
    decreases |ms|
  {
    if |ms| == 0 then g
    else ApplyMove(ApplyMoves(g, ms[..|ms| - 1], turn), ms[|ms| - 1], turn)
  }

  /** A square that no move of the list starts from or lands on. */
  predicate Untouched(ms: seq<Move>, q: Position) {
    forall i :: 0 <= i < |ms| ==> ms[i].start != q && ms[i].end != q
  }

  /** The board after the scan of validMoves: every pseudo-legal move of the piece played in turn. */
  function Scan(g: Grid, piece: Piece, s: Position, turn: Color): Grid
    requires InBounds(s)
  {
    PseudoMovesInBounds(g, piece, s);
    ApplyMoves(g, PseudoMoves(g, piece, s), turn)
  }

  /** The abstract state of a ChessGame: the contents of its board and the side to move. */
  datatype GameState = GameState(grid: Grid, turn: Color)

  /**
   * What makeMove does, as a value. It fails without touching anything when the start square is
   * empty or holds a piece of the side not to move. Otherwise the scan of validMoves has already
   * played every pseudo-legal move, and a move missing from that list fails on the scanned board.
   * A listed move is then played on the scanned board and the turn passes to the other side.
   */
  function MakeMoveSpec(st: GameState, m: Move): (r: (Outcome<string>, GameState))
    requires InBounds(m.start)
    ensures r.0.Pass? ==> At(st.grid, m.start).Some? && At(st.grid, m.start).value.color == st.turn
    ensures r.0.Pass? ==> r.1.turn == Opponent(st.turn)
    ensures r.0.Fail? ==> r.1.turn == st.turn
    ensures r.0.Fail? ==> r.0.error == NotYourTurn || r.0.error == InvalidMove
    ensures r.0 == Fail(NotYourTurn) ==> r.1 == st
    ensures r.0 == Fail(NotYourTurn) <==>
      At(st.grid, m.start).None? || At(st.grid, m.start).value.color != st.turn
    ensures r.0.Pass? <==>
      At(st.grid, m.start).Some? && At(st.grid, m.start).value.color == st.turn &&
      m in PseudoMoves(st.grid, At(st.grid, m.start).value, m.start)
    ensures r.0 == Fail(InvalidMove) ==>
      r.1.grid == Scan(st.grid, At(st.grid, m.start).value, m.start, st.turn)
    ensures r.0.Pass? ==>
      InBounds(m.end) && r.1.grid == ApplyMove(Scan(st.grid, At(st.grid, m.start).value, m.start, st.turn), m, st.turn)
  {
    match At(st.grid, m.start)
    case None => (Fail(NotYourTurn), st)
    case Some(p) =>
      if p.color != st.turn then (Fail(NotYourTurn), st)
      else
        PseudoMovesInBounds(st.grid, p, m.start);
        var ms := PseudoMoves(st.grid, p, m.start);
        var scanned := Scan(st.grid, p, m.start, st.turn);
        if m !in ms then (Fail(InvalidMove), GameState(scanned, st.turn))
        else (Pass, GameState(ApplyMove(scanned, m, st.turn), Opponent(st.turn)))
  }

  lemma PseudoMovesInBounds(g: Grid, piece: Piece, s: Position)
    requires InBounds(s)
    ensures MovesInBounds(PseudoMoves(g, piece, s))
  {
    var ms := PseudoMoves(g, piece, s);
    forall i | 0 <= i < |ms|
      ensures InBounds(ms[i].start) && InBounds(ms[i].end)
    {
      PseudoMovesFacts(g, piece, s, ms[i]);
    }
  }

  /** Playing a list of moves leaves every square the list never mentions as it was. */
  lemma {:induction false} ApplyMovesFrame(g: Grid, ms: seq<Move>, turn: Color, q: Position)
    requires MovesInBounds(ms) && InBounds(q) && Untouched(ms, q)
    ensures At(ApplyMoves(g, ms, turn), q) == At(g, q)
    decreases |ms|
  {
    if |ms| > 0 {
      var prefix := ms[..|ms| - 1];
      assert Untouched(prefix, q) by {
        forall i | 0 <= i < |prefix| ensures prefix[i].start != q && prefix[i].end != q {
          assert prefix[i] == ms[i];
        }
      }
      ApplyMovesFrame(g, prefix, turn, q);
      assert ms[|ms| - 1].start != q && ms[|ms| - 1].end != q;
    }
  }

  /**
   * After the scan of validMoves, the square the piece stood on is empty as soon as the piece has
   * at least one pseudo-legal move: the last move played leaves from there and lands elsewhere.
   */
  lemma ScanEmptiesStart(g: Grid, piece: Piece, s: Position, turn: Color)
    requires InBounds(s) && |PseudoMoves(g, piece, s)| > 0
    ensures MovesInBounds(PseudoMoves(g, piece, s))
    ensures At(ApplyMoves(g, PseudoMoves(g, piece, s), turn), s) == None
  {
    PseudoMovesInBounds(g, piece, s);
    var ms := PseudoMoves(g, piece, s);
    PseudoMovesFacts(g, piece, s, ms[|ms| - 1]);
  }

  /**
   * A successful makeMove of a move without promotion leaves BOTH its start and its end square
   * empty: the scan moved the piece away, so the second play carries nothing to the end square.
   */
  lemma PlainMoveVacatesEnd(st: GameState, m: Move)
    requires InBounds(m.start) && MakeMoveSpec(st, m).0.Pass? && m.promotion.None?
    ensures InBounds(m.end)
    ensures At(MakeMoveSpec(st, m).1.grid, m.end) == None
    ensures At(MakeMoveSpec(st, m).1.grid, m.start) == None
  {
    var p := At(st.grid, m.start).value;
    var ms := PseudoMoves(st.grid, p, m.start);
    assert m in ms;
    PseudoMovesFacts(st.grid, p, m.start, m);
    ScanEmptiesStart(st.grid, p, m.start, st.turn);
  }

  /** A successful promoting makeMove puts a fresh piece of the mover's colour on the end square. */
  lemma PromotionPlacesNewPiece(st: GameState, m: Move)
    requires InBounds(m.start) && MakeMoveSpec(st, m).0.Pass? && m.promotion.Some?
    ensures InBounds(m.end)
    ensures At(MakeMoveSpec(st, m).1.grid, m.end) == Some(Piece(st.turn, m.promotion.value))
    ensures At(MakeMoveSpec(st, m).1.grid, m.start) == None
  {
    var p := At(st.grid, m.start).value;
    var ms := PseudoMoves(st.grid, p, m.start);
    assert m in ms;
    PseudoMovesFacts(st.grid, p, m.start, m);
    ScanEmptiesStart(st.grid, p, m.start, st.turn);
  }

  /** Any makeMove, successful or not, changes no square that is neither the start nor a target. */
  lemma MakeMoveFrame(st: GameState, m: Move, q: Position)
    requires InBounds(m.start) && InBounds(q) && q != m.start && q != m.end
    requires At(st.grid, m.start).Some?
    requires Untouched(PseudoMoves(st.grid, At(st.grid, m.start).value, m.start), q)
    ensures At(MakeMoveSpec(st, m).1.grid, q) == At(st.grid, q)
  {
    var p := At(st.grid, m.start).value;
    if p.color == st.turn {
      PseudoMovesInBounds(st.grid, p, m.start);
      var ms := PseudoMoves(st.grid, p, m.start);
      ApplyMovesFrame(st.grid, ms, st.turn, q);
      if m in ms {
        PseudoMovesFacts(st.grid, p, m.start, m);
      }
    }
  }

  /**
   * The standard opening double step e2-e4 on a board set up by resetBoard: makeMove succeeds and
   * passes the turn to BLACK, but the pawn ends up on e3 while e2 and e4 are both empty. The scan
   * first plays e2-e3 (the single push) and then e2-e4 from the now empty e2.
   */
  lemma OpeningDoubleStepLandsShort()
    ensures var st := GameState(ResetGrid(EmptyGrid()), White);
            var m := Move(Position(2, 5), Position(4, 5), None);
            var r := MakeMoveSpec(st, m);
            r.0 == Pass && r.1.turn == Black &&
            At(r.1.grid, Position(3, 5)) == Some(Piece(White, Pawn)) &&
            At(r.1.grid, Position(4, 5)) == None && At(r.1.grid, Position(2, 5)) == None
  {
    var g := ResetGrid(EmptyGrid());
    var s, e3, e4 := Position(2, 5), Position(3, 5), Position(4, 5);
    assert IsStartSquare(s) && !IsStartSquare(e3) && !IsStartSquare(e4);
    assert At(g, s) == Some(Piece(White, Pawn));
    assert At(g, e3) == None && At(g, e4) == None;
    assert At(g, Position(3, 4)) == None && At(g, Position(3, 6)) == None;
    var push, double := Move(s, e3, None), Move(s, e4, None);
    assert PawnPushMoves(g, White, s) == [push];
    assert PawnDoubleMoves(g, White, s) == [double];
    assert PawnMoves(g, White, s) == [push, double];
    var ms := PseudoMoves(g, Piece(White, Pawn), s);
    assert ms == [push, double];
    assert MovesInBounds(ms);
    var afterPush := ApplyMove(g, push, White);
    assert ms[..1] == [push];
    assert ApplyMoves(g, ms[..1], White) == afterPush;
    var scanned := ApplyMove(afterPush, double, White);
    assert ApplyMoves(g, ms, White) == scanned;
    assert At(scanned, e3) == Some(Piece(White, Pawn));
    assert At(scanned, s) == None;
  }

  /**
   * A ChessGame: its current board (shared with whoever passed it to setBoard or got it from
   * getBoard) and the side to move.
   */
  class ChessGame {
    var currentBoard: ChessBoard
    var teamTurn: Color

    ghost predicate Valid()
      reads this, currentBoard, currentBoard.cells
    {
      currentBoard.Valid()
    }

    /** The board after construction is empty: resetBoard is never called. WHITE moves first. */
    constructor ()
      ensures Valid() && fresh(currentBoard) && fresh(currentBoard.cells)
      ensures currentBoard.grid == EmptyGrid() && teamTurn == White
    {
      currentBoard := new ChessBoard();
      teamTurn := White;
    }

    function GetTeamTurn(): (c: Color)
      reads this
      ensures c == teamTurn
    {
      teamTurn
    }

    method SetTeamTurn(team: Color)
      modifies this
      ensures teamTurn == team && currentBoard == old(currentBoard)
    {
      teamTurn := team;
    }

    function GetBoard(): (b: ChessBoard)
      reads this
      ensures b == currentBoard
    {
      currentBoard
    }

    /** The game keeps the board object itself, not a copy. */
    method SetBoard(board: ChessBoard)
      modifies this
      ensures currentBoard == board && teamTurn == old(teamTurn)
    {
      currentBoard := board;
    }

    /** The king search is commented out in the source; what is left always answers false. */
    method IsInCheck(teamColor: Color) returns (inCheck: bool)
      ensures !inCheck
    {
      inCheck := false;
    }

    method IsInCheckmate(teamColor: Color) returns (r: Result<bool, string>)
      ensures r.Failure? && r.error == NotImplemented
    {
      r := Failure(NotImplemented);
    }

    method IsInStalemate(teamColor: Color) returns (r: Result<bool, string>)
      ensures r.Failure? && r.error == NotImplemented
    {
      r := Failure(NotImplemented);
    }

    /**
     * validMoves: None (null) for an empty square. Otherwise every pseudo-legal move is returned
     * unfiltered, and the live board has had all of them played on it in order.
     */
    method ValidMoves(startPosition: Position) returns (r: Option<seq<Move>>)
      requires Valid() && InBounds(startPosition)
      modifies currentBoard, currentBoard.cells
      ensures Valid() && currentBoard == old(currentBoard) && currentBoard.cells == old(currentBoard.cells)
      ensures teamTurn == old(teamTurn)
      ensures At(old(currentBoard.grid), startPosition).None? ==>
        r.None? && currentBoard.grid == old(currentBoard.grid)
      ensures At(old(currentBoard.grid), startPosition).Some? ==>
        var ms := PseudoMoves(old(currentBoard.grid), At(old(currentBoard.grid), startPosition).value, startPosition);
        MovesInBounds(ms) && r == Some(ms) && currentBoard.grid == ApplyMoves(old(currentBoard.grid), ms, teamTurn)
    {
      var piece := currentBoard.GetPiece(startPosition);
      if piece.None? {
        return None;
      }
      ghost var g0 := currentBoard.grid;
      var possibleMoves := PieceMoves(piece.value, currentBoard, startPosition);
      PseudoMovesInBounds(g0, piece.value, startPosition);
      var validMoves := [];
      for i := 0 to |possibleMoves|
        invariant currentBoard.Valid() && currentBoard.cells == old(currentBoard.cells)
        invariant validMoves == possibleMoves[..i]
        invariant currentBoard.grid == ApplyMoves(g0, possibleMoves[..i], teamTurn)
      {
        var move := possibleMoves[i];
        assert possibleMoves[..i + 1][..i] == possibleMoves[..i];
        currentBoard.MakeMove(move, teamTurn);
        var inCheck := IsInCheck(teamTurn);
        if !inCheck {
          validMoves := validMoves + [move];
        }
      }
      assert possibleMoves[..|possibleMoves|] == possibleMoves;
      return Some(validMoves);
    }

    /** makeMove, with InvalidMoveException as a Fail outcome carrying its message. */
    method MakeMove(move: Move) returns (outcome: Outcome<string>)
      requires Valid() && InBounds(move.start)
      modifies this, currentBoard, currentBoard.cells
      ensures Valid() && currentBoard == old(currentBoard) && currentBoard.cells == old(currentBoard.cells)
      ensures (outcome, GameState(currentBoard.grid, teamTurn)) ==
              MakeMoveSpec(GameState(old(currentBoard.grid), old(teamTurn)), move)
    {
      var piece := currentBoard.GetPiece(move.start);
      if piece.None? || piece.value.color != teamTurn {
        return Fail(NotYourTurn);
      }
      var validMoves := ValidMoves(move.start);
      if move !in validMoves.value {
        return Fail(InvalidMove);
      }
      PseudoMovesFacts(old(currentBoard.grid), piece.value, move.start, move);
      currentBoard.MakeMove(move, teamTurn);
      teamTurn := if teamTurn == White then Black else White;
      outcome := Pass;
    }
  }
}
