/**
 * ChessBoard: a mutable 9x9 array of optional pieces. Rows and columns 1..8
 * are the playing area; index 0 is addressable too (the array is 9x9), which
 * is how the server stores its resignation marker at (0,0).
 */
module ChessBoardModel {
  import opened Wrappers
  import opened ChessTypes

  /** The effect of ChessBoard.makeMove on the board's value. */
  function ApplyMove(g: Grid, m: Move, teamTurn: Color): (h: Grid)
    requires InBounds(m.start) && InBounds(m.end)
    ensures At(h, m.end) == if m.promotion.None? then At(g, m.start) else Some(Piece(teamTurn, m.promotion.value))
    ensures m.end != m.start ==> At(h, m.start) == None
    ensures forall q :: InBounds(q) && q != m.start && q != m.end ==> At(h, q) == At(g, q)
  {
    var moving := At(g, m.start);
    var cleared := Put(g, m.start, None);
    if m.promotion.None? then Put(cleared, m.end, moving)
    else Put(cleared, m.end, Some(Piece(teamTurn, m.promotion.value)))
  }

  /** Back rank piece kinds, by column 1..8. */
  function BackRankKind(col: int): Kind {
    if col == 1 || col == 8 then Rook
    else if col == 2 || col == 7 then Knight
    else if col == 3 || col == 6 then Bishop
    else if col == 4 then Queen
    else King
  }

  /** Rows and columns that resetBoard writes. */
  predicate IsStartSquare(p: Position) {
    (p.row == 1 || p.row == 2 || p.row == 7 || p.row == 8) && 1 <= p.col <= 8
  }

  /** The piece resetBoard places on a start square. */
  function StartingPiece(p: Position): Piece
    requires IsStartSquare(p)
  {
    var color := if p.row <= 2 then White else Black;
    if p.row == 2 || p.row == 7 then Piece(color, Pawn) else Piece(color, BackRankKind(p.col))
  }

  /** Row `row` of the 9x9 array after resetBoard writes its back rank; column 0 is kept. */
  function BackRankRow(row: seq<Option<Piece>>, color: Color): (r: seq<Option<Piece>>)
    requires |row| == 9
  {
    [row[0], Some(Piece(color, Rook)), Some(Piece(color, Knight)), Some(Piece(color, Bishop)),
     Some(Piece(color, Queen)), Some(Piece(color, King)), Some(Piece(color, Bishop)),
     Some(Piece(color, Knight)), Some(Piece(color, Rook))]
  }

  /** Row `row` after resetBoard writes its eight pawns; column 0 is kept. */
  function PawnRow(row: seq<Option<Piece>>, color: Color): (r: seq<Option<Piece>>)
    requires |row| == 9
  {
    [row[0]] + seq(8, _ => Some(Piece(color, Pawn)))
  }

  /** The board value left by resetBoard: the start squares written, every other cell kept. */
  function ResetGrid(g: Grid): (h: Grid)
    ensures forall p :: InBounds(p) ==> At(h, p) == if IsStartSquare(p) then Some(StartingPiece(p)) else At(g, p)
  {
    g[1 := BackRankRow(g[1], White)][2 := PawnRow(g[2], White)][8 := BackRankRow(g[8], Black)][7 := PawnRow(g[7], Black)]
  }

  /** Eight addPiece calls along row `r` write that row's back rank. */
  lemma BackRankPuts(g: Grid, r: int, color: Color)
    requires 0 <= r < 9
    ensures
      Put(Put(Put(Put(Put(Put(Put(Put(g,
        Position(r, 1), Some(Piece(color, Rook))), Position(r, 2), Some(Piece(color, Knight))),
        Position(r, 3), Some(Piece(color, Bishop))), Position(r, 4), Some(Piece(color, Queen))),
        Position(r, 5), Some(Piece(color, King))), Position(r, 6), Some(Piece(color, Bishop))),
        Position(r, 7), Some(Piece(color, Knight))), Position(r, 8), Some(Piece(color, Rook)))
      == g[r := BackRankRow(g[r], color)]
  {
    var row := g[r][1 := Some(Piece(color, Rook))][2 := Some(Piece(color, Knight))]
      [3 := Some(Piece(color, Bishop))][4 := Some(Piece(color, Queen))][5 := Some(Piece(color, King))]
      [6 := Some(Piece(color, Bishop))][7 := Some(Piece(color, Knight))][8 := Some(Piece(color, Rook))];
    assert row == BackRankRow(g[r], color);
  }

  /** Eight addPiece calls along row `r` write that row's pawns. */
  lemma PawnPuts(g: Grid, r: int, color: Color)
    requires 0 <= r < 9
    ensures
      var pawn := Some(Piece(color, Pawn));
      Put(Put(Put(Put(Put(Put(Put(Put(g,
        Position(r, 1), pawn), Position(r, 2), pawn), Position(r, 3), pawn), Position(r, 4), pawn),
        Position(r, 5), pawn), Position(r, 6), pawn), Position(r, 7), pawn), Position(r, 8), pawn)
      == g[r := PawnRow(g[r], color)]
  {
    var pawn := Some(Piece(color, Pawn));
    var row := g[r][1 := pawn][2 := pawn][3 := pawn][4 := pawn][5 := pawn][6 := pawn][7 := pawn][8 := pawn];
    assert row == PawnRow(g[r], color);
  }

  /** Whether getBoardPieces reports a piece: always, or only for the given colour. */
  predicate Keep(p: Piece, only: Option<Color>) {
    only.None? || p.color == only.value
  }

  /** The pairs that the inner loop of getBoardPieces appends for row `r`, columns 0..n-1. */
  function RowPieces(g: Grid, r: nat, n: nat, only: Option<Color>): seq<PiecePositionPair>
    requires r < 9 && n <= 9
  {
    if n == 0 then []
    else
      var cell := g[r][n - 1];
      RowPieces(g, r, n - 1, only) +
        (if cell.Some? && Keep(cell.value, only) then [PiecePositionPair(cell.value, Position(r, n - 1))] else [])
  }

  /** The pairs that getBoardPieces has collected after rows 0..n-1. */
  function RowsPieces(g: Grid, n: nat, only: Option<Color>): seq<PiecePositionPair>
    requires n <= 9
  {
    if n == 0 then [] else RowsPieces(g, n - 1, only) + RowPieces(g, n - 1, 9, only)
  }

  /** The result of getBoardPieces (only == None) and of getBoardPieces(color) (only == Some(color)). */
  function BoardPieces(g: Grid, only: Option<Color>): seq<PiecePositionPair> {
    RowsPieces(g, 9, only)
  }

  /** Row-major order on positions. */
  predicate Before(p: Position, q: Position) {
    p.row < q.row || (p.row == q.row && p.col < q.col)
  }

  predicate RowMajor(s: seq<PiecePositionPair>) {
    forall i, j :: 0 <= i < j < |s| ==> Before(s[i].position, s[j].position)
  }

  /** The pairs of `s` whose piece has colour `c`, in order. */
  function OfColor(s: seq<PiecePositionPair>, c: Color): seq<PiecePositionPair> {
    if s == [] then []
    else OfColor(s[..|s| - 1], c) + (if s[|s| - 1].piece.color == c then [s[|s| - 1]] else [])
  }

  lemma {:induction false} OfColorAppend(a: seq<PiecePositionPair>, b: seq<PiecePositionPair>, c: Color)
    ensures OfColor(a + b, c) == OfColor(a, c) + OfColor(b, c)
  {
    if b == [] {
      assert a + b == a;
    } else {
      var b' := b[..|b| - 1];
      assert (a + b)[..|a + b| - 1] == a + b';
      assert (a + b)[|a + b| - 1] == b[|b| - 1];
      OfColorAppend(a, b', c);
    }
  }

  lemma {:induction false} RowPiecesMembers(g: Grid, r: nat, n: nat, only: Option<Color>, x: PiecePositionPair)
    requires r < 9 && n <= 9
    ensures x in RowPieces(g, r, n, only) <==>
      x.position.row == r && 0 <= x.position.col < n && g[r][x.position.col] == Some(x.piece) && Keep(x.piece, only)
  {
    if n > 0 {
      RowPiecesMembers(g, r, n - 1, only, x);
    }
  }

  lemma {:induction false} RowsPiecesMembers(g: Grid, n: nat, only: Option<Color>, x: PiecePositionPair)
    requires n <= 9
    ensures x in RowsPieces(g, n, only) <==>
      0 <= x.position.row < n && 0 <= x.position.col < 9 && At(g, x.position) == Some(x.piece) && Keep(x.piece, only)
  {
    if n > 0 {
      RowsPiecesMembers(g, n - 1, only, x);
      RowPiecesMembers(g, n - 1, 9, only, x);
    }
  }

  /**
   * getBoardPieces reports exactly the occupied cells of the whole 9x9 array
   * (row and column 0 included); the coloured overload only those whose piece
   * has that colour.
   */
  lemma BoardPiecesMembers(g: Grid, only: Option<Color>, x: PiecePositionPair)
    ensures x in BoardPieces(g, only) <==>
      InBounds(x.position) && At(g, x.position) == Some(x.piece) && Keep(x.piece, only)
  {
    RowsPiecesMembers(g, 9, only, x);
  }

  lemma {:induction false} RowPiecesOrdered(g: Grid, r: nat, n: nat, only: Option<Color>)
    requires r < 9 && n <= 9
    ensures RowMajor(RowPieces(g, r, n, only))
    ensures forall i :: 0 <= i < |RowPieces(g, r, n, only)| ==>
      RowPieces(g, r, n, only)[i].position.row == r && 0 <= RowPieces(g, r, n, only)[i].position.col < n
  {
    if n > 0 {
      RowPiecesOrdered(g, r, n - 1, only);
    }
  }

  lemma {:induction false} RowsPiecesOrdered(g: Grid, n: nat, only: Option<Color>)
    requires n <= 9
    ensures RowMajor(RowsPieces(g, n, only))
    ensures forall i :: 0 <= i < |RowsPieces(g, n, only)| ==> 0 <= RowsPieces(g, n, only)[i].position.row < n
  {
    if n > 0 {
      RowsPiecesOrdered(g, n - 1, only);
      RowPiecesOrdered(g, n - 1, 9, only);
    }
  }

  /** getBoardPieces lists pieces in row-major order, each cell at most once. */
  lemma BoardPiecesOrdered(g: Grid, only: Option<Color>)
    ensures RowMajor(BoardPieces(g, only))
  {
    RowsPiecesOrdered(g, 9, only);
  }

  lemma {:induction false} RowsPiecesOfColor(g: Grid, n: nat, c: Color)
    requires n <= 9
    ensures RowsPieces(g, n, Some(c)) == OfColor(RowsPieces(g, n, None), c)
  {
    if n > 0 {
      RowsPiecesOfColor(g, n - 1, c);
      RowPiecesOfColor(g, n - 1, 9, c);
      OfColorAppend(RowsPieces(g, n - 1, None), RowPieces(g, n - 1, 9, None), c);
    }
  }

  lemma {:induction false} RowPiecesOfColor(g: Grid, r: nat, n: nat, c: Color)
    requires r < 9 && n <= 9
    ensures RowPieces(g, r, n, Some(c)) == OfColor(RowPieces(g, r, n, None), c)
  {
    if n > 0 {
      RowPiecesOfColor(g, r, n - 1, c);
      var cell := g[r][n - 1];
      var tail := if cell.Some? then [PiecePositionPair(cell.value, Position(r, n - 1))] else [];
      OfColorAppend(RowPieces(g, r, n - 1, None), tail, c);
      if cell.Some? {
        assert OfColor(tail, c) == OfColor([], c) + (if cell.value.color == c then tail else []) by {
          assert tail[..0] == [];
        }
      }
    }
  }

  /** The coloured overload returns the uncoloured list filtered by colour, order kept. */
  lemma BoardPiecesOfColor(g: Grid, c: Color)
    ensures BoardPieces(g, Some(c)) == OfColor(BoardPieces(g, None), c)
  {
    RowsPiecesOfColor(g, 9, c);
  }

  /** A piece stored at (0,0), the resignation marker, is the first pair getBoardPieces reports. */
  lemma ResignMarkerComesFirst(g: Grid, p: Piece)
    requires At(g, Position(0, 0)) == Some(p)
    ensures |BoardPieces(g, None)| > 0 && BoardPieces(g, None)[0] == PiecePositionPair(p, Position(0, 0))
  {
    var s := BoardPieces(g, None);
    var marker := PiecePositionPair(p, Position(0, 0));
    BoardPiecesMembers(g, None, marker);
    BoardPiecesMembers(g, None, s[0]);
    BoardPiecesOrdered(g, None);
  }

  class ChessBoard {
    var cells: array2<Option<Piece>>
    /** The value of `cells`, kept in step with it. */
    ghost var grid: Grid

    ghost predicate Valid()
      reads this, cells
    {
      cells.Length0 == 9 && cells.Length1 == 9 &&
      forall r, c :: 0 <= r < 9 && 0 <= c < 9 ==> cells[r, c] == grid[r][c]
    }

    /** `new ChessBoard()`: every cell null. */
    constructor ()
      ensures Valid() && fresh(cells)
      ensures grid == EmptyGrid()
    {
      cells := new Option<Piece>[9, 9]((r, c) => None);
      grid := EmptyGrid();
    }

    function GetPiece(p: Position): (x: Option<Piece>)
      reads this, cells
      requires Valid() && InBounds(p)
      ensures x == At(grid, p)
    {
      cells[p.row, p.col]
    }

    method AddPiece(p: Position, x: Option<Piece>)
      requires Valid() && InBounds(p)
      modifies this, cells
      ensures Valid() && cells == old(cells)
      ensures grid == Put(old(grid), p, x)
    {
      cells[p.row, p.col] := x;
      grid := Put(grid, p, x);
    }

    method RemovePiece(p: Position)
      requires Valid() && InBounds(p)
      modifies this, cells
      ensures Valid() && cells == old(cells)
      ensures grid == Put(old(grid), p, None)
    {
      cells[p.row, p.col] := None;
      grid := Put(grid, p, None);
    }

    /**
     * Moves whatever stands on the start (possibly nothing) to the end; with a
     * promotion the end receives a new piece of colour `teamTurn`, whatever
     * the colour of the piece that moved.
     */
    method MakeMove(move: Move, teamTurn: Color)
      requires Valid() && InBounds(move.start) && InBounds(move.end)
      modifies this, cells
      ensures Valid() && cells == old(cells)
      ensures grid == ApplyMove(old(grid), move, teamTurn)
    {
      var pieceMoving := GetPiece(move.start);
      RemovePiece(move.start);
      if move.promotion.None? {
        AddPiece(move.end, pieceMoving);
      } else {
        AddPiece(move.end, Some(Piece(teamTurn, move.promotion.value)));
      }
    }

    method GetBoardPieces() returns (pieces: seq<PiecePositionPair>)
      requires Valid()
      ensures pieces == BoardPieces(grid, None)
    {
      pieces := [];
      for row := 0 to cells.Length0
        invariant pieces == RowsPieces(grid, row, None)
      {
        for col := 0 to cells.Length0
          invariant pieces == RowsPieces(grid, row, None) + RowPieces(grid, row, col, None)
        {
          var piece := cells[row, col];
          if piece.Some? {
            pieces := pieces + [PiecePositionPair(piece.value, Position(row, col))];
          }
        }
      }
    }

    /** The overload getBoardPieces(teamColor). */
    method GetBoardPiecesOf(teamColor: Color) returns (pieces: seq<PiecePositionPair>)
      requires Valid()
      ensures pieces == BoardPieces(grid, Some(teamColor))
    {
      pieces := [];
      for row := 0 to cells.Length0
        invariant pieces == RowsPieces(grid, row, Some(teamColor))
      {
        for col := 0 to cells.Length0
          invariant pieces == RowsPieces(grid, row, Some(teamColor)) + RowPieces(grid, row, col, Some(teamColor))
        {
          var piece := cells[row, col];
          if piece.Some? {
            if piece.value.color == teamColor {
              pieces := pieces + [PiecePositionPair(piece.value, Position(row, col))];
            }
          }
        }
      }
    }

    /** Writes the 32 standard placements; clears nothing. */
    method ResetBoard()
      requires Valid()
      modifies this, cells
      ensures Valid() && cells == old(cells)
      ensures grid == ResetGrid(old(grid))
    {
      ghost var g0 := grid;
      AddPiece(Position(1, 1), Some(Piece(White, Rook)));
      AddPiece(Position(1, 2), Some(Piece(White, Knight)));
      AddPiece(Position(1, 3), Some(Piece(White, Bishop)));
      AddPiece(Position(1, 4), Some(Piece(White, Queen)));
      AddPiece(Position(1, 5), Some(Piece(White, King)));
      AddPiece(Position(1, 6), Some(Piece(White, Bishop)));
      AddPiece(Position(1, 7), Some(Piece(White, Knight)));
      AddPiece(Position(1, 8), Some(Piece(White, Rook)));
      BackRankPuts(g0, 1, White);
      assert grid == g0[1 := BackRankRow(g0[1], White)];

      ghost var g1 := grid;
      AddPiece(Position(2, 1), Some(Piece(White, Pawn)));
      AddPiece(Position(2, 2), Some(Piece(White, Pawn)));
      AddPiece(Position(2, 3), Some(Piece(White, Pawn)));
      AddPiece(Position(2, 4), Some(Piece(White, Pawn)));
      AddPiece(Position(2, 5), Some(Piece(White, Pawn)));
      AddPiece(Position(2, 6), Some(Piece(White, Pawn)));
      AddPiece(Position(2, 7), Some(Piece(White, Pawn)));
      AddPiece(Position(2, 8), Some(Piece(White, Pawn)));
      PawnPuts(g1, 2, White);
      assert grid == g1[2 := PawnRow(g1[2], White)];

      ghost var g2 := grid;
      AddPiece(Position(8, 1), Some(Piece(Black, Rook)));
      AddPiece(Position(8, 2), Some(Piece(Black, Knight)));
      AddPiece(Position(8, 3), Some(Piece(Black, Bishop)));
      AddPiece(Position(8, 4), Some(Piece(Black, Queen)));
      AddPiece(Position(8, 5), Some(Piece(Black, King)));
      AddPiece(Position(8, 6), Some(Piece(Black, Bishop)));
      AddPiece(Position(8, 7), Some(Piece(Black, Knight)));
      AddPiece(Position(8, 8), Some(Piece(Black, Rook)));
      BackRankPuts(g2, 8, Black);
      assert grid == g2[8 := BackRankRow(g2[8], Black)];

      ghost var g3 := grid;
      AddPiece(Position(7, 1), Some(Piece(Black, Pawn)));
      AddPiece(Position(7, 2), Some(Piece(Black, Pawn)));
      AddPiece(Position(7, 3), Some(Piece(Black, Pawn)));
      AddPiece(Position(7, 4), Some(Piece(Black, Pawn)));
      AddPiece(Position(7, 5), Some(Piece(Black, Pawn)));
      AddPiece(Position(7, 6), Some(Piece(Black, Pawn)));
      AddPiece(Position(7, 7), Some(Piece(Black, Pawn)));
      AddPiece(Position(7, 8), Some(Piece(Black, Pawn)));
      PawnPuts(g3, 7, Black);
      assert grid == g3[7 := PawnRow(g3[7], Black)];
    }

    /** Arrays.deepEquals on the two arrays: cell-by-cell equality. */
    method Equals(other: ChessBoard) returns (eq: bool)
      requires Valid() && other.Valid()
      ensures eq <==> grid == other.grid
    {
      if this == other {
        return true;
      }
      eq := forall r, c | 0 <= r < 9 && 0 <= c < 9 :: cells[r, c] == other.cells[r, c];
      if eq {
        GridExtensionality(grid, other.grid);
      }
    }
  }
}
