/**
 * The value types of the chess engine: colours, piece kinds, pieces,
 * positions, moves, and the abstract value of a 9x9 board.
 */
module ChessTypes {
  import opened Wrappers

  /** ChessGame.TeamColor */
  datatype Color = White | Black

  /** ChessPiece.PieceType */
  datatype Kind = King | Queen | Bishop | Knight | Rook | Pawn

  /**
   * A chess piece. The Java class never changes its two fields after
   * construction and its `equals` compares exactly those two fields, so it is
   * a value here and Dafny's structural equality is its `equals`.
   */
  datatype Piece = Piece(color: Color, kind: Kind)

  /** A (row, column) pair; equality is structural. */
  datatype Position = Position(row: int, col: int)

  /** A move: start, end and an optional promotion kind (null in Java when absent). */
  datatype Move = Move(start: Position, end: Position, promotion: Option<Kind>)

  /** PiecePositionPair: a piece and where it stands. */
  datatype PiecePositionPair = PiecePositionPair(piece: Piece, position: Position)

  function Opponent(c: Color): (o: Color)
    ensures o != c
  {
    if c == White then Black else White
  }

  /** The Java board is `new ChessPiece[9][9]`: indices 0..8 are addressable. */
  predicate InBounds(p: Position) {
    0 <= p.row < 9 && 0 <= p.col < 9
  }

  /** ChessPiece.isValidPosition: the 8x8 playing area, rows and columns 1..8. */
  predicate OnBoard(row: int, col: int) {
    1 <= row <= 8 && 1 <= col <= 8
  }

  /** The abstract value of the 9x9 array of optional pieces, indexed [row][col]. */
  type Grid = g: seq<seq<Option<Piece>>> | |g| == 9 && forall r :: 0 <= r < 9 ==> |g[r]| == 9
    witness EmptyGrid()

  function EmptyRow(): seq<Option<Piece>> {
    [None, None, None, None, None, None, None, None, None]
  }

  function EmptyGrid(): seq<seq<Option<Piece>>> {
    var e := EmptyRow();
    [e, e, e, e, e, e, e, e, e]
  }

  function At(g: Grid, p: Position): Option<Piece>
    requires InBounds(p)
  {
    g[p.row][p.col]
  }

  /** The grid with cell `p` overwritten by `x` (ChessBoard.addPiece on values). */
  function Put(g: Grid, p: Position, x: Option<Piece>): Grid
    requires InBounds(p)
  {
    g[p.row := g[p.row][p.col := x]]
  }

  /** Reading a cell after Put: the written cell holds `x`, every other cell is unchanged. */
  lemma PutAt(g: Grid, p: Position, x: Option<Piece>, q: Position)
    requires InBounds(p) && InBounds(q)
    ensures At(Put(g, p, x), q) == if q == p then x else At(g, q)
  {
  }

  /** Two grids are equal exactly when they agree on every addressable cell. */
  lemma GridExtensionality(g: Grid, h: Grid)
    requires forall r, c :: 0 <= r < 9 && 0 <= c < 9 ==> g[r][c] == h[r][c]
    ensures g == h
  {
    forall r | 0 <= r < 9
      ensures g[r] == h[r]
    {
      assert forall c :: 0 <= c < 9 ==> g[r][c] == h[r][c];
    }
  }
}
