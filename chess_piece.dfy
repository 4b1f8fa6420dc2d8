/**
 * ChessPiece.pieceMoves: pseudo-legal move generation (no check test, no
 * castling, no en passant). The functions give the list each Java helper
 * appends, in the order it appends it; the methods mirror the helpers and
 * only read the board.
 */
module ChessPieceModel {
  import opened Wrappers
  import opened ChessTypes
  import opened ChessBoardModel

  /** A row/column increment of a sliding ray: each in -1..1, not both 0. */
  predicate IsStep(dr: int, dc: int) {
    -1 <= dr <= 1 && -1 <= dc <= 1 && (dr != 0 || dc != 0)
  }

  function Next(p: Position, dr: int, dc: int): Position {
    Position(p.row + dr, p.col + dc)
  }

  /** The square `k` steps from `p` along (dr, dc). */
  function Walk(p: Position, dr: int, dc: int, k: nat): Position
    decreases k
  {
    if k == 0 then p else Walk(Next(p, dr, dc), dr, dc, k - 1)
  }

  /** How many steps along (dr, dc) lead out of the 9x9 array; it shrinks with every step. */
  function EdgeDistance(p: Position, dr: int, dc: int): nat
    requires InBounds(p)
  {
    (if dr > 0 then 9 - p.row else if dr < 0 then p.row else 0) +
    (if dc > 0 then 9 - p.col else if dc < 0 then p.col else 0)
  }

  /** The target square holds no piece of colour `color`. */
  predicate NotFriendly(g: Grid, color: Color, p: Position)
    requires InBounds(p)
  {
    At(g, p).None? || At(g, p).value.color != color
  }

  /**
   * The moves addDiagonalMoves / addStraightMoves append once the walk from
   * `start` has reached `cur`: step, stop at the edge, append an empty square
   * and go on, append an enemy's square and stop, stop before a friend.
   */
  function Ray(g: Grid, color: Color, start: Position, cur: Position, dr: int, dc: int): seq<Move>
    requires InBounds(cur) && IsStep(dr, dc)
    decreases EdgeDistance(cur, dr, dc)
  {
    var next := Next(cur, dr, dc);
    if !OnBoard(next.row, next.col) then []
    else if At(g, next).None? then [Move(start, next, None)] + Ray(g, color, start, next, dr, dc)
    else if At(g, next).value.color != color then [Move(start, next, None)]
    else []
  }

  /** addBishopMoves: the four diagonal rays. */
  function BishopMoves(g: Grid, color: Color, s: Position): seq<Move>
    requires InBounds(s)
  {
    Ray(g, color, s, s, -1, -1) + Ray(g, color, s, s, 1, -1) + Ray(g, color, s, s, -1, 1) + Ray(g, color, s, s, 1, 1)
  }

  /** addRookMoves: the four orthogonal rays. */
  function RookMoves(g: Grid, color: Color, s: Position): seq<Move>
    requires InBounds(s)
  {
    Ray(g, color, s, s, 0, -1) + Ray(g, color, s, s, 0, 1) + Ray(g, color, s, s, -1, 0) + Ray(g, color, s, s, 1, 0)
  }

  const KnightOffsets: seq<(int, int)> := [(-2, -1), (-2, 1), (2, -1), (2, 1), (-1, -2), (1, -2), (-1, 2), (1, 2)]
  const KingOffsets: seq<(int, int)> := [(-1, 0), (1, 0), (0, -1), (0, 1), (-1, -1), (-1, 1), (1, -1), (1, 1)]

  function Offset(s: Position, o: (int, int)): Position {
    Position(s.row + o.0, s.col + o.1)
  }

  /** One entry of a knight or king table: a move when the target is on the board and not friendly. */
  function Jump(g: Grid, color: Color, s: Position, o: (int, int)): seq<Move> {
    var t := Offset(s, o);
    if OnBoard(t.row, t.col) && NotFriendly(g, color, t) then [Move(s, t, None)] else []
  }

  /** The moves the loop over an offset table appends, table entry by table entry. */
  function Jumps(g: Grid, color: Color, s: Position, offsets: seq<(int, int)>): seq<Move> {
    if offsets == [] then []
    else Jumps(g, color, s, offsets[..|offsets| - 1]) + Jump(g, color, s, offsets[|offsets| - 1])
  }

  /** A move to `e`, fanned out into the four promotions when `e` is on row 1 or 8. */
  function Promotions(s: Position, e: Position): seq<Move> {
    if e.row == 1 || e.row == 8 then
      [Move(s, e, Some(Queen)), Move(s, e, Some(Bishop)), Move(s, e, Some(Knight)), Move(s, e, Some(Rook))]
    else [Move(s, e, None)]
  }

  /** WHITE pawns move up the rows, BLACK pawns down. */
  function Direction(c: Color): int {
    if c == White then 1 else -1
  }

  predicate IsPawnStartRow(c: Color, row: int) {
    (row == 2 && c == White) || (row == 7 && c == Black)
  }

  /** addPawnCapture: a diagonal move only onto an enemy piece. */
  function PawnCapture(g: Grid, color: Color, s: Position, newRow: int, newCol: int): seq<Move> {
    var t := Position(newRow, newCol);
    if OnBoard(newRow, newCol) && At(g, t).Some? && At(g, t).value.color != color then Promotions(s, t) else []
  }

  /** The single push: onto an empty square ahead, fanned out on row 1 or 8. */
  function PawnPushMoves(g: Grid, color: Color, s: Position): seq<Move> {
    var one := Position(s.row + Direction(color), s.col);
    if OnBoard(one.row, one.col) && At(g, one).None? then Promotions(s, one) else []
  }

  /** The double step: from row 2 (WHITE) or 7 (BLACK) when both squares ahead are empty. */
  function PawnDoubleMoves(g: Grid, color: Color, s: Position): seq<Move>
    requires InBounds(s)
  {
    var one := Position(s.row + Direction(color), s.col);
    var two := Position(s.row + 2 * Direction(color), s.col);
    if IsPawnStartRow(color, s.row) && At(g, two).None? && At(g, one).None? then [Move(s, two, None)] else []
  }

  /** addPawnMoves: push, double step, then the captures to the left and to the right. */
  function PawnMoves(g: Grid, color: Color, s: Position): seq<Move>
    requires InBounds(s)
  {
    PawnPushMoves(g, color, s) + PawnDoubleMoves(g, color, s) +
    PawnCapture(g, color, s, s.row + Direction(color), s.col - 1) +
    PawnCapture(g, color, s, s.row + Direction(color), s.col + 1)
  }

  /** The list pieceMoves returns for `piece` standing (or said to stand) on `s`. */
  function PseudoMoves(g: Grid, piece: Piece, s: Position): seq<Move>
    requires InBounds(s)
  {
    match piece.kind
    case Bishop => BishopMoves(g, piece.color, s)
    case Rook => RookMoves(g, piece.color, s)
    case Queen => BishopMoves(g, piece.color, s) + RookMoves(g, piece.color, s)
    case Knight => Jumps(g, piece.color, s, KnightOffsets)
    case King => Jumps(g, piece.color, s, KingOffsets)
    case Pawn => PawnMoves(g, piece.color, s)
  }

  // ---------------------------------------------------------------------------
  // Properties of the generated moves
  // ---------------------------------------------------------------------------

  /** Every ray move starts at `start`, ends on the board further along, is not friendly and does not promote. */
  lemma {:induction false} RayMoves(g: Grid, color: Color, start: Position, cur: Position, dr: int, dc: int)
    requires InBounds(cur) && IsStep(dr, dc)
    decreases EdgeDistance(cur, dr, dc)
    ensures forall m :: m in Ray(g, color, start, cur, dr, dc) ==>
      m.start == start && OnBoard(m.end.row, m.end.col) && EdgeDistance(m.end, dr, dc) < EdgeDistance(cur, dr, dc) &&
      NotFriendly(g, color, m.end) && m.promotion.None?
  {
    var next := Next(cur, dr, dc);
    if OnBoard(next.row, next.col) && At(g, next).None? {
      RayMoves(g, color, start, next, dr, dc);
    }
  }

  /**
   * The shape of a ray: its i-th move ends i+1 steps from `cur`; every square
   * before the last end is empty; and the ray stops exactly where the source
   * stops: after capturing an enemy, or before the edge or a friendly piece.
   */
  lemma {:induction false} RayShape(g: Grid, color: Color, start: Position, cur: Position, dr: int, dc: int)
    requires InBounds(cur) && IsStep(dr, dc)
    decreases EdgeDistance(cur, dr, dc)
    ensures var r := Ray(g, color, start, cur, dr, dc);
      (forall i :: 0 <= i < |r| ==>
         r[i] == Move(start, Walk(cur, dr, dc, i + 1), None) && OnBoard(r[i].end.row, r[i].end.col)) &&
      (forall i :: 0 <= i < |r| - 1 ==> At(g, r[i].end).None?) &&
      var beyond := Walk(cur, dr, dc, |r| + 1);
      ((|r| > 0 && At(g, r[|r| - 1].end).Some?) ||
       !OnBoard(beyond.row, beyond.col) ||
       (At(g, beyond).Some? && At(g, beyond).value.color == color))
  {
    var next := Next(cur, dr, dc);
    if OnBoard(next.row, next.col) && At(g, next).None? {
      RayShape(g, color, start, next, dr, dc);
      var r := Ray(g, color, start, cur, dr, dc);
      var r' := Ray(g, color, start, next, dr, dc);
      assert r == [Move(start, next, None)] + r';
      forall i | 0 <= i < |r|
        ensures r[i] == Move(start, Walk(cur, dr, dc, i + 1), None)
      {
        if i > 0 {
          assert r[i] == r'[i - 1];
        }
      }
      assert Walk(cur, dr, dc, |r| + 1) == Walk(next, dr, dc, |r'| + 1);
    } else {
      assert Walk(cur, dr, dc, 1) == next;
    }
  }

  /** Along a ray, every square strictly between the start and a move's end is empty. */
  lemma RayPathClear(g: Grid, color: Color, s: Position, dr: int, dc: int, i: nat, k: nat)
    requires InBounds(s) && IsStep(dr, dc)
    requires i < |Ray(g, color, s, s, dr, dc)| && 1 <= k <= i
    ensures Walk(s, dr, dc, k) == Ray(g, color, s, s, dr, dc)[k - 1].end
    ensures InBounds(Walk(s, dr, dc, k)) && At(g, Walk(s, dr, dc, k)).None?
  {
    RayShape(g, color, s, s, dr, dc);
  }

  /** The moves of an offset table are exactly its on-board, non-friendly targets, at most one per entry. */
  lemma {:induction false} JumpsExact(g: Grid, color: Color, s: Position, offsets: seq<(int, int)>, m: Move)
    ensures |Jumps(g, color, s, offsets)| <= |offsets|
    ensures m in Jumps(g, color, s, offsets) <==>
      exists o :: o in offsets && m == Move(s, Offset(s, o), None) &&
        OnBoard(m.end.row, m.end.col) && NotFriendly(g, color, m.end)
  {
    if offsets != [] {
      var init := offsets[..|offsets| - 1];
      var last := offsets[|offsets| - 1];
      JumpsExact(g, color, s, init, m);
      assert offsets == init + [last];
      if m in Jumps(g, color, s, init) {
        var o :| o in init && m == Move(s, Offset(s, o), None) && OnBoard(m.end.row, m.end.col) && NotFriendly(g, color, m.end);
        assert o in offsets;
      }
    }
  }

  /** Knight moves: at most eight, each ending on the start plus one of the eight L-shaped offsets. */
  lemma KnightMoves(g: Grid, color: Color, s: Position, m: Move)
    requires InBounds(s)
    ensures |PseudoMoves(g, Piece(color, Knight), s)| <= 8
    ensures m in PseudoMoves(g, Piece(color, Knight), s) <==>
      exists o :: o in KnightOffsets && m == Move(s, Offset(s, o), None) &&
        OnBoard(m.end.row, m.end.col) && NotFriendly(g, color, m.end)
  {
    JumpsExact(g, color, s, KnightOffsets, m);
  }

  /** King moves: at most eight, each ending on one of the eight adjacent squares. */
  lemma KingMoves(g: Grid, color: Color, s: Position, m: Move)
    requires InBounds(s)
    ensures |PseudoMoves(g, Piece(color, King), s)| <= 8
    ensures m in PseudoMoves(g, Piece(color, King), s) <==>
      exists o :: o in KingOffsets && m == Move(s, Offset(s, o), None) &&
        OnBoard(m.end.row, m.end.col) && NotFriendly(g, color, m.end)
  {
    JumpsExact(g, color, s, KingOffsets, m);
  }

  /** A promotion is present on a move to row 1 or 8, and only there. */
  predicate PromotionFits(m: Move) {
    if m.end.row == 1 || m.end.row == 8 then m.promotion in {Some(Queen), Some(Bishop), Some(Knight), Some(Rook)}
    else m.promotion.None?
  }

  predicate PawnPush(g: Grid, c: Color, s: Position, m: Move) {
    m.end == Position(s.row + Direction(c), s.col) && OnBoard(m.end.row, m.end.col) &&
    At(g, m.end).None? && PromotionFits(m)
  }

  predicate PawnDoubleStep(g: Grid, c: Color, s: Position, m: Move)
    requires InBounds(s)
  {
    IsPawnStartRow(c, s.row) && m.end == Position(s.row + 2 * Direction(c), s.col) &&
    At(g, Position(s.row + Direction(c), s.col)).None? && At(g, m.end).None? && m.promotion.None?
  }

  predicate PawnTake(g: Grid, c: Color, s: Position, m: Move) {
    m.end.row == s.row + Direction(c) && (m.end.col == s.col - 1 || m.end.col == s.col + 1) &&
    OnBoard(m.end.row, m.end.col) && At(g, m.end).Some? && At(g, m.end).value.color != c && PromotionFits(m)
  }

  lemma PromotionsExact(s: Position, e: Position, m: Move)
    ensures m in Promotions(s, e) <==> m.start == s && m.end == e && PromotionFits(m)
  {
  }

  /**
   * A pawn move is exactly one of: a push onto an empty square; a double step
   * from row 2 (WHITE) or 7 (BLACK) over two empty squares; a diagonal step
   * onto an enemy. Pushes and captures reaching row 1 or 8 carry a promotion.
   */
  lemma PawnMovesExact(g: Grid, c: Color, s: Position, m: Move)
    requires InBounds(s)
    ensures m in PseudoMoves(g, Piece(c, Pawn), s) <==>
      m.start == s && (PawnPush(g, c, s, m) || PawnDoubleStep(g, c, s, m) || PawnTake(g, c, s, m))
  {
    var d := Direction(c);
    PromotionsExact(s, Position(s.row + d, s.col), m);
    PromotionsExact(s, Position(s.row + d, s.col - 1), m);
    PromotionsExact(s, Position(s.row + d, s.col + 1), m);
  }

  /** A pawn move to row 1 or 8 comes in all four promotions: queen, bishop, knight and rook. */
  lemma PawnPromotionFanOut(g: Grid, c: Color, s: Position, m: Move, k: Kind)
    requires InBounds(s)
    requires m in PseudoMoves(g, Piece(c, Pawn), s) && (m.end.row == 1 || m.end.row == 8)
    requires k in {Queen, Bishop, Knight, Rook}
    ensures m.promotion.Some?
    ensures Move(m.start, m.end, Some(k)) in PseudoMoves(g, Piece(c, Pawn), s)
  {
    PawnMovesExact(g, c, s, m);
    PawnMovesExact(g, c, s, Move(m.start, m.end, Some(k)));
  }

  lemma BishopMovesFacts(g: Grid, color: Color, s: Position)
    requires InBounds(s)
    ensures forall m :: m in BishopMoves(g, color, s) ==>
      m.start == s && m.end != s && OnBoard(m.end.row, m.end.col) && NotFriendly(g, color, m.end) && m.promotion.None?
  {
    RayMoves(g, color, s, s, -1, -1);
    RayMoves(g, color, s, s, 1, -1);
    RayMoves(g, color, s, s, -1, 1);
    RayMoves(g, color, s, s, 1, 1);
  }

  lemma RookMovesFacts(g: Grid, color: Color, s: Position)
    requires InBounds(s)
    ensures forall m :: m in RookMoves(g, color, s) ==>
      m.start == s && m.end != s && OnBoard(m.end.row, m.end.col) && NotFriendly(g, color, m.end) && m.promotion.None?
  {
    RayMoves(g, color, s, s, 0, -1);
    RayMoves(g, color, s, s, 0, 1);
    RayMoves(g, color, s, s, -1, 0);
    RayMoves(g, color, s, s, 1, 0);
  }

  /**
   * What every generated move satisfies: it starts on the given square, ends
   * on another addressable square (on the 8x8 area when the start column is
   * 1..8), never on a piece of the mover's colour, and promotes only when a
   * pawn reaches row 1 or 8.
   */
  lemma PseudoMovesFacts(g: Grid, piece: Piece, s: Position, m: Move)
    requires InBounds(s) && m in PseudoMoves(g, piece, s)
    ensures m.start == s && m.end != s && InBounds(m.end)
    ensures 1 <= s.col <= 8 ==> OnBoard(m.end.row, m.end.col)
    ensures NotFriendly(g, piece.color, m.end)
    ensures m.promotion.Some? ==> piece.kind == Pawn && (m.end.row == 1 || m.end.row == 8)
  {
    match piece.kind
    case Bishop => BishopMovesFacts(g, piece.color, s);
    case Rook => RookMovesFacts(g, piece.color, s);
    case Queen => BishopMovesFacts(g, piece.color, s); RookMovesFacts(g, piece.color, s);
    case Knight => JumpsExact(g, piece.color, s, KnightOffsets, m);
    case King => JumpsExact(g, piece.color, s, KingOffsets, m);
    case Pawn => PawnMovesExact(g, piece.color, s, m);
  }

  // ---------------------------------------------------------------------------
  // The Java methods; each only reads the board
  // ---------------------------------------------------------------------------

  /** Appending four lists one after the other appends their concatenation. */
  lemma AppendFour(a: seq<Move>, b: seq<Move>, c: seq<Move>, d: seq<Move>, e: seq<Move>)
    ensures a + b + c + d + e == a + (b + c + d + e)
  {
  }

  method PieceMoves(piece: Piece, board: ChessBoard, myPosition: Position) returns (moves: seq<Move>)
    requires board.Valid() && InBounds(myPosition)
    ensures moves == PseudoMoves(board.grid, piece, myPosition)
  {
    moves := [];
    match piece.kind
    case Bishop => moves := AddBishopMoves(piece, board, myPosition, moves);
    case Rook => moves := AddRookMoves(piece, board, myPosition, moves);
    case Queen => moves := AddQueenMoves(piece, board, myPosition, moves);
    case Knight => moves := AddKnightMoves(piece, board, myPosition, moves);
    case King => moves := AddKingMoves(piece, board, myPosition, moves);
    case Pawn => moves := AddPawnMoves(piece, board, myPosition, moves);
  }

  method AddBishopMoves(piece: Piece, board: ChessBoard, myPosition: Position, moves: seq<Move>) returns (result: seq<Move>)
    requires board.Valid() && InBounds(myPosition)
    ensures result == moves + BishopMoves(board.grid, piece.color, myPosition)
  {
    result := AddDiagonalMoves(piece, board, myPosition, moves, -1, -1);
    result := AddDiagonalMoves(piece, board, myPosition, result, 1, -1);
    result := AddDiagonalMoves(piece, board, myPosition, result, -1, 1);
    result := AddDiagonalMoves(piece, board, myPosition, result, 1, 1);
    ghost var g, c := board.grid, piece.color;
    AppendFour(moves, Ray(g, c, myPosition, myPosition, -1, -1), Ray(g, c, myPosition, myPosition, 1, -1),
      Ray(g, c, myPosition, myPosition, -1, 1), Ray(g, c, myPosition, myPosition, 1, 1));
  }

  method AddRookMoves(piece: Piece, board: ChessBoard, myPosition: Position, moves: seq<Move>) returns (result: seq<Move>)
    requires board.Valid() && InBounds(myPosition)
    ensures result == moves + RookMoves(board.grid, piece.color, myPosition)
  {
    result := AddStraightMoves(piece, board, myPosition, moves, 0, -1);
    result := AddStraightMoves(piece, board, myPosition, result, 0, 1);
    result := AddStraightMoves(piece, board, myPosition, result, -1, 0);
    result := AddStraightMoves(piece, board, myPosition, result, 1, 0);
    ghost var g, c := board.grid, piece.color;
    AppendFour(moves, Ray(g, c, myPosition, myPosition, 0, -1), Ray(g, c, myPosition, myPosition, 0, 1),
      Ray(g, c, myPosition, myPosition, -1, 0), Ray(g, c, myPosition, myPosition, 1, 0));
  }

  /** A queen's moves are the bishop's moves followed by the rook's. */
  method AddQueenMoves(piece: Piece, board: ChessBoard, myPosition: Position, moves: seq<Move>) returns (result: seq<Move>)
    requires board.Valid() && InBounds(myPosition)
    ensures result == moves + BishopMoves(board.grid, piece.color, myPosition) + RookMoves(board.grid, piece.color, myPosition)
  {
    result := AddBishopMoves(piece, board, myPosition, moves);
    result := AddRookMoves(piece, board, myPosition, result);
  }

  method AddKnightMoves(piece: Piece, board: ChessBoard, myPosition: Position, moves: seq<Move>) returns (result: seq<Move>)
    requires board.Valid() && InBounds(myPosition)
    ensures result == moves + Jumps(board.grid, piece.color, myPosition, KnightOffsets)
  {
    result := AddOffsetMoves(piece, board, myPosition, moves, KnightOffsets);
  }

  method AddKingMoves(piece: Piece, board: ChessBoard, myPosition: Position, moves: seq<Move>) returns (result: seq<Move>)
    requires board.Valid() && InBounds(myPosition)
    ensures result == moves + Jumps(board.grid, piece.color, myPosition, KingOffsets)
  {
    result := AddOffsetMoves(piece, board, myPosition, moves, KingOffsets);
  }

  /** The `for (int[] move : table)` loop shared by the knight and king helpers. */
  method AddOffsetMoves(piece: Piece, board: ChessBoard, myPosition: Position, moves: seq<Move>, table: seq<(int, int)>)
    returns (result: seq<Move>)
    requires board.Valid()
    ensures result == moves + Jumps(board.grid, piece.color, myPosition, table)
  {
    result := moves;
    for i := 0 to |table|
      invariant result == moves + Jumps(board.grid, piece.color, myPosition, table[..i])
    {
      assert table[..i + 1][..i] == table[..i];
      var newRow := myPosition.row + table[i].0;
      var newCol := myPosition.col + table[i].1;
      if OnBoard(newRow, newCol) {
        var newPosition := Position(newRow, newCol);
        var pieceAtNewPos := board.GetPiece(newPosition);
        if pieceAtNewPos.None? || pieceAtNewPos.value.color != piece.color {
          result := result + [Move(myPosition, newPosition, None)];
        }
      }
    }
    assert table[..|table|] == table;
  }

  method AddPawnMoves(piece: Piece, board: ChessBoard, myPosition: Position, moves: seq<Move>) returns (result: seq<Move>)
    requires board.Valid() && InBounds(myPosition)
    ensures result == moves + PawnMoves(board.grid, piece.color, myPosition)
  {
    ghost var g := board.grid;
    result := moves;
    var row := myPosition.row;
    var col := myPosition.col;
    var direction := if piece.color == White then 1 else -1;

    var forwardOne := Position(row + direction, col);
    ghost var push := PawnPushMoves(g, piece.color, myPosition);
    if OnBoard(forwardOne.row, forwardOne.col) && board.GetPiece(forwardOne).None? {
      result := AddPromotions(myPosition, forwardOne, result);
    }
    assert result == moves + push;

    assert direction == Direction(piece.color);
    var forwardTwo := Position(row + 2 * direction, col);
    ghost var double := PawnDoubleMoves(g, piece.color, myPosition);
    if (row == 2 && piece.color == White) || (row == 7 && piece.color == Black) {
      if board.GetPiece(forwardTwo).None? && board.GetPiece(forwardOne).None? {
        result := result + [Move(myPosition, forwardTwo, None)];
      }
    }
    assert result == moves + push + double;

    ghost var left := PawnCapture(g, piece.color, myPosition, row + direction, col - 1);
    ghost var right := PawnCapture(g, piece.color, myPosition, row + direction, col + 1);
    result := AddPawnCapture(piece, board, myPosition, row + direction, col - 1, result);
    result := AddPawnCapture(piece, board, myPosition, row + direction, col + 1, result);
    AppendFour(moves, push, double, left, right);
  }

  method AddDiagonalMoves(piece: Piece, board: ChessBoard, myPosition: Position, moves: seq<Move>,
                          rowIncrement: int, colIncrement: int) returns (result: seq<Move>)
    requires board.Valid() && InBounds(myPosition) && IsStep(rowIncrement, colIncrement)
    ensures result == moves + Ray(board.grid, piece.color, myPosition, myPosition, rowIncrement, colIncrement)
  {
    result := moves;
    var currentRow := myPosition.row;
    var currentCol := myPosition.col;
    while true
      invariant InBounds(Position(currentRow, currentCol))
      invariant result + Ray(board.grid, piece.color, myPosition, Position(currentRow, currentCol), rowIncrement, colIncrement)
        == moves + Ray(board.grid, piece.color, myPosition, myPosition, rowIncrement, colIncrement)
      decreases EdgeDistance(Position(currentRow, currentCol), rowIncrement, colIncrement)
    {
      currentRow := currentRow + rowIncrement;
      currentCol := currentCol + colIncrement;
      if !OnBoard(currentRow, currentCol) {
        break;
      }
      var newPosition := Position(currentRow, currentCol);
      var pieceAtNewPos := board.GetPiece(newPosition);
      if pieceAtNewPos.None? {
        result := result + [Move(myPosition, newPosition, None)];
      } else if pieceAtNewPos.value.color != piece.color {
        result := result + [Move(myPosition, newPosition, None)];
        break;
      } else {
        break;
      }
    }
  }

  method AddStraightMoves(piece: Piece, board: ChessBoard, myPosition: Position, moves: seq<Move>,
                          rowIncrement: int, colIncrement: int) returns (result: seq<Move>)
    requires board.Valid() && InBounds(myPosition) && IsStep(rowIncrement, colIncrement)
    ensures result == moves + Ray(board.grid, piece.color, myPosition, myPosition, rowIncrement, colIncrement)
  {
    result := moves;
    var currentRow := myPosition.row;
    var currentCol := myPosition.col;
    while true
      invariant InBounds(Position(currentRow, currentCol))
      invariant result + Ray(board.grid, piece.color, myPosition, Position(currentRow, currentCol), rowIncrement, colIncrement)
        == moves + Ray(board.grid, piece.color, myPosition, myPosition, rowIncrement, colIncrement)
      decreases EdgeDistance(Position(currentRow, currentCol), rowIncrement, colIncrement)
    {
      currentRow := currentRow + rowIncrement;
      currentCol := currentCol + colIncrement;
      if !OnBoard(currentRow, currentCol) {
        break;
      }
      var newPosition := Position(currentRow, currentCol);
      var pieceAtNewPos := board.GetPiece(newPosition);
      if pieceAtNewPos.None? {
        result := result + [Move(myPosition, newPosition, None)];
      } else if pieceAtNewPos.value.color != piece.color {
        result := result + [Move(myPosition, newPosition, None)];
        break;
      } else {
        break;
      }
    }
  }

  /** The branch shared by the push and the capture in addPawnMoves/addPawnCapture: four promotion
      moves (QUEEN, BISHOP, KNIGHT, ROOK) onto row 1 or 8, otherwise one plain move. */
  method AddPromotions(myPosition: Position, target: Position, moves: seq<Move>) returns (result: seq<Move>)
    ensures result == moves + Promotions(myPosition, target)
  {
    result := moves;
    if target.row == 1 || target.row == 8 {
      result := result + [Move(myPosition, target, Some(Queen))];
      result := result + [Move(myPosition, target, Some(Bishop))];
      result := result + [Move(myPosition, target, Some(Knight))];
      result := result + [Move(myPosition, target, Some(Rook))];
      AppendFour(moves, [Move(myPosition, target, Some(Queen))], [Move(myPosition, target, Some(Bishop))],
        [Move(myPosition, target, Some(Knight))], [Move(myPosition, target, Some(Rook))]);
    } else {
      result := result + [Move(myPosition, target, None)];
    }
  }

  method AddPawnCapture(piece: Piece, board: ChessBoard, myPosition: Position, newRow: int, newCol: int, moves: seq<Move>)
    returns (result: seq<Move>)
    requires board.Valid()
    ensures result == moves + PawnCapture(board.grid, piece.color, myPosition, newRow, newCol)
  {
    result := moves;
    if OnBoard(newRow, newCol) {
      var capturePosition := Position(newRow, newCol);
      var targetPiece := board.GetPiece(capturePosition);
      if targetPiece.Some? && targetPiece.value.color != piece.color {
        result := AddPromotions(myPosition, capturePosition, result);
      }
    }
  }
}
