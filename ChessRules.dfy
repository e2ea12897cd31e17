/** The chess.js library as the front end uses it, kept abstract.

    Move legality, SAN, FEN and PGN are not modelled: a `Rules` value supplies them
    as functions, and everything else in the model is proved for every such value.
    A `ChessGame` is what a chess.js `Chess` object holds: the positions from the
    starting one to the current one, and the verbose history of moves between them.
    A chess.js call that throws or returns null is `None` here. */
module ChessRules {
  import opened Wrappers

  datatype Color = White | Black

  function Opposite(c: Color): (o: Color)
    ensures o != c
  {
    if c == White then Black else White
  }

  datatype PieceType = Pawn | Knight | Bishop | Rook | Queen | King

  datatype Piece = Piece(color: Color, kind: PieceType)

  type Fen = string

  /** An algebraic square name such as "e4", as the boards build it. */
  type Square = string

  const StartFen: Fen := "rnbqkbnr/pppppppp/8/8/8/8/PPPPPPPP/RNBQKBNR w KQkq - 0 1"

  /** chess.js's verbose move object; `color` is the side that moved. */
  datatype MoveRecord = MoveRecord(
    color: Color, from: Square, to: Square, piece: PieceType,
    captured: Option<PieceType>, promotion: Option<PieceType>, san: string)

  /** The status queries of a `Chess` object. */
  datatype Status = Status(
    isCheck: bool, isCheckmate: bool, isDraw: bool, isStalemate: bool,
    isThreefoldRepetition: bool, isInsufficientMaterial: bool, isGameOver: bool)

  datatype ChessGameData = ChessGameData(positions: seq<Fen>, history: seq<MoveRecord>)

  /** One position more than moves: the start, then one after each move. */
  type ChessGame = g: ChessGameData | |g.positions| == |g.history| + 1 witness ChessGameData([StartFen], [])

  /** What the model needs of chess.js. `applyMove` is `move({from, to, promotion})`
      on a position, `applyText` is `move(text)` (SAN, or the long algebraic form the
      engine answers in), `pieceAt` is `get`, `turn` is `turn`; `status`, `pgn` and
      `loadPgn` see the whole game, since repetition and the PGN depend on history. */
  datatype Rules = Rules(
    applyMove: (Fen, Square, Square, Option<PieceType>) -> Option<(Fen, MoveRecord)>,
    applyText: (Fen, string) -> Option<(Fen, MoveRecord)>,
    pieceAt: (Fen, Square) -> Option<Piece>,
    turn: Fen -> Color,
    status: ChessGame -> Status,
    pgn: ChessGame -> string,
    loadPgn: string -> Option<ChessGame>)

  /** `new Chess()`, and `reset()`. */
  function NewGame(): (g: ChessGame)
    ensures g.history == [] && CurrentFen(g) == StartFen
  {
    ChessGameData([StartFen], [])
  }

  /** `new Chess(fen)`: the position without the moves that led to it. */
  function FromFen(fen: Fen): (g: ChessGame)
    ensures g.history == [] && CurrentFen(g) == fen
  {
    ChessGameData([fen], [])
  }

  function CurrentFen(g: ChessGame): Fen {
    g.positions[|g.positions| - 1]
  }

  function Turn(rules: Rules, g: ChessGame): Color {
    rules.turn(CurrentFen(g))
  }

  function PieceAt(rules: Rules, g: ChessGame, square: Square): Option<Piece> {
    rules.pieceAt(CurrentFen(g), square)
  }

  /** One position and one move more. */
  function Push(g: ChessGame, fen: Fen, rec: MoveRecord): (h: ChessGame)
    ensures h.history == g.history + [rec] && CurrentFen(h) == fen
    ensures h.positions[..|g.positions|] == g.positions
  {
    var h: ChessGame := ChessGameData(g.positions + [fen], g.history + [rec]);
    h
  }

  /** `move({from, to, promotion})` on a game. */
  function MoveFromTo(rules: Rules, g: ChessGame, from: Square, to: Square, promotion: Option<PieceType>): Option<ChessGame> {
    match rules.applyMove(CurrentFen(g), from, to, promotion)
    case None => None
    case Some((fen, rec)) => Some(Push(g, fen, rec))
  }

  /** `move(text)` on a game. */
  function MoveText(rules: Rules, g: ChessGame, text: string): Option<ChessGame> {
    match rules.applyText(CurrentFen(g), text)
    case None => None
    case Some((fen, rec)) => Some(Push(g, fen, rec))
  }

  /** The last move of a game, if any. */
  function LastMove(g: ChessGame): Option<MoveRecord> {
    if g.history == [] then None else Some(g.history[|g.history| - 1])
  }

  /** `undo()`: the game one move shorter, or `None` (null) at the start. */
  function Undo(g: ChessGame): (r: Option<ChessGame>)
    ensures r.None? <==> g.history == []
    ensures r.Some? ==> r.value.history == g.history[..|g.history| - 1]
  {
    if g.history == [] then None
    else
      var h: ChessGame := ChessGameData(g.positions[..|g.positions| - 1], g.history[..|g.history| - 1]);
      Some(h)
  }

  /** Undoing a move that was just made gives back the game before it. */
  lemma UndoPush(g: ChessGame, fen: Fen, rec: MoveRecord)
    ensures Undo(Push(g, fen, rec)) == Some(g)
    ensures LastMove(Push(g, fen, rec)) == Some(rec)
  {
    var h := Push(g, fen, rec);
    assert h.positions[..|h.positions| - 1] == g.positions;
    assert h.history[..|h.history| - 1] == g.history;
  }

  /** `move(m)` for each verbose move object of `ms` in turn (`move` reads its
      `from`, `to` and `promotion`); `None` as soon as one is refused. */
  function ReplayMoves(rules: Rules, g: ChessGame, ms: seq<MoveRecord>): (r: Option<ChessGame>)
    ensures r.Some? ==> |r.value.history| == |g.history| + |ms| && r.value.history[..|g.history|] == g.history
    ensures r.Some? ==> r.value.positions[..|g.positions|] == g.positions
    decreases |ms|
  {
    if ms == [] then Some(g)
    else
      match ReplayMoves(rules, g, ms[..|ms| - 1])
      case None => None
      case Some(h) =>
        var m := ms[|ms| - 1];
        var r := MoveFromTo(rules, h, m.from, m.to, m.promotion);
        if r.Some? then
          assert r.value.history[..|g.history|] == h.history[..|g.history|];
          assert r.value.positions[..|g.positions|] == h.positions[..|g.positions|];
          r
        else r
  }

  /** `move(san)` for each SAN of `sans` in turn; `None` as soon as one is refused. */
  function ReplaySans(rules: Rules, g: ChessGame, sans: seq<string>): (r: Option<ChessGame>)
    ensures r.Some? ==> |r.value.history| == |g.history| + |sans| && r.value.history[..|g.history|] == g.history
    ensures r.Some? ==> r.value.positions[..|g.positions|] == g.positions
    decreases |sans|
  {
    if sans == [] then Some(g)
    else
      match ReplaySans(rules, g, sans[..|sans| - 1])
      case None => None
      case Some(h) =>
        var r := MoveText(rules, h, sans[|sans| - 1]);
        if r.Some? then
          assert r.value.history[..|g.history|] == h.history[..|g.history|];
          assert r.value.positions[..|g.positions|] == h.positions[..|g.positions|];
          r
        else r
  }

  /** A replay that succeeds went through every shorter prefix. */
  lemma {:induction false} ReplayMovesPrefix(rules: Rules, g: ChessGame, ms: seq<MoveRecord>, k: nat)
    requires k <= |ms|
    requires ReplayMoves(rules, g, ms).Some?
    ensures ReplayMoves(rules, g, ms[..k]).Some?
    decreases |ms|
  {
    if k < |ms| {
      assert ms[..|ms| - 1][..k] == ms[..k];
      ReplayMovesPrefix(rules, g, ms[..|ms| - 1], k);
    } else {
      assert ms[..k] == ms;
    }
  }

  lemma {:induction false} ReplaySansPrefix(rules: Rules, g: ChessGame, sans: seq<string>, k: nat)
    requires k <= |sans|
    requires ReplaySans(rules, g, sans).Some?
    ensures ReplaySans(rules, g, sans[..k]).Some?
    decreases |sans|
  {
    if k < |sans| {
      assert sans[..|sans| - 1][..k] == sans[..k];
      ReplaySansPrefix(rules, g, sans[..|sans| - 1], k);
    } else {
      assert sans[..k] == sans;
    }
  }

  /** One step of a replay extends the prefix the loops of the front end have reached. */
  lemma ReplayMovesStep(rules: Rules, g: ChessGame, ms: seq<MoveRecord>, k: nat)
    requires k < |ms|
    ensures ReplayMoves(rules, g, ms[..k + 1]) ==
            match ReplayMoves(rules, g, ms[..k])
            case None => None
            case Some(h) => MoveFromTo(rules, h, ms[k].from, ms[k].to, ms[k].promotion)
  {
    assert ms[..k + 1][..k] == ms[..k];
  }

  lemma ReplaySansStep(rules: Rules, g: ChessGame, sans: seq<string>, k: nat)
    requires k < |sans|
    ensures ReplaySans(rules, g, sans[..k + 1]) ==
            match ReplaySans(rules, g, sans[..k])
            case None => None
            case Some(h) => MoveText(rules, h, sans[k])
  {
    assert sans[..k + 1][..k] == sans[..k];
  }

  /** Every intermediate position of a replay stays in the final game: after k
      moves the replay stands on the final game's position k. */
  lemma {:induction false} ReplaySansPositions(rules: Rules, g: ChessGame, sans: seq<string>, k: nat)
    requires k <= |sans|
    requires ReplaySans(rules, g, sans).Some?
    ensures ReplaySans(rules, g, sans[..k]).Some? &&
            ReplaySans(rules, g, sans[..k]).value.positions ==
            ReplaySans(rules, g, sans).value.positions[..|g.positions| + k]
    decreases |sans| - k
  {
    ReplaySansPrefix(rules, g, sans, k);
    if k == |sans| {
      assert sans[..k] == sans;
    } else {
      ReplaySansPositions(rules, g, sans, k + 1);
      ReplaySansStep(rules, g, sans, k);
      var hk := ReplaySans(rules, g, sans[..k]).value;
      var hk1 := ReplaySans(rules, g, sans[..k + 1]).value;
      assert hk1.positions[..|hk.positions|] == hk.positions;
      var full := ReplaySans(rules, g, sans).value.positions;
      assert |hk.positions| == |g.positions| + k;
      assert full[..|g.positions| + k] == full[..|g.positions| + k + 1][..|g.positions| + k];
    }
  }
}
