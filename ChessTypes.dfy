/** The state both stores publish (frontend/src/types/chess.types.ts), and the
    capture bookkeeping they share: a captured piece is listed under the colour that
    LOST it, which is the colour opposite the side that moved. */
module ChessTypes {
  import opened Wrappers
  import opened ChessRules

  /** The front end's copy of a move: the verbose move without its colour. */
  datatype Move = Move(
    from: Square, to: Square, piece: PieceType,
    captured: Option<PieceType>, promotion: Option<PieceType>, san: string)

  /** `capturedPieces.white` holds White's pieces that were taken, `.black` Black's. */
  datatype CapturedPieces = CapturedPieces(white: seq<PieceType>, black: seq<PieceType>)

  const NoCaptures: CapturedPieces := CapturedPieces([], [])

  datatype GameState = GameState(
    fen: Fen, pgn: string, moves: seq<Move>,
    isCheck: bool, isCheckmate: bool, isDraw: bool,
    turn: Color, capturedPieces: CapturedPieces)

  /** The field-by-field copy `{from, to, piece, captured, promotion, san}`. */
  function ToMove(m: MoveRecord): (mv: Move)
    ensures mv.from == m.from && mv.to == m.to && mv.piece == m.piece && mv.san == m.san
    ensures mv.captured == m.captured && mv.promotion == m.promotion
  {
    Move(m.from, m.to, m.piece, m.captured, m.promotion, m.san)
  }

  /** `history.map(m => ({…}))`. */
  function MovesOf(history: seq<MoveRecord>): (moves: seq<Move>)
    ensures |moves| == |history|
    ensures forall i | 0 <= i < |history| :: moves[i] == ToMove(history[i])
  {
    seq(|history|, i requires 0 <= i < |history| => ToMove(history[i]))
  }

  lemma MovesOfAppend(history: seq<MoveRecord>, m: MoveRecord)
    ensures MovesOf(history + [m]) == MovesOf(history) + [ToMove(m)]
  {
  }

  lemma MovesOfPrefix(history: seq<MoveRecord>, k: nat)
    requires k <= |history|
    ensures MovesOf(history[..k]) == MovesOf(history)[..k]
  {
  }

  /** One move's contribution to the tally: its captured piece, if any, goes to the
      list of the colour opposite the mover. */
  function AddCapture(c: CapturedPieces, m: MoveRecord): (d: CapturedPieces)
    ensures m.captured.None? ==> d == c
    ensures m.captured.Some? && m.color == White ==> d == c.(black := c.black + [m.captured.value])
    ensures m.captured.Some? && m.color == Black ==> d == c.(white := c.white + [m.captured.value])
  {
    match m.captured
    case None => c
    case Some(p) => if m.color == White then c.(black := c.black + [p]) else c.(white := c.white + [p])
  }

  /** The tally of a whole history, move by move in order. */
  function Tally(history: seq<MoveRecord>): CapturedPieces
    decreases |history|
  {
    if history == [] then NoCaptures
    else AddCapture(Tally(history[..|history| - 1]), history[|history| - 1])
  }

  lemma TallyAppend(history: seq<MoveRecord>, m: MoveRecord)
    ensures Tally(history + [m]) == AddCapture(Tally(history), m)
  {
    assert (history + [m])[..|history|] == history;
  }

  /** The pieces taken by moves of `mover`, in the order they were taken. */
  function TakenBy(history: seq<MoveRecord>, mover: Color): seq<PieceType>
    decreases |history|
  {
    if history == [] then []
    else
      var m := history[0];
      (if m.color == mover && m.captured.Some? then [m.captured.value] else []) + TakenBy(history[1..], mover)
  }

  /** The number of capturing moves. */
  function CaptureCount(history: seq<MoveRecord>): nat
    decreases |history|
  {
    if history == [] then 0
    else (if history[0].captured.Some? then 1 else 0) + CaptureCount(history[1..])
  }

  lemma {:induction false} TakenByAppend(history: seq<MoveRecord>, m: MoveRecord, mover: Color)
    ensures TakenBy(history + [m], mover) ==
            TakenBy(history, mover) + (if m.color == mover && m.captured.Some? then [m.captured.value] else [])
    decreases |history|
  {
    if history == [] {
      assert [m][1..] == [];
    } else {
      var h := history + [m];
      assert h[0] == history[0];
      assert h[1..] == history[1..] + [m];
      TakenByAppend(history[1..], m, mover);
      var x := if history[0].color == mover && history[0].captured.Some? then [history[0].captured.value] else [];
      assert TakenBy(h, mover) == x + TakenBy(history[1..] + [m], mover);
      assert TakenBy(history, mover) == x + TakenBy(history[1..], mover);
    }
  }

  /** The tally lists, for each colour, exactly the pieces the other side took, in order. */
  lemma {:induction false} TallyIsTakenBy(history: seq<MoveRecord>)
    ensures Tally(history).white == TakenBy(history, Black)
    ensures Tally(history).black == TakenBy(history, White)
    decreases |history|
  {
    if history != [] {
      var n := |history|;
      var front := history[..n - 1];
      assert history == front + [history[n - 1]];
      TallyIsTakenBy(front);
      TakenByAppend(front, history[n - 1], Black);
      TakenByAppend(front, history[n - 1], White);
    }
  }

  lemma {:induction false} TakenByTotal(history: seq<MoveRecord>)
    ensures |TakenBy(history, White)| + |TakenBy(history, Black)| == CaptureCount(history)
    decreases |history|
  {
    if history != [] {
      TakenByTotal(history[1..]);
    }
  }

  /** The two lists together are exactly as long as there were capturing moves. */
  lemma CapturedTotal(history: seq<MoveRecord>)
    ensures |Tally(history).white| + |Tally(history).black| == CaptureCount(history)
  {
    TallyIsTakenBy(history);
    TakenByTotal(history);
  }
}
