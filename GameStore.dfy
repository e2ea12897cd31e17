/** The practice-game store (frontend/src/store/gameStore.ts): one `Chess` game
    changed in place by `makeMove` and `undoMove`, and the `GameState` rebuilt from
    it after every change. */
module GameStore {
  import opened Wrappers
  import opened ChessRules
  import opened ChessTypes

  /** The practice board's draw flag: any of the four drawn endings. */
  function PracticeDraw(st: Status): bool {
    st.isDraw || st.isStalemate || st.isThreefoldRepetition || st.isInsufficientMaterial
  }

  /** `createInitialGameState(game)`: the game's position and flags, no moves, no captures. */
  function InitialState(rules: Rules, g: ChessGame): GameState {
    var st := rules.status(g);
    GameState(CurrentFen(g), rules.pgn(g), [], st.isCheck, st.isCheckmate, PracticeDraw(st),
              Turn(rules, g), NoCaptures)
  }

  /** The state `makeMove`, `undoMove` and `loadGame` publish for a game: its position,
      flags, every move of its history, and the captures rebuilt from that history. */
  function StateOf(rules: Rules, g: ChessGame): GameState {
    var st := rules.status(g);
    GameState(CurrentFen(g), rules.pgn(g), MovesOf(g.history), st.isCheck, st.isCheckmate,
              PracticeDraw(st), Turn(rules, g), Tally(g.history))
  }

  /** The published draw flag is set exactly when chess.js reports any of the four
      drawn endings, in the initial state as after a move. */
  lemma PracticeDrawFlag(rules: Rules, g: ChessGame)
    ensures var st := rules.status(g);
            StateOf(rules, g).isDraw <==> st.isDraw || st.isStalemate || st.isThreefoldRepetition || st.isInsufficientMaterial
    ensures InitialState(rules, g).isDraw == StateOf(rules, g).isDraw
  {
  }

  /** For a new game the initial state is the rebuilt one, so `StateOf` describes the
      store at all times. */
  lemma InitialStateOfNewGame(rules: Rules)
    ensures InitialState(rules, NewGame()) == StateOf(rules, NewGame())
    ensures InitialState(rules, NewGame()).moves == [] && InitialState(rules, NewGame()).capturedPieces == NoCaptures
  {
  }

  /** A move adds exactly its own copy to the move list and its capture to the tally. */
  lemma StateAfterMove(rules: Rules, g: ChessGame, fen: Fen, rec: MoveRecord)
    ensures StateOf(rules, Push(g, fen, rec)).moves == StateOf(rules, g).moves + [ToMove(rec)]
    ensures StateOf(rules, Push(g, fen, rec)).capturedPieces == AddCapture(StateOf(rules, g).capturedPieces, rec)
    ensures StateOf(rules, Push(g, fen, rec)).fen == fen
  {
    MovesOfAppend(g.history, rec);
    TallyAppend(g.history, rec);
  }

  /** Undoing drops exactly the last move from the move list. */
  lemma StateAfterUndo(rules: Rules, g: ChessGame)
    requires g.history != []
    ensures StateOf(rules, Undo(g).value).moves == StateOf(rules, g).moves[..|g.history| - 1]
    ensures |StateOf(rules, Undo(g).value).moves| == |StateOf(rules, g).moves| - 1
  {
    MovesOfPrefix(g.history, |g.history| - 1);
  }

  /** `getCapturedPieces`: the `forEach` over the history. */
  method GetCapturedPieces(history: seq<MoveRecord>) returns (captured: CapturedPieces)
    ensures captured == Tally(history)
    ensures captured.white == TakenBy(history, Black) && captured.black == TakenBy(history, White)
    ensures |captured.white| + |captured.black| == CaptureCount(history)
  {
    var white: seq<PieceType> := [];
    var black: seq<PieceType> := [];
    var i := 0;
    while i < |history|
      invariant 0 <= i <= |history|
      invariant CapturedPieces(white, black) == Tally(history[..i])
    {
      var m := history[i];
      if m.captured.Some? {
        if m.color == White {
          black := black + [m.captured.value];
        } else {
          white := white + [m.captured.value];
        }
      }
      assert history[..i + 1] == history[..i] + [m];
      TallyAppend(history[..i], m);
      i := i + 1;
    }
    assert history[..i] == history;
    captured := CapturedPieces(white, black);
    TallyIsTakenBy(history);
    CapturedTotal(history);
  }

  class PracticeStore {
    const rules: Rules
    var game: ChessGame
    var gameState: GameState

    /** The published state is always the one rebuilt from the game. */
    ghost predicate Valid()
      reads this
    {
      gameState == StateOf(rules, game)
    }

    constructor (rules: Rules)
      ensures Valid() && this.rules == rules
      ensures game == NewGame() && gameState == InitialState(rules, NewGame())
    {
      this.rules := rules;
      game := NewGame();
      gameState := InitialState(rules, NewGame());
    }

    /** `initializeGame` and `resetGame`: a new game and its initial state. */
    method ResetGame()
      modifies this
      ensures Valid()
      ensures game == NewGame() && gameState == InitialState(rules, NewGame())
      ensures gameState.moves == [] && gameState.capturedPieces == NoCaptures
    {
      game := NewGame();
      gameState := InitialState(rules, game);
      InitialStateOfNewGame(rules);
    }

    method InitializeGame()
      modifies this
      ensures Valid()
      ensures game == NewGame() && gameState == InitialState(rules, NewGame())
    {
      ResetGame();
    }

    /** The `set({gameState: …})` the three operations share, with the captures
        rebuilt by `getCapturedPieces`. */
    method Publish()
      modifies this`gameState
      ensures Valid()
    {
      var captured := GetCapturedPieces(game.history);
      var st := rules.status(game);
      gameState := GameState(CurrentFen(game), rules.pgn(game), MovesOf(game.history), st.isCheck,
                             st.isCheckmate, PracticeDraw(st), Turn(rules, game), captured);
    }

    /** `makeMove`: true and the rebuilt state when chess.js accepts the move; false
        and nothing changed when it refuses or throws. */
    method MakeMove(from: Square, to: Square, promotion: Option<PieceType>) returns (ok: bool)
      requires Valid()
      modifies this
      ensures Valid()
      ensures ok <==> MoveFromTo(rules, old(game), from, to, promotion).Some?
      ensures ok ==> game == MoveFromTo(rules, old(game), from, to, promotion).value
      ensures ok ==> gameState.moves == old(gameState.moves) + [ToMove(game.history[|game.history| - 1])]
      ensures ok ==> |gameState.moves| == |game.history|
      ensures !ok ==> game == old(game) && gameState == old(gameState)
    {
      var r := MoveFromTo(rules, game, from, to, promotion);
      if r.None? {
        return false;
      }
      var (fen, rec) := rules.applyMove(CurrentFen(game), from, to, promotion).value;
      StateAfterMove(rules, game, fen, rec);
      game := r.value;
      Publish();
      ok := true;
    }

    /** `undoMove`: nothing when there is no move to take back; otherwise one move fewer. */
    method UndoMove() returns (undone: bool)
      requires Valid()
      modifies this
      ensures Valid()
      ensures undone <==> old(game.history) != []
      ensures !undone ==> game == old(game) && gameState == old(gameState)
      ensures undone ==> game == Undo(old(game)).value &&
                         gameState.moves == old(gameState.moves)[..|old(gameState.moves)| - 1]
    {
      var r := Undo(game);
      if r.None? {
        return false;
      }
      StateAfterUndo(rules, game);
      game := r.value;
      Publish();
      undone := true;
    }

    /** `loadGame`: the parsed game and the state rebuilt from it; when chess.js
        cannot parse the PGN it throws and the store keeps what it had. */
    method LoadGame(pgn: string) returns (loaded: bool)
      requires Valid()
      modifies this
      ensures Valid()
      ensures loaded <==> rules.loadPgn(pgn).Some?
      ensures loaded ==> game == rules.loadPgn(pgn).value && gameState.moves == MovesOf(game.history)
      ensures loaded ==> gameState.capturedPieces == Tally(game.history)
      ensures !loaded ==> game == old(game) && gameState == old(gameState)
    {
      var r := rules.loadPgn(pgn);
      if r.None? {
        return false;
      }
      game := r.value;
      Publish();
      loaded := true;
    }
  }
}
