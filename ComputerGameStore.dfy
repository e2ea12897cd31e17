/** The human-versus-engine store (frontend/src/store/computerGameStore.ts).

    Every move builds a fresh game from the current FEN (`new Chess(game.fen())`), so
    the store's `game` holds at most the last move, while `gameState.moves` and the
    capture lists are carried over and grown one move at a time. The ghost field
    `played` is the sequence of moves the store has accepted since the last reset;
    the invariant says the published lists are exactly its moves and its tally.

    `makeComputerMove` awaits the engine, so it is split at that point: the first
    half marks the store as thinking and hands back what the continuation captured,
    and the second half applies the engine's answer to that snapshot. */
module ComputerGameStore {
  import opened Wrappers
  import opened ChessRules
  import opened ChessTypes
  import Stockfish

  const InitialDifficulty: int := 5

  /** `createInitialGameState(game)`; the draw flag here is chess.js's `isDraw` alone. */
  function InitialState(rules: Rules, g: ChessGame): GameState {
    var st := rules.status(g);
    GameState(CurrentFen(g), rules.pgn(g), [], st.isCheck, st.isCheckmate, st.isDraw, Turn(rules, g), NoCaptures)
  }

  /** The state the store should publish for a game and the moves played so far. */
  function StoreState(rules: Rules, g: ChessGame, played: seq<MoveRecord>): GameState {
    var st := rules.status(g);
    GameState(CurrentFen(g), rules.pgn(g), MovesOf(played), st.isCheck, st.isCheckmate, st.isDraw,
              Turn(rules, g), Tally(played))
  }

  /** The `set({gameState: …})` after an accepted move: the new game's position and
      flags, the previous moves plus this one, the previous captures plus its capture. */
  function AfterMove(rules: Rules, prev: GameState, g: ChessGame, rec: MoveRecord): GameState {
    var st := rules.status(g);
    GameState(CurrentFen(g), rules.pgn(g), prev.moves + [ToMove(rec)], st.isCheck, st.isCheckmate, st.isDraw,
              Turn(rules, g), AddCapture(prev.capturedPieces, rec))
  }

  /** Growing the lists one move at a time agrees with rebuilding them from all moves. */
  lemma AfterMoveIsStoreState(rules: Rules, prev: GameState, played: seq<MoveRecord>, g: ChessGame, rec: MoveRecord)
    requires prev.moves == MovesOf(played) && prev.capturedPieces == Tally(played)
    ensures AfterMove(rules, prev, g, rec) == StoreState(rules, g, played + [rec])
  {
    MovesOfAppend(played, rec);
    TallyAppend(played, rec);
  }

  /** An accepted move adds one entry to the move list, and its captured piece, if
      any, to the list of the side that lost it; the other list is untouched. */
  lemma AfterMoveLists(rules: Rules, prev: GameState, g: ChessGame, rec: MoveRecord)
    ensures |AfterMove(rules, prev, g, rec).moves| == |prev.moves| + 1
    ensures AfterMove(rules, prev, g, rec).moves[|prev.moves|] == ToMove(rec)
    ensures var c := AfterMove(rules, prev, g, rec).capturedPieces;
            |c.white| + |c.black| == |prev.capturedPieces.white| + |prev.capturedPieces.black| +
                                     (if rec.captured.Some? then 1 else 0)
    ensures rec.color == White ==> AfterMove(rules, prev, g, rec).capturedPieces.white == prev.capturedPieces.white
    ensures rec.color == Black ==> AfterMove(rules, prev, g, rec).capturedPieces.black == prev.capturedPieces.black
  {
  }

  /** `(playerColor === 'white' && turn === 'w') || (playerColor === 'black' && turn === 'b')`. */
  function IsPlayerTurn(playerColor: Color, turn: Color): (r: bool)
    ensures r <==> playerColor == turn
  {
    (playerColor == White && turn == White) || (playerColor == Black && turn == Black)
  }

  /** What `makeComputerMove` holds across its await: the position it asked about, the
      published state it will extend, and the search depth it asked for. */
  datatype PendingComputerMove = PendingComputerMove(fen: Fen, gameState: GameState, depth: int)

  /** The store fields the engine's answer can change. */
  datatype Snapshot = Snapshot(game: ChessGame, gameState: GameState, isThinking: bool)

  /** `if (bestMove)`: JavaScript truthiness, which refuses null and the empty string. */
  predicate Truthy(bestMove: Option<string>) {
    bestMove.Some? && bestMove.value != ""
  }

  /** The continuation of `makeComputerMove` as written: a null or empty best move sets nothing,
      so the thinking flag stays set; a move chess.js refuses throws, and the catch
      clears the flag; an accepted move is published and clears the flag. */
  function ReplyAsWritten(rules: Rules, pending: PendingComputerMove, now: Snapshot, bestMove: Option<string>): (r: Snapshot)
    ensures r.isThinking <==> !Truthy(bestMove) && now.isThinking
    ensures !Truthy(bestMove) ==> r == now
  {
    if !Truthy(bestMove) then now
    else
      match rules.applyText(pending.fen, bestMove.value)
      case None => now.(isThinking := false)
      case Some((fen, rec)) =>
        var g := Push(FromFen(pending.fen), fen, rec);
        Snapshot(g, AfterMove(rules, pending.gameState, g, rec), false)
  }

  /** The continuation with the flag cleared on every path, a null or empty answer included. */
  function Reply(rules: Rules, pending: PendingComputerMove, now: Snapshot, bestMove: Option<string>): (r: Snapshot)
    ensures !r.isThinking
  {
    if !Truthy(bestMove) then now.(isThinking := false)
    else ReplyAsWritten(rules, pending, now, bestMove)
  }

  /** As written, a null answer (engine restart failed, search timed out, or `(none)`)
      leaves the store thinking with nothing changed; nothing else clears the flag
      before a reset, and the engine board ignores every click while it is set. */
  lemma NullReplyKeepsThinkingAsWritten(rules: Rules, pending: PendingComputerMove, now: Snapshot)
    requires now.isThinking
    ensures ReplyAsWritten(rules, pending, now, None).isThinking
    ensures ReplyAsWritten(rules, pending, now, None).game == now.game
    ensures ReplyAsWritten(rules, pending, now, Some("")) == now
  {
  }

  /** The corrected continuation never leaves the flag set, and it differs from the
      code as written only on a null or empty answer, where it changes nothing else. */
  lemma ReplyClearsThinking(rules: Rules, pending: PendingComputerMove, now: Snapshot, bestMove: Option<string>)
    ensures !Reply(rules, pending, now, bestMove).isThinking
    ensures Truthy(bestMove) ==> Reply(rules, pending, now, bestMove) == ReplyAsWritten(rules, pending, now, bestMove)
    ensures !Truthy(bestMove) ==>
              Reply(rules, pending, now, bestMove).game == now.game &&
              Reply(rules, pending, now, bestMove).gameState == now.gameState
  {
  }

  class ComputerStore {
    const rules: Rules
    var game: ChessGame
    var gameState: GameState
    var playerColor: Color
    var difficulty: int
    var isThinking: bool
    ghost var played: seq<MoveRecord>

    ghost predicate Valid()
      reads this
    {
      gameState == StoreState(rules, game, played) &&
      |game.history| <= 1 &&
      (game.history != [] ==> played != [] && game.history[0] == played[|played| - 1])
    }

    constructor (rules: Rules)
      ensures Valid() && this.rules == rules
      ensures game == NewGame() && gameState == InitialState(rules, NewGame()) && played == []
      ensures playerColor == White && difficulty == InitialDifficulty && !isThinking
    {
      this.rules := rules;
      game := NewGame();
      gameState := InitialState(rules, NewGame());
      playerColor, difficulty, isThinking := White, InitialDifficulty, false;
      played := [];
    }

    /** `initializeGame`, after `await stockfish.init()`. `engineStarted` is how that
        await ended: it resolves once the bridge is ready with a worker, and it rejects
        after `terminate()` has torn the bridge down. On a rejection the call rejects
        before any change; otherwise the engine gets the level (clamped there) with its
        commands sent, and the store a new game, the colour and the level as given. The
        engine moves first for Black. */
    method InitializeGame(color: Color, level: int, engine: Stockfish.StockfishService, engineStarted: bool)
      returns (ok: bool, computerFirst: bool)
      requires Valid() && engine.Valid()
      requires engineStarted ==> engine.isReady && engine.hasWorker
      requires !engineStarted ==> !engine.isReady && !engine.hasWorker && engine.messageQueue == []
      modifies this, engine
      ensures Valid() && engine.Valid() && ok == engineStarted
      ensures !ok ==> !computerFirst && unchanged(this) && unchanged(engine)
      ensures ok ==> game == NewGame() && gameState == InitialState(rules, NewGame()) && played == [] &&
                     playerColor == color && difficulty == level && !isThinking &&
                     computerFirst == (color == Black)
      ensures ok ==> engine.difficulty == Stockfish.ClampSkill(level) && engine.isReady &&
                     engine.sent == old(engine.sent) + Stockfish.DifficultyCommands(engine.difficulty)
    {
      if !engineStarted {
        return false, false;
      }
      var _ := engine.SetDifficulty(level);
      game := NewGame();
      gameState := InitialState(rules, game);
      playerColor, difficulty, isThinking := color, level, false;
      played := [];
      ok, computerFirst := true, color == Black;
    }

    /** `makePlayerMove`: refused when it is not the player's turn or chess.js refuses
        the move (nothing changes); otherwise the move is published and the engine's
        reply is scheduled unless the game is over. */
    method MakePlayerMove(from: Square, to: Square, promotion: Option<PieceType>)
      returns (accepted: bool, engineScheduled: bool)
      requires Valid()
      modifies this`game, this`gameState, this`played
      ensures Valid()
      ensures !IsPlayerTurn(playerColor, Turn(rules, old(game))) ==> !accepted
      ensures accepted <==> IsPlayerTurn(playerColor, Turn(rules, old(game))) &&
                            MoveFromTo(rules, FromFen(CurrentFen(old(game))), from, to, promotion).Some?
      ensures !accepted ==> game == old(game) && gameState == old(gameState) && played == old(played) && !engineScheduled
      ensures accepted ==> game == MoveFromTo(rules, FromFen(CurrentFen(old(game))), from, to, promotion).value &&
                           played == old(played) + [game.history[0]] &&
                           gameState == AfterMove(rules, old(gameState), game, game.history[0])
      ensures engineScheduled <==> accepted && !rules.status(game).isGameOver
    {
      if !IsPlayerTurn(playerColor, Turn(rules, game)) {
        return false, false;
      }
      var r := MoveFromTo(rules, FromFen(CurrentFen(game)), from, to, promotion);
      if r.None? {
        return false, false;
      }
      var g := r.value;
      assert g.history == FromFen(CurrentFen(game)).history + [g.history[0]];
      var rec := g.history[0];
      AfterMoveIsStoreState(rules, gameState, played, g, rec);
      gameState := AfterMove(rules, gameState, g, rec);
      game := g;
      played := played + [rec];
      accepted := true;
      engineScheduled := !rules.status(g).isGameOver;
    }

    /** The first half of `makeComputerMove`: nothing on a finished game; otherwise the
        store starts thinking and the engine is asked at the store's own `difficulty`
        as the search depth. */
    method RequestComputerMove() returns (pending: Option<PendingComputerMove>)
      requires Valid()
      modifies this`isThinking
      ensures Valid()
      ensures rules.status(game).isGameOver ==> pending.None? && isThinking == old(isThinking)
      ensures !rules.status(game).isGameOver ==>
                isThinking && pending == Some(PendingComputerMove(CurrentFen(game), gameState, difficulty))
    {
      if rules.status(game).isGameOver {
        return None;
      }
      isThinking := true;
      pending := Some(PendingComputerMove(CurrentFen(game), gameState, difficulty));
    }

    /** The second half, as written: the engine's answer applied to the captured
        snapshot (see `ReplyAsWritten`). A null or empty answer changes nothing, so the
        store goes on thinking; any other answer clears the flag. `pendingPlayed` is the
        ghost record of the moves behind the snapshot's state. */
    method ReceiveComputerMove(pending: PendingComputerMove, ghost pendingPlayed: seq<MoveRecord>, bestMove: Option<string>)
      requires Valid()
      requires pending.gameState.moves == MovesOf(pendingPlayed) && pending.gameState.capturedPieces == Tally(pendingPlayed)
      modifies this`game, this`gameState, this`isThinking, this`played
      ensures Valid()
      ensures Snapshot(game, gameState, isThinking) ==
              ReplyAsWritten(rules, pending, old(Snapshot(game, gameState, isThinking)), bestMove)
      ensures !Truthy(bestMove) ==> isThinking == old(isThinking) && game == old(game) && gameState == old(gameState)
      ensures Truthy(bestMove) ==> !isThinking
    {
      var now := Snapshot(game, gameState, isThinking);
      var s := ReplyAsWritten(rules, pending, now, bestMove);
      if Truthy(bestMove) && rules.applyText(pending.fen, bestMove.value).Some? {
        var (fen, rec) := rules.applyText(pending.fen, bestMove.value).value;
        AfterMoveIsStoreState(rules, pending.gameState, pendingPlayed, s.game, rec);
        played := pendingPlayed + [rec];
      }
      game, gameState, isThinking := s.game, s.gameState, s.isThinking;
    }

    /** The second half with the flag cleared on every path (see `Reply`): the same
        store update as the code as written, except that a null or empty answer also
        ends the thinking. */
    method ReceiveComputerMoveCorrected(pending: PendingComputerMove, ghost pendingPlayed: seq<MoveRecord>, bestMove: Option<string>)
      requires Valid()
      requires pending.gameState.moves == MovesOf(pendingPlayed) && pending.gameState.capturedPieces == Tally(pendingPlayed)
      modifies this`game, this`gameState, this`isThinking, this`played
      ensures Valid() && !isThinking
      ensures Snapshot(game, gameState, isThinking) ==
              Reply(rules, pending, old(Snapshot(game, gameState, isThinking)), bestMove)
    {
      var now := Snapshot(game, gameState, isThinking);
      var s := Reply(rules, pending, now, bestMove);
      ReplyClearsThinking(rules, pending, now, bestMove);
      if Truthy(bestMove) && rules.applyText(pending.fen, bestMove.value).Some? {
        var (fen, rec) := rules.applyText(pending.fen, bestMove.value).value;
        AfterMoveIsStoreState(rules, pending.gameState, pendingPlayed, s.game, rec);
        played := pendingPlayed + [rec];
      }
      game, gameState, isThinking := s.game, s.gameState, s.isThinking;
    }

    /** `resetGame`: a new game, no moves, no captures, not thinking; the colour and
        difficulty are kept. */
    method ResetGame()
      modifies this`game, this`gameState, this`isThinking, this`played
      ensures Valid()
      ensures game == NewGame() && gameState == InitialState(rules, NewGame()) && !isThinking && played == []
      ensures gameState.moves == [] && gameState.capturedPieces == NoCaptures
    {
      game := NewGame();
      gameState := InitialState(rules, game);
      isThinking := false;
      played := [];
    }
  }
}
