/** The practice page's save-on-game-end effect (frontend/src/pages/GamePage.tsx): when the
    practice game is over it builds the record sent to the backend. The user always
    plays White against "Practice". */
module GamePage {
  import opened Wrappers
  import opened ChessRules
  import opened ChessTypes
  import opened GameStore

  datatype GameResult = Win | Loss | Draw

  datatype SavedGame = SavedGame(pgn: string, fen: Fen, result: GameResult, userColor: string, opponent: string)

  /** The user's result in a finished game: a checkmate goes against the side to move,
      and the user is White; anything else that ends the game is a draw. */
  function UserResult(isCheckmate: bool, turn: Color): (res: GameResult)
    ensures res == Win <==> isCheckmate && turn.Black?
    ensures res == Loss <==> isCheckmate && turn.White?
    ensures res == Draw <==> !isCheckmate
  {
    if isCheckmate then (if turn == White then Loss else Win) else Draw
  }

  /** The record `saveGameIfEnded` posts, or None when it posts nothing: the game must
      be over (checkmate or draw) and have at least one move. */
  function SaveGameIfEnded(gs: GameState): (r: Option<SavedGame>)
    ensures r.Some? <==> (gs.isCheckmate || gs.isDraw) && |gs.moves| > 0
    ensures r.Some? ==> r.value.pgn == gs.pgn && r.value.fen == gs.fen
    ensures r.Some? ==> r.value.userColor == "white" && r.value.opponent == "Practice"
    ensures r.Some? ==> r.value.result == (if gs.isCheckmate then UserResult(true, gs.turn) else Draw)
  {
    if !(gs.isCheckmate || gs.isDraw) then None
    else if |gs.moves| == 0 then None
    else Some(SavedGame(gs.pgn, gs.fen, UserResult(gs.isCheckmate, gs.turn), "white", "Practice"))
  }

  /** A checkmate outranks a draw flag: the result is never Draw once the board is mate. */
  lemma CheckmateIsDecisive(gs: GameState)
    requires gs.isCheckmate && |gs.moves| > 0
    ensures SaveGameIfEnded(gs).Some? && SaveGameIfEnded(gs).value.result != Draw
  {
  }

  /** Over the practice store's published state: a game is saved exactly when it has a
      move and chess.js reports checkmate or one of the draw kinds, with the PGN and
      FEN of the game as played; a fresh board is never saved. */
  lemma SaveOfStoreState(rules: Rules, g: ChessGame)
    ensures var st := rules.status(g);
            var r := SaveGameIfEnded(StateOf(rules, g));
            (r.Some? <==> (st.isCheckmate || PracticeDraw(st)) && |g.history| > 0) &&
            (r.Some? ==> r.value.pgn == rules.pgn(g) && r.value.fen == CurrentFen(g) &&
                         r.value.result == UserResult(st.isCheckmate, Turn(rules, g)))
    ensures SaveGameIfEnded(StateOf(rules, NewGame())).None?
  {
    assert |MovesOf(g.history)| == |g.history|;
  }
}
