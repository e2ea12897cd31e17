/** The practice board (frontend/src/components/Chessboard.tsx): the two-click move
    input, the square colouring and the status banner under the board. */
module Chessboard {
  import opened Wrappers
  import opened ChessRules
  import opened ChessTypes
  import opened GameStore

  const Files: string := "abcdefgh"
  const Ranks: string := "87654321"

  /** The square drawn in row `rankIndex` (0 is the top row, rank 8) and column
      `fileIndex` (0 is file a). */
  function SquareName(rankIndex: nat, fileIndex: nat): (sq: Square)
    requires rankIndex < 8 && fileIndex < 8
    ensures |sq| == 2
  {
    [Files[fileIndex], Ranks[rankIndex]]
  }

  /** The 64 cells carry 64 different names. */
  lemma SquareNamesDistinct(r: nat, f: nat, r2: nat, f2: nat)
    requires r < 8 && f < 8 && r2 < 8 && f2 < 8
    requires SquareName(r, f) == SquareName(r2, f2)
    ensures r == r2 && f == f2
  {
    assert Files[f] == SquareName(r, f)[0] == Files[f2];
    assert Ranks[r] == SquareName(r, f)[1] == Ranks[r2];
  }

  /** The light colour goes where the row and column indices add up to an even number. */
  function IsLight(rankIndex: nat, fileIndex: nat): bool {
    (rankIndex + fileIndex) % 2 == 0
  }

  /** That is the standard board: a1 dark, h1 and a8 light, and every two squares
      sharing a side of different colours. */
  lemma StandardColouring(r: nat, f: nat)
    requires r < 8 && f < 8
    ensures SquareName(7, 0) == "a1" && !IsLight(7, 0)
    ensures SquareName(7, 7) == "h1" && IsLight(7, 7)
    ensures SquareName(0, 0) == "a8" && IsLight(0, 0)
    ensures f < 7 ==> IsLight(r, f) != IsLight(r, f + 1)
    ensures r < 7 ==> IsLight(r, f) != IsLight(r + 1, f)
  {
  }

  /** The square may be picked up: it holds a piece of the side to move. */
  predicate Selectable(rules: Rules, g: ChessGame, turn: Color, square: Square) {
    match PieceAt(rules, g, square)
    case Some(p) => p.color == turn
    case None => false
  }

  /** The selected square lives on `window`, outside any component. */
  class WindowSelection {
    var selectedSquare: Option<Square>

    constructor ()
      ensures selectedSquare.None?
    {
      selectedSquare := None;
    }
  }

  /** `handleSquareClick`. A finished game ignores clicks. Without a selection a click
      selects a square holding a piece of the side to move. With one, the click tries
      the move from the selection to the square, clears the selection and, when the
      move is refused, selects the clicked square if it could be selected. */
  method HandleSquareClick(win: WindowSelection, store: PracticeStore, square: Square)
    requires store.Valid()
    modifies win, store
    ensures store.Valid()
    ensures old(store.gameState.isCheckmate || store.gameState.isDraw) ==>
              win.selectedSquare == old(win.selectedSquare) && store.game == old(store.game) &&
              store.gameState == old(store.gameState)
    ensures !old(store.gameState.isCheckmate || store.gameState.isDraw) && old(win.selectedSquare).None? ==>
              store.game == old(store.game) && store.gameState == old(store.gameState) &&
              win.selectedSquare == (if Selectable(store.rules, store.game, store.gameState.turn, square) then Some(square) else None)
    ensures !old(store.gameState.isCheckmate || store.gameState.isDraw) && old(win.selectedSquare).Some? ==>
              var moved := MoveFromTo(store.rules, old(store.game), old(win.selectedSquare).value, square, None);
              (moved.Some? ==> store.game == moved.value && win.selectedSquare.None?) &&
              (moved.None? ==> store.game == old(store.game) && store.gameState == old(store.gameState) &&
                               win.selectedSquare == (if Selectable(store.rules, store.game, store.gameState.turn, square) then Some(square) else None))
    ensures !old(store.gameState.isCheckmate || store.gameState.isDraw) && win.selectedSquare.Some? ==>
              Selectable(store.rules, store.game, Turn(store.rules, store.game), win.selectedSquare.value)
  {
    if store.gameState.isCheckmate || store.gameState.isDraw {
      return;
    }
    var turn := store.gameState.turn;
    var game := store.game;
    match win.selectedSquare
    case None =>
      if Selectable(store.rules, game, turn, square) {
        win.selectedSquare := Some(square);
      }
    case Some(from) =>
      var success := store.MakeMove(from, square, None);
      win.selectedSquare := None;
      if !success && Selectable(store.rules, game, turn, square) {
        win.selectedSquare := Some(square);
      }
  }

  datatype Banner = CheckmateBanner(winner: Color) | DrawBanner | CheckBanner | TurnBanner(side: Color)

  /** The status boxes in the order the page draws them, each behind its own condition. */
  function ShownBanners(gs: GameState): seq<Banner> {
    (if gs.isCheckmate then [CheckmateBanner(if gs.turn == White then Black else White)] else []) +
    (if gs.isDraw && !gs.isCheckmate then [DrawBanner] else []) +
    (if gs.isCheck && !gs.isCheckmate && !gs.isDraw then [CheckBanner] else []) +
    (if !gs.isCheckmate && !gs.isDraw && !gs.isCheck then [TurnBanner(gs.turn)] else [])
  }

  /** Exactly one box shows; a checkmate names the side that did not get mated, and
      the plain box names the side to move. */
  lemma ExactlyOneBanner(gs: GameState)
    ensures |ShownBanners(gs)| == 1
    ensures gs.isCheckmate <==> ShownBanners(gs)[0].CheckmateBanner?
    ensures gs.isCheckmate ==> ShownBanners(gs)[0].winner == Opposite(gs.turn)
    ensures ShownBanners(gs)[0].DrawBanner? <==> gs.isDraw && !gs.isCheckmate
    ensures ShownBanners(gs)[0].TurnBanner? ==> ShownBanners(gs)[0].side == gs.turn
  {
  }
}
