/** The board against the engine (frontend/src/components/ComputerChessboard.tsx): the
    practice board's click handling restricted to the player's pieces and turn, a
    promotion dialog, the board turned around for Black, and the status boxes. */
module ComputerChessboard {
  import opened Wrappers
  import opened ChessRules
  import opened ChessTypes
  import opened ComputerGameStore
  import Chessboard

  /** The rank a pawn of colour c promotes on. */
  function LastRank(c: Color): (rank: char)
    ensures rank == (if c == White then Chessboard.Ranks[0] else Chessboard.Ranks[7])
  {
    if c == White then '8' else '1'
  }

  /** `isPromotionMove(from, to)`: a pawn of either colour on `from`, and `to` on that
      colour's last rank; a target shorter than two characters has no rank. */
  predicate IsPromotionMove(rules: Rules, g: ChessGame, from: Square, to: Square) {
    match PieceAt(rules, g, from)
    case None => false
    case Some(p) => p.kind == Pawn && |to| >= 2 && to[1] == LastRank(p.color)
  }

  /** The player may pick up the square: a piece of the player's colour that is also
      the side to move. */
  predicate PlayerSelectable(rules: Rules, g: ChessGame, playerColor: Color, turn: Color, square: Square) {
    match PieceAt(rules, g, square)
    case Some(p) => p.color == playerColor && p.color == turn
    case None => false
  }

  /** The window's selection, when there is one, is a square the player may pick up. */
  predicate SelectionHeld(rules: Rules, g: ChessGame, playerColor: Color, turn: Color, selected: Option<Square>) {
    selected.Some? ==> PlayerSelectable(rules, g, playerColor, turn, selected.value)
  }

  /** A waiting promotion moves a pawn of the player's own colour to the top row of
      the board as the player sees it. */
  predicate OwnPromotion(rules: Rules, g: ChessGame, playerColor: Color, move: (Square, Square)) {
    PieceAt(rules, g, move.0) == Some(Piece(playerColor, Pawn)) && |move.1| >= 2 &&
    move.1[1] == DisplayRanks(playerColor)[0]
  }

  /** From a square the player may pick up, the dialog opens exactly for one of the
      player's pawns bound for the top row of the player's board: White's rank 8 and,
      on the board turned for Black, rank 1. */
  lemma PromotionOfSelected(rules: Rules, g: ChessGame, playerColor: Color, turn: Color, from: Square, to: Square)
    requires PlayerSelectable(rules, g, playerColor, turn, from)
    ensures IsPromotionMove(rules, g, from, to) <==> OwnPromotion(rules, g, playerColor, (from, to))
    ensures IsPromotionMove(rules, g, from, to) ==> playerColor == turn
  {
    assert DisplayRanks(White)[0] == '8' && DisplayRanks(Black)[0] == '1';
  }

  /** Clicks do anything only while the game runs and the engine is not thinking. */
  predicate AcceptsClicks(gs: GameState, isThinking: bool) {
    !(gs.isCheckmate || gs.isDraw || isThinking)
  }

  /** With the reply as written, a null answer leaves the board refusing every click
      for good; the corrected reply gives a running game its clicks back. */
  lemma FrozenBoardAsWritten(rules: Rules, pending: PendingComputerMove, now: Snapshot)
    requires now.isThinking
    ensures var s := ReplyAsWritten(rules, pending, now, None); !AcceptsClicks(s.gameState, s.isThinking)
    ensures var s := Reply(rules, pending, now, None);
            AcceptsClicks(s.gameState, s.isThinking) <==> !(now.gameState.isCheckmate || now.gameState.isDraw)
  {
    NullReplyKeepsThinkingAsWritten(rules, pending, now);
    ReplyClearsThinking(rules, pending, now, None);
  }

  /** The component's own state: the dialog flag and the move waiting for a piece. */
  class PromotionDialog {
    var showPromotion: bool
    var promotionMove: Option<(Square, Square)>

    constructor ()
      ensures !showPromotion && promotionMove.None?
    {
      showPromotion, promotionMove := false, None;
    }
  }

  /** `handleSquareClick`. Nothing happens while the game is over or the engine thinks.
      Without a selection the click selects one of the player's pieces when it is the
      player's turn. With one, a pawn move to the last rank opens the dialog and keeps
      the selection; any other target is tried as a move, the selection is cleared,
      and a refused move selects the clicked square if the player could select it.
      `engineScheduled` says whether the store scheduled the engine's reply. */
  method HandleSquareClick(win: Chessboard.WindowSelection, dialog: PromotionDialog, store: ComputerStore, square: Square)
    returns (engineScheduled: bool)
    requires store.Valid()
    modifies win, dialog, store`game, store`gameState, store`played
    ensures store.Valid()
    ensures !AcceptsClicks(old(store.gameState), old(store.isThinking)) ==>
              !engineScheduled && unchanged(win, dialog) && store.game == old(store.game) &&
              store.gameState == old(store.gameState)
    ensures AcceptsClicks(old(store.gameState), old(store.isThinking)) && old(win.selectedSquare).None? ==>
              !engineScheduled && unchanged(dialog) && store.game == old(store.game) && store.gameState == old(store.gameState) &&
              win.selectedSquare == (if PlayerSelectable(store.rules, store.game, store.playerColor, store.gameState.turn, square)
                                     then Some(square) else None)
    ensures AcceptsClicks(old(store.gameState), old(store.isThinking)) && old(win.selectedSquare).Some? &&
            IsPromotionMove(store.rules, old(store.game), old(win.selectedSquare).value, square) ==>
              !engineScheduled && win.selectedSquare == old(win.selectedSquare) && store.game == old(store.game) &&
              store.gameState == old(store.gameState) &&
              dialog.showPromotion && dialog.promotionMove == Some((old(win.selectedSquare).value, square))
    ensures AcceptsClicks(old(store.gameState), old(store.isThinking)) && old(win.selectedSquare).Some? &&
            !IsPromotionMove(store.rules, old(store.game), old(win.selectedSquare).value, square) ==>
              var moved := MoveFromTo(store.rules, FromFen(CurrentFen(old(store.game))), old(win.selectedSquare).value, square, None);
              var accepted := IsPlayerTurn(store.playerColor, Turn(store.rules, old(store.game))) && moved.Some?;
              unchanged(dialog) &&
              (accepted ==> store.game == moved.value && win.selectedSquare.None? &&
                            engineScheduled == !store.rules.status(store.game).isGameOver) &&
              (!accepted ==> !engineScheduled && store.game == old(store.game) && store.gameState == old(store.gameState) &&
                             win.selectedSquare == (if PlayerSelectable(store.rules, store.game, store.playerColor, store.gameState.turn, square)
                                                    then Some(square) else None))
    ensures old(SelectionHeld(store.rules, store.game, store.playerColor, store.gameState.turn, win.selectedSquare)) ==>
              SelectionHeld(store.rules, store.game, store.playerColor, store.gameState.turn, win.selectedSquare)
    ensures old(SelectionHeld(store.rules, store.game, store.playerColor, store.gameState.turn, win.selectedSquare)) &&
            AcceptsClicks(old(store.gameState), old(store.isThinking)) && old(win.selectedSquare).Some? &&
            IsPromotionMove(store.rules, old(store.game), old(win.selectedSquare).value, square) ==>
              store.playerColor == store.gameState.turn && OwnPromotion(store.rules, store.game, store.playerColor, dialog.promotionMove.value)
  {
    engineScheduled := false;
    if store.gameState.isCheckmate || store.gameState.isDraw || store.isThinking {
      return;
    }
    var game := store.game;
    var turn := store.gameState.turn;
    match win.selectedSquare
    case None =>
      if PlayerSelectable(store.rules, game, store.playerColor, turn, square) {
        win.selectedSquare := Some(square);
      }
    case Some(from) =>
      if IsPromotionMove(store.rules, game, from, square) {
        if PlayerSelectable(store.rules, game, store.playerColor, turn, from) {
          PromotionOfSelected(store.rules, game, store.playerColor, turn, from, square);
        }
        dialog.promotionMove := Some((from, square));
        dialog.showPromotion := true;
        return;
      }
      var success;
      success, engineScheduled := store.MakePlayerMove(from, square, None);
      win.selectedSquare := None;
      if !success && PlayerSelectable(store.rules, game, store.playerColor, turn, square) {
        win.selectedSquare := Some(square);
      }
  }

  /** `handlePromotion(piece)`: with a move waiting, try it with the chosen piece, then
      close the dialog and clear the selection whatever the outcome; with none, nothing. */
  method HandlePromotion(win: Chessboard.WindowSelection, dialog: PromotionDialog, store: ComputerStore, piece: PieceType)
    returns (engineScheduled: bool)
    requires store.Valid()
    modifies win, dialog, store`game, store`gameState, store`played
    ensures store.Valid()
    ensures old(dialog.promotionMove).None? ==>
              !engineScheduled && unchanged(win, dialog) && store.game == old(store.game) && store.gameState == old(store.gameState)
    ensures old(dialog.promotionMove).Some? ==>
              var (from, to) := old(dialog.promotionMove).value;
              var moved := MoveFromTo(store.rules, FromFen(CurrentFen(old(store.game))), from, to, Some(piece));
              var accepted := IsPlayerTurn(store.playerColor, Turn(store.rules, old(store.game))) && moved.Some?;
              !dialog.showPromotion && dialog.promotionMove.None? && win.selectedSquare.None? &&
              (accepted ==> store.game == moved.value && engineScheduled == !store.rules.status(store.game).isGameOver) &&
              (!accepted ==> !engineScheduled && store.game == old(store.game) && store.gameState == old(store.gameState))
  {
    engineScheduled := false;
    match dialog.promotionMove
    case None =>
    case Some((from, to)) =>
      var success;
      success, engineScheduled := store.MakePlayerMove(from, to, Some(piece));
      dialog.showPromotion := false;
      dialog.promotionMove := None;
      win.selectedSquare := None;
  }

  function Reverse(s: string): (r: string)
    ensures |r| == |s| && forall i :: 0 <= i < |s| ==> r[i] == s[|s| - 1 - i]
  {
    if s == [] then [] else Reverse(s[1..]) + [s[0]]
  }

  /** `indexOf`: the first position of c in s, or -1. */
  function IndexOf(s: string, c: char): int {
    if s == [] then -1
    else if s[0] == c then 0
    else
      var k := IndexOf(s[1..], c);
      if k < 0 then -1 else k + 1
  }

  /** In a string without repeated characters `indexOf` finds each character where it is. */
  lemma {:induction false} IndexOfDistinct(s: string, k: nat)
    requires k < |s| && forall i, j :: 0 <= i < j < |s| ==> s[i] != s[j]
    ensures IndexOf(s, s[k]) == k
  {
    if k > 0 {
      assert s[0] != s[k];
      assert s[1..][k - 1] == s[k];
      IndexOfDistinct(s[1..], k - 1);
    }
  }

  /** The rows and columns on screen: the usual order for White, both reversed for Black. */
  function DisplayRanks(playerColor: Color): string {
    if playerColor == White then Chessboard.Ranks else "12345678"
  }

  function DisplayFiles(playerColor: Color): string {
    if playerColor == White then Chessboard.Files else "hgfedcba"
  }

  /** Black's order is `[...RANKS].reverse()` and `[...FILES].reverse()`. */
  lemma BlackOrderIsReversed()
    ensures DisplayRanks(Black) == Reverse(Chessboard.Ranks)
    ensures DisplayFiles(Black) == Reverse(Chessboard.Files)
  {
    ReversedLiteral(Chessboard.Ranks, "12345678");
    ReversedLiteral(Chessboard.Files, "hgfedcba");
  }

  lemma ReversedLiteral(s: string, t: string)
    requires |s| == |t| && forall i :: 0 <= i < |s| ==> t[i] == s[|s| - 1 - i]
    ensures t == Reverse(s)
  {
  }

  /** The square in screen row r, column f. */
  function DisplayedSquare(playerColor: Color, r: nat, f: nat): Square
    requires r < 8 && f < 8
  {
    [DisplayFiles(playerColor)[f], DisplayRanks(playerColor)[r]]
  }

  /** `(RANKS.indexOf(rank) + FILES.indexOf(file)) % 2 === 0`: a square's colour from
      its place in the unturned board. */
  function SquareIsLight(rank: char, file: char): bool {
    (IndexOf(Chessboard.Ranks, rank) + IndexOf(Chessboard.Files, file)) % 2 == 0
  }

  /** The colour of the cell in screen row r, column f. */
  function CellIsLight(playerColor: Color, r: nat, f: nat): bool
    requires r < 8 && f < 8
  {
    SquareIsLight(DisplayRanks(playerColor)[r], DisplayFiles(playerColor)[f])
  }

  lemma RanksDistinct()
    ensures forall i, j :: 0 <= i < j < |Chessboard.Ranks| ==> Chessboard.Ranks[i] != Chessboard.Ranks[j]
  {
  }

  lemma FilesDistinct()
    ensures forall i, j :: 0 <= i < j < |Chessboard.Files| ==> Chessboard.Files[i] != Chessboard.Files[j]
  {
  }

  /** Screen row r and column f show rank and file number `rr`, `ff` of the unturned board. */
  lemma DisplayedIndices(playerColor: Color, r: nat, f: nat)
    requires r < 8 && f < 8
    ensures DisplayRanks(playerColor)[r] == Chessboard.Ranks[if playerColor == White then r else 7 - r]
    ensures DisplayFiles(playerColor)[f] == Chessboard.Files[if playerColor == White then f else 7 - f]
  {
  }

  /** The rank drawn in screen row r sits at `indexOf` 7 - r of RANKS when turned. */
  lemma ShownRankIndex(playerColor: Color, r: nat)
    requires r < 8
    ensures IndexOf(Chessboard.Ranks, DisplayRanks(playerColor)[r]) == (if playerColor == White then r else 7 - r)
  {
    DisplayedIndices(playerColor, r, 0);
    RanksDistinct();
    IndexOfDistinct(Chessboard.Ranks, if playerColor == White then r else 7 - r);
  }

  lemma ShownFileIndex(playerColor: Color, f: nat)
    requires f < 8
    ensures IndexOf(Chessboard.Files, DisplayFiles(playerColor)[f]) == (if playerColor == White then f else 7 - f)
  {
    DisplayedIndices(playerColor, 0, f);
    FilesDistinct();
    IndexOfDistinct(Chessboard.Files, if playerColor == White then f else 7 - f);
  }

  /** For Black every square moves to the opposite cell, and each square keeps its
      own colour, so the screen shows the same light and dark pattern either way. */
  lemma TurnedBoard(playerColor: Color, r: nat, f: nat)
    requires r < 8 && f < 8
    ensures DisplayedSquare(playerColor, r, f) ==
            (if playerColor == White then Chessboard.SquareName(r, f) else Chessboard.SquareName(7 - r, 7 - f))
    ensures CellIsLight(playerColor, r, f) == Chessboard.IsLight(r, f)
  {
    DisplayedIndices(playerColor, r, f);
    TurnedColour(playerColor, r, f);
  }

  lemma TurnedColour(playerColor: Color, r: nat, f: nat)
    requires r < 8 && f < 8
    ensures CellIsLight(playerColor, r, f) == Chessboard.IsLight(r, f)
  {
    var i := if playerColor == White then r else 7 - r;
    var j := if playerColor == White then f else 7 - f;
    ShownRankIndex(playerColor, r);
    ShownFileIndex(playerColor, f);
    SquareColourOf(DisplayRanks(playerColor)[r], DisplayFiles(playerColor)[f], i, j);
    CellParity(i, j, r, f, playerColor == Black);
  }

  lemma SquareColourOf(rank: char, file: char, i: int, j: int)
    requires IndexOf(Chessboard.Ranks, rank) == i && IndexOf(Chessboard.Files, file) == j
    ensures SquareIsLight(rank, file) == ((i + j) % 2 == 0)
  {
  }

  /** Turning both coordinates around keeps the parity of their sum. */
  lemma CellParity(i: int, j: int, r: int, f: int, turned: bool)
    requires i == (if turned then 7 - r else r) && j == (if turned then 7 - f else f)
    ensures ((i + j) % 2 == 0) == ((r + f) % 2 == 0)
  {
    if turned {
      assert i + j == (r + f) + 2 * (7 - r - f);
    }
  }

  /** The status boxes as this page draws them: as on the practice board, except that
      the side-to-move box is hidden while the engine thinks. */
  function ShownBanners(gs: GameState, isThinking: bool): seq<Chessboard.Banner> {
    (if gs.isCheckmate then [Chessboard.CheckmateBanner(if gs.turn == White then Black else White)] else []) +
    (if gs.isDraw && !gs.isCheckmate then [Chessboard.DrawBanner] else []) +
    (if gs.isCheck && !gs.isCheckmate && !gs.isDraw then [Chessboard.CheckBanner] else []) +
    (if !gs.isCheckmate && !gs.isDraw && !gs.isCheck && !isThinking then [Chessboard.TurnBanner(gs.turn)] else [])
  }

  /** At most one box shows, and none exactly while the engine thinks over a quiet
      position; otherwise it is the box the practice board shows. */
  lemma AtMostOneBanner(gs: GameState, isThinking: bool)
    ensures |ShownBanners(gs, isThinking)| <= 1
    ensures ShownBanners(gs, isThinking) == [] <==> isThinking && !gs.isCheckmate && !gs.isDraw && !gs.isCheck
    ensures ShownBanners(gs, isThinking) != [] ==> ShownBanners(gs, isThinking) == Chessboard.ShownBanners(gs)
    ensures gs.isCheckmate ==> ShownBanners(gs, isThinking) == [Chessboard.CheckmateBanner(Opposite(gs.turn))]
  {
  }
}
