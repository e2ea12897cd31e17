# Chess coach front end: a Dafny model

This project models the chess front end of *chess-coach-ai* and proves properties of the model. The modelled parts are:

- the bridge to the Stockfish engine;
- the move-by-move game analysis built on that bridge;
- the two game stores, one for practice and one for play against the engine;
- the move list, the replay viewer and the save-on-game-end rule;
- the click handling of the two boards;
- the difficulty labels of the engine game.

chess.js is kept abstract. `ChessRules.Rules` holds the library's answers as function values: move application by squares or by text, piece lookup, side to move, the status flags, PGN output and PGN loading. Every result is proved for every such value. A chess.js call that throws or returns `null` is `None`.

The engine is modelled two ways:

- **UCI bridge.** The worker is a flag plus the log of commands sent to it. Engine output arrives as `HandleIncoming(line)` calls. The queued one-shot listeners are the datatype `Stockfish.Handler`.
- **Game analysis.** The engine is an oracle `GameAnalysis.Engine`, which answers the k-th query of a run.

Scores are exact `real` pawns: `score cp n` is n/100 and a mate is ±100.

Methods whose source awaits are split at the await. Two examples:

- `GetBestMove` is followed by `StartBestMoveSearch`.
- `RequestComputerMove` is followed by `ReceiveComputerMove`.

In the second case, what the continuation captured is passed back explicitly as `PendingComputerMove`.

Modules follow the source files:

| module | source |
|---|---|
| `Stockfish` | `frontend/src/services/stockfish.ts` |
| `GameAnalysis` | `frontend/src/services/gameAnalysis.ts` |
| `GameStore` | `frontend/src/store/gameStore.ts` |
| `ComputerGameStore` | `frontend/src/store/computerGameStore.ts` |
| `ChessTypes` | `frontend/src/types/chess.types.ts` (its shapes) and the shared move and capture bookkeeping |
| `MoveHistory` | `frontend/src/components/MoveHistory.tsx` |
| `GameReplay` | `frontend/src/components/GameReplay.tsx` |
| `GamePage` | `frontend/src/pages/GamePage.tsx` |
| `Chessboard` | `frontend/src/components/Chessboard.tsx` |
| `ComputerChessboard` | `frontend/src/components/ComputerChessboard.tsx` |
| `ComputerGamePage` | `frontend/src/pages/ComputerGamePage.tsx` |
| `ChessRules` | the chess.js interface |
| `Text` | decimal rendering, `split`, `includes` and prefix tests |
| `Wrappers` | `Option` |

## Model

| member | source | states |
|---|---|---|
| Text.NatToString | frontend/src/services/stockfish.ts:179 | `${n}` for a natural number is a non-empty string of digits without a leading zero |
| Text.NatToStringValue | frontend/src/services/stockfish.ts:179 | reading the rendered digits back gives the number |
| Text.LeadingDigits | frontend/src/services/stockfish.ts:152 | the greedy `\d+` of the score regexes stops exactly at the first non-digit |
| Text.LeadingDigitsOf | frontend/src/services/stockfish.ts:152 | a run of digits followed by a non-digit is matched in full |
| Text.ContainsAt | frontend/src/services/stockfish.ts:151 | `includes` holds when the substring occurs at some position |
| Text.Split | frontend/src/services/stockfish.ts:121 | `split(' ')` yields at least one piece and no piece contains a space |
| Text.JoinSplit | frontend/src/services/stockfish.ts:121 | joining the pieces of `split` with the separator gives back the line |
| Text.SplitWithoutSeparator | frontend/src/services/stockfish.ts:121 | a line without the separator splits into itself |
| Text.SplitAtSeparator | frontend/src/services/stockfish.ts:121 | a separator cuts the line into the pieces of its two sides |
| Stockfish.BestMoveToken | frontend/src/services/stockfish.ts:119-123 | the resolved move is never empty, never `(none)`, and contains no space |
| Stockfish.BestMoveTokenOf | frontend/src/services/stockfish.ts:119-123 | `bestmove M` and `bestmove M ponder P` yield exactly `M` |
| Stockfish.DigitsOf | frontend/src/services/stockfish.ts:152-153 | the digits after a score key read back as the rendered natural number |
| Stockfish.SignedIntOf | frontend/src/services/stockfish.ts:152-157 | `(-?\d+)` followed by a non-digit reads back any rendered integer, negative ones included |
| Stockfish.FirstScoreFromIsLeftmost | frontend/src/services/stockfish.ts:152-155 | the match found is the leftmost one at or after the start position, and there is none when no position matches |
| Stockfish.FirstScoreOf | frontend/src/services/stockfish.ts:152-155 | when the first occurrence of the key is followed by n, the match is n |
| Stockfish.FirstScoreSkips | frontend/src/services/stockfish.ts:152-155 | positions where the key does not start do not change the leftmost match |
| Stockfish.LineScore | frontend/src/services/stockfish.ts:150-160 | a line without `score cp` can only set ±100 |
| Stockfish.CpLineScore | frontend/src/services/stockfish.ts:151-153 | a line `… score cp n …` sets the score to n/100 |
| Stockfish.MateLineScore | frontend/src/services/stockfish.ts:154-159 | a line with `score mate n` and no `score cp` sets +100 for n > 0 and −100 otherwise, mate 0 included |
| Stockfish.MateKeyPresent | frontend/src/services/stockfish.ts:154 | a line carrying `score mate n` passes the `includes('score mate')` test |
| Stockfish.MateScoreOfLine | frontend/src/services/stockfish.ts:154-159 | the mate branch is taken exactly when `score cp` is absent, and it maps the sign of n to ±100 |
| Stockfish.StepHandler | frontend/src/services/stockfish.ts:60-167 | the three listeners: the handshake resolves exactly on `uciok`, the search and the evaluation exactly on a `bestmove` line (the search with its token); a listener that does not resolve re-registers as the same kind |
| Stockfish.Dispatch | frontend/src/services/stockfish.ts:24-27 | an empty queue drops the line; otherwise exactly the oldest listener is removed, and the queue shrinks by one on a resolution or keeps its length on a re-queue, with the other listeners kept in order at the front |
| Stockfish.Feed | frontend/src/services/stockfish.ts:14-28 | lines handled one after another: the listeners still queued plus the resolutions number the listeners that were waiting, and no lines leave the queue as it was |
| Stockfish.DispatchKeepsListeners | frontend/src/services/stockfish.ts:24-27 | one line: the listener taken off the queue resolves as its own kind or goes back in the queue as its own kind |
| Stockfish.FeedKeepsListeners | frontend/src/services/stockfish.ts:14-28 | no listener is lost or duplicated: for each kind (handshake, search, evaluation) the listeners still queued plus the resolutions of that kind equal the listeners of that kind that were waiting |
| Stockfish.HandshakeRun | frontend/src/services/stockfish.ts:60-71 | the handshake listener re-queues through any lines and resolves on the first `uciok`, leaving the queue empty |
| Stockfish.BestMoveRun | frontend/src/services/stockfish.ts:118-127 | a lone best-move listener resolves on the first `bestmove` line with that line's token |
| Stockfish.ScoreAfterIsLastScore | frontend/src/services/stockfish.ts:149-160 | updating the score line by line ends with the score of the last line that carried one |
| Stockfish.EvalRunFrom | frontend/src/services/stockfish.ts:149-167 | an evaluation listener resolves on the first `bestmove` line with the score built up so far |
| Stockfish.EvalRun | frontend/src/services/stockfish.ts:143-167 | a lone evaluation, started at 0, resolves with the last score seen, or 0 when no line carried one |
| Stockfish.OverlappingRequestsMisattribute | frontend/src/services/stockfish.ts:24-27 | with a best-move request queued before an evaluation, an `info` line re-queues the search listener behind the evaluation; the `bestmove` then resolves the evaluation and the search keeps waiting |
| Stockfish.ClampSkill | frontend/src/services/stockfish.ts:177 | the level is clamped into 1..20, and levels already in range are kept |
| Stockfish.DifficultyCommands | frontend/src/services/stockfish.ts:178-183 | the Skill Level option always, then `Maximum Error = 100 − 4·level` if and only if the level is below 15, that value lying in 44..96 |
| Stockfish.StockfishService.constructor | frontend/src/services/stockfish.ts:3-8 | no worker, not ready, empty queue, difficulty 10 |
| Stockfish.StockfishService.SendCommand | frontend/src/services/stockfish.ts:81-94 | nothing is sent for an empty command or without a worker; otherwise exactly that command is appended |
| Stockfish.StockfishService.WaitForMessage | frontend/src/services/stockfish.ts:96-98 | the listener goes to the back of the queue |
| Stockfish.StockfishService.HandleIncoming | frontend/src/services/stockfish.ts:14-28 | `uciok` sets the ready flag and sends `ucinewgame`, and the line still goes to the oldest listener by `Dispatch` |
| Stockfish.StockfishService.HandleWorkerError | frontend/src/services/stockfish.ts:30-36 | a crash leaves no worker, not ready, no listeners |
| Stockfish.StockfishService.Init | frontend/src/services/stockfish.ts:43-79 | a ready bridge returns at once; otherwise the old worker is dropped, the handshake listener queued and `uci` sent; a failed spawn tears everything down |
| Stockfish.StockfishService.GetBestMove | frontend/src/services/stockfish.ts:100-134 | when ready it sends `ucinewgame`, `position fen F`, `go depth D` in order and queues its listener; otherwise it restarts the engine or, when that fails, gives up |
| Stockfish.StockfishService.StartBestMoveSearch | frontend/src/services/stockfish.ts:129-132 | the three search commands in order, then the listener |
| Stockfish.StockfishService.EvaluatePosition | frontend/src/services/stockfish.ts:136-174 | a bridge that is not ready answers 0 and sends nothing; otherwise `position fen F`, `go depth D` and a listener starting at 0 |
| Stockfish.StockfishService.SetDifficulty | frontend/src/services/stockfish.ts:176-187 | stores and returns the clamped level, and sends `DifficultyCommands` only when ready |
| Stockfish.StockfishService.Terminate | frontend/src/services/stockfish.ts:189-200 | no worker, not ready, empty queue, whatever the state before, so a second call changes nothing |
| ChessRules.Opposite | frontend/src/components/Chessboard.tsx:150 | the other colour is never the same colour |
| ChessRules.NewGame | frontend/src/store/gameStore.ts:50 | a new game has no moves and the standard start position |
| ChessRules.FromFen | frontend/src/store/computerGameStore.ts:77 | `new Chess(fen)` has no moves and the given position |
| ChessRules.Push | frontend/src/store/gameStore.ts:61-67 | a move adds exactly one history entry and one position, keeping the earlier ones |
| ChessRules.Undo | frontend/src/store/gameStore.ts:102 | `undo()` is null exactly at the start, and otherwise drops exactly the last move |
| ChessRules.UndoPush | frontend/src/store/gameStore.ts:102 | undoing the move just made gives back the game before it |
| ChessRules.ReplayMoves | frontend/src/components/GameReplay.tsx:40-43 | a successful replay of k moves adds exactly k moves and keeps what was there |
| ChessRules.ReplaySans | frontend/src/services/gameAnalysis.ts:40-56 | a successful replay by SAN adds one move and one position per SAN |
| ChessRules.ReplayMovesPrefix | frontend/src/components/GameReplay.tsx:41-43 | a replay that succeeds went through every shorter prefix |
| ChessRules.ReplaySansPrefix | frontend/src/services/gameAnalysis.ts:45-56 | the same for replays by SAN |
| ChessRules.ReplayMovesStep | frontend/src/components/GameReplay.tsx:41-43 | replaying one more move applies it to the game the shorter replay reached |
| ChessRules.ReplaySansStep | frontend/src/services/gameAnalysis.ts:45-56 | the same for replays by SAN |
| ChessRules.ReplaySansPositions | frontend/src/services/gameAnalysis.ts:45-60 | the positions of a prefix replay are the first ones of the full replay |
| ChessTypes.ToMove | frontend/src/store/gameStore.ts:69-76 | the published move copies each field of chess.js's move |
| ChessTypes.MovesOf | frontend/src/store/gameStore.ts:68-76 | the published list has one entry per history move, entry i being the copy of move i |
| ChessTypes.MovesOfAppend | frontend/src/store/computerGameStore.ts:106 | the move list of a longer history is the old list plus the new move |
| ChessTypes.MovesOfPrefix | frontend/src/store/gameStore.ts:105-113 | the move list of a shorter history is a prefix of the longer one's list |
| ChessTypes.AddCapture | frontend/src/store/computerGameStore.ts:86-90 | a White capture goes to the black list and a Black capture to the white list; a quiet move changes nothing |
| ChessTypes.TallyAppend | frontend/src/store/gameStore.ts:35-40 | the tally of a longer history adds the last move's capture to the shorter tally |
| ChessTypes.TakenByAppend | frontend/src/store/gameStore.ts:35-40 | one more move adds its capture to the captures of its colour only |
| ChessTypes.TallyIsTakenBy | frontend/src/store/gameStore.ts:31-43 | each colour's list is exactly the pieces the other side took, in history order |
| ChessTypes.TakenByTotal | frontend/src/store/gameStore.ts:35-40 | the captures of both colours together are as many as the capturing moves |
| ChessTypes.CapturedTotal | frontend/src/store/gameStore.ts:35-40 | the two lists together are exactly as long as the number of capturing moves, so quiet moves add nothing |
| GameStore.StateOf | frontend/src/store/gameStore.ts:79-88 | the published state of the practice store is rebuilt from the whole game: one move entry per history move and the captures tallied over the history (see StateAfterMove and StateAfterUndo) |
| GameStore.PracticeDrawFlag | frontend/src/store/gameStore.ts:22 | the draw flag is set exactly when chess.js reports a draw, a stalemate, a threefold repetition or insufficient material |
| GameStore.InitialStateOfNewGame | frontend/src/store/gameStore.ts:15-29 | the initial state has no moves and no captures, and agrees with the state rebuilt from a new game |
| GameStore.StateAfterMove | frontend/src/store/gameStore.ts:67-89 | after a move the move list is the old list plus that move, and the captures are the old tally plus its capture |
| GameStore.StateAfterUndo | frontend/src/store/gameStore.ts:100-127 | after an undo the move list is the old list without its last entry |
| GameStore.GetCapturedPieces | frontend/src/store/gameStore.ts:31-43 | the loop yields the tally, each colour's list being the pieces the other side took, with one entry per capturing move |
| GameStore.PracticeStore.constructor | frontend/src/store/gameStore.ts:45-47 | a new game and its initial state |
| GameStore.PracticeStore.ResetGame | frontend/src/store/gameStore.ts:130-136 | a new game with no moves and no captures |
| GameStore.PracticeStore.InitializeGame | frontend/src/store/gameStore.ts:49-55 | the same as a reset |
| GameStore.PracticeStore.Publish | frontend/src/store/gameStore.ts:78-89 | the published state is the one rebuilt from the game |
| GameStore.PracticeStore.MakeMove | frontend/src/store/gameStore.ts:57-98 | true exactly when chess.js accepts the move; the move list then grows by that move and matches the history; on refusal nothing changes |
| GameStore.PracticeStore.UndoMove | frontend/src/store/gameStore.ts:100-128 | with nothing to undo nothing changes; otherwise the move list loses exactly its last entry |
| GameStore.PracticeStore.LoadGame | frontend/src/store/gameStore.ts:138-165 | a PGN that loads replaces the game and rebuilds moves and captures from its history; one that does not load leaves the store as it was |
| ComputerGameStore.StoreState | frontend/src/store/computerGameStore.ts:18-32 | the state the engine store should publish for a game and the moves played since the reset; with no moves it is the initial state (see AfterMoveIsStoreState) |
| ComputerGameStore.AfterMove | frontend/src/store/computerGameStore.ts:146-172 | the state after an accepted engine or player move: one more move entry and its capture filed under the side that lost the piece (see AfterMoveLists) |
| ComputerGameStore.AfterMoveIsStoreState | frontend/src/store/computerGameStore.ts:86-113 | growing the lists one move at a time agrees with rebuilding them from every move played |
| ComputerGameStore.AfterMoveLists | frontend/src/store/computerGameStore.ts:86-106 | one more entry in the move list; the captured piece goes only to the list of the side that lost it |
| ComputerGameStore.IsPlayerTurn | frontend/src/store/computerGameStore.ts:68-70 | it is the player's turn exactly when the player's colour is the side to move |
| ComputerGameStore.ReplyAsWritten | frontend/src/store/computerGameStore.ts:139-180 | as written, `if (bestMove)` refuses null and the empty string: such an answer leaves the snapshot as it was, and the store is still thinking afterwards exactly when the answer was refused that way and it was thinking before |
| ComputerGameStore.Reply | frontend/src/store/computerGameStore.ts:139-180 | the corrected continuation never leaves the store thinking |
| ComputerGameStore.NullReplyKeepsThinkingAsWritten | frontend/src/store/computerGameStore.ts:136-180 | as written, a null best move leaves the store thinking with the board unchanged, and so does an empty one |
| ComputerGameStore.ReplyClearsThinking | frontend/src/store/computerGameStore.ts:136-180 | the corrected continuation always clears the thinking flag, and it agrees with the code as written whenever a non-empty move came back |
| ComputerGameStore.ComputerStore.constructor | frontend/src/store/computerGameStore.ts:34-39 | a new game, White, level 5, not thinking |
| ComputerGameStore.ComputerStore.InitializeGame | frontend/src/store/computerGameStore.ts:41-62 | when `init` rejected (the bridge torn down) nothing changes; when it resolved (the bridge ready with a worker) the engine gets the clamped level and is sent the Skill Level command, plus Maximum Error below 15, and the store gets a new game with the raw level and the colour; the engine moves first exactly for Black |
| ComputerGameStore.ComputerStore.MakePlayerMove | frontend/src/store/computerGameStore.ts:64-129 | refused, with nothing changed, when it is not the player's turn or chess.js refuses; otherwise exactly one move is added, and the engine's reply is scheduled exactly when the game is not over |
| ComputerGameStore.ComputerStore.RequestComputerMove | frontend/src/store/computerGameStore.ts:131-139 | nothing on a finished game; otherwise the store thinks and asks at its own raw difficulty as depth |
| ComputerGameStore.ComputerStore.ReceiveComputerMove | frontend/src/store/computerGameStore.ts:139-180 | as written: the answer is applied to the captured snapshot; a null or empty answer changes nothing and leaves the store thinking, any other answer clears the flag |
| ComputerGameStore.ComputerStore.ReceiveComputerMoveCorrected | frontend/src/store/computerGameStore.ts:139-180 | the corrected continuation: the same update as the code as written, and the thinking flag is cleared on every path, a null or empty answer included |
| ComputerGameStore.ComputerStore.ResetGame | frontend/src/store/computerGameStore.ts:183-190 | a new game, no moves, no captures, not thinking, with colour and difficulty kept |
| GameAnalysis.EvalDrop | frontend/src/services/gameAnalysis.ts:63-65 | the drop is positive exactly when the move made the evaluation worse for its mover, and zero exactly when the evaluation did not change |
| GameAnalysis.EvalDropOpposite | frontend/src/services/gameAnalysis.ts:63-65 | the same change is a drop for one colour and a gain of the same size for the other |
| GameAnalysis.Classify | frontend/src/services/gameAnalysis.ts:68-79 | the six bands, with each boundary on the side the code puts it, and `book` never produced |
| GameAnalysis.ClassifyMonotone | frontend/src/services/gameAnalysis.ts:68-79 | a larger drop never earns a better tier |
| GameAnalysis.GoodTierIsSmallDrop | frontend/src/services/gameAnalysis.ts:106-108 | a move counts as good for accuracy exactly when its drop is below 0.5 |
| GameAnalysis.Round | frontend/src/services/gameAnalysis.ts:110 | `Math.round` is the nearest integer, halves rounded up |
| GameAnalysis.RoundPercent | frontend/src/services/gameAnalysis.ts:110 | the rounded percentage lies in 0..100, is 100 for k = n, and lies within half a point of 100·k/n |
| GameAnalysis.RoundMonotone | frontend/src/services/gameAnalysis.ts:95 | rounding preserves order |
| GameAnalysis.PercentMonotone | frontend/src/services/gameAnalysis.ts:95 | a larger share never rounds to a smaller percentage |
| GameAnalysis.Progress | frontend/src/services/gameAnalysis.ts:95 | every progress report lies in 0..100 |
| GameAnalysis.ProgressMonotone | frontend/src/services/gameAnalysis.ts:94-96 | progress never goes back, and the last report is 100 |
| GameAnalysis.SideMovesAre | frontend/src/services/gameAnalysis.ts:100-101 | White's entries are the even plies and Black's the odd ones, in order, ⌈n/2⌉ and ⌊n/2⌋ of them |
| GameAnalysis.GoodCount | frontend/src/services/gameAnalysis.ts:106-108 | no more good moves than moves |
| GameAnalysis.CalculateAccuracy | frontend/src/services/gameAnalysis.ts:103-111 | 100 for a side without moves; otherwise within half a point of the share of good-tier moves, always in 0..100 |
| GameAnalysis.SummaryTotal | frontend/src/services/gameAnalysis.ts:114-121 | the six counts add up to the number of moves, and the three good tiers add up to the good count |
| GameAnalysis.AverageEvaluation | frontend/src/services/gameAnalysis.ts:130 | the mean exists exactly for a non-empty game, and times the count it gives the sum |
| GameAnalysis.Summarize | frontend/src/services/gameAnalysis.ts:99-132 | the result keeps the entries, both accuracies lie in 0..100, and an average exists exactly for a game with moves |
| GameAnalysis.PlyAnalysisChain | frontend/src/services/gameAnalysis.ts:81-91 | each entry's drop is measured against the previous entry's evaluation, the first against 0; it carries `⌊i/2⌋+1`, the SAN and the position after the move |
| GameAnalysis.PlyAnalysis | frontend/src/services/gameAnalysis.ts:81-89 | the reference entry of one ply: move number ⌊i/2⌋+1, the SAN, the position and evaluation after it, the best move before it, and its drop from the previous evaluation with that drop's class (stated and used through PlyAnalysisChain and NextEntry) |
| GameAnalysis.AllQueries | frontend/src/services/gameAnalysis.ts:52-60 | three engine queries per ply |
| GameAnalysis.PlyAnalyses | frontend/src/services/gameAnalysis.ts:45-89 | one entry per ply |
| GameAnalysis.PlyAnalysesAt | frontend/src/services/gameAnalysis.ts:81-89 | entry k of the list is the entry of ply k, in game order |
| GameAnalysis.ProgressReports | frontend/src/services/gameAnalysis.ts:94-96 | one progress report per ply |
| GameAnalysis.ProgressReportsShape | frontend/src/services/gameAnalysis.ts:94-96 | report k is `round(100·(k+1)/n)`, the reports never decrease, and the last is 100 |
| GameAnalysis.AllQueriesPrefix | frontend/src/services/gameAnalysis.ts:49-60 | later positions do not change the queries of earlier plies |
| GameAnalysis.PlyAnalysisPrefix | frontend/src/services/gameAnalysis.ts:49-60 | later positions do not change the entry of an earlier ply |
| GameAnalysis.PlyAnalysesPrefix | frontend/src/services/gameAnalysis.ts:45-89 | later positions do not change the entries of earlier plies |
| GameAnalysis.SansOf | frontend/src/services/gameAnalysis.ts:56 | the SAN list has one entry per history move, in order |
| GameAnalysis.NextPly | frontend/src/services/gameAnalysis.ts:45-97 | one more ply appends its entry and its three queries, and its evaluation after becomes the next reference |
| GameAnalysis.NextEntry | frontend/src/services/gameAnalysis.ts:60-89 | the entry of a new ply numbers its move, keeps its SAN and position after, and classifies the drop from the carried evaluation to the new one |
| GameAnalysis.NextQueries | frontend/src/services/gameAnalysis.ts:52-60 | one more ply adds exactly a best-move query and an evaluation query on the position before, then an evaluation query on the position after |
| GameAnalysis.AnalysisStep | frontend/src/services/gameAnalysis.ts:45-97 | one accepted ply keeps the loop state as the reference definitions give it: the replay grows by that move, and the entry, the progress report and the three queries are appended |
| GameAnalysis.ReplayFailsAt | frontend/src/services/gameAnalysis.ts:56 | a move that does not replay makes the whole replay fail |
| GameAnalysis.AnalyzePlies | frontend/src/services/gameAnalysis.ts:40-97 | the loop succeeds exactly when every SAN replays; it then returns the reference entries of all plies, one progress report per ply and the queries in order |
| GameAnalysis.AnalyzeGame | frontend/src/services/gameAnalysis.ts:32-132 | nothing when the PGN does not load or a move does not replay; otherwise the summary, accuracies and average of the reference entries, with progress rising to 100 |
| MoveHistory.Sans | frontend/src/components/MoveHistory.tsx:25-26 | the SAN of each published move, in order |
| MoveHistory.MovePairs | frontend/src/components/MoveHistory.tsx:22-28 | ⌈n/2⌉ pairs; pair k holds move 2k and move 2k+1 when that move exists |
| MoveHistory.FlattenPairing | frontend/src/components/MoveHistory.tsx:22-28 | reading the pairs back in order gives the move list |
| MoveHistory.IncompletePair | frontend/src/components/MoveHistory.tsx:26 | a pair lacks its second move exactly when it is the last pair and the number of moves is odd |
| MoveHistory.PairingEnds | frontend/src/components/MoveHistory.tsx:22-28 | no moves give no pairs, and the last pair ends with the last move |
| MoveHistory.PairLabel | frontend/src/components/MoveHistory.tsx:44 | pair k is labelled with the digits of k+1 and a dot |
| GameReplay.CursorAfter | frontend/src/components/GameReplay.tsx:47-66 | where each button puts the cursor when the replay succeeds (ranges proved in CursorStaysInRange) |
| GameReplay.CursorStaysInRange | frontend/src/components/GameReplay.tsx:47-66 | from a cursor in −1..len−1 every button keeps it there; Previous steps back except at −1, Next steps forward except at len−1 |
| GameReplay.InitialCursorWithoutMoves | frontend/src/components/GameReplay.tsx:12 | the initial cursor 0 is out of range for a game without moves, and End brings it to −1 |
| GameReplay.MoveLabel | frontend/src/components/GameReplay.tsx:161-163 | the label ends with the SAN and is longer than it |
| GameReplay.MoveLabelNumber | frontend/src/components/GameReplay.tsx:161-163 | the label of ply i starts with the digits of ⌊i/2⌋+1 and a dot |
| GameReplay.MoveLabelInjective | frontend/src/components/GameReplay.tsx:161-163 | two plies never share a label, since the separator `' '` or `'... '` tells White's move from Black's |
| GameReplay.PrefixFailsAt | frontend/src/components/GameReplay.tsx:41-43 | a move that is refused makes every longer replay fail |
| GameReplay.ReplayViewer.constructor | frontend/src/components/GameReplay.tsx:11-13 | the start position with the cursor at 0 |
| GameReplay.ReplayViewer.GoToMove | frontend/src/components/GameReplay.tsx:39-45 | from the start, moves 0..index are applied in order and the cursor becomes index; on a refused move or one past the end the cursor stays and the board keeps the moves applied |
| GameReplay.ReplayViewer.GoToStart | frontend/src/components/GameReplay.tsx:47-50 | the start position with the cursor at −1 |
| GameReplay.ReplayViewer.GoToPrevious | frontend/src/components/GameReplay.tsx:52-56 | nothing at −1; otherwise it succeeds exactly when the first `currentMoveIndex` moves replay, and then the cursor is one step back, the replay board is that replay and `currentFen` is its position (the start position at −1); a throw keeps the cursor and leaves the board on some replayed prefix |
| GameReplay.ReplayViewer.GoToNext | frontend/src/components/GameReplay.tsx:58-62 | nothing at len−1; otherwise it succeeds exactly when the first `currentMoveIndex + 2` moves replay, and then the cursor is one step forward, the replay board is that replay and `currentFen` is its position; a throw keeps the cursor and leaves the board on some replayed prefix |
| GameReplay.ReplayViewer.GoToEnd | frontend/src/components/GameReplay.tsx:64-66 | the cursor goes to len−1 with every move applied, or stays when the replay fails |
| GamePage.UserResult | frontend/src/pages/GamePage.tsx:29-32 | checkmate with White to move is a loss for the user and with Black to move a win; anything else is a draw |
| GamePage.SaveGameIfEnded | frontend/src/pages/GamePage.tsx:26-57 | a record exactly when the game is mate or drawn and has a move; it carries the pgn, the fen, `white` and `Practice`, and a checkmate result takes precedence over the draw flag |
| GamePage.CheckmateIsDecisive | frontend/src/pages/GamePage.tsx:29-32 | a checkmate is never saved as a draw |
| GamePage.SaveOfStoreState | frontend/src/pages/GamePage.tsx:26-40 | over the practice store, a game is saved exactly when it has a move and is mate or drawn; the record carries the game's PGN and FEN, and a fresh board is never saved |
| Chessboard.SquareName | frontend/src/components/Chessboard.tsx:94-97 | a square name has two characters |
| Chessboard.SquareNamesDistinct | frontend/src/components/Chessboard.tsx:94-97 | the 64 cells have different names |
| Chessboard.IsLight | frontend/src/components/Chessboard.tsx:99 | a cell is light when its row and column indices sum to an even number (what that means for a1, h1 and neighbours is StandardColouring) |
| Chessboard.StandardColouring | frontend/src/components/Chessboard.tsx:99 | a1 is dark and h1 and a8 light, and squares sharing a side differ in colour |
| Chessboard.WindowSelection.constructor | frontend/src/components/Chessboard.tsx:23 | no square selected |
| Chessboard.Selectable | frontend/src/components/Chessboard.tsx:26-27 | a square may be picked up when it holds a piece of the side to move |
| Chessboard.HandleSquareClick | frontend/src/components/Chessboard.tsx:20-55 | a finished game ignores clicks; without a selection only a piece of the side to move is selected; a move attempt clears the selection, and a refused one reselects the clicked square exactly when it holds a piece of the side to move |
| Chessboard.ShownBanners | frontend/src/components/Chessboard.tsx:148-169 | the status boxes the practice board renders, one per condition (exactly one shows, by ExactlyOneBanner) |
| Chessboard.ExactlyOneBanner | frontend/src/components/Chessboard.tsx:147-170 | exactly one status box shows; the checkmate box names the side not to move as the winner |
| ComputerChessboard.LastRank | frontend/src/components/ComputerChessboard.tsx:28-29 | White promotes on the top row's rank 8 and Black on the bottom row's rank 1 |
| ComputerChessboard.IsPromotionMove | frontend/src/components/ComputerChessboard.tsx:23-31 | a pawn on `from` whose target is on its colour's last rank; from a square the player may select, exactly a pawn of the player's colour bound for the top row of the player's board (PromotionOfSelected) |
| ComputerChessboard.PromotionOfSelected | frontend/src/components/ComputerChessboard.tsx:23-31 | from a square the player may select, the dialog opens exactly for one of the player's own pawns moving to the top row of the board as the player sees it (rank 8 for White, rank 1 on the board turned for Black), and only on the player's turn |
| ComputerChessboard.FrozenBoardAsWritten | frontend/src/components/ComputerChessboard.tsx:49 | as written, a null engine answer leaves the board refusing every click; with the corrected reply a running game accepts clicks again |
| ComputerChessboard.PromotionDialog.constructor | frontend/src/components/ComputerChessboard.tsx:14-15 | no dialog, no pending promotion |
| ComputerChessboard.HandleSquareClick | frontend/src/components/ComputerChessboard.tsx:48-97 | ignored in a finished game or while the engine thinks; selects only the player's pieces on the player's turn; a promotion target opens the dialog and keeps the selection; otherwise the move is tried, the selection cleared, and a refused move reselects the player's piece; a selection of the player's piece stays one, and a dialog opened from it waits on the player's own pawn |
| ComputerChessboard.HandlePromotion | frontend/src/components/ComputerChessboard.tsx:34-46 | with a pending move, it is tried with the chosen piece, then the dialog closes and the selection clears; with none nothing happens |
| ComputerChessboard.Reverse | frontend/src/components/ComputerChessboard.tsx:99-100 | the reversed order has the same length, element i being element n−1−i |
| ComputerChessboard.BlackOrderIsReversed | frontend/src/components/ComputerChessboard.tsx:99-100 | Black's rank and file orders are the reversed ones |
| ComputerChessboard.IndexOf | frontend/src/components/ComputerChessboard.tsx:167 | `indexOf` on the label strings: −1 when absent, else the first place holding the character (IndexOfDistinct) |
| ComputerChessboard.IndexOfDistinct | frontend/src/components/ComputerChessboard.tsx:167 | `indexOf` finds each character of a string without repeats at its own position |
| ComputerChessboard.RanksDistinct | frontend/src/components/ComputerChessboard.tsx:5 | the rank labels are all different |
| ComputerChessboard.FilesDistinct | frontend/src/components/ComputerChessboard.tsx:4 | the file labels are all different |
| ComputerChessboard.DisplayedIndices | frontend/src/components/ComputerChessboard.tsx:99-100 | screen row r and column f show rank and file r and f for White, and 7−r and 7−f for Black |
| ComputerChessboard.ShownRankIndex | frontend/src/components/ComputerChessboard.tsx:167 | `RANKS.indexOf` of a displayed rank is its place on White's board |
| ComputerChessboard.ShownFileIndex | frontend/src/components/ComputerChessboard.tsx:167 | `FILES.indexOf` of a displayed file is its place on White's board |
| ComputerChessboard.TurnedBoard | frontend/src/components/ComputerChessboard.tsx:162-167 | for Black each square moves to the opposite cell, and the light and dark pattern on screen is the same for either colour |
| ComputerChessboard.TurnedColour | frontend/src/components/ComputerChessboard.tsx:167 | the colour taken from the shown labels' places in `RANKS` and `FILES` is the parity of the screen cell, whichever side the player takes |
| ComputerChessboard.CellParity | frontend/src/components/ComputerChessboard.tsx:167 | turning both coordinates around keeps the parity of their sum |
| ComputerChessboard.ShownBanners | frontend/src/components/ComputerChessboard.tsx:210-231 | the status boxes the engine board renders, the turn box hidden while the engine thinks (at most one shows, by AtMostOneBanner) |
| ComputerChessboard.AtMostOneBanner | frontend/src/components/ComputerChessboard.tsx:208-231 | at most one status box, none exactly while the engine thinks over a quiet position, and the checkmate box names the side not to move |
| ComputerGamePage.LabelOf | frontend/src/pages/ComputerGamePage.tsx:33-39 | the label is determined: Beginner up to 3, Intermediate 4–7, Advanced 8–12, Expert 13–16, Master from 17 |
| ComputerGamePage.LabelMonotone | frontend/src/pages/ComputerGamePage.tsx:33-39 | a higher level never gets a lower band |
| ComputerGamePage.SliderBands | frontend/src/pages/ComputerGamePage.tsx:33-39 | on the slider's range 1..20 every band is reached, and the default 5 is Intermediate |
| ComputerGamePage.SetupPage.constructor | frontend/src/pages/ComputerGamePage.tsx:13-16 | the form shown, White, level 5, not loading |
| ComputerGamePage.SetupPage.SelectColor | frontend/src/pages/ComputerGamePage.tsx:60-81 | a colour button sets the chosen colour, except while loading, when it changes nothing |
| ComputerGamePage.SetupPage.SelectDifficulty | frontend/src/pages/ComputerGamePage.tsx:89-97 | the slider, whose range is 1..20, sets the chosen level, except while loading, when it changes nothing |
| ComputerGamePage.SetupPage.StartGame | frontend/src/pages/ComputerGamePage.tsx:19-31 | the form comes back exactly when the engine failed to start, loading always ends, and on success the store holds the chosen colour and level and the engine was sent the difficulty commands |
| ComputerGamePage.SetupPage.ChooseNewGame | frontend/src/pages/ComputerGamePage.tsx:164 | the New Game button shows the form again |

## Left out

- Worker transport is left out: `new Worker`, the WASM `locateFile` hook, `postMessage` and its exceptions, and console logging. The worker is a flag and a command log. A `postMessage` that throws, which tears the bridge down, is not modelled.
- `normalizeIncoming` is left out: lines arrive as strings.
- Timers are left out: the 30 s, 15 s and 10 s timeouts with the `stop` they send, the 100 ms delay before `uci` (the command is sent at once), and the 500 ms delays before the engine moves. The stores return whether the engine move was scheduled instead.
- Asynchrony is reduced to the split at each await. Interleavings of several pending calls are only modelled through the explicit queue and the captured `PendingComputerMove`.
- chess.js internals are left out: legality, SAN, FEN and PGN text, and check, mate and draw detection. They are the abstract `Rules`. chess.js's `isGameOver` is a status flag not tied to the others.
- Floating point is left out: scores and percentages are exact reals. IEEE rounding of `n/100`, of the subtraction and of `(k/n)*100` near a half is not modelled.
- GameAnalysis.AverageEvaluation: for an empty game the source divides 0 by 0 and reports NaN; the model reports `None`.
- The score sign convention is not modelled: UCI scores are relative to the side to move, and the analysis uses them as given.
- ComputerGameStore.ComputerStore.MakePlayerMove: the shared capture arrays are not modelled. The shallow copy followed by `push` also changes the previous state's arrays; the model keeps only the new state's lists.
- DOM class changes on selection are left out: `selected-square` and the CSS.
- Rendering, piece symbols is left out, and so is the disabling of the replay buttons.
- The replay page draws no board: it computes `currentFen` (GameReplay.tsx:76-78) but renders only the "Move X of N" line, so `GameReplay.ReplayViewer.CursorFen` is that computed value and nothing on screen is modelled from it.
- The promotion overlay covering the board, which keeps square clicks from reaching it while it is open, is not modelled.
- `isInitializing`, read on the engine game page, does not exist in the store, so it is always undefined; its loading screen is left out.
- The PGN of the engine store's game covers only the last move, because each move starts from `new Chess(fen)`. The model keeps this in `StoreState` but states nothing about PGN text.
- `loadGame` in the replay viewer is left out: the API call and `loadPgn` of the saved game. The viewer starts from the loaded move list.
- Backend, LLM coaching, authentication, routing and the HTTP client are outside the modelled front end.

## Findings

| source | as written | input that shows it | evidently intended | confidence | as-written member | corrected member |
|---|---|---|---|---|---|---|
| frontend/src/store/computerGameStore.ts:136-180 | `makeComputerMove` sets `isThinking` to true and clears it only after an applied move or in the catch; a null best move takes neither path | the engine answers `bestmove (none)`, the 15 s search timeout fires, or the engine restart fails, so `getBestMove` resolves with null | the thinking flag is cleared on every path, so the board accepts clicks again | not executed | ComputerGameStore.NullReplyKeepsThinkingAsWritten | ComputerGameStore.ReplyClearsThinking |

The engine store's continuation is kept in both forms: `ComputerGameStore.ComputerStore.ReceiveComputerMove` applies `ReplyAsWritten`, as the store does today, and `ComputerGameStore.ComputerStore.ReceiveComputerMoveCorrected` applies `Reply`.
