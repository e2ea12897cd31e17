/** Move-by-move analysis of a finished game (frontend/src/services/gameAnalysis.ts).

    The engine is an oracle: `Engine` answers the k-th query of a run, so nothing is
    taken for granted about it beyond being a function of the query number and position. Each
    ply asks three questions, in order: the best move before the move (query 3i), the
    evaluation before it (3i+1, asked but never used), and the evaluation after it
    (3i+2). Evaluations are pawns, used as the engine reports them. */
module GameAnalysis {
  import opened Wrappers
  import opened ChessRules

  const AnalysisDepth: int := 15

  datatype Classification = Brilliant | Great | Good | Inaccuracy | Mistake | Blunder | Book

  datatype MoveAnalysis = MoveAnalysis(
    moveNumber: int, move: string, fen: Fen, evaluation: real,
    bestMove: Option<string>, classification: Classification, evaluationDrop: real)

  datatype Summary = Summary(
    brilliantMoves: nat, greatMoves: nat, goodMoves: nat,
    inaccuracies: nat, mistakes: nat, blunders: nat)

  datatype Accuracy = Accuracy(white: int, black: int)

  /** `averageEvaluation` is `None` where the source divides 0 by 0. */
  datatype GameAnalysisResult = GameAnalysisResult(
    moves: seq<MoveAnalysis>, accuracy: Accuracy, summary: Summary, averageEvaluation: Option<real>)

  datatype Engine = Engine(bestMove: (nat, Fen) -> Option<string>, evaluate: (nat, Fen) -> real)

  datatype Query = BestMoveQuery(fen: Fen, depth: int) | EvalQuery(fen: Fen, depth: int)

  // ---------------------------------------------------------------------------
  // Per-move arithmetic
  // ---------------------------------------------------------------------------

  /** The evaluation drop from the mover's point of view: positive when the move made
      the position worse for the side that played it. */
  function EvalDrop(mover: Color, previousEval: real, evalAfter: real): (d: real)
    ensures d > 0.0 <==> (if mover == White then evalAfter < previousEval else evalAfter > previousEval)
    ensures d == 0.0 <==> evalAfter == previousEval
  {
    if mover == White then previousEval - evalAfter else evalAfter - previousEval
  }

  /** The same change in evaluation is a drop for one side exactly as much as it is a
      gain for the other. */
  lemma EvalDropOpposite(previousEval: real, evalAfter: real)
    ensures EvalDrop(White, previousEval, evalAfter) == -EvalDrop(Black, previousEval, evalAfter)
  {
  }

  /** The classification bands; `Book` is never produced. */
  function Classify(drop: real): (c: Classification)
    ensures c != Book
    ensures c == Brilliant <==> drop <= -0.5
    ensures c == Great <==> -0.5 < drop <= -0.2
    ensures c == Good <==> -0.2 < drop < 0.5
    ensures c == Inaccuracy <==> 0.5 <= drop < 1.5
    ensures c == Mistake <==> 1.5 <= drop < 3.0
    ensures c == Blunder <==> 3.0 <= drop
  {
    if drop <= 0.0 then
      if drop <= -0.5 then Brilliant else if drop <= -0.2 then Great else Good
    else
      if drop >= 3.0 then Blunder else if drop >= 1.5 then Mistake else if drop >= 0.5 then Inaccuracy else Good
  }

  /** A larger drop never earns a better tier. */
  lemma ClassifyMonotone(d1: real, d2: real)
    requires d1 <= d2
    ensures Rank(Classify(d1)) <= Rank(Classify(d2))
  {
  }

  /** Tiers from best to worst. */
  function Rank(c: Classification): nat {
    match c
    case Brilliant => 0
    case Great => 1
    case Good => 2
    case Inaccuracy => 3
    case Mistake => 4
    case Blunder => 5
    case Book => 6
  }

  /** `['brilliant', 'great', 'good'].includes(c)`. */
  predicate IsGoodTier(c: Classification) {
    c == Brilliant || c == Great || c == Good
  }

  lemma GoodTierIsSmallDrop(drop: real)
    ensures IsGoodTier(Classify(drop)) <==> drop < 0.5
  {
  }

  // ---------------------------------------------------------------------------
  // Rounding
  // ---------------------------------------------------------------------------

  /** `Math.round`: the nearest integer, halves rounded up. */
  function Round(x: real): (r: int)
    ensures r as real - 0.5 <= x < r as real + 0.5
  {
    (x + 0.5).Floor
  }

  lemma DivMono(a: real, b: real, c: real)
    requires 0.0 < c && a <= b
    ensures a / c <= b / c
  {
    assert a / c * c == a;
    assert b / c * c == b;
  }

  /** `Math.round((k / n) * 100)` for 0 <= k <= n. */
  function RoundPercent(k: nat, n: nat): (r: int)
    requires 0 < n && k <= n
    ensures 0 <= r <= 100
    ensures k == n ==> r == 100
    ensures r as real - 0.5 <= k as real / n as real * 100.0 < r as real + 0.5
  {
    DivMono(0.0, k as real, n as real);
    DivMono(k as real, n as real, n as real);
    assert n as real / n as real == 1.0;
    Round(k as real / n as real * 100.0)
  }

  lemma {:induction false} RoundMonotone(x: real, y: real)
    requires x <= y
    ensures Round(x) <= Round(y)
  {
    assert (x + 0.5).Floor <= (y + 0.5).Floor;
  }

  lemma PercentMonotone(i: nat, j: nat, n: nat)
    requires 0 < n && i <= j <= n
    ensures RoundPercent(i, n) <= RoundPercent(j, n)
  {
    DivMono(i as real, j as real, n as real);
    RoundMonotone(i as real / n as real * 100.0, j as real / n as real * 100.0);
  }

  /** The progress reported after ply i of n. */
  function Progress(i: nat, n: nat): (p: int)
    requires i < n
    ensures 0 <= p <= 100
  {
    RoundPercent(i + 1, n)
  }

  /** Progress never goes back and the last report is 100. */
  lemma ProgressMonotone(i: nat, j: nat, n: nat)
    requires i <= j < n
    ensures Progress(i, n) <= Progress(j, n)
    ensures Progress(n - 1, n) == 100
  {
    PercentMonotone(i + 1, j + 1, n);
  }

  // ---------------------------------------------------------------------------
  // Aggregates
  // ---------------------------------------------------------------------------

  /** `filter((_, i) => i % 2 === parity)`: White's plies are the even indices. */
  function SideMoves(ms: seq<MoveAnalysis>, parity: nat): seq<MoveAnalysis>
    decreases |ms|
  {
    if ms == [] then []
    else SideMoves(ms[..|ms| - 1], parity) + (if (|ms| - 1) % 2 == parity then [ms[|ms| - 1]] else [])
  }

  /** The count of one side's plies grows by one exactly at a ply of that side. */
  lemma HalfStep(n: nat, parity: nat)
    requires parity < 2
    ensures n % 2 == parity ==> 2 * ((n + 1 - parity) / 2) + parity == n && (n + 2 - parity) / 2 == (n + 1 - parity) / 2 + 1
    ensures n % 2 != parity ==> (n + 2 - parity) / 2 == (n + 1 - parity) / 2
  {
  }

  /** The side's entries are plies parity, parity + 2, parity + 4, …, in order. */
  lemma {:induction false} SideMovesAre(ms: seq<MoveAnalysis>, parity: nat)
    requires parity < 2
    ensures |SideMoves(ms, parity)| == (|ms| + 1 - parity) / 2
    ensures forall k | 0 <= k < |SideMoves(ms, parity)| :: SideMoves(ms, parity)[k] == ms[2 * k + parity]
    decreases |ms|
  {
    if ms != [] {
      var n := |ms| - 1;
      var init := ms[..n];
      SideMovesAre(init, parity);
      HalfStep(n, parity);
      var pre := SideMoves(init, parity);
      assert SideMoves(ms, parity) == pre + (if n % 2 == parity then [ms[n]] else []);
      assert forall k | 0 <= k < |pre| :: pre[k] == ms[2 * k + parity] by {
        forall k | 0 <= k < |pre| ensures pre[k] == ms[2 * k + parity] {
          assert pre[k] == init[2 * k + parity];
        }
      }
    }
  }

  function CountWhere(ms: seq<MoveAnalysis>, c: Classification): nat
    decreases |ms|
  {
    if ms == [] then 0 else (if ms[0].classification == c then 1 else 0) + CountWhere(ms[1..], c)
  }

  function GoodCount(ms: seq<MoveAnalysis>): (n: nat)
    ensures n <= |ms|
    decreases |ms|
  {
    if ms == [] then 0 else (if IsGoodTier(ms[0].classification) then 1 else 0) + GoodCount(ms[1..])
  }

  /** `calculateAccuracy`: 100 for a side with no moves, otherwise the share of
      good-tier moves as a rounded percentage. */
  function CalculateAccuracy(ms: seq<MoveAnalysis>): (a: int)
    ensures 0 <= a <= 100
    ensures ms == [] ==> a == 100
    ensures ms != [] ==> a as real - 0.5 <= GoodCount(ms) as real / |ms| as real * 100.0 < a as real + 0.5
    ensures ms != [] && GoodCount(ms) == |ms| ==> a == 100
  {
    if ms == [] then 100 else RoundPercent(GoodCount(ms), |ms|)
  }

  function SummaryOf(ms: seq<MoveAnalysis>): Summary {
    Summary(CountWhere(ms, Brilliant), CountWhere(ms, Great), CountWhere(ms, Good),
            CountWhere(ms, Inaccuracy), CountWhere(ms, Mistake), CountWhere(ms, Blunder))
  }

  /** With no `book` entries, every move is counted in exactly one of the six tiers,
      and the three good tiers are the good-tier moves. */
  lemma {:induction false} SummaryTotal(ms: seq<MoveAnalysis>)
    requires forall i | 0 <= i < |ms| :: ms[i].classification != Book
    ensures var s := SummaryOf(ms);
            s.brilliantMoves + s.greatMoves + s.goodMoves + s.inaccuracies + s.mistakes + s.blunders == |ms|
    ensures var s := SummaryOf(ms); s.brilliantMoves + s.greatMoves + s.goodMoves == GoodCount(ms)
    decreases |ms|
  {
    if ms != [] {
      SummaryTotal(ms[1..]);
    }
  }

  function SumEvaluations(ms: seq<MoveAnalysis>): real
    decreases |ms|
  {
    if ms == [] then 0.0 else ms[0].evaluation + SumEvaluations(ms[1..])
  }

  /** The mean evaluation, absent for an empty game. */
  function AverageEvaluation(ms: seq<MoveAnalysis>): (r: Option<real>)
    ensures r.Some? <==> ms != []
    ensures r.Some? ==> r.value * |ms| as real == SumEvaluations(ms)
  {
    if ms == [] then None else Some(SumEvaluations(ms) / |ms| as real)
  }

  function Summarize(ms: seq<MoveAnalysis>): (r: GameAnalysisResult)
    ensures r.moves == ms
    ensures 0 <= r.accuracy.white <= 100 && 0 <= r.accuracy.black <= 100
    ensures r.averageEvaluation.Some? <==> ms != []
  {
    GameAnalysisResult(ms, Accuracy(CalculateAccuracy(SideMoves(ms, 0)), CalculateAccuracy(SideMoves(ms, 1))),
                       SummaryOf(ms), AverageEvaluation(ms))
  }

  // ---------------------------------------------------------------------------
  // The plies
  // ---------------------------------------------------------------------------

  /** The engine's evaluation after ply i, i.e. of position i + 1. */
  function EvalAfter(engine: Engine, positions: seq<Fen>, i: nat): real
    requires i + 1 < |positions|
  {
    engine.evaluate(3 * i + 2, positions[i + 1])
  }

  /** The reference evaluation of ply i: 0 before the first ply, then the evaluation
      after the previous ply. */
  function PreviousEval(engine: Engine, positions: seq<Fen>, i: nat): real
    requires i < |positions|
  {
    if i == 0 then 0.0 else EvalAfter(engine, positions, i - 1)
  }

  /** The entry for ply i of a game whose positions are `positions`. */
  function PlyAnalysis(engine: Engine, history: seq<MoveRecord>, positions: seq<Fen>, i: nat): MoveAnalysis
    requires i < |history| && i + 1 < |positions|
  {
    var evalAfter := EvalAfter(engine, positions, i);
    var drop := EvalDrop(history[i].color, PreviousEval(engine, positions, i), evalAfter);
    MoveAnalysis(i / 2 + 1, history[i].san, positions[i + 1], evalAfter,
                 engine.bestMove(3 * i, positions[i]), Classify(drop), drop)
  }

  /** Each entry's drop is measured against the previous entry's evaluation, the
      first one against 0; plies 2k and 2k+1 share move number k + 1. */
  lemma PlyAnalysisChain(engine: Engine, history: seq<MoveRecord>, positions: seq<Fen>, i: nat)
    requires i < |history| && i + 1 < |positions|
    ensures var a := PlyAnalysis(engine, history, positions, i);
            a.evaluationDrop == EvalDrop(history[i].color,
                                         if i == 0 then 0.0 else PlyAnalysis(engine, history, positions, i - 1).evaluation,
                                         a.evaluation) &&
            a.classification == Classify(a.evaluationDrop) && a.classification != Book &&
            a.moveNumber == i / 2 + 1 && a.move == history[i].san && a.fen == positions[i + 1]
  {
  }

  /** The questions ply i puts to the engine, in order. */
  function PlyQueries(positions: seq<Fen>, i: nat): seq<Query>
    requires i + 1 < |positions|
  {
    [BestMoveQuery(positions[i], AnalysisDepth), EvalQuery(positions[i], AnalysisDepth),
     EvalQuery(positions[i + 1], AnalysisDepth)]
  }

  function AllQueries(positions: seq<Fen>, n: nat): (qs: seq<Query>)
    requires n < |positions|
    ensures |qs| == 3 * n
    decreases n
  {
    if n == 0 then [] else AllQueries(positions, n - 1) + PlyQueries(positions, n - 1)
  }

  /** The entries of the first n plies. */
  function PlyAnalyses(engine: Engine, history: seq<MoveRecord>, positions: seq<Fen>, n: nat): (ms: seq<MoveAnalysis>)
    requires n <= |history| && n < |positions|
    ensures |ms| == n
    decreases n
  {
    if n == 0 then [] else PlyAnalyses(engine, history, positions, n - 1) + [PlyAnalysis(engine, history, positions, n - 1)]
  }

  lemma {:induction false} PlyAnalysesAt(engine: Engine, history: seq<MoveRecord>, positions: seq<Fen>, n: nat, k: nat)
    requires n <= |history| && n < |positions| && k < n
    ensures PlyAnalyses(engine, history, positions, n)[k] == PlyAnalysis(engine, history, positions, k)
    decreases n
  {
    if k < n - 1 {
      PlyAnalysesAt(engine, history, positions, n - 1, k);
    }
  }

  /** The progress reports after the first i of n plies. */
  function ProgressReports(i: nat, n: nat): (ps: seq<int>)
    requires i <= n
    ensures |ps| == i
    decreases i
  {
    if i == 0 then [] else ProgressReports(i - 1, n) + [Progress(i - 1, n)]
  }

  /** The reports rise to 100, never going back. */
  lemma {:induction false} ProgressReportsShape(i: nat, n: nat)
    requires i <= n
    ensures forall k | 0 <= k < i :: ProgressReports(i, n)[k] == Progress(k, n)
    ensures forall j, k | 0 <= j <= k < i :: ProgressReports(i, n)[j] <= ProgressReports(i, n)[k]
    ensures 0 < i == n ==> ProgressReports(i, n)[n - 1] == 100
    decreases i
  {
    if i > 0 {
      ProgressReportsShape(i - 1, n);
      forall j, k | 0 <= j <= k < i
        ensures ProgressReports(i, n)[j] <= ProgressReports(i, n)[k]
      {
        ProgressMonotone(j, k, n);
      }
      ProgressMonotone(i - 1, i - 1, n);
    }
  }

  /** Extending the positions past the first n + 1 does not change the first n plies. */
  lemma {:induction false} AllQueriesPrefix(positions: seq<Fen>, longer: seq<Fen>, n: nat)
    requires n < |positions| <= |longer| && longer[..|positions|] == positions
    ensures AllQueries(longer, n) == AllQueries(positions, n)
    decreases n
  {
    if n > 0 {
      AllQueriesPrefix(positions, longer, n - 1);
      assert longer[n - 1] == positions[n - 1] && longer[n] == positions[n];
    }
  }

  lemma PlyAnalysisPrefix(engine: Engine, history: seq<MoveRecord>, positions: seq<Fen>, longer: seq<Fen>, i: nat)
    requires i < |history| && i + 1 < |positions| <= |longer| && longer[..|positions|] == positions
    ensures PlyAnalysis(engine, history, longer, i) == PlyAnalysis(engine, history, positions, i)
  {
    assert longer[i] == positions[i] && longer[i + 1] == positions[i + 1];
    if i > 0 {
      assert longer[i - 1] == positions[i - 1];
    }
  }

  function SansOf(history: seq<MoveRecord>): (sans: seq<string>)
    ensures |sans| == |history| && forall i | 0 <= i < |history| :: sans[i] == history[i].san
  {
    seq(|history|, i requires 0 <= i < |history| => history[i].san)
  }

  /** What one more ply adds: its entry, its queries, and the reference evaluation
      for the ply after it; the earlier entries stay as they were. */
  lemma NextPly(engine: Engine, history: seq<MoveRecord>, before: seq<Fen>, after: seq<Fen>, i: nat)
    requires i < |history| && |before| == i + 1 && |after| == i + 2 && after[..i + 1] == before
    ensures PreviousEval(engine, after, i + 1) == engine.evaluate(3 * i + 2, after[i + 1])
    ensures var evalAfter := engine.evaluate(3 * i + 2, after[i + 1]);
            var drop := EvalDrop(history[i].color, PreviousEval(engine, before, i), evalAfter);
            PlyAnalysis(engine, history, after, i) ==
            MoveAnalysis(i / 2 + 1, history[i].san, after[i + 1], evalAfter, engine.bestMove(3 * i, before[i]),
                         Classify(drop), drop)
    ensures AllQueries(after, i + 1) == AllQueries(before, i) +
            [BestMoveQuery(before[i], AnalysisDepth), EvalQuery(before[i], AnalysisDepth), EvalQuery(after[i + 1], AnalysisDepth)]
    ensures PlyAnalyses(engine, history, after, i + 1) ==
            PlyAnalyses(engine, history, before, i) + [PlyAnalysis(engine, history, after, i)]
  {
    NextEntry(engine, history, before, after, i);
    NextQueries(before, after, i);
    PlyAnalysesPrefix(engine, history, before, after, i);
  }

  lemma NextEntry(engine: Engine, history: seq<MoveRecord>, before: seq<Fen>, after: seq<Fen>, i: nat)
    requires i < |history| && |before| == i + 1 && |after| == i + 2 && after[..i + 1] == before
    ensures var evalAfter := engine.evaluate(3 * i + 2, after[i + 1]);
            var drop := EvalDrop(history[i].color, PreviousEval(engine, before, i), evalAfter);
            PlyAnalysis(engine, history, after, i) ==
            MoveAnalysis(i / 2 + 1, history[i].san, after[i + 1], evalAfter, engine.bestMove(3 * i, before[i]),
                         Classify(drop), drop)
  {
    assert after[i] == before[i];
    if i > 0 {
      assert after[i - 1] == before[i - 1];
    }
  }

  lemma NextQueries(before: seq<Fen>, after: seq<Fen>, i: nat)
    requires |before| == i + 1 && |after| == i + 2 && after[..i + 1] == before
    ensures AllQueries(after, i + 1) == AllQueries(before, i) +
            [BestMoveQuery(before[i], AnalysisDepth), EvalQuery(before[i], AnalysisDepth), EvalQuery(after[i + 1], AnalysisDepth)]
  {
    assert after[i] == before[i];
    AllQueriesPrefix(before, after, i);
  }

  lemma {:induction false} PlyAnalysesPrefix(engine: Engine, history: seq<MoveRecord>, positions: seq<Fen>, longer: seq<Fen>, n: nat)
    requires n <= |history| && n < |positions| <= |longer| && longer[..|positions|] == positions
    ensures PlyAnalyses(engine, history, longer, n) == PlyAnalyses(engine, history, positions, n)
    decreases n
  {
    if n > 0 {
      PlyAnalysesPrefix(engine, history, positions, longer, n - 1);
      PlyAnalysisPrefix(engine, history, positions, longer, n - 1);
    }
  }

  /** A move that does not replay makes the whole replay fail. */
  lemma ReplayFailsAt(rules: Rules, sans: seq<string>, i: nat, chess: ChessGame)
    requires i < |sans|
    requires ReplaySans(rules, NewGame(), sans[..i]) == Some(chess)
    requires MoveText(rules, chess, sans[i]).None?
    ensures ReplaySans(rules, NewGame(), sans).None?
  {
    ReplaySansStep(rules, NewGame(), sans, i);
    if ReplaySans(rules, NewGame(), sans).Some? {
      ReplaySansPrefix(rules, NewGame(), sans, i + 1);
    }
  }

  /** The state of the loop of `analyzeGame` after its first i plies: the replay of those
      plies, the evaluation carried to the next ply, and the entries, progress reports and
      queries so far, each as the reference definitions give them. */
  ghost predicate AnalysedUpTo(rules: Rules, engine: Engine, history: seq<MoveRecord>, i: nat, chess: ChessGame,
                               previousEval: real, moveAnalyses: seq<MoveAnalysis>, progress: seq<int>, queries: seq<Query>)
  {
    i <= |history| &&
    ReplaySans(rules, NewGame(), SansOf(history)[..i]) == Some(chess) &&
    |chess.positions| == i + 1 &&
    previousEval == PreviousEval(engine, chess.positions, i) &&
    moveAnalyses == PlyAnalyses(engine, history, chess.positions, i) &&
    progress == ProgressReports(i, |history|) &&
    queries == AllQueries(chess.positions, i)
  }

  /** One accepted ply of the loop keeps its state as the reference definitions say. */
  lemma AnalysisStep(rules: Rules, engine: Engine, history: seq<MoveRecord>, i: nat, chess: ChessGame,
                     previousEval: real, moveAnalyses: seq<MoveAnalysis>, progress: seq<int>, queries: seq<Query>,
                     next: ChessGame)
    requires i < |history| && |chess.positions| == i + 1
    requires MoveText(rules, chess, SansOf(history)[i]) == Some(next)
    ensures |next.positions| == i + 2
    ensures AnalysedUpTo(rules, engine, history, i, chess, previousEval, moveAnalyses, progress, queries) ==>
            var fenBefore := CurrentFen(chess);
            var fenAfter := CurrentFen(next);
            var evalAfter := engine.evaluate(3 * i + 2, fenAfter);
            var drop := EvalDrop(history[i].color, previousEval, evalAfter);
            AnalysedUpTo(rules, engine, history, i + 1, next, evalAfter,
                         moveAnalyses + [MoveAnalysis(i / 2 + 1, history[i].san, fenAfter, evalAfter,
                                                      engine.bestMove(3 * i, fenBefore), Classify(drop), drop)],
                         progress + [Progress(i, |history|)],
                         queries + [BestMoveQuery(fenBefore, AnalysisDepth), EvalQuery(fenBefore, AnalysisDepth),
                                    EvalQuery(fenAfter, AnalysisDepth)])
  {
    ReplaySansStep(rules, NewGame(), SansOf(history), i);
    assert |next.positions| == i + 2 && next.positions[..i + 1] == chess.positions;
    assert CurrentFen(chess) == chess.positions[i] && CurrentFen(next) == next.positions[i + 1];
    NextPly(engine, history, chess.positions, next.positions, i);
  }

  /** The loop of `analyzeGame` over the plies of `history`, replayed by SAN from the
      standard start: one entry, one progress report and three engine queries per ply,
      in order. `None` when a move does not replay (chess.js throws); the reports and
      queries made up to that point are still returned. */
  method AnalyzePlies(rules: Rules, engine: Engine, history: seq<MoveRecord>)
    returns (analyses: Option<seq<MoveAnalysis>>, progress: seq<int>, queries: seq<Query>)
    ensures analyses.Some? <==> ReplaySans(rules, NewGame(), SansOf(history)).Some?
    ensures analyses.Some? ==>
              var positions := ReplaySans(rules, NewGame(), SansOf(history)).value.positions;
              var n := |history|;
              |positions| == n + 1 && analyses.value == PlyAnalyses(engine, history, positions, n) &&
              progress == ProgressReports(n, n) && queries == AllQueries(positions, n)
  {
    var sans := SansOf(history);
    var n := |history|;
    var chess := NewGame();
    var moveAnalyses: seq<MoveAnalysis> := [];
    var previousEval := 0.0;
    progress, queries := [], [];
    var i := 0;
    while i < n
      invariant 0 <= i <= n
      invariant AnalysedUpTo(rules, engine, history, i, chess, previousEval, moveAnalyses, progress, queries)
    {
      var fenBefore := CurrentFen(chess);
      var bestMove := engine.bestMove(3 * i, fenBefore);
      var evaluation := engine.evaluate(3 * i + 1, fenBefore);
      var next := MoveText(rules, chess, sans[i]);
      if next.None? {
        ReplayFailsAt(rules, sans, i, chess);
        return None, progress, queries + [BestMoveQuery(fenBefore, AnalysisDepth), EvalQuery(fenBefore, AnalysisDepth)];
      }
      AnalysisStep(rules, engine, history, i, chess, previousEval, moveAnalyses, progress, queries, next.value);
      chess := next.value;
      var fenAfter := CurrentFen(chess);
      var evalAfter := engine.evaluate(3 * i + 2, fenAfter);
      var evalDrop := EvalDrop(history[i].color, previousEval, evalAfter);
      var classification := Classify(evalDrop);
      moveAnalyses := moveAnalyses + [MoveAnalysis(i / 2 + 1, history[i].san, fenAfter, evalAfter, bestMove,
                                                   classification, evalDrop)];
      queries := queries + [BestMoveQuery(fenBefore, AnalysisDepth), EvalQuery(fenBefore, AnalysisDepth),
                            EvalQuery(fenAfter, AnalysisDepth)];
      previousEval := evalAfter;
      progress := progress + [Progress(i, n)];
      i := i + 1;
    }
    assert sans[..n] == sans;
    analyses := Some(moveAnalyses);
  }

  /** `analyzeGame`: `None` when the PGN does not load or a move does not replay;
      otherwise the plies' entries with the accuracies, counts and average over them. */
  method AnalyzeGame(rules: Rules, engine: Engine, pgn: string)
    returns (result: Option<GameAnalysisResult>, progress: seq<int>, queries: seq<Query>)
    ensures rules.loadPgn(pgn).None? ==> result.None? && progress == [] && queries == []
    ensures rules.loadPgn(pgn).Some? ==>
              (result.Some? <==> ReplaySans(rules, NewGame(), SansOf(rules.loadPgn(pgn).value.history)).Some?)
    ensures result.Some? ==>
              var history := rules.loadPgn(pgn).value.history;
              var positions := ReplaySans(rules, NewGame(), SansOf(history)).value.positions;
              var n := |history|;
              |positions| == n + 1 && result.value == Summarize(PlyAnalyses(engine, history, positions, n)) &&
              progress == ProgressReports(n, n) && queries == AllQueries(positions, n)
  {
    var loaded := rules.loadPgn(pgn);
    if loaded.None? {
      return None, [], [];
    }
    var analyses;
    analyses, progress, queries := AnalyzePlies(rules, engine, loaded.value.history);
    if analyses.None? {
      return None, progress, queries;
    }
    var moveAnalyses := analyses.value;
    var whiteMoves := SideMoves(moveAnalyses, 0);
    var blackMoves := SideMoves(moveAnalyses, 1);
    result := Some(GameAnalysisResult(moveAnalyses, Accuracy(CalculateAccuracy(whiteMoves), CalculateAccuracy(blackMoves)),
                                      SummaryOf(moveAnalyses), AverageEvaluation(moveAnalyses)));
  }
}
