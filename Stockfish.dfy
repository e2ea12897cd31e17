/** The bridge to the UCI engine (frontend/src/services/stockfish.ts).

    The worker is represented by a flag saying whether one exists and by the log of
    every command posted to it; the engine's output arrives as `HandleIncoming(line)`
    calls. One-shot listeners are values of `Handler`, not closures: an evaluation
    listener carries the score its closure variable holds. Scores are in
    pawns, as the source reports them: `score cp n` is n/100 and a forced mate is
    `MateScore`. Reals are exact, where the source divides in floating point. */
module Stockfish {
  import opened Wrappers
  import opened Text

  const MateScore: real := 100.0
  const MinSkill: int := 1
  const MaxSkill: int := 20
  const InitialDifficulty: int := 10

  const ScoreCp: string := "score cp"
  const ScoreMate: string := "score mate"
  /** The literal prefixes of the two regular expressions. */
  const ScoreCpKey: string := ScoreCp + " "
  const ScoreMateKey: string := ScoreMate + " "

  /** A listener waiting in the queue: the handshake check of `init`, the
      `getBestMove` listener, or the `evaluatePosition` listener with its current score. */
  datatype Handler = CheckUciOk | BestMoveH | EvalH(score: real)

  /** The value a listener resolves its promise with. */
  datatype Resolution = HandshakeDone | BestMoveResolved(move: Option<string>) | EvalResolved(score: real)

  /** What a listener does with one line: resolve, or put itself back in the queue. */
  datatype Step = Resolved(resolution: Resolution) | Requeued(handler: Handler)

  // ---------------------------------------------------------------------------
  // Line parsers
  // ---------------------------------------------------------------------------

  /** The move token of a `bestmove` line: the second space-separated field, or
      nothing when it is missing, empty or `(none)`. */
  function BestMoveToken(line: string): (r: Option<string>)
    ensures r.Some? ==> r.value != "" && r.value != "(none)" && ' ' !in r.value
  {
    var parts := Split(line, ' ');
    if |parts| < 2 || parts[1] == "" || parts[1] == "(none)" then None else Some(parts[1])
  }

  /** The engine's usual answer `bestmove <move>` or `bestmove <move> ponder <reply>`
      yields exactly `<move>`. */
  lemma BestMoveTokenOf(mv: string, rest: string)
    requires mv != "" && mv != "(none)" && ' ' !in mv
    requires rest == [] || rest[0] == ' '
    ensures BestMoveToken("bestmove " + mv + rest) == Some(mv)
  {
    assert "bestmove " + mv + rest == "bestmove" + [' '] + (mv + rest);
    assert ' ' !in "bestmove";
    SecondField("bestmove", mv, rest);
  }

  /** The second space-separated field of `head mv rest`, where `rest` is empty or starts
      a new field. */
  lemma SecondField(head: string, mv: string, rest: string)
    requires ' ' !in head && ' ' !in mv
    requires rest == [] || rest[0] == ' '
    ensures var parts := Split(head + [' '] + (mv + rest), ' ');
            |parts| >= 2 && parts[1] == mv
  {
    FieldAfterHead(head, mv + rest);
    FirstField(mv, rest);
  }

  lemma FieldAfterHead(head: string, x: string)
    requires ' ' !in head
    ensures Split(head + [' '] + x, ' ') == [head] + Split(x, ' ')
  {
    SplitAtSeparator(head, ' ', x);
    SplitWithoutSeparator(head, ' ');
  }

  lemma FirstField(mv: string, rest: string)
    requires ' ' !in mv
    requires rest == [] || rest[0] == ' '
    ensures Split(mv + rest, ' ')[0] == mv
  {
    SplitWithoutSeparator(mv, ' ');
    if rest == [] {
      assert mv + rest == mv;
    } else {
      assert mv + rest == mv + [' '] + rest[1..];
      SplitAtSeparator(mv, ' ', rest[1..]);
    }
  }

  /** The regular-expression group `(-?\d+)` matched at the very start of `s`,
      read by `parseInt(…, 10)`. A '-' not followed by a digit matches nothing. */
  function SignedIntAt(s: string): Option<int> {
    if |s| >= 2 && s[0] == '-' && IsDigit(s[1]) then
      var k := LeadingDigits(s[1..]);
      var v: int := DigitsValue(s[1..][..k]);
      Some(-v)
    else if |s| >= 1 && IsDigit(s[0]) then
      Some(DigitsValue(s[..LeadingDigits(s)]))
    else None
  }

  /** The digits of a rendered natural number, read back, whatever non-digit follows. */
  lemma DigitsOf(n: nat, tail: string)
    requires tail == [] || !IsDigit(tail[0])
    ensures var s := NatToString(n) + tail;
            LeadingDigits(s) == |NatToString(n)| && DigitsValue(s[..|NatToString(n)|]) == n
  {
    var d := NatToString(n);
    LeadingDigitsOf(d, tail);
    assert (d + tail)[..|d|] == d;
    NatToStringValue(n);
  }

  /** Reading back a rendered integer gives the integer, whatever non-digit follows. */
  lemma SignedIntOf(n: int, tail: string)
    requires tail == [] || !IsDigit(tail[0])
    ensures SignedIntAt(IntToString(n) + tail) == Some(n)
  {
    if n < 0 {
      NegativeIntOf(n, tail);
    } else {
      NonNegativeIntOf(n, tail);
    }
  }

  lemma NegativeIntOf(n: int, tail: string)
    requires n < 0 && (tail == [] || !IsDigit(tail[0]))
    ensures SignedIntAt(IntToString(n) + tail) == Some(n)
  {
    var m: nat := -n;
    var d := NatToString(m);
    assert IntToString(n) + tail == ['-'] + (d + tail);
    DigitsOf(m, tail);
    assert (d + tail)[0] == d[0];
    MinusDigitsAt(d + tail, |d|, m);
  }

  /** A '-' followed by k digits worth v, and then no digit, reads as -v. */
  lemma MinusDigitsAt(t: string, k: nat, v: nat)
    requires 1 <= k <= |t| && IsDigit(t[0]) && LeadingDigits(t) == k && DigitsValue(t[..k]) == v
    ensures SignedIntAt(['-'] + t) == Some(-(v as int))
  {
    assert (['-'] + t)[1..] == t;
  }

  lemma NonNegativeIntOf(n: nat, tail: string)
    requires tail == [] || !IsDigit(tail[0])
    ensures SignedIntAt(IntToString(n) + tail) == Some(n)
  {
    assert IntToString(n) == NatToString(n);
    DigitsOf(n, tail);
    assert IsDigit((NatToString(n) + tail)[0]);
  }

  /** The regular expression `key(-?\d+)` tried at position `p` of `m`. */
  function ScoreAt(m: string, key: string, p: nat): Option<int>
    requires p <= |m|
  {
    if StartsWith(m[p..], key) then SignedIntAt(m[p + |key|..]) else None
  }

  /** The leftmost match of `key(-?\d+)` at or after position `p`, as `String.match` finds it. */
  function FirstScoreFrom(m: string, key: string, p: nat): Option<int>
    requires p <= |m|
    decreases |m| - p
  {
    if ScoreAt(m, key, p).Some? then ScoreAt(m, key, p)
    else if p == |m| then None
    else FirstScoreFrom(m, key, p + 1)
  }

  /** The match is the leftmost position where the pattern matches, and there is none
      exactly when no position from `p` on matches. */
  lemma FirstScoreFromIsLeftmost(m: string, key: string, p: nat)
    requires p <= |m|
    ensures FirstScoreFrom(m, key, p).Some? ==>
              exists q :: p <= q <= |m| && ScoreAt(m, key, q) == FirstScoreFrom(m, key, p) &&
                          forall j | p <= j < q :: ScoreAt(m, key, j).None?
    ensures FirstScoreFrom(m, key, p).None? ==> forall j | p <= j <= |m| :: ScoreAt(m, key, j).None?
  {
    FirstScoreFound(m, key, p);
    FirstScoreNone(m, key, p);
  }

  lemma {:induction false} FirstScoreFound(m: string, key: string, p: nat)
    requires p <= |m|
    ensures FirstScoreFrom(m, key, p).Some? ==>
              exists q :: p <= q <= |m| && ScoreAt(m, key, q) == FirstScoreFrom(m, key, p) &&
                          forall j | p <= j < q :: ScoreAt(m, key, j).None?
    decreases |m| - p
  {
    if ScoreAt(m, key, p).Some? {
      assert p <= p <= |m| && ScoreAt(m, key, p) == FirstScoreFrom(m, key, p);
    } else if p < |m| {
      FirstScoreFound(m, key, p + 1);
      if FirstScoreFrom(m, key, p).Some? {
        var q :| p + 1 <= q <= |m| && ScoreAt(m, key, q) == FirstScoreFrom(m, key, p + 1) &&
                 forall j | p + 1 <= j < q :: ScoreAt(m, key, j).None?;
        assert p <= q <= |m| && ScoreAt(m, key, q) == FirstScoreFrom(m, key, p);
      }
    }
  }

  lemma {:induction false} FirstScoreNone(m: string, key: string, p: nat)
    requires p <= |m|
    ensures FirstScoreFrom(m, key, p).None? ==> forall j | p <= j <= |m| :: ScoreAt(m, key, j).None?
    decreases |m| - p
  {
    if ScoreAt(m, key, p).None? && p < |m| {
      FirstScoreNone(m, key, p + 1);
    }
  }

  /** The score one engine line sets, if any: `score cp n` gives n/100 pawns;
      otherwise `score mate n` gives +MateScore for n > 0 and -MateScore for n <= 0.
      A line that mentions `score cp` without a number sets nothing, and its
      `score mate` is not looked at. */
  function LineScore(m: string): (r: Option<real>)
    ensures r.Some? && !Contains(m, ScoreCp) ==> r.value == MateScore || r.value == -MateScore
  {
    if Contains(m, ScoreCp) then
      match FirstScoreFrom(m, ScoreCpKey, 0)
      case Some(n) => Some(n as real / 100.0)
      case None => None
    else if Contains(m, ScoreMate) then
      match FirstScoreFrom(m, ScoreMateKey, 0)
      case Some(n) => Some(if n > 0 then MateScore else -MateScore)
      case None => None
    else None
  }

  /** The leftmost `key(-?\d+)` match of a line whose first `key` is followed by n is n. */
  lemma FirstScoreOf(lead: string, key: string, n: int, tail: string)
    requires forall j | 0 <= j < |lead| :: !StartsWith((lead + key + IntToString(n) + tail)[j..], key)
    requires tail == [] || !IsDigit(tail[0])
    ensures FirstScoreFrom(lead + key + IntToString(n) + tail, key, 0) == Some(n)
  {
    var line := lead + key + IntToString(n) + tail;
    AfterLead(lead, key, IntToString(n), tail);
    ScoreAtKey(line, key, |lead|, n, tail);
    FirstScoreSkips(line, key, |lead|);
  }

  lemma AfterLead(lead: string, key: string, x: string, tail: string)
    ensures |lead| <= |lead + key + x + tail| && (lead + key + x + tail)[|lead|..] == key + (x + tail)
  {
    assert lead + key + x + tail == lead + (key + (x + tail));
  }

  /** `key` followed by a rendered integer at position p matches there. */
  lemma ScoreAtKey(m: string, key: string, p: nat, n: int, tail: string)
    requires p <= |m| && m[p..] == key + (IntToString(n) + tail)
    requires tail == [] || !IsDigit(tail[0])
    ensures ScoreAt(m, key, p) == Some(n)
  {
    assert m[p..][..|key|] == key;
    assert m[p + |key|..] == IntToString(n) + tail;
    SignedIntOf(n, tail);
  }

  /** Positions where `key` does not start contribute nothing to the search. */
  lemma {:induction false} FirstScoreSkips(m: string, key: string, p: nat)
    requires p <= |m|
    requires forall j | 0 <= j < p :: !StartsWith(m[j..], key)
    ensures FirstScoreFrom(m, key, 0) == FirstScoreFrom(m, key, p)
    decreases p
  {
    if p > 0 {
      FirstScoreSkips(m, key, p - 1);
      assert ScoreAt(m, key, p - 1).None?;
    }
  }

  /** A line `… score cp n …` whose first `score cp ` is the one shown yields n/100. */
  lemma CpLineScore(lead: string, n: int, tail: string)
    requires forall j | 0 <= j < |lead| :: !StartsWith((lead + ScoreCpKey + IntToString(n) + tail)[j..], ScoreCpKey)
    requires tail == [] || !IsDigit(tail[0])
    ensures LineScore(lead + ScoreCpKey + IntToString(n) + tail) == Some(n as real / 100.0)
  {
    FirstScoreOf(lead, ScoreCpKey, n, tail);
    CpKeyPresent(lead, n, tail);
    CpScoreOfLine(lead + ScoreCpKey + IntToString(n) + tail, n);
  }

  lemma CpKeyPresent(lead: string, n: int, tail: string)
    ensures Contains(lead + ScoreCpKey + IntToString(n) + tail, ScoreCp)
  {
    var rest := " " + IntToString(n) + tail;
    assert lead + ScoreCpKey + IntToString(n) + tail == lead + ScoreCp + rest;
    ContainsInfix(lead, ScoreCp, rest);
  }

  lemma CpScoreOfLine(line: string, n: int)
    requires Contains(line, ScoreCp)
    requires FirstScoreFrom(line, ScoreCpKey, 0) == Some(n)
    ensures LineScore(line) == Some(n as real / 100.0)
  {
  }

  /** A line without `score cp` whose first `score mate ` is followed by n yields the
      mate sentinel signed like n (mate 0 counts as negative). */
  lemma MateLineScore(lead: string, n: int, tail: string)
    requires forall j | 0 <= j < |lead| :: !StartsWith((lead + ScoreMateKey + IntToString(n) + tail)[j..], ScoreMateKey)
    requires !Contains(lead + ScoreMateKey + IntToString(n) + tail, ScoreCp)
    requires tail == [] || !IsDigit(tail[0])
    ensures LineScore(lead + ScoreMateKey + IntToString(n) + tail) == Some(if n > 0 then MateScore else -MateScore)
  {
    FirstScoreOf(lead, ScoreMateKey, n, tail);
    MateKeyPresent(lead, n, tail);
    MateScoreOfLine(lead + ScoreMateKey + IntToString(n) + tail, n);
  }

  lemma MateKeyPresent(lead: string, n: int, tail: string)
    ensures Contains(lead + ScoreMateKey + IntToString(n) + tail, ScoreMate)
  {
    var rest := " " + IntToString(n) + tail;
    assert lead + ScoreMateKey + IntToString(n) + tail == lead + ScoreMate + rest;
    ContainsInfix(lead, ScoreMate, rest);
  }

  lemma MateScoreOfLine(line: string, n: int)
    requires !Contains(line, ScoreCp) && Contains(line, ScoreMate)
    requires FirstScoreFrom(line, ScoreMateKey, 0) == Some(n)
    ensures LineScore(line) == Some(if n > 0 then MateScore else -MateScore)
  {
  }

  // ---------------------------------------------------------------------------
  // Listeners and FIFO dispatch
  // ---------------------------------------------------------------------------

  predicate IsBestMoveLine(line: string) {
    StartsWith(line, "bestmove")
  }

  /** One listener consuming one line: the handshake listener resolves exactly on
      `uciok`, the other two exactly on a `bestmove` line; a listener that does not
      resolve re-registers as the same kind of listener. */
  function StepHandler(h: Handler, line: string): (s: Step)
    ensures s.Resolved? <==> (if h.CheckUciOk? then line == "uciok" else IsBestMoveLine(line))
    ensures s.Requeued? ==> s.handler.CheckUciOk? == h.CheckUciOk? && s.handler.BestMoveH? == h.BestMoveH?
    ensures h.BestMoveH? && s.Resolved? ==> s.resolution == BestMoveResolved(BestMoveToken(line))
  {
    match h
    case CheckUciOk =>
      if line == "uciok" then Resolved(HandshakeDone) else Requeued(CheckUciOk)
    case BestMoveH =>
      if IsBestMoveLine(line) then Resolved(BestMoveResolved(BestMoveToken(line))) else Requeued(BestMoveH)
    case EvalH(score) =>
      var score' := LineScore(line).GetOr(score);
      if IsBestMoveLine(line) then Resolved(EvalResolved(score')) else Requeued(EvalH(score'))
  }

  datatype Dispatched = Dispatched(queue: seq<Handler>, resolved: Option<Resolution>)

  /** One incoming line: the oldest listener is taken off the front of the queue and
      run; if it re-registers, it goes to the back. An empty queue drops the line. */
  function Dispatch(queue: seq<Handler>, line: string): (d: Dispatched)
    ensures queue == [] ==> d == Dispatched([], None)
    ensures queue != [] ==> |d.queue| == |queue| - (if d.resolved.Some? then 1 else 0)
    ensures queue != [] ==> d.queue[..|queue| - 1] == queue[1..]
  {
    if queue == [] then Dispatched([], None)
    else
      match StepHandler(queue[0], line)
      case Resolved(r) => Dispatched(queue[1..], Some(r))
      case Requeued(h) => Dispatched(queue[1..] + [h], None)
  }

  datatype Fed = Fed(queue: seq<Handler>, resolutions: seq<Resolution>)

  /** A series of lines dispatched one after another: every listener has either
      resolved or is still queued, so the two together number the listeners that were
      waiting. `FeedKeepsListeners` states it kind by kind. */
  function Feed(queue: seq<Handler>, lines: seq<string>): (f: Fed)
    ensures |f.queue| + |f.resolutions| == |queue|
    ensures lines == [] ==> f == Fed(queue, [])
    decreases |lines|
  {
    if lines == [] then Fed(queue, [])
    else
      var d := Dispatch(queue, lines[0]);
      var rest := Feed(d.queue, lines[1..]);
      Fed(rest.queue, (if d.resolved.Some? then [d.resolved.value] else []) + rest.resolutions)
  }

  /** The three kinds of listener, and the kind of listener each resolution comes from. */
  datatype Kind = Handshake | Search | Evaluation

  function KindOf(h: Handler): Kind {
    match h
    case CheckUciOk => Handshake
    case BestMoveH => Search
    case EvalH(_) => Evaluation
  }

  function ResolvedKind(r: Resolution): Kind {
    match r
    case HandshakeDone => Handshake
    case BestMoveResolved(_) => Search
    case EvalResolved(_) => Evaluation
  }

  function Kinds(q: seq<Handler>): (ks: seq<Kind>)
    ensures |ks| == |q|
  {
    if q == [] then [] else [KindOf(q[0])] + Kinds(q[1..])
  }

  function ResolvedKinds(rs: seq<Resolution>): (ks: seq<Kind>)
    ensures |ks| == |rs|
  {
    if rs == [] then [] else [ResolvedKind(rs[0])] + ResolvedKinds(rs[1..])
  }

  lemma {:induction false} KindsAppend(a: seq<Handler>, b: seq<Handler>)
    ensures Kinds(a + b) == Kinds(a) + Kinds(b)
    decreases |a|
  {
    if a == [] {
      assert a + b == b;
    } else {
      assert (a + b)[0] == a[0] && (a + b)[1..] == a[1..] + b;
      KindsAppend(a[1..], b);
    }
  }

  lemma {:induction false} ResolvedKindsAppend(a: seq<Resolution>, b: seq<Resolution>)
    ensures ResolvedKinds(a + b) == ResolvedKinds(a) + ResolvedKinds(b)
    decreases |a|
  {
    if a == [] {
      assert a + b == b;
    } else {
      assert (a + b)[0] == a[0] && (a + b)[1..] == a[1..] + b;
      ResolvedKindsAppend(a[1..], b);
    }
  }

  /** A listener resolves, or re-registers, as its own kind. */
  lemma StepKeepsKind(h: Handler, line: string)
    ensures StepHandler(h, line).Resolved? ==> ResolvedKind(StepHandler(h, line).resolution) == KindOf(h)
    ensures StepHandler(h, line).Requeued? ==> KindOf(StepHandler(h, line).handler) == KindOf(h)
  {
  }

  /** One line: the listener taken off the queue either resolves as its own kind or is
      back in the queue as its own kind. */
  lemma DispatchKeepsListeners(queue: seq<Handler>, line: string)
    ensures var d := Dispatch(queue, line);
            multiset(Kinds(d.queue)) + multiset(ResolvedKinds(if d.resolved.Some? then [d.resolved.value] else [])) ==
            multiset(Kinds(queue))
  {
    if queue != [] {
      StepKeepsKind(queue[0], line);
      var s := StepHandler(queue[0], line);
      assert Kinds(queue) == [KindOf(queue[0])] + Kinds(queue[1..]);
      if s.Requeued? {
        KindsAppend(queue[1..], [s.handler]);
        assert Kinds([s.handler]) == [KindOf(s.handler)];
      } else {
        assert ResolvedKinds([s.resolution]) == [ResolvedKind(s.resolution)];
      }
    }
  }

  /** No listener is lost or duplicated by a series of lines: for each kind, the
      listeners still queued plus the resolutions of that kind number the listeners of
      that kind that were waiting. */
  lemma {:induction false} FeedKeepsListeners(queue: seq<Handler>, lines: seq<string>)
    ensures var f := Feed(queue, lines);
            multiset(Kinds(f.queue)) + multiset(ResolvedKinds(f.resolutions)) == multiset(Kinds(queue))
    decreases |lines|
  {
    if lines != [] {
      var d := Dispatch(queue, lines[0]);
      var head := if d.resolved.Some? then [d.resolved.value] else [];
      var rest := Feed(d.queue, lines[1..]);
      DispatchKeepsListeners(queue, lines[0]);
      FeedKeepsListeners(d.queue, lines[1..]);
      ResolvedKindsAppend(head, rest.resolutions);
      assert Feed(queue, lines) == Fed(rest.queue, head + rest.resolutions);
    }
  }

  /** The handshake listener of `init` waits through any lines until `uciok`. */
  lemma {:induction false} HandshakeRun(lines: seq<string>)
    requires forall i | 0 <= i < |lines| :: lines[i] != "uciok"
    ensures Feed([CheckUciOk], lines + ["uciok"]) == Fed([], [HandshakeDone])
    decreases |lines|
  {
    if lines != [] {
      assert (lines + ["uciok"])[1..] == lines[1..] + ["uciok"];
      HandshakeRun(lines[1..]);
    }
  }

  /** A lone best-move request: every line before the first `bestmove` line is
      re-queued, and that line resolves it with its move token, leaving the queue empty. */
  lemma {:induction false} BestMoveRun(lines: seq<string>, last: string)
    requires forall i | 0 <= i < |lines| :: !IsBestMoveLine(lines[i])
    requires IsBestMoveLine(last)
    ensures Feed([BestMoveH], lines + [last]) == Fed([], [BestMoveResolved(BestMoveToken(last))])
    decreases |lines|
  {
    if lines != [] {
      assert (lines + [last])[1..] == lines[1..] + [last];
      BestMoveRun(lines[1..], last);
    }
  }

  /** The score an evaluation ends with: that of the LAST line carrying one, or the
      initial score when no line does. */
  function LastScore(initial: real, lines: seq<string>): real
    decreases |lines|
  {
    if lines == [] then initial
    else match LineScore(lines[|lines| - 1])
      case Some(v) => v
      case None => LastScore(initial, lines[..|lines| - 1])
  }

  /** The evaluation listener updates its score line by line, front to back. */
  function ScoreAfter(score: real, lines: seq<string>): real
    decreases |lines|
  {
    if lines == [] then score else ScoreAfter(LineScore(lines[0]).GetOr(score), lines[1..])
  }

  lemma {:induction false} ScoreAfterIsLastScore(score: real, lines: seq<string>)
    ensures ScoreAfter(score, lines) == LastScore(score, lines)
    decreases |lines|
  {
    if lines != [] {
      var n := |lines|;
      ScoreAfterIsLastScore(LineScore(lines[0]).GetOr(score), lines[1..]);
      if n > 1 {
        assert lines[1..][..n - 2] == lines[..n - 1][1..];
        assert lines[1..][n - 2] == lines[n - 1];
        ScoreAfterIsLastScore(LineScore(lines[0]).GetOr(score), lines[..n - 1][1..]);
        ScoreAfterIsLastScore(score, lines[..n - 1]);
      }
    }
  }

  lemma {:induction false} EvalRunFrom(score: real, lines: seq<string>, last: string)
    requires forall i | 0 <= i < |lines| :: !IsBestMoveLine(lines[i])
    requires IsBestMoveLine(last)
    ensures Feed([EvalH(score)], lines + [last]) == Fed([], [EvalResolved(ScoreAfter(score, lines + [last]))])
    decreases |lines|
  {
    if lines == [] {
      assert [last][1..] == [];
    } else {
      assert (lines + [last])[1..] == lines[1..] + [last];
      EvalRunFrom(LineScore(lines[0]).GetOr(score), lines[1..], last);
    }
  }

  /** A lone evaluation request, started at score 0, resolves on the first `bestmove`
      line with the score of the last line that carried one (0 if none did). */
  lemma EvalRun(lines: seq<string>, last: string)
    requires forall i | 0 <= i < |lines| :: !IsBestMoveLine(lines[i])
    requires IsBestMoveLine(last)
    ensures Feed([EvalH(0.0)], lines + [last]) == Fed([], [EvalResolved(LastScore(0.0, lines + [last]))])
  {
    EvalRunFrom(0.0, lines, last);
    ScoreAfterIsLastScore(0.0, lines + [last]);
  }

  /** Why requests must not overlap: a best-move request queued before an evaluation
      request is re-queued behind it by the first `info` line, so the engine's
      `bestmove` answer to the search resolves the evaluation instead, and the
      best-move request is left waiting. The `info` line, consumed by the best-move
      listener, never reaches the evaluation. */
  lemma OverlappingRequestsMisattribute(info: string, answer: string)
    requires !IsBestMoveLine(info) && IsBestMoveLine(answer)
    ensures Feed([BestMoveH, EvalH(0.0)], [info, answer]) ==
            Fed([BestMoveH], [EvalResolved(LineScore(answer).GetOr(0.0))])
  {
    var d1 := Dispatch([BestMoveH, EvalH(0.0)], info);
    assert d1 == Dispatched([EvalH(0.0), BestMoveH], None);
    var d2 := Dispatch(d1.queue, answer);
    assert d2 == Dispatched([BestMoveH], Some(EvalResolved(LineScore(answer).GetOr(0.0))));
    assert [info, answer][1..] == [answer];
    assert [answer][1..] == [];
    var r2 := Feed(d1.queue, [answer]);
    assert Feed(d2.queue, [answer][1..]) == Fed([BestMoveH], []);
    assert r2 == Fed([BestMoveH], [EvalResolved(LineScore(answer).GetOr(0.0))]);
    assert Feed([BestMoveH, EvalH(0.0)], [info, answer]) == Fed(r2.queue, [] + r2.resolutions);
  }

  // ---------------------------------------------------------------------------
  // Commands
  // ---------------------------------------------------------------------------

  /** `Math.max(1, Math.min(20, level))`. */
  function ClampSkill(level: int): (d: int)
    ensures MinSkill <= d <= MaxSkill
    ensures MinSkill <= level <= MaxSkill ==> d == level
    ensures level < MinSkill ==> d == MinSkill
    ensures level > MaxSkill ==> d == MaxSkill
  {
    if level > MaxSkill then MaxSkill else if level < MinSkill then MinSkill else level
  }

  /** The option commands `setDifficulty` sends for a clamped level when ready:
      the skill level, and below 15 also a maximum error of 100 - 4·level. */
  function DifficultyCommands(d: int): (cmds: seq<string>)
    requires MinSkill <= d <= MaxSkill
    ensures |cmds| == (if d < 15 then 2 else 1)
    ensures cmds[0] == "setoption name Skill Level value " + IntToString(d)
    ensures d < 15 ==> (cmds[1] == "setoption name Skill Level Maximum Error value " + IntToString(100 - 4 * d) &&
                        44 <= 100 - 4 * d <= 96)
  {
    ["setoption name Skill Level value " + IntToString(d)] +
    (if d < 15 then ["setoption name Skill Level Maximum Error value " + IntToString(100 - 4 * d)] else [])
  }

  /** `getBestMove`'s commands, in the order sent. */
  function SearchCommands(fen: string, depth: int): seq<string> {
    ["ucinewgame", "position fen " + fen, "go depth " + IntToString(depth)]
  }

  /** `evaluatePosition`'s commands, in the order sent (no `ucinewgame`). */
  function EvalCommands(fen: string, depth: int): seq<string> {
    ["position fen " + fen, "go depth " + IntToString(depth)]
  }

  datatype InitOutcome = AlreadyReady | AwaitingHandshake | SpawnFailed

  /** Where a `getBestMove` call stands once its synchronous part has run. */
  datatype BestMoveCall =
    | Searching          // the search was issued; a BestMoveH listener is queued
    | RestartingEngine   // the engine was reset; the search follows the handshake
    | GaveUp             // the reset failed; the call resolves with null

  // ---------------------------------------------------------------------------
  // The service
  // ---------------------------------------------------------------------------

  class StockfishService {
    var hasWorker: bool
    var isReady: bool
    var messageQueue: seq<Handler>
    var difficulty: int
    /** Every command posted to a worker, oldest first. */
    var sent: seq<string>

    ghost predicate Valid()
      reads this
    {
      (isReady ==> hasWorker) && MinSkill <= difficulty <= MaxSkill
    }

    constructor ()
      ensures Valid()
      ensures !hasWorker && !isReady && messageQueue == [] && sent == []
      ensures difficulty == InitialDifficulty
    {
      hasWorker, isReady, messageQueue := false, false, [];
      difficulty, sent := InitialDifficulty, [];
    }

    /** Posts a command: nothing for an empty command or without a worker. */
    method SendCommand(cmd: string)
      modifies this`sent
      ensures sent == old(sent) + (if cmd != "" && hasWorker then [cmd] else [])
    {
      if cmd == "" {
        return;
      }
      if hasWorker {
        sent := sent + [cmd];
      }
    }

    method WaitForMessage(h: Handler)
      modifies this`messageQueue
      ensures messageQueue == old(messageQueue) + [h]
    {
      messageQueue := messageQueue + [h];
    }

    /** A line from the worker. `uciok` makes the bridge ready and starts a new game,
        and is still passed on to the oldest listener. */
    method HandleIncoming(line: string) returns (resolved: Option<Resolution>)
      requires Valid() && hasWorker
      modifies this
      ensures Valid() && hasWorker && difficulty == old(difficulty)
      ensures isReady == (old(isReady) || line == "uciok")
      ensures sent == old(sent) + (if line == "uciok" then ["ucinewgame"] else [])
      ensures messageQueue == Dispatch(old(messageQueue), line).queue
      ensures resolved == Dispatch(old(messageQueue), line).resolved
    {
      if line == "uciok" {
        isReady := true;
        SendCommand("ucinewgame");
      }
      var d := Dispatch(messageQueue, line);
      messageQueue := d.queue;
      resolved := d.resolved;
    }

    /** The worker's error event: the bridge is torn down; nothing restarts it. */
    method HandleWorkerError()
      requires Valid()
      modifies this
      ensures Valid()
      ensures !hasWorker && !isReady && messageQueue == []
      ensures sent == old(sent) && difficulty == old(difficulty)
    {
      Terminate();
      isReady := false;
    }

    /** `init` up to its await: returns at once when ready; otherwise (re)creates the
        worker, queues the handshake check and sends `uci`. `spawnOk` is whether
        `new Worker` succeeded; when it throws, the bridge is torn down. */
    method Init(spawnOk: bool) returns (outcome: InitOutcome)
      requires Valid()
      modifies this
      ensures Valid() && difficulty == old(difficulty)
      ensures old(isReady && hasWorker) ==>
                outcome == AlreadyReady && isReady && hasWorker &&
                messageQueue == old(messageQueue) && sent == old(sent)
      ensures !old(isReady && hasWorker) && spawnOk ==>
                outcome == AwaitingHandshake && hasWorker && !isReady && sent == old(sent) + ["uci"] &&
                messageQueue == (if old(hasWorker) then [] else old(messageQueue)) + [CheckUciOk]
      ensures !old(isReady && hasWorker) && !spawnOk ==>
                outcome == SpawnFailed && !hasWorker && !isReady && messageQueue == [] && sent == old(sent)
    {
      if isReady && hasWorker {
        return AlreadyReady;
      }
      if hasWorker {
        Terminate();
      }
      if !spawnOk {
        Terminate();
        return SpawnFailed;
      }
      hasWorker := true;
      WaitForMessage(CheckUciOk);
      SendCommand("uci");
      outcome := AwaitingHandshake;
    }

    /** `getBestMove` up to its first await. When ready it issues the search at once;
        otherwise it resets the worker and the search waits for the handshake. */
    method GetBestMove(fen: string, depth: int, spawnOk: bool) returns (call: BestMoveCall)
      requires Valid()
      modifies this
      ensures Valid() && difficulty == old(difficulty)
      ensures old(hasWorker && isReady) ==>
                call == Searching && hasWorker && isReady &&
                sent == old(sent) + SearchCommands(fen, depth) && messageQueue == old(messageQueue) + [BestMoveH]
      ensures !old(hasWorker && isReady) && spawnOk ==>
                call == RestartingEngine && hasWorker && !isReady &&
                sent == old(sent) + ["uci"] && messageQueue == [CheckUciOk]
      ensures !old(hasWorker && isReady) && !spawnOk ==>
                call == GaveUp && !hasWorker && !isReady && messageQueue == [] && sent == old(sent)
    {
      if !hasWorker || !isReady {
        Terminate();
        var o := Init(spawnOk);
        if o == SpawnFailed {
          return GaveUp;
        }
        return RestartingEngine;
      }
      StartBestMoveSearch(fen, depth);
      call := Searching;
    }

    /** The rest of `getBestMove`: `ucinewgame`, `position fen F`, `go depth D`,
        then the best-move listener is queued. */
    method StartBestMoveSearch(fen: string, depth: int)
      requires Valid()
      modifies this`sent, this`messageQueue
      ensures Valid()
      ensures sent == old(sent) + (if hasWorker then SearchCommands(fen, depth) else [])
      ensures messageQueue == old(messageQueue) + [BestMoveH]
    {
      SendCommand("ucinewgame");
      SendCommand("position fen " + fen);
      SendCommand("go depth " + IntToString(depth));
      WaitForMessage(BestMoveH);
    }

    /** `evaluatePosition` up to its await: a bridge that is not ready answers 0 at once
        and sends nothing; otherwise `position fen F`, `go depth D` and a listener
        starting from score 0. */
    method EvaluatePosition(fen: string, depth: int) returns (immediate: Option<real>)
      requires Valid()
      modifies this`sent, this`messageQueue
      ensures Valid()
      ensures !old(hasWorker && isReady) ==>
                immediate == Some(0.0) && sent == old(sent) && messageQueue == old(messageQueue)
      ensures old(hasWorker && isReady) ==>
                immediate == None && sent == old(sent) + EvalCommands(fen, depth) &&
                messageQueue == old(messageQueue) + [EvalH(0.0)]
    {
      if !hasWorker || !isReady {
        return Some(0.0);
      }
      SendCommand("position fen " + fen);
      SendCommand("go depth " + IntToString(depth));
      WaitForMessage(EvalH(0.0));
      immediate := None;
    }

    /** Stores and returns the clamped level; only a ready bridge is sent the options. */
    method SetDifficulty(level: int) returns (d: int)
      requires Valid()
      modifies this`difficulty, this`sent
      ensures Valid()
      ensures d == ClampSkill(level) && difficulty == d
      ensures sent == old(sent) + (if isReady then DifficultyCommands(d) else [])
    {
      difficulty := ClampSkill(level);
      if isReady {
        SendCommand("setoption name Skill Level value " + IntToString(difficulty));
        if difficulty < 15 {
          var err := 100 - difficulty * 4;
          SendCommand("setoption name Skill Level Maximum Error value " + IntToString(err));
        }
      }
      d := difficulty;
    }

    /** Drops the worker, the ready flag and every pending listener. Calling it again
        changes nothing more. */
    method Terminate()
      modifies this`hasWorker, this`isReady, this`messageQueue
      ensures !hasWorker && !isReady && messageQueue == []
    {
      if hasWorker {
        hasWorker := false;
      }
      isReady := false;
      messageQueue := [];
    }
  }
}
