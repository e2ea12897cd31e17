/** The saved-game viewer (frontend/src/components/GameReplay.tsx): a cursor over the
    loaded moves, -1 standing for the start position, and a board brought to the
    cursor by replaying the moves from the start. */
module GameReplay {
  import opened Wrappers
  import opened Text
  import opened ChessRules

  datatype Navigation = ToStart | Previous | Next | ToEnd

  /** Where each button puts the cursor over `len` moves, when the replay succeeds. */
  function CursorAfter(nav: Navigation, cursor: int, len: nat): (c: int) {
    match nav
    case ToStart => -1
    case Previous => if cursor >= 0 then cursor - 1 else cursor
    case Next => if cursor < len - 1 then cursor + 1 else cursor
    case ToEnd => len - 1
  }

  predicate InRange(cursor: int, len: nat) {
    -1 <= cursor <= len - 1
  }

  /** No button takes a cursor in [-1, len - 1] out of it; Previous and Next move it
      by exactly one step unless it is at the end they move towards. */
  lemma CursorStaysInRange(nav: Navigation, cursor: int, len: nat)
    requires InRange(cursor, len)
    ensures InRange(CursorAfter(nav, cursor, len), len)
    ensures nav == Previous ==> CursorAfter(nav, cursor, len) == (if cursor == -1 then -1 else cursor - 1)
    ensures nav == Next ==> CursorAfter(nav, cursor, len) == (if cursor == len - 1 then cursor else cursor + 1)
  {
  }

  /** The initial cursor is 0, which is out of range for a game without moves; End
      brings it back. */
  lemma InitialCursorWithoutMoves()
    ensures !InRange(0, 0) && CursorAfter(ToEnd, 0, 0) == -1 && InRange(-1, 0)
  {
  }

  /** The text of the button for ply i: `${⌊i/2⌋ + 1}.`, then ' ' for White's move or
      '... ' for Black's, then the SAN. */
  function MoveLabel(i: nat, san: string): (text: string)
    ensures |text| > |san| && text[|text| - |san|..] == san
  {
    NatToString(i / 2 + 1) + "." + (if i % 2 == 0 then " " else "... ") + san
  }

  /** The label starts with the move number as digits, then a dot. */
  lemma MoveLabelNumber(i: nat, san: string)
    ensures var d := NatToString(i / 2 + 1);
            LeadingDigits(MoveLabel(i, san)) == |d| && MoveLabel(i, san)[..|d|] == d &&
            MoveLabel(i, san)[|d|] == '.' && DigitsValue(d) == i / 2 + 1
  {
    var d := NatToString(i / 2 + 1);
    var tail := "." + (if i % 2 == 0 then " " else "... ") + san;
    assert MoveLabel(i, san) == d + tail;
    LeadingDigitsOf(d, tail);
    NatToStringValue(i / 2 + 1);
  }

  /** Different plies never share a label: the number and the separator after it
      pin the ply down, and the rest is the SAN. */
  lemma MoveLabelInjective(i: nat, s: string, j: nat, t: string)
    requires MoveLabel(i, s) == MoveLabel(j, t)
    ensures i == j && s == t
  {
    var text := MoveLabel(i, s);
    var d := NatToString(i / 2 + 1);
    var e := NatToString(j / 2 + 1);
    MoveLabelNumber(i, s);
    MoveLabelNumber(j, t);
    assert |d| == |e|;
    assert d == text[..|d|] == e;
    assert i / 2 == j / 2;
    var p := if i % 2 == 0 then " " else "... ";
    var q := if j % 2 == 0 then " " else "... ";
    assert text == d + "." + p + s;
    assert text == e + "." + q + t;
    assert text[|d| + 1] == p[0] && text[|d| + 1] == q[0];
    assert i % 2 == j % 2;
    assert p == q;
    assert s == text[|d| + 1 + |p|..];
    assert t == text[|d| + 1 + |p|..];
  }

  /** A move the rules refuse at ply i makes every longer replay fail. */
  lemma PrefixFailsAt(rules: Rules, moves: seq<MoveRecord>, i: nat, index: int)
    requires i < |moves| && i <= index
    requires ReplayMoves(rules, NewGame(), moves[..i]).Some?
    requires MoveFromTo(rules, ReplayMoves(rules, NewGame(), moves[..i]).value,
                        moves[i].from, moves[i].to, moves[i].promotion).None?
    ensures index < |moves| ==> ReplayMoves(rules, NewGame(), moves[..index + 1]).None?
  {
    ReplayMovesStep(rules, NewGame(), moves, i);
    if index < |moves| && ReplayMoves(rules, NewGame(), moves[..index + 1]).Some? {
      assert moves[..index + 1][..i + 1] == moves[..i + 1];
      ReplayMovesPrefix(rules, NewGame(), moves[..index + 1], i + 1);
    }
  }

  class ReplayViewer {
    const rules: Rules
    var moves: seq<MoveRecord>
    var chess: ChessGame
    var currentMoveIndex: int

    /** The viewer once `loadGame` has stored the moves of the saved PGN. */
    constructor (rules: Rules, moves: seq<MoveRecord>)
      ensures this.rules == rules && this.moves == moves
      ensures chess == NewGame() && currentMoveIndex == 0
    {
      this.rules, this.moves := rules, moves;
      chess := NewGame();
      currentMoveIndex := 0;
    }

    /** `goToMove(index)`: back to the start, then moves 0 to index in order, then the
        cursor. `applied` is how many moves went through. A move chess.js refuses, or
        a move past the end, throws: the board keeps the moves applied so far and the
        cursor does not move. */
    method GoToMove(index: int) returns (ok: bool, applied: nat)
      modifies this`chess, this`currentMoveIndex
      ensures applied <= |moves| && ReplayMoves(rules, NewGame(), moves[..applied]) == Some(chess)
      ensures ok <==> index < |moves| && ReplayMoves(rules, NewGame(), moves[..if index < 0 then 0 else index + 1]).Some?
      ensures ok ==> applied == (if index < 0 then 0 else index + 1) && currentMoveIndex == index
      ensures ok ==> CursorFen() == (if index == -1 then StartFen else CurrentFen(chess))
      ensures !ok ==> currentMoveIndex == old(currentMoveIndex) && applied <= index &&
                      (applied == |moves| || MoveFromTo(rules, chess, moves[applied].from, moves[applied].to, moves[applied].promotion).None?)
    {
      chess := NewGame();
      var i := 0;
      while i <= index
        invariant 0 <= i <= |moves| && i <= (if index < 0 then 0 else index + 1)
        invariant ReplayMoves(rules, NewGame(), moves[..i]) == Some(chess)
        invariant currentMoveIndex == old(currentMoveIndex)
      {
        if i >= |moves| {
          return false, i;
        }
        var next := MoveFromTo(rules, chess, moves[i].from, moves[i].to, moves[i].promotion);
        ReplayMovesStep(rules, NewGame(), moves, i);
        if next.None? {
          PrefixFailsAt(rules, moves, i, index);
          return false, i;
        }
        chess := next.value;
        i := i + 1;
      }
      currentMoveIndex := index;
      ok, applied := true, i;
    }

    /** The page's `currentFen`: the start position at cursor -1, else the replay board's.
        The page computes it but draws no board from it. */
    function CursorFen(): Fen
      reads this
    {
      if currentMoveIndex == -1 then StartFen else CurrentFen(chess)
    }

    method GoToStart()
      modifies this`chess, this`currentMoveIndex
      ensures chess == NewGame() && currentMoveIndex == CursorAfter(ToStart, old(currentMoveIndex), |moves|)
      ensures CursorFen() == StartFen
    {
      chess := NewGame();
      currentMoveIndex := -1;
    }

    /** `goToPrevious`: nothing at the start position; otherwise `goToMove` one ply
        back, which replays the first `currentMoveIndex` moves. */
    method GoToPrevious() returns (ok: bool)
      modifies this`chess, this`currentMoveIndex
      ensures old(currentMoveIndex) < 0 ==> ok && unchanged(this)
      ensures old(currentMoveIndex) >= 0 ==>
                (ok <==> old(currentMoveIndex) <= |moves| &&
                         ReplayMoves(rules, NewGame(), moves[..old(currentMoveIndex)]).Some?)
      ensures ok ==> currentMoveIndex == CursorAfter(Previous, old(currentMoveIndex), |moves|)
      ensures ok && old(currentMoveIndex) >= 0 ==>
                old(currentMoveIndex) <= |moves| &&
                chess == ReplayMoves(rules, NewGame(), moves[..old(currentMoveIndex)]).value &&
                CursorFen() == (if old(currentMoveIndex) == 0 then StartFen else CurrentFen(chess))
      ensures !ok ==> currentMoveIndex == old(currentMoveIndex) &&
                      exists k | 0 <= k <= |moves| :: ReplayMoves(rules, NewGame(), moves[..k]) == Some(chess)
    {
      ok := true;
      if currentMoveIndex >= 0 {
        var applied;
        ok, applied := GoToMove(currentMoveIndex - 1);
      }
    }

    /** `goToNext`: nothing at the last ply; otherwise `goToMove` one ply on, which
        replays the first `currentMoveIndex + 2` moves. */
    method GoToNext() returns (ok: bool)
      modifies this`chess, this`currentMoveIndex
      ensures old(currentMoveIndex) >= |moves| - 1 ==> ok && unchanged(this)
      ensures -1 <= old(currentMoveIndex) < |moves| - 1 ==>
                (ok <==> ReplayMoves(rules, NewGame(), moves[..old(currentMoveIndex) + 2]).Some?)
      ensures ok ==> currentMoveIndex == CursorAfter(Next, old(currentMoveIndex), |moves|)
      ensures ok && -1 <= old(currentMoveIndex) < |moves| - 1 ==>
                chess == ReplayMoves(rules, NewGame(), moves[..old(currentMoveIndex) + 2]).value &&
                CursorFen() == CurrentFen(chess)
      ensures !ok ==> currentMoveIndex == old(currentMoveIndex) &&
                      exists k | 0 <= k <= |moves| :: ReplayMoves(rules, NewGame(), moves[..k]) == Some(chess)
    {
      ok := true;
      if currentMoveIndex < |moves| - 1 {
        var applied;
        ok, applied := GoToMove(currentMoveIndex + 1);
      }
    }

    method GoToEnd() returns (ok: bool)
      modifies this`chess, this`currentMoveIndex
      ensures ok <==> ReplayMoves(rules, NewGame(), moves).Some?
      ensures ok ==> currentMoveIndex == CursorAfter(ToEnd, old(currentMoveIndex), |moves|) &&
                     chess == ReplayMoves(rules, NewGame(), moves).value
      ensures !ok ==> currentMoveIndex == old(currentMoveIndex)
    {
      var applied;
      ok, applied := GoToMove(|moves| - 1);
      if |moves| == 0 {
        assert moves[..0] == moves;
      } else {
        assert moves[..|moves|] == moves;
      }
    }
  }
}
