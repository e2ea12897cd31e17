/** The move list panel (frontend/src/components/MoveHistory.tsx): the published
    moves grouped two by two, White's move then Black's reply, numbered from 1. */
module MoveHistory {
  import opened Wrappers
  import opened Text
  import opened ChessTypes

  datatype MovePair = MovePair(first: string, second: Option<string>)

  /** `pairs` groups `sans` two by two: pair k holds move 2k and, when there is one,
      move 2k + 1. */
  predicate IsPairing(sans: seq<string>, pairs: seq<MovePair>) {
    |pairs| == (|sans| + 1) / 2 &&
    forall k | 0 <= k < |pairs| ::
      2 * k < |sans| && pairs[k].first == sans[2 * k] &&
      pairs[k].second == (if 2 * k + 1 < |sans| then Some(sans[2 * k + 1]) else None)
  }

  /** The SANs the pairing loop reads, `gameState.moves[i].san`, over the store's
      `Move` shape of chess.types.ts. `GameAnalysis.SansOf` is the same list taken
      from chess.js's verbose history records, a different type. */
  function Sans(moves: seq<Move>): (sans: seq<string>)
    ensures |sans| == |moves| && forall i | 0 <= i < |moves| :: sans[i] == moves[i].san
  {
    seq(|moves|, i requires 0 <= i < |moves| => moves[i].san)
  }

  /** The `movePairs` loop: `for (i = 0; i < moves.length; i += 2)`. */
  method MovePairs(moves: seq<Move>) returns (pairs: seq<MovePair>)
    ensures IsPairing(Sans(moves), pairs)
  {
    pairs := [];
    var i := 0;
    while i < |moves|
      invariant 0 <= i <= |moves| + 1 && i % 2 == 0 && |pairs| == i / 2
      invariant i > |moves| ==> i == |moves| + 1
      invariant forall k | 0 <= k < |pairs| ::
                  2 * k < |moves| && pairs[k].first == moves[2 * k].san &&
                  pairs[k].second == (if 2 * k + 1 < |moves| then Some(moves[2 * k + 1].san) else None)
    {
      var second := if i + 1 < |moves| then Some(moves[i + 1].san) else None;
      pairs := pairs + [MovePair(moves[i].san, second)];
      i := i + 2;
    }
  }

  /** The moves shown by the pairs, in order. */
  function Flatten(pairs: seq<MovePair>): seq<string>
    decreases |pairs|
  {
    if pairs == [] then []
    else
      var p := pairs[|pairs| - 1];
      Flatten(pairs[..|pairs| - 1]) + [p.first] + (if p.second.Some? then [p.second.value] else [])
  }

  /** Reading the pairs back in order gives the move list: nothing lost, nothing
      repeated, nothing reordered. */
  lemma {:induction false} FlattenPairing(sans: seq<string>, pairs: seq<MovePair>)
    requires IsPairing(sans, pairs)
    ensures Flatten(pairs) == sans
    decreases |pairs|
  {
    if pairs != [] {
      var m := |pairs| - 1;
      var shorter := sans[..2 * m];
      assert IsPairing(shorter, pairs[..m]);
      FlattenPairing(shorter, pairs[..m]);
      if 2 * m + 1 < |sans| {
        assert sans == shorter + [sans[2 * m]] + [sans[2 * m + 1]];
      } else {
        assert sans == shorter + [sans[2 * m]];
      }
    }
  }

  /** Only the last pair can lack its second move, and it does exactly when the
      number of moves is odd. */
  lemma IncompletePair(sans: seq<string>, pairs: seq<MovePair>, k: nat)
    requires IsPairing(sans, pairs) && k < |pairs|
    ensures pairs[k].second.None? <==> k == |pairs| - 1 && |sans| % 2 == 1
  {
  }

  /** No moves, no pairs; otherwise the pairs end with the last move. */
  lemma PairingEnds(sans: seq<string>, pairs: seq<MovePair>)
    requires IsPairing(sans, pairs)
    ensures pairs == [] <==> sans == []
    ensures sans != [] && |sans| % 2 == 0 ==> pairs[|pairs| - 1].second == Some(sans[|sans| - 1])
    ensures sans != [] && |sans| % 2 == 1 ==> pairs[|pairs| - 1].first == sans[|sans| - 1]
  {
  }

  /** The label of pair `index`: `${index + 1}.`, a decimal number followed by a dot
      that reads back as index + 1, so distinct pairs get distinct labels. */
  function PairLabel(index: nat): (text: string)
    ensures |text| >= 2 && text[|text| - 1] == '.' && AllDigits(text[..|text| - 1])
    ensures DigitsValue(text[..|text| - 1]) == index + 1
  {
    NatToStringValue(index + 1);
    var text := NatToString(index + 1) + ".";
    assert text[..|text| - 1] == NatToString(index + 1);
    text
  }
}
