/** Flattening an evaluation into one row of named values. */
module Metrics {
  import opened Types
  import Judge

  /** A value of the flat row: a label or reasoning text, or a score. */
  datatype FlatValue = Text(s: string) | Number(x: real)

  /** The result for the i-th dimension (`getattr(scores, dim)`). */
  function DimensionAt(scores: EvaluationScore, i: nat): DimensionResult
    requires i < |Judge.Dimensions|
  {
    if i == 0 then scores.faithfulness
    else if i == 1 then scores.conciseness
    else if i == 2 then scores.readability
    else scores.aesthetics
  }

  /**
   * `scores_to_dict`: three entries per dimension, in dimension order, then
   * the overall winner and score. The dict is a list of (key, value) pairs in
   * insertion order; every key is written once.
   */
  method ScoresToDict(scores: EvaluationScore) returns (row: seq<(string, FlatValue)>)
    ensures |row| == 3 * |Judge.Dimensions| + 2
    ensures forall i :: 0 <= i < |Judge.Dimensions| ==>
      var d, res := Judge.Dimensions[i], DimensionAt(scores, i);
      && row[3 * i] == (d + "_winner", Text(res.winner))
      && row[3 * i + 1] == (d + "_score", Number(res.score))
      && row[3 * i + 2] == (d + "_reasoning", Text(res.reasoning))
    ensures row[12] == ("overall_winner", Text(scores.overallWinner))
    ensures row[13] == ("overall_score", Number(scores.overallScore))
    ensures forall i :: 0 <= i < |row| ==> row[i].0 == FlatKeys[i]
  {
    row := [];
    var i := 0;
    while i < |Judge.Dimensions|
      invariant 0 <= i <= |Judge.Dimensions|
      invariant |row| == 3 * i
      invariant forall k :: 0 <= k < i ==>
        var d, res := Judge.Dimensions[k], DimensionAt(scores, k);
        && row[3 * k] == (d + "_winner", Text(res.winner))
        && row[3 * k + 1] == (d + "_score", Number(res.score))
        && row[3 * k + 2] == (d + "_reasoning", Text(res.reasoning))
    {
      var d := Judge.Dimensions[i];
      var res := DimensionAt(scores, i);
      row := row + [(d + "_winner", Text(res.winner)), (d + "_score", Number(res.score)), (d + "_reasoning", Text(res.reasoning))];
      i := i + 1;
    }
    row := row + [("overall_winner", Text(scores.overallWinner)), ("overall_score", Number(scores.overallScore))];
    forall i | 0 <= i < |row|
      ensures row[i].0 == FlatKeys[i]
    {
      if i < 3 * |Judge.Dimensions| {
        assert i == 3 * (i / 3) + i % 3;
      }
    }
  }

  /** The suffixes of a dimension's three keys. */
  const Suffixes: seq<string> := ["_winner", "_score", "_reasoning"]

  /** The fourteen keys of the flat row, in order: three per dimension, then the two overall keys. */
  const FlatKeys: seq<string> :=
    seq(3 * |Judge.Dimensions|, i requires 0 <= i < 3 * |Judge.Dimensions| => Judge.Dimensions[i / 3] + Suffixes[i % 3])
    + ["overall_winner", "overall_score"]

  /** No key of the flat row is written twice, so none overwrites another. */
  lemma FlatKeysDistinct()
    ensures forall i, j :: 0 <= i < j < |FlatKeys| ==> FlatKeys[i] != FlatKeys[j]
  {
    forall i, j | 0 <= i < j < |FlatKeys|
      ensures FlatKeys[i] != FlatKeys[j]
    {
      KeysDiffer(i, j);
    }
  }

  /** Two keys differ in their first character, or in the character after the dimension name. */
  lemma KeysDiffer(i: nat, j: nat)
    requires i < j < |FlatKeys|
    ensures FlatKeys[i] != FlatKeys[j]
  {
    var dims := Judge.Dimensions;
    assert dims[0][0] == 'f' && dims[1][0] == 'c' && dims[2][0] == 'r' && dims[3][0] == 'a';
    assert Suffixes[0][1] == 'w' && Suffixes[1][1] == 's' && Suffixes[2][1] == 'r';
    if j >= 12 {
      assert FlatKeys[j][0] == 'o';
      if i >= 12 {
        assert FlatKeys[i][8] != FlatKeys[j][8];
      } else {
        assert FlatKeys[i][0] == dims[i / 3][0];
      }
    } else if i / 3 != j / 3 {
      assert FlatKeys[i][0] == dims[i / 3][0] && FlatKeys[j][0] == dims[j / 3][0];
    } else {
      var d := dims[i / 3];
      assert FlatKeys[i][|d| + 1] == Suffixes[i % 3][1] && FlatKeys[j][|d| + 1] == Suffixes[j % 3][1];
    }
  }
}
