/**
 * The correlation-matrix generator's point distribution, for a matrix with
 * any number of rows: starting from all zeros, one point at a time goes to
 * a row still below 6 until the target is used up or every row is at 6.
 * The result pairs each row label of the matrix with its score, in row
 * order.
 *
 * The multivariate sample and its softmax weights only decide which valid
 * row receives each point; the model lets that choice be any row still
 * below 6, so every property below holds for every choice sequence.
 */
module MatrixGenerator {
  import opened Madrs

  /** The scores of a labelled result, in row order. */
  function Scores(result: seq<(string, int)>): (s: seq<int>)
    ensures |s| == |result| && forall i :: 0 <= i < |result| ==> s[i] == result[i].1
  {
    seq(|result|, i requires 0 <= i < |result| => result[i].1)
  }

  /** The rows still below the ceiling, as a mask over the rows. */
  method ValidMask(finalScores: array<int>) returns (mask: seq<bool>)
    ensures |mask| == finalScores.Length
    ensures forall i :: 0 <= i < |mask| ==> (mask[i] <==> finalScores[i] < MaxItemScore)
  {
    mask := [];
    for i := 0 to finalScores.Length
      invariant |mask| == i
      invariant forall j :: 0 <= j < i ==> (mask[j] <==> finalScores[j] < MaxItemScore)
    {
      mask := mask + [finalScores[i] < MaxItemScore];
    }
  }

  /**
   * The distribution loop over the matrix rows `rows`. The result has one
   * entry per row, labelled with that row, in row order; every score lies
   * within [0, 6]; for a non-negative target the total is the target,
   * capped at 6 per row; a non-positive target leaves every row at 0, and
   * a target of at least 6 per row fills every row to 6.
   */
  method GenerateFromMatrix(rows: seq<string>, targetScore: int) returns (result: seq<(string, int)>)
    ensures |result| == |rows| && forall i :: 0 <= i < |rows| ==> result[i].0 == rows[i]
    ensures InScale(Scores(result))
    ensures targetScore >= 0 ==> Sum(Scores(result)) == Min(targetScore, MaxItemScore * |rows|)
    ensures targetScore <= 0 ==> forall i :: 0 <= i < |rows| ==> result[i].1 == 0
    ensures targetScore >= MaxItemScore * |rows| ==> forall i :: 0 <= i < |rows| ==> result[i].1 == MaxItemScore
  {
    var nItems := |rows|;
    var finalScores := new int[nItems](_ => 0);
    ZeroSumIffAllZero(finalScores[..]);
    var remainingPoints := targetScore;
    while remainingPoints > 0
      invariant InScale(finalScores[..])
      invariant Sum(finalScores[..]) == targetScore - remainingPoints
      invariant targetScore > 0 ==> remainingPoints >= 0
      invariant targetScore <= 0 ==> remainingPoints == targetScore
      decreases remainingPoints
    {
      var validMask := ValidMask(finalScores);
      if !(true in validMask) {
        assert forall k :: 0 <= k < |finalScores[..]| ==> finalScores[..][k] >= MaxItemScore by {
          forall k | 0 <= k < nItems ensures finalScores[k] >= MaxItemScore {
            assert !validMask[k];
          }
        }
        SumAtLeastCeiling(finalScores[..]);
        SumBounds(finalScores[..]);
        break;
      }
      var validIndices := set i | 0 <= i < nItems && validMask[i];
      var someValid :| 0 <= someValid < |validMask| && validMask[someValid];
      assert someValid in validIndices;
      var idx :| idx in validIndices;
      CreditPoint(finalScores[..], idx);
      finalScores[idx] := finalScores[idx] + 1;
      remainingPoints := remainingPoints - 1;
    }
    var scores := finalScores[..];
    result := seq(nItems, i requires 0 <= i < nItems => (rows[i], scores[i]));
    assert Scores(result) == scores;
    SumBounds(scores);
    if targetScore <= 0 {
      ZeroSumIffAllZero(scores);
    }
    if targetScore >= MaxItemScore * nItems {
      FullSumAllAtCeiling(scores);
    }
  }
}
