/**
 * The factor-based generator's point distribution: starting from all zeros,
 * one point at a time goes to an item still below 6 until the target is
 * used up or every item is at 6.
 *
 * The latent factor sample and the propensity weights only decide which
 * valid item receives each point; the model lets that choice be any item
 * still below 6, so every property below holds for every choice sequence.
 */
module FactorGenerator {
  import opened Madrs

  /**
   * The items in the order of the factor loadings: sadness, neurovegetative,
   * detachment and negative-thought factors, each listing its items.
   * Positions in this order are the indices the random pick chooses among.
   */
  const LoadingOrder: seq<Item> := [
    ApparentSadness, ReportedSadness,
    InnerTension, ReducedSleep, ReducedAppetite,
    ConcentrationDifficulties, Lassitude, InabilityToFeel,
    PessimisticThoughts, SuicidalThoughts
  ]

  /** Position of an item in the loading order. */
  function LoadingPosition(it: Item): (i: nat)
    ensures i < |LoadingOrder| && LoadingOrder[i] == it
  {
    match it
    case ApparentSadness => 0
    case ReportedSadness => 1
    case InnerTension => 2
    case ReducedSleep => 3
    case ReducedAppetite => 4
    case ConcentrationDifficulties => 5
    case Lassitude => 6
    case InabilityToFeel => 7
    case PessimisticThoughts => 8
    case SuicidalThoughts => 9
  }

  /** The loadings name each of the ten items exactly once. */
  lemma LoadingOrderEnumeratesItems()
    ensures |LoadingOrder| == ItemCount
    ensures forall it: Item :: it in LoadingOrder
    ensures forall a, b :: 0 <= a < b < |LoadingOrder| ==> LoadingOrder[a] != LoadingOrder[b]
  {
    forall it: Item ensures it in LoadingOrder {
      assert LoadingOrder[LoadingPosition(it)] == it;
    }
  }

  /** Every score position belongs to some loading position. */
  lemma EveryScoreHasLoadingPosition(k: nat)
    requires k < ItemCount
    ensures LoadingOrder[LoadingPosition(ItemCols[k])].Index() == k
  {
    ItemColsEnumerateItems();
  }

  /**
   * The distribution loop. The result holds every item within the scale;
   * for a non-negative target its total is the target, capped at 60; a
   * non-positive target leaves every item at 0, and a target of 60 or more
   * fills every item to 6.
   */
  method Generate(targetScore: int) returns (scores: Profile)
    ensures InScale(scores)
    ensures targetScore >= 0 ==> Sum(scores) == Min(targetScore, MaxTotal)
    ensures targetScore <= 0 ==> scores == Zeros
    ensures targetScore >= MaxTotal ==> forall k :: 0 <= k < ItemCount ==> scores[k] == MaxItemScore
  {
    var table := new int[ItemCount](_ => 0);
    assert table[..] == Zeros;
    ZeroSumIffAllZero(Zeros);
    var pointsToAssign := targetScore;
    while pointsToAssign > 0
      invariant table.Length == ItemCount
      invariant InScale(table[..])
      invariant Sum(table[..]) == targetScore - pointsToAssign
      invariant targetScore > 0 ==> pointsToAssign >= 0
      invariant targetScore <= 0 ==> pointsToAssign == targetScore
      decreases pointsToAssign
    {
      var valid := set i | 0 <= i < ItemCount && table[LoadingOrder[i].Index()] < MaxItemScore;
      if valid == {} {
        forall k | 0 <= k < ItemCount
          ensures table[k] >= MaxItemScore
        {
          EveryScoreHasLoadingPosition(k);
          assert LoadingPosition(ItemCols[k]) !in valid;
        }
        assert forall k :: 0 <= k < |table[..]| ==> table[..][k] >= MaxItemScore;
        SumAtLeastCeiling(table[..]);
        SumBounds(table[..]);
        break;
      }
      var idx :| idx in valid;
      var k := LoadingOrder[idx].Index();
      CreditPoint(table[..], k);
      table[k] := table[k] + 1;
      pointsToAssign := pointsToAssign - 1;
    }
    scores := table[..];
    SumBounds(scores);
    if targetScore <= 0 {
      ZeroSumIffAllZero(scores);
      assert scores == Zeros;
    }
    if targetScore >= MaxTotal {
      FullSumAllAtCeiling(scores);
    }
  }
}
