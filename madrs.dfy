/**
 * The ten items of the Montgomery-Asberg Depression Rating Scale (MADRS),
 * profiles of item scores, and the facts about their sums that every
 * generator and checker relies on.
 */
module Madrs {

  datatype Option<T> = None | Some(value: T)

  /** Highest score a single item can take. */
  const MaxItemScore: int := 6

  /** Number of items on the scale. */
  const ItemCount: nat := 10

  /** Highest total score: every item at its ceiling. */
  const MaxTotal: int := 60

  /** The ten symptom items, declared in the order of the item columns. */
  datatype Item =
    | ReportedSadness
    | ApparentSadness
    | InnerTension
    | ReducedSleep
    | ReducedAppetite
    | ConcentrationDifficulties
    | Lassitude
    | InabilityToFeel
    | PessimisticThoughts
    | SuicidalThoughts
  {
    /** Position of the item among the item columns. */
    function Index(): (i: nat)
      ensures i < ItemCount
    {
      match this
      case ReportedSadness => 0
      case ApparentSadness => 1
      case InnerTension => 2
      case ReducedSleep => 3
      case ReducedAppetite => 4
      case ConcentrationDifficulties => 5
      case Lassitude => 6
      case InabilityToFeel => 7
      case PessimisticThoughts => 8
      case SuicidalThoughts => 9
    }

    /** Name of the item's column in a profile record. */
    function Column(): string {
      match this
      case ReportedSadness => "REPORTED_SADNESS"
      case ApparentSadness => "APPARENT_SADNESS"
      case InnerTension => "INNER_TENSION"
      case ReducedSleep => "REDUCED_SLEEP"
      case ReducedAppetite => "REDUCED_APPETITE"
      case ConcentrationDifficulties => "CONCENTRATION_DIFFICULTIES"
      case Lassitude => "LASSITUDE"
      case InabilityToFeel => "INABILITY_TO_FEEL"
      case PessimisticThoughts => "PESSIMISTIC_THOUGHTS"
      case SuicidalThoughts => "SUICIDAL_THOUGHTS"
    }
  }

  /** The item columns, in the order in which profiles list and check them. */
  const ItemCols: seq<Item> := [
    ReportedSadness, ApparentSadness, InnerTension,
    ReducedSleep, ReducedAppetite, ConcentrationDifficulties,
    Lassitude, InabilityToFeel, PessimisticThoughts,
    SuicidalThoughts
  ]

  /** A profile: one integer score per item, at position Item.Index(). */
  type Profile = s: seq<int> | |s| == ItemCount witness seq(10, _ => 0)

  /** The profile with every item at zero. */
  const Zeros: Profile := seq(10, _ => 0)

  function Score(s: Profile, it: Item): int {
    s[it.Index()]
  }

  function Min(a: int, b: int): int {
    if a <= b then a else b
  }

  /** A single item score within the scale, 0 to 6. */
  predicate InRange(x: int) {
    0 <= x <= MaxItemScore
  }

  /** Every score of `s` lies within the scale. */
  predicate InScale(s: seq<int>) {
    forall k :: 0 <= k < |s| ==> InRange(s[k])
  }

  /** Total score. */
  function Sum(s: seq<int>): int {
    if s == [] then 0 else s[0] + Sum(s[1..])
  }

  /** The item columns name every item exactly once. */
  lemma ItemColsEnumerateItems()
    ensures |ItemCols| == ItemCount
    ensures forall it: Item :: it in ItemCols
    ensures forall a, b :: 0 <= a < b < |ItemCols| ==> ItemCols[a] != ItemCols[b]
    ensures forall k :: 0 <= k < |ItemCols| ==> ItemCols[k].Index() == k
    ensures forall it: Item :: ItemCols[it.Index()] == it
  {
    forall it: Item ensures it in ItemCols {
      assert ItemCols[it.Index()] == it;
    }
  }

  /** Each item reads its own column of a profile record. */
  lemma ColumnsIdentifyItems(a: Item, b: Item)
    ensures a.Column() == b.Column() <==> a == b
  {
  }

  /** Changing one score changes the total by the difference. */
  lemma {:induction false} SumUpdate(s: seq<int>, k: nat, v: int)
    requires k < |s|
    ensures Sum(s[k := v]) == Sum(s) - s[k] + v
  {
    if k > 0 {
      assert s[k := v][1..] == s[1..][k - 1 := v];
      SumUpdate(s[1..], k - 1, v);
    }
  }

  /** A profile within the scale has a total between 0 and 6 per item. */
  lemma {:induction false} SumBounds(s: seq<int>)
    requires InScale(s)
    ensures 0 <= Sum(s) <= MaxItemScore * |s|
  {
    if s != [] {
      assert InScale(s[1..]) by {
        forall k | 0 <= k < |s[1..]| ensures InRange(s[1..][k]) {
          assert s[1..][k] == s[k + 1];
        }
      }
      SumBounds(s[1..]);
    }
  }

  /** A profile within the scale whose total is the highest possible has every item at 6. */
  lemma {:induction false} FullSumAllAtCeiling(s: seq<int>)
    requires InScale(s) && Sum(s) == MaxItemScore * |s|
    ensures forall k :: 0 <= k < |s| ==> s[k] == MaxItemScore
  {
    if s != [] {
      assert InScale(s[1..]) by {
        forall k | 0 <= k < |s[1..]| ensures InRange(s[1..][k]) {
          assert s[1..][k] == s[k + 1];
        }
      }
      SumBounds(s[1..]);
      FullSumAllAtCeiling(s[1..]);
      forall k | 0 <= k < |s| ensures s[k] == MaxItemScore {
        if k > 0 {
          assert s[k] == s[1..][k - 1];
        }
      }
    }
  }

  /** A profile within the scale whose total is 0 has every item at 0. */
  lemma {:induction false} ZeroSumAllZero(s: seq<int>)
    requires InScale(s) && Sum(s) == 0
    ensures forall k :: 0 <= k < |s| ==> s[k] == 0
  {
    if s != [] {
      assert InScale(s[1..]) by {
        forall k | 0 <= k < |s[1..]| ensures InRange(s[1..][k]) {
          assert s[1..][k] == s[k + 1];
        }
      }
      SumBounds(s[1..]);
      ZeroSumAllZero(s[1..]);
      forall k | 0 <= k < |s| ensures s[k] == 0 {
        if k > 0 {
          assert s[k] == s[1..][k - 1];
        }
      }
    }
  }

  /** Every item at 6 or above gives at least the highest total. */
  lemma {:induction false} SumAtLeastCeiling(s: seq<int>)
    requires forall k :: 0 <= k < |s| ==> s[k] >= MaxItemScore
    ensures Sum(s) >= MaxItemScore * |s|
  {
    if s != [] {
      assert forall k :: 0 <= k < |s[1..]| ==> s[1..][k] == s[k + 1];
      SumAtLeastCeiling(s[1..]);
    }
  }

  /** Every item at 0 or below gives a total of at most 0. */
  lemma {:induction false} SumAtMostFloor(s: seq<int>)
    requires forall k :: 0 <= k < |s| ==> s[k] <= 0
    ensures Sum(s) <= 0
  {
    if s != [] {
      assert forall k :: 0 <= k < |s[1..]| ==> s[1..][k] == s[k + 1];
      SumAtMostFloor(s[1..]);
    }
  }

  /** A total below the highest value leaves some item below 6. */
  lemma SomeItemBelowCeiling(s: seq<int>)
    requires Sum(s) < MaxItemScore * |s|
    ensures exists k :: 0 <= k < |s| && s[k] < MaxItemScore
  {
    if forall k :: 0 <= k < |s| ==> s[k] >= MaxItemScore {
      SumAtLeastCeiling(s);
    }
  }

  /** A positive total leaves some item above 0. */
  lemma SomeItemAboveFloor(s: seq<int>)
    requires Sum(s) > 0
    ensures exists k :: 0 <= k < |s| && s[k] > 0
  {
    if forall k :: 0 <= k < |s| ==> s[k] <= 0 {
      SumAtMostFloor(s);
    }
  }

  /** Adding one point to an item below 6 keeps the profile within the scale and adds one to the total. */
  lemma CreditPoint(s: seq<int>, k: nat)
    requires InScale(s) && k < |s| && s[k] < MaxItemScore
    ensures InScale(s[k := s[k] + 1])
    ensures Sum(s[k := s[k] + 1]) == Sum(s) + 1
  {
    SumUpdate(s, k, s[k] + 1);
  }

  /** A profile within the scale totals 0 exactly when every item is 0. */
  lemma ZeroSumIffAllZero(s: seq<int>)
    requires InScale(s)
    ensures Sum(s) == 0 <==> forall k :: 0 <= k < |s| ==> s[k] == 0
  {
    if Sum(s) == 0 {
      ZeroSumAllZero(s);
    }
    if forall k :: 0 <= k < |s| ==> s[k] == 0 {
      SumAtMostFloor(s);
      SumBounds(s);
    }
  }
}
