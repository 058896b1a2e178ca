/**
 * The integer back end of the hierarchical factor generator: the target
 * check, the clamp of each rounded item value into [0, 6], the adjustment
 * loop that moves items one point at a time until the total is the target,
 * and the final clinical-rule correction pass.
 *
 * The latent sampling that produces the continuous item values is not
 * modelled: the continuous values and their rounded integers are inputs.
 */
module HierarchicalGenerator {
  import opened Madrs
  import opened Violations

  /** Iteration cap of the adjustment loop. */
  const AdjustmentCap: nat := 100

  /** The generator accepts exactly the targets between 0 and 60. */
  predicate ValidTarget(targetScore: int) {
    0 <= targetScore <= MaxTotal
  }

  /** The clamp of a rounded value into the scale. */
  function Clamp(x: int): (r: int)
    ensures InRange(r)
    ensures InRange(x) ==> r == x
    ensures x < 0 ==> r == 0
    ensures x > MaxItemScore ==> r == MaxItemScore
  {
    if x < 0 then 0 else if x > MaxItemScore then MaxItemScore else x
  }

  /** The discrete profile before adjustment: every rounded value clamped. */
  function Discretised(rounded: seq<int>): (d: Profile)
    requires |rounded| == ItemCount
    ensures InScale(d)
    ensures forall k :: 0 <= k < ItemCount && InRange(rounded[k]) ==> d[k] == rounded[k]
    ensures forall k :: 0 <= k < ItemCount && rounded[k] < 0 ==> d[k] == 0
    ensures forall k :: 0 <= k < ItemCount && rounded[k] > MaxItemScore ==> d[k] == MaxItemScore
  {
    seq(10, k requires 0 <= k < 10 => Clamp(rounded[k]))
  }

  // ---------------------------------------------------------------------------
  // Clinical-rule correction
  // ---------------------------------------------------------------------------

  /** A profile with one item set to a new score. */
  function SetScore(s: Profile, it: Item, v: int): Profile {
    s[it.Index() := v]
  }

  /**
   * The correction pass, rule by rule: with reported sadness at most 1,
   * suicidal thoughts above 2 drop to 1 and pessimistic thoughts above 2
   * drop to 2; inability to feel of 4 or more with sadness below 2 raises
   * sadness to 3; inner tension of 4 or more with no sleep disturbance
   * raises reduced sleep to 2.
   */
  function MadrsRules(s: Profile): (r: Profile)
    ensures ClinicallyPlausible(r)
    ensures InScale(s) ==> InScale(r)
    ensures Score(r, SuicidalThoughts) == Score(s, SuicidalThoughts)
      || (Score(s, SuicidalThoughts) > 2 && Score(r, SuicidalThoughts) == 1)
    ensures Score(r, PessimisticThoughts) == Score(s, PessimisticThoughts)
      || (Score(s, PessimisticThoughts) > 2 && Score(r, PessimisticThoughts) == 2)
    ensures Score(r, ReportedSadness) == Score(s, ReportedSadness)
      || (Score(s, ReportedSadness) < 2 && Score(r, ReportedSadness) == 3)
    ensures Score(r, ReducedSleep) == Score(s, ReducedSleep)
      || (Score(s, ReducedSleep) == 0 && Score(r, ReducedSleep) == 2)
    ensures forall it: Item ::
      it !in {ReportedSadness, ReducedSleep, PessimisticThoughts, SuicidalThoughts} ==> Score(r, it) == Score(s, it)
  {
    var gated := if Score(s, ReportedSadness) <= 1 && Score(s, SuicidalThoughts) > 2
      then SetScore(s, SuicidalThoughts, 1) else s;
    var gated' := if Score(gated, ReportedSadness) <= 1 && Score(gated, PessimisticThoughts) > 2
      then SetScore(gated, PessimisticThoughts, 2) else gated;
    var linked := if Score(gated', InabilityToFeel) >= 4 && Score(gated', ReportedSadness) < 2
      then SetScore(gated', ReportedSadness, 3) else gated';
    if Score(linked, InnerTension) >= 4 && Score(linked, ReducedSleep) == 0
      then SetScore(linked, ReducedSleep, 2) else linked
  }

  /** The correction pass in place on the generator's score table. */
  method ApplyMadrsRules(scores: array<int>)
    requires scores.Length == ItemCount
    modifies scores
    ensures scores[..] == MadrsRules(old(scores[..]))
  {
    var sadness, suicidal, pessimism := ReportedSadness.Index(), SuicidalThoughts.Index(), PessimisticThoughts.Index();
    var inability, tension, sleep := InabilityToFeel.Index(), InnerTension.Index(), ReducedSleep.Index();
    // Core mood gate
    if scores[sadness] <= 1 {
      if scores[suicidal] > 2 {
        scores[suicidal] := 1;
      }
      if scores[pessimism] > 2 {
        scores[pessimism] := 2;
      }
    }
    // Anhedonia link
    if scores[inability] >= 4 && scores[sadness] < 2 {
      scores[sadness] := 3;
    }
    // Tension and sleep link
    if scores[tension] >= 4 && scores[sleep] == 0 {
      scores[sleep] := 2;
    }
  }

  /** The corrected profile passes every clinical check of the violation checker. */
  lemma MadrsRulesPassClinicalCheck(s: Profile)
    ensures CheckClinicalRules(MadrsRules(s)) == []
  {
  }

  /** Correcting a corrected profile changes nothing. */
  lemma MadrsRulesIdempotent(s: Profile)
    ensures MadrsRules(MadrsRules(s)) == MadrsRules(s)
  {
    var r := MadrsRules(s);
    assert forall k :: 0 <= k < |r| ==> MadrsRules(r)[k] == r[k] by {
      ItemColsEnumerateItems();
      assert forall k :: 0 <= k < |r| ==> ItemCols[k].Index() == k;
    }
  }

  /**
   * On a profile within the scale the correction pass moves the total by
   * between -9 (suicidal 6 to 1, pessimism 6 to 2) and +5 (sadness 0 to 3,
   * sleep 0 to 2).
   */
  lemma MadrsRulesDrift(s: Profile)
    requires InScale(s)
    ensures -9 <= Sum(MadrsRules(s)) - Sum(s) <= 5
  {
    var gated := if Score(s, ReportedSadness) <= 1 && Score(s, SuicidalThoughts) > 2
      then SetScore(s, SuicidalThoughts, 1) else s;
    var gated' := if Score(gated, ReportedSadness) <= 1 && Score(gated, PessimisticThoughts) > 2
      then SetScore(gated, PessimisticThoughts, 2) else gated;
    var linked := if Score(gated', InabilityToFeel) >= 4 && Score(gated', ReportedSadness) < 2
      then SetScore(gated', ReportedSadness, 3) else gated';
    var r := if Score(linked, InnerTension) >= 4 && Score(linked, ReducedSleep) == 0
      then SetScore(linked, ReducedSleep, 2) else linked;
    assert r == MadrsRules(s);
    SumUpdate(s, SuicidalThoughts.Index(), 1);
    SumUpdate(gated, PessimisticThoughts.Index(), 2);
    SumUpdate(gated', ReportedSadness.Index(), 3);
    SumUpdate(linked, ReducedSleep.Index(), 2);
  }

  /**
   * Both ends of the drift are reached: with no sadness, suicidal and
   * pessimistic thoughts at 6 lose 9 points; with no sadness and no sleep
   * disturbance, strong anhedonia and tension gain 5 points.
   */
  lemma MadrsRulesDriftAttained()
    ensures var low := SetScore(SetScore(Zeros, SuicidalThoughts, 6), PessimisticThoughts, 6);
      InScale(low) && Sum(MadrsRules(low)) == Sum(low) - 9
    ensures var high := SetScore(SetScore(Zeros, InabilityToFeel, 4), InnerTension, 4);
      InScale(high) && Sum(MadrsRules(high)) == Sum(high) + 5
  {
    ZeroSumIffAllZero(Zeros);
    var low1 := SetScore(Zeros, SuicidalThoughts, 6);
    var low := SetScore(low1, PessimisticThoughts, 6);
    SumUpdate(Zeros, SuicidalThoughts.Index(), 6);
    SumUpdate(low1, PessimisticThoughts.Index(), 6);
    var lowFixed := SetScore(low, SuicidalThoughts, 1);
    assert MadrsRules(low) == SetScore(lowFixed, PessimisticThoughts, 2);
    SumUpdate(low, SuicidalThoughts.Index(), 1);
    SumUpdate(lowFixed, PessimisticThoughts.Index(), 2);
    var high1 := SetScore(Zeros, InabilityToFeel, 4);
    var high := SetScore(high1, InnerTension, 4);
    SumUpdate(Zeros, InabilityToFeel.Index(), 4);
    SumUpdate(high1, InnerTension.Index(), 4);
    var highFixed := SetScore(high, ReportedSadness, 3);
    assert MadrsRules(high) == SetScore(highFixed, ReducedSleep, 2);
    SumUpdate(high, ReportedSadness.Index(), 3);
    SumUpdate(highFixed, ReducedSleep.Index(), 2);
  }

  // ---------------------------------------------------------------------------
  // Adjustment loop
  // ---------------------------------------------------------------------------

  /** Up: the total is below the target; Down: it is above. */
  datatype Direction = Up | Down

  /** Item `k` can move one point in direction `dir` without leaving the scale. */
  predicate Movable(d: Profile, dir: Direction, k: nat)
    requires k < ItemCount
  {
    if dir == Up then d[k] < MaxItemScore else d[k] > 0
  }

  /**
   * How much item `k` "wants" to move in direction `dir`: its continuous
   * value minus its score when moving up, the reverse when moving down.
   */
  function Gap(d: Profile, c: seq<real>, dir: Direction, k: nat): real
    requires |c| == ItemCount && k < ItemCount
  {
    if dir == Up then c[k] - d[k] as real else d[k] as real - c[k]
  }

  /** The candidate items of one step among the first `n` items, in item order. */
  function CandidatesUpTo(d: Profile, dir: Direction, n: nat): (r: seq<nat>)
    requires n <= ItemCount
    ensures forall i :: 0 <= i < |r| ==> r[i] < n
  {
    if n == 0 then []
    else
      var previous := CandidatesUpTo(d, dir, n - 1);
      if Movable(d, dir, n - 1) then previous + [n - 1] else previous
  }

  /** The candidates among the first `n` items are exactly the movable ones. */
  lemma {:induction false} CandidatesUpToMovable(d: Profile, dir: Direction, n: nat)
    requires n <= ItemCount
    ensures forall j: nat :: j in CandidatesUpTo(d, dir, n) <==> j < n && Movable(d, dir, j)
  {
    if n > 0 {
      CandidatesUpToMovable(d, dir, n - 1);
      var previous := CandidatesUpTo(d, dir, n - 1);
      assert forall j: nat :: j in previous + [n - 1] <==> j in previous || j == n - 1;
    }
  }

  /** The candidates among the first `n` items come in increasing item order. */
  lemma {:induction false} CandidatesUpToIncreasing(d: Profile, dir: Direction, n: nat)
    requires n <= ItemCount
    ensures forall a, b :: 0 <= a < b < |CandidatesUpTo(d, dir, n)| ==>
      CandidatesUpTo(d, dir, n)[a] < CandidatesUpTo(d, dir, n)[b]
  {
    if n > 0 {
      CandidatesUpToIncreasing(d, dir, n - 1);
      var previous := CandidatesUpTo(d, dir, n - 1);
      var r := previous + [n - 1];
      if Movable(d, dir, n - 1) {
        assert forall a :: 0 <= a < |previous| ==> r[a] == previous[a] && previous[a] < n - 1;
        assert r[|previous|] == n - 1;
      }
    }
  }

  /** The candidate items of one step, in item order. */
  function Candidates(d: Profile, dir: Direction): (r: seq<nat>)
    ensures forall i :: 0 <= i < |r| ==> r[i] < ItemCount
  {
    CandidatesUpTo(d, dir, |d|)
  }

  /** The candidates of a step are exactly the movable items, in increasing item order. */
  lemma CandidatesAreMovable(d: Profile, dir: Direction)
    ensures forall j: nat :: j in Candidates(d, dir) <==> j < ItemCount && Movable(d, dir, j)
    ensures forall a, b :: 0 <= a < b < |Candidates(d, dir)| ==> Candidates(d, dir)[a] < Candidates(d, dir)[b]
  {
    CandidatesUpToMovable(d, dir, |d|);
    CandidatesUpToIncreasing(d, dir, |d|);
  }

  /**
   * The position of the first maximum of a non-empty sequence: the value
   * kept by a left-to-right scan that replaces its choice only on a strictly
   * greater value.
   */
  function FirstArgMax(xs: seq<real>): (p: nat)
    requires |xs| > 0
    ensures p < |xs|
  {
    if |xs| == 1 then 0
    else
      var p := FirstArgMax(xs[..|xs| - 1]);
      if xs[|xs| - 1] > xs[p] then |xs| - 1 else p
  }

  /** The scan ends on a maximum, and every earlier value is strictly smaller. */
  lemma {:induction false} FirstArgMaxIsFirstMax(xs: seq<real>)
    requires |xs| > 0
    ensures var p := FirstArgMax(xs);
      && (forall j :: 0 <= j < |xs| ==> xs[j] <= xs[p])
      && (forall j :: 0 <= j < p ==> xs[j] < xs[p])
  {
    if |xs| > 1 {
      var init := xs[..|xs| - 1];
      FirstArgMaxIsFirstMax(init);
      assert forall j :: 0 <= j < |init| ==> init[j] == xs[j];
    }
  }

  /** The gaps of the candidates, in candidate order. */
  function Gaps(d: Profile, c: seq<real>, dir: Direction, cands: seq<nat>): (g: seq<real>)
    requires |c| == ItemCount
    requires forall i :: 0 <= i < |cands| ==> cands[i] < ItemCount
    ensures |g| == |cands|
  {
    seq(|cands|, i requires 0 <= i < |cands| => Gap(d, c, dir, cands[i]))
  }

  /** The candidate with the largest gap, the first one among equals. */
  function MaxByGap(d: Profile, c: seq<real>, dir: Direction, cands: seq<nat>): (best: nat)
    requires |c| == ItemCount && |cands| > 0
    requires forall i :: 0 <= i < |cands| ==> cands[i] < ItemCount
    ensures best in cands
  {
    cands[FirstArgMax(Gaps(d, c, dir, cands))]
  }

  /**
   * The item a step moves is movable, has the largest gap among the movable
   * items, and comes first in item order among those with that gap.
   */
  lemma MaxByGapIsFirstMax(d: Profile, c: seq<real>, dir: Direction)
    requires |c| == ItemCount && |Candidates(d, dir)| > 0
    ensures var best := MaxByGap(d, c, dir, Candidates(d, dir));
      && best < ItemCount && Movable(d, dir, best)
      && (forall k :: 0 <= k < ItemCount && Movable(d, dir, k) ==> Gap(d, c, dir, k) <= Gap(d, c, dir, best))
      && (forall k :: 0 <= k < best && Movable(d, dir, k) ==> Gap(d, c, dir, k) < Gap(d, c, dir, best))
  {
    var cands := Candidates(d, dir);
    CandidatesAreMovable(d, dir);
    var g := Gaps(d, c, dir, cands);
    var p := FirstArgMax(g);
    FirstArgMaxIsFirstMax(g);
    var best := cands[p];
    assert best in cands;
    forall k | 0 <= k < ItemCount && Movable(d, dir, k)
      ensures Gap(d, c, dir, k) <= Gap(d, c, dir, best)
      ensures k < best ==> Gap(d, c, dir, k) < Gap(d, c, dir, best)
    {
      assert k in cands;
      var j :| 0 <= j < |cands| && cands[j] == k;
      assert g[j] == Gap(d, c, dir, k);
      if k < best {
        assert j < p;
      }
    }
  }

  /** A profile with item `k` moved one point in direction `dir`. */
  function Nudge(d: Profile, k: nat, dir: Direction): (r: Profile)
    requires k < ItemCount
    ensures r[k] == if dir == Up then d[k] + 1 else d[k] - 1
    ensures forall j :: 0 <= j < ItemCount && j != k ==> r[j] == d[j]
    ensures Sum(r) == if dir == Up then Sum(d) + 1 else Sum(d) - 1
    ensures InScale(d) && Movable(d, dir, k) ==> InScale(r)
  {
    var v := if dir == Up then d[k] + 1 else d[k] - 1;
    SumUpdate(d, k, v);
    d[k := v]
  }

  /**
   * The adjustment loop with `fuel` iterations left: stop at the target, or
   * when no item can move, and otherwise move the chosen item one point
   * towards the target.
   */
  function Adjusted(d: Profile, c: seq<real>, targetScore: int, fuel: nat): Profile
    requires |c| == ItemCount
    decreases fuel
  {
    if fuel == 0 || Sum(d) == targetScore then d
    else
      var dir := if Sum(d) < targetScore then Up else Down;
      var cands := Candidates(d, dir);
      if |cands| == 0 then d
      else Adjusted(Nudge(d, MaxByGap(d, c, dir, cands), dir), c, targetScore, fuel - 1)
  }

  /**
   * One iteration away from the target, with the target between 0 and 60:
   * some item can move, exactly that item changes, by one point towards the
   * target, the profile stays within the scale and the distance to the
   * target drops by exactly one.
   */
  lemma AdjustmentStep(d: Profile, c: seq<real>, targetScore: int)
    requires |c| == ItemCount && InScale(d) && ValidTarget(targetScore) && Sum(d) != targetScore
    ensures var dir := if Sum(d) < targetScore then Up else Down;
      |Candidates(d, dir)| > 0 &&
      var k := MaxByGap(d, c, dir, Candidates(d, dir));
      var e := Nudge(d, k, dir);
      && k < ItemCount
      && (forall j :: 0 <= j < ItemCount && j != k ==> e[j] == d[j])
      && e[k] == (if Sum(d) < targetScore then d[k] + 1 else d[k] - 1)
      && InScale(e)
      && Abs(Sum(e) - targetScore) == Abs(Sum(d) - targetScore) - 1
  {
    var dir := if Sum(d) < targetScore then Up else Down;
    SumBounds(d);
    if dir == Up {
      SomeItemBelowCeiling(d);
    } else {
      SomeItemAboveFloor(d);
    }
    var j :| 0 <= j < |d| && (if dir == Up then d[j] < MaxItemScore else d[j] > 0);
    assert Movable(d, dir, j);
    CandidatesAreMovable(d, dir);
    assert j in Candidates(d, dir);
    MaxByGapIsFirstMax(d, c, dir);
    var k := MaxByGap(d, c, dir, Candidates(d, dir));
    var e := Nudge(d, k, dir);
    SumUpdate(d, k, e[k]);
  }

  /** The adjustment loop keeps every item within the scale, whatever the target. */
  lemma {:induction false} AdjustedStaysInScale(d: Profile, c: seq<real>, targetScore: int, fuel: nat)
    requires |c| == ItemCount && InScale(d)
    ensures InScale(Adjusted(d, c, targetScore, fuel))
    decreases fuel
  {
    if fuel > 0 && Sum(d) != targetScore {
      var dir := if Sum(d) < targetScore then Up else Down;
      var cands := Candidates(d, dir);
      if |cands| > 0 {
        MaxByGapIsFirstMax(d, c, dir);
        var e := Nudge(d, MaxByGap(d, c, dir, cands), dir);
        AdjustedStaysInScale(e, c, targetScore, fuel - 1);
      }
    }
  }

  /**
   * With a target between 0 and 60 and at least as many iterations left as
   * the distance to the target, the adjustment loop ends on the target.
   */
  lemma {:induction false} AdjustedReachesTarget(d: Profile, c: seq<real>, targetScore: int, fuel: nat)
    requires |c| == ItemCount && InScale(d) && ValidTarget(targetScore)
    requires fuel >= Abs(Sum(d) - targetScore)
    ensures Sum(Adjusted(d, c, targetScore, fuel)) == targetScore
    decreases fuel
  {
    if Sum(d) != targetScore {
      AdjustmentStep(d, c, targetScore);
      var dir := if Sum(d) < targetScore then Up else Down;
      var e := Nudge(d, MaxByGap(d, c, dir, Candidates(d, dir)), dir);
      AdjustedReachesTarget(e, c, targetScore, fuel - 1);
    }
  }

  /** A profile within the scale is at most 60 points from any valid target: the cap of 100 suffices. */
  lemma DistanceWithinCap(d: Profile, targetScore: int)
    requires InScale(d) && ValidTarget(targetScore)
    ensures Abs(Sum(d) - targetScore) <= MaxTotal < AdjustmentCap
  {
    SumBounds(d);
  }

  /** The adjustment loop stops, leaving the profile as it is, on the target or when no item can move. */
  lemma AdjustedStops(d: Profile, c: seq<real>, targetScore: int, fuel: nat, dir: Direction)
    requires |c| == ItemCount
    requires dir == (if Sum(d) < targetScore then Up else Down)
    requires Sum(d) == targetScore || |Candidates(d, dir)| == 0
    ensures Adjusted(d, c, targetScore, fuel) == d
  {
  }

  /** Off the target with a movable item, one iteration moves the chosen item one point. */
  lemma AdjustedMoves(d: Profile, c: seq<real>, targetScore: int, fuel: nat, dir: Direction, best: nat)
    requires |c| == ItemCount && fuel > 0 && Sum(d) != targetScore
    requires dir == (if Sum(d) < targetScore then Up else Down)
    requires |Candidates(d, dir)| > 0 && best == MaxByGap(d, c, dir, Candidates(d, dir))
    ensures best < ItemCount
    ensures Adjusted(d, c, targetScore, fuel) == Adjusted(Nudge(d, best, dir), c, targetScore, fuel - 1)
  {
  }

  /**
   * The cap of 100 iterations: the adjusted profile stays within the scale
   * and, for a target between 0 and 60, totals exactly the target.
   */
  lemma AdjustedWithinCap(d: Profile, c: seq<real>, targetScore: int)
    requires |c| == ItemCount && InScale(d)
    ensures InScale(Adjusted(d, c, targetScore, AdjustmentCap))
    ensures ValidTarget(targetScore) ==> Sum(Adjusted(d, c, targetScore, AdjustmentCap)) == targetScore
  {
    AdjustedStaysInScale(d, c, targetScore, AdjustmentCap);
    if ValidTarget(targetScore) {
      DistanceWithinCap(d, targetScore);
      AdjustedReachesTarget(d, c, targetScore, AdjustmentCap);
    }
  }

  /**
   * One iteration of the adjustment loop on the score table: stop at the
   * target or when no item can move in the needed direction; otherwise move
   * the item with the largest gap one point towards the target.
   */
  method AdjustOnce(discrete: array<int>, continuous: seq<real>, targetScore: int, currentSum: int) returns (stop: bool)
    requires discrete.Length == ItemCount && |continuous| == ItemCount
    requires currentSum == Sum(discrete[..])
    modifies discrete
    ensures var d: Profile := old(discrete[..]);
      var dir := if Sum(d) < targetScore then Up else Down;
      && (stop <==> Sum(d) == targetScore || |Candidates(d, dir)| == 0)
      && (stop ==> discrete[..] == d)
      && (!stop ==> discrete[..] == Nudge(d, MaxByGap(d, continuous, dir, Candidates(d, dir)), dir))
  {
    var cur: Profile := discrete[..];
    if currentSum == targetScore {
      return true;
    }
    var dir := if currentSum < targetScore then Up else Down;
    var cands := Candidates(cur, dir);
    if |cands| == 0 {
      return true;
    }
    var best := MaxByGap(cur, continuous, dir, cands);
    discrete[best] := if dir == Up then cur[best] + 1 else cur[best] - 1;
    assert discrete[..] == Nudge(cur, best, dir);
    return false;
  }

  /** The adjustment loop in place on the generator's score table. */
  method AdjustToTarget(discrete: array<int>, continuous: seq<real>, targetScore: int)
    requires discrete.Length == ItemCount && |continuous| == ItemCount
    requires InScale(discrete[..])
    modifies discrete
    ensures discrete[..] == Adjusted(old(discrete[..]), continuous, targetScore, AdjustmentCap)
    ensures InScale(discrete[..])
    ensures ValidTarget(targetScore) ==> Sum(discrete[..]) == targetScore
  {
    ghost var start: Profile := discrete[..];
    var cap := AdjustmentCap;
    ghost var goal := Adjusted(start, continuous, targetScore, cap);
    var currentSum := Sum(discrete[..]);
    for i := 0 to cap
      invariant currentSum == Sum(discrete[..])
      invariant Adjusted(discrete[..], continuous, targetScore, cap - i) == goal
    {
      ghost var before: Profile := discrete[..];
      ghost var dir := if Sum(before) < targetScore then Up else Down;
      var stop := AdjustOnce(discrete, continuous, targetScore, currentSum);
      if stop {
        AdjustedStops(before, continuous, targetScore, cap - i, dir);
        break;
      }
      AdjustedMoves(before, continuous, targetScore, cap - i, dir, MaxByGap(before, continuous, dir, Candidates(before, dir)));
      currentSum := Sum(discrete[..]);
    }
    AdjustedWithinCap(start, continuous, targetScore);
  }

  // ---------------------------------------------------------------------------
  // Entry point
  // ---------------------------------------------------------------------------

  /**
   * One profile for `targetScore`, given the continuous item values and their
   * rounded integers. None exactly for a target outside [0, 60]; otherwise the
   * clamped, adjusted and corrected profile, which lies within the scale,
   * passes the clinical checks, and totals within -9..+5 of the target.
   */
  method GenerateProfile(targetScore: int, rounded: seq<int>, continuous: seq<real>) returns (r: Option<Profile>)
    requires |rounded| == ItemCount && |continuous| == ItemCount
    ensures r.None? <==> !ValidTarget(targetScore)
    ensures r.Some? ==> r.value == MadrsRules(Adjusted(Discretised(rounded), continuous, targetScore, AdjustmentCap))
    ensures r.Some? ==> InScale(r.value) && CheckClinicalRules(r.value) == []
    ensures r.Some? ==> targetScore - 9 <= Sum(r.value) <= targetScore + 5
  {
    if !(0 <= targetScore <= 60) {
      return None;
    }
    var discrete := new int[ItemCount];
    for k := 0 to ItemCount
      invariant forall j :: 0 <= j < k ==> discrete[j] == Clamp(rounded[j])
    {
      discrete[k] := Clamp(rounded[k]);
    }
    assert discrete[..] == Discretised(rounded);
    AdjustToTarget(discrete, continuous, targetScore);
    ghost var adjusted: Profile := discrete[..];
    ApplyMadrsRules(discrete);
    MadrsRulesDrift(adjusted);
    r := Some(discrete[..]);
  }
}
