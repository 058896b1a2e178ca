/**
 * The violation checker: two read-only predicates over one profile record.
 * The generating rules are the constraints of the rule-based generator; the
 * clinical rules are the plausibility rules that the correction pass enforces.
 * Each checker lists its violations in the order in which it tests the rules.
 */
module Violations {
  import opened Madrs

  datatype RuleType = Generating | Clinical {
    function Label(): string {
      match this
      case Generating => "generating"
      case Clinical => "clinical"
    }
  }

  datatype Rule =
    | ApparentSadnessWithin1OfReported
    | SuicidalZeroWhenNoSadness
    | SuicidalThoughtsBoundedBySadness
    | PessimismZeroWhenNoSadness
    | PessimisticThoughtsBoundedBySadness
    | AnhedoniaFloorBySadness
    | ItemRange0To6(item: Item)
    | TotalMatchesTarget
    | MoodGateSuicidal
    | MoodGatePessimism
    | AnhedoniaRequiresSadness
    | TensionRequiresSleepDisturbance
  {
    /** The rule's identifier in the violation report. */
    function Name(): string {
      match this
      case ApparentSadnessWithin1OfReported => "apparent_sadness_within_1_of_reported"
      case SuicidalZeroWhenNoSadness => "suicidal_zero_when_no_sadness"
      case SuicidalThoughtsBoundedBySadness => "suicidal_thoughts_bounded_by_sadness"
      case PessimismZeroWhenNoSadness => "pessimism_zero_when_no_sadness"
      case PessimisticThoughtsBoundedBySadness => "pessimistic_thoughts_bounded_by_sadness"
      case AnhedoniaFloorBySadness => "anhedonia_floor_by_sadness"
      case ItemRange0To6(_) => "item_range_0_to_6"
      case TotalMatchesTarget => "total_matches_target"
      case MoodGateSuicidal => "mood_gate_suicidal"
      case MoodGatePessimism => "mood_gate_pessimism"
      case AnhedoniaRequiresSadness => "anhedonia_requires_sadness"
      case TensionRequiresSleepDisturbance => "tension_requires_sleep_disturbance"
    }
  }

  /** The two rule-type strings of a report differ. */
  lemma RuleTypeLabelsDistinct(a: RuleType, b: RuleType)
    ensures a.Label() == b.Label() <==> a == b
  {
  }

  /**
   * The rule string of a report tells every rule apart except the item-range
   * rules, which share one string, so counting reports by rule string counts
   * them by rule with the range rules pooled.
   */
  lemma RuleNamesIdentifyRules(a: Rule, b: Rule)
    ensures a.Name() == b.Name() <==> a == b || (a.ItemRange0To6? && b.ItemRange0To6?)
  {
  }

  /**
   * One reported violation. `quoted` holds the integers that the detail
   * message quotes, in the order in which it quotes them.
   */
  datatype Violation = Violation(ruleType: RuleType, rule: Rule, quoted: seq<int>)

  /** Some violation in `vs` is for `rule`. */
  predicate Reports(vs: seq<Violation>, rule: Rule) {
    exists v :: v in vs && v.rule == rule
  }

  /** A concatenation reports a rule exactly when one of its parts does. */
  lemma ReportsAppend(a: seq<Violation>, b: seq<Violation>, rule: Rule)
    ensures Reports(a + b, rule) <==> Reports(a, rule) || Reports(b, rule)
  {
    if Reports(a + b, rule) {
      var v :| v in a + b && v.rule == rule;
      assert v in a || v in b;
    }
    if Reports(a, rule) {
      var v :| v in a && v.rule == rule;
      assert v in a + b;
    }
    if Reports(b, rule) {
      var v :| v in b && v.rule == rule;
      assert v in a + b;
    }
  }

  /** A one-violation report reports exactly that violation's rule. */
  lemma ReportsSingleton(v: Violation)
    ensures forall rule :: Reports([v], rule) <==> v.rule == rule
  {
    assert v in [v];
  }

  /** Number of item-range violations in `vs`. */
  function RangeViolationCount(vs: seq<Violation>): nat {
    if vs == [] then 0
    else (if vs[0].rule.ItemRange0To6? then 1 else 0) + RangeViolationCount(vs[1..])
  }

  /** Number of the first `n` item columns whose score lies outside the scale. */
  function OutOfRangeCount(s: Profile, n: nat): nat
    requires n <= ItemCount
  {
    if n == 0 then 0
    else OutOfRangeCount(s, n - 1) + (if InRange(s[n - 1]) then 0 else 1)
  }

  function Abs(x: int): nat {
    if x < 0 then -x else x
  }

  // ---------------------------------------------------------------------------
  // Generating rules
  // ---------------------------------------------------------------------------

  /** Highest suicidal-thoughts score the rule-based generator allows for a sadness level. */
  function MaxSuicidal(sadness: int): (m: int)
    ensures sadness <= 1 ==> m == 1
    ensures 2 <= sadness <= 3 ==> m == 3
    ensures sadness >= 4 ==> m == MaxItemScore
  {
    if sadness <= 1 then 1
    else if sadness <= 3 then Min(3, sadness + 1)
    else 6
  }

  /** Highest pessimistic-thoughts score allowed for a non-zero sadness level. */
  function MaxPessimism(sadness: int): (m: int)
    ensures sadness <= 4 ==> m == sadness + 2
    ensures sadness >= 4 ==> m == MaxItemScore
  {
    Min(6, sadness + 2)
  }

  /** Rule 1: apparent sadness within one point of reported sadness. */
  function ApparentSadnessCheck(s: Profile): (r: seq<Violation>)
    ensures forall v :: v in r ==> v.ruleType == Generating
    ensures forall rule :: Reports(r, rule) <==>
      rule == ApparentSadnessWithin1OfReported && Abs(Score(s, ApparentSadness) - Score(s, ReportedSadness)) > 1
  {
    var apparent := Score(s, ApparentSadness);
    var reported := Score(s, ReportedSadness);
    var diff := Abs(apparent - reported);
    if diff > 1 then
      var v := Violation(Generating, ApparentSadnessWithin1OfReported, [apparent, reported, diff]);
      ReportsSingleton(v);
      [v]
    else []
  }

  /** Rule 2: suicidal thoughts bounded by sadness, and absent without sadness. */
  function SuicidalCheck(s: Profile): (r: seq<Violation>)
    ensures forall v :: v in r ==> v.ruleType == Generating
    ensures forall rule :: Reports(r, rule) <==>
      || (rule == SuicidalZeroWhenNoSadness && Score(s, ReportedSadness) == 0 && Score(s, SuicidalThoughts) > 0)
      || (rule == SuicidalThoughtsBoundedBySadness && Score(s, ReportedSadness) != 0
          && Score(s, SuicidalThoughts) > MaxSuicidal(Score(s, ReportedSadness)))
  {
    var sadness := Score(s, ReportedSadness);
    var suicidal := Score(s, SuicidalThoughts);
    var maxSuicide := MaxSuicidal(sadness);
    if sadness == 0 then
      if suicidal > 0 then
        var v := Violation(Generating, SuicidalZeroWhenNoSadness, [suicidal]);
        ReportsSingleton(v);
        [v]
      else []
    else if suicidal > maxSuicide then
      var v := Violation(Generating, SuicidalThoughtsBoundedBySadness, [suicidal, maxSuicide, sadness]);
      ReportsSingleton(v);
      [v]
    else []
  }

  /** Rule 3: pessimistic thoughts absent without sadness, else at most sadness + 2. */
  function PessimismCheck(s: Profile): (r: seq<Violation>)
    ensures forall v :: v in r ==> v.ruleType == Generating
    ensures forall rule :: Reports(r, rule) <==>
      || (rule == PessimismZeroWhenNoSadness && Score(s, ReportedSadness) == 0 && Score(s, PessimisticThoughts) > 0)
      || (rule == PessimisticThoughtsBoundedBySadness && Score(s, ReportedSadness) != 0
          && Score(s, PessimisticThoughts) > Min(6, Score(s, ReportedSadness) + 2))
  {
    var sadness := Score(s, ReportedSadness);
    var pessimism := Score(s, PessimisticThoughts);
    if sadness == 0 then
      if pessimism > 0 then
        var v := Violation(Generating, PessimismZeroWhenNoSadness, [pessimism]);
        ReportsSingleton(v);
        [v]
      else []
    else
      var maxPessimism := MaxPessimism(sadness);
      if pessimism > maxPessimism then
        var v := Violation(Generating, PessimisticThoughtsBoundedBySadness, [pessimism, maxPessimism, sadness]);
        ReportsSingleton(v);
        [v]
      else []
  }

  /** Rule 4: with sadness present, inability to feel is at least half of it (floor division). */
  function AnhedoniaCheck(s: Profile): (r: seq<Violation>)
    ensures forall v :: v in r ==> v.ruleType == Generating
    ensures forall rule :: Reports(r, rule) <==>
      rule == AnhedoniaFloorBySadness && Score(s, ReportedSadness) > 0
      && 2 * Score(s, InabilityToFeel) + 1 < Score(s, ReportedSadness)
  {
    var sadness := Score(s, ReportedSadness);
    var inability := Score(s, InabilityToFeel);
    if sadness > 0 then
      // sadness is positive here, so Dafny's division is the floor division of the checker
      var minAnhedonia := sadness / 2;
      if inability < minAnhedonia then
        var v := Violation(Generating, AnhedoniaFloorBySadness, [inability, minAnhedonia, sadness]);
        ReportsSingleton(v);
        [v]
      else []
    else []
  }

  /**
   * Rule 5: one violation per item outside [0, 6], for the first `n` item
   * columns, in column order.
   */
  function RangeViolations(s: Profile, n: nat): (r: seq<Violation>)
    requires n <= ItemCount
    ensures forall v :: v in r ==> v.ruleType == Generating && v.rule.ItemRange0To6?
    ensures forall rule: Rule :: !rule.ItemRange0To6? ==> !Reports(r, rule)
    ensures forall it: Item :: Reports(r, ItemRange0To6(it)) <==> it.Index() < n && !InRange(Score(s, it))
    ensures |r| == OutOfRangeCount(s, n)
  {
    if n == 0 then []
    else
      ItemColsEnumerateItems();
      var it := ItemCols[n - 1];
      var previous := RangeViolations(s, n - 1);
      if !InRange(Score(s, it)) then
        var v := Violation(Generating, ItemRange0To6(it), [Score(s, it)]);
        assert forall rule :: Reports(previous + [v], rule) <==> Reports(previous, rule) || v.rule == rule by {
          forall rule ensures Reports(previous + [v], rule) <==> Reports(previous, rule) || v.rule == rule {
            ReportsAppend(previous, [v], rule);
            assert Reports([v], rule) <==> v.rule == rule;
          }
        }
        previous + [v]
      else
        previous
  }

  /** Rule 6: the total equals the target score. */
  function TotalCheck(s: Profile, targetScore: int): (r: seq<Violation>)
    ensures forall v :: v in r ==> v.ruleType == Generating
    ensures forall rule :: Reports(r, rule) <==> rule == TotalMatchesTarget && Sum(s) != targetScore
  {
    var actual := Sum(s);
    if actual != targetScore then
      var v := Violation(Generating, TotalMatchesTarget, [actual, targetScore]);
      ReportsSingleton(v);
      [v]
    else []
  }

  /** All generating-rule violations of a profile record with the given target score. */
  function CheckGeneratingRules(s: Profile, targetScore: int): (r: seq<Violation>)
    ensures forall v :: v in r ==> v.ruleType == Generating
  {
    ApparentSadnessCheck(s) + SuicidalCheck(s) + PessimismCheck(s) + AnhedoniaCheck(s)
    + RangeViolations(s, |s|) + TotalCheck(s, targetScore)
  }

  /** The generating checker reports a rule exactly when one of its six checks does. */
  lemma GeneratingReports(s: Profile, targetScore: int, rule: Rule)
    ensures Reports(CheckGeneratingRules(s, targetScore), rule) <==>
      Reports(ApparentSadnessCheck(s), rule) || Reports(SuicidalCheck(s), rule)
      || Reports(PessimismCheck(s), rule) || Reports(AnhedoniaCheck(s), rule)
      || Reports(RangeViolations(s, |s|), rule) || Reports(TotalCheck(s, targetScore), rule)
  {
    var a, b, c := ApparentSadnessCheck(s), SuicidalCheck(s), PessimismCheck(s);
    var d, e, f := AnhedoniaCheck(s), RangeViolations(s, |s|), TotalCheck(s, targetScore);
    ReportsAppend(a, b, rule);
    ReportsAppend(a + b, c, rule);
    ReportsAppend(a + b + c, d, rule);
    ReportsAppend(a + b + c + d, e, rule);
    ReportsAppend(a + b + c + d + e, f, rule);
  }

  lemma ApparentSadnessReported(s: Profile, targetScore: int)
    ensures Reports(CheckGeneratingRules(s, targetScore), ApparentSadnessWithin1OfReported)
      <==> Abs(Score(s, ApparentSadness) - Score(s, ReportedSadness)) > 1
  {
    GeneratingReports(s, targetScore, ApparentSadnessWithin1OfReported);
  }

  lemma SuicidalReported(s: Profile, targetScore: int)
    ensures Reports(CheckGeneratingRules(s, targetScore), SuicidalZeroWhenNoSadness)
      <==> Score(s, ReportedSadness) == 0 && Score(s, SuicidalThoughts) > 0
    ensures Reports(CheckGeneratingRules(s, targetScore), SuicidalThoughtsBoundedBySadness)
      <==> Score(s, ReportedSadness) != 0 && Score(s, SuicidalThoughts) > MaxSuicidal(Score(s, ReportedSadness))
  {
    GeneratingReports(s, targetScore, SuicidalZeroWhenNoSadness);
    GeneratingReports(s, targetScore, SuicidalThoughtsBoundedBySadness);
  }

  lemma PessimismReported(s: Profile, targetScore: int)
    ensures Reports(CheckGeneratingRules(s, targetScore), PessimismZeroWhenNoSadness)
      <==> Score(s, ReportedSadness) == 0 && Score(s, PessimisticThoughts) > 0
    ensures Reports(CheckGeneratingRules(s, targetScore), PessimisticThoughtsBoundedBySadness)
      <==> Score(s, ReportedSadness) != 0 && Score(s, PessimisticThoughts) > Min(6, Score(s, ReportedSadness) + 2)
  {
    GeneratingReports(s, targetScore, PessimismZeroWhenNoSadness);
    GeneratingReports(s, targetScore, PessimisticThoughtsBoundedBySadness);
  }

  lemma AnhedoniaReported(s: Profile, targetScore: int)
    ensures Reports(CheckGeneratingRules(s, targetScore), AnhedoniaFloorBySadness)
      <==> Score(s, ReportedSadness) > 0 && 2 * Score(s, InabilityToFeel) + 1 < Score(s, ReportedSadness)
  {
    GeneratingReports(s, targetScore, AnhedoniaFloorBySadness);
  }

  lemma RangeReported(s: Profile, targetScore: int, it: Item)
    ensures Reports(CheckGeneratingRules(s, targetScore), ItemRange0To6(it)) <==> !InRange(Score(s, it))
  {
    GeneratingReports(s, targetScore, ItemRange0To6(it));
  }

  lemma TotalReported(s: Profile, targetScore: int)
    ensures Reports(CheckGeneratingRules(s, targetScore), TotalMatchesTarget) <==> Sum(s) != targetScore
  {
    GeneratingReports(s, targetScore, TotalMatchesTarget);
  }

  lemma {:induction false} RangeViolationCountAppend(a: seq<Violation>, b: seq<Violation>)
    ensures RangeViolationCount(a + b) == RangeViolationCount(a) + RangeViolationCount(b)
  {
    if a != [] {
      assert (a + b)[0] == a[0];
      assert (a + b)[1..] == a[1..] + b;
      RangeViolationCountAppend(a[1..], b);
    } else {
      assert a + b == b;
    }
  }

  lemma {:induction false} RangeViolationCountOfRangeCheck(vs: seq<Violation>)
    requires forall v :: v in vs ==> v.rule.ItemRange0To6?
    ensures RangeViolationCount(vs) == |vs|
  {
    if vs != [] {
      assert vs[0] in vs;
      RangeViolationCountOfRangeCheck(vs[1..]);
    }
  }

  lemma {:induction false} RangeViolationCountZero(vs: seq<Violation>)
    requires forall it: Item :: !Reports(vs, ItemRange0To6(it))
    ensures RangeViolationCount(vs) == 0
  {
    if vs != [] {
      assert vs[0] in vs;
      assert forall v :: v in vs[1..] ==> v in vs;
      RangeViolationCountZero(vs[1..]);
    }
  }

  /** The number of item-range violations is the number of items outside [0, 6]. */
  lemma RangeViolationsCounted(s: Profile, targetScore: int)
    ensures RangeViolationCount(CheckGeneratingRules(s, targetScore)) == OutOfRangeCount(s, |s|)
  {
    var a := ApparentSadnessCheck(s);
    var b := SuicidalCheck(s);
    var c := PessimismCheck(s);
    var d := AnhedoniaCheck(s);
    var e := RangeViolations(s, |s|);
    var f := TotalCheck(s, targetScore);
    RangeViolationCountAppend(a, b);
    RangeViolationCountAppend(a + b, c);
    RangeViolationCountAppend(a + b + c, d);
    RangeViolationCountAppend(a + b + c + d, e);
    RangeViolationCountAppend(a + b + c + d + e, f);
    RangeViolationCountOfRangeCheck(e);
    RangeViolationCountZero(a);
    RangeViolationCountZero(b);
    RangeViolationCountZero(c);
    RangeViolationCountZero(d);
    RangeViolationCountZero(f);
  }

  // ---------------------------------------------------------------------------
  // Clinical rules
  // ---------------------------------------------------------------------------

  /**
   * The clinical plausibility rules as implications: low sadness caps suicidal
   * and pessimistic thoughts at 2, strong anhedonia needs sadness of at least 2,
   * and strong inner tension needs some sleep disturbance.
   */
  predicate ClinicallyPlausible(s: Profile) {
    && (Score(s, ReportedSadness) <= 1 ==> Score(s, SuicidalThoughts) <= 2 && Score(s, PessimisticThoughts) <= 2)
    && (Score(s, InabilityToFeel) >= 4 ==> Score(s, ReportedSadness) >= 2)
    && (Score(s, InnerTension) >= 4 ==> Score(s, ReducedSleep) != 0)
  }

  /** All clinical-rule violations of a profile record. */
  function CheckClinicalRules(s: Profile): (r: seq<Violation>)
    ensures forall v :: v in r ==> v.ruleType == Clinical
    ensures r == [] <==> ClinicallyPlausible(s)
  {
    MoodGateSuicidalCheck(s) + MoodGatePessimismCheck(s)
    + AnhedoniaLinkCheck(s) + TensionSleepLinkCheck(s)
  }

  /** Rule 1 of the core mood gate. */
  function MoodGateSuicidalCheck(s: Profile): (r: seq<Violation>)
    ensures forall v :: v in r ==> v.ruleType == Clinical
    ensures forall rule :: Reports(r, rule) <==>
      rule == MoodGateSuicidal && Score(s, ReportedSadness) <= 1 && Score(s, SuicidalThoughts) > 2
  {
    var sadness := Score(s, ReportedSadness);
    var suicidal := Score(s, SuicidalThoughts);
    if sadness <= 1 && suicidal > 2 then
      var v := Violation(Clinical, MoodGateSuicidal, [sadness, suicidal]);
      ReportsSingleton(v);
      [v]
    else []
  }

  /** Rule 2 of the core mood gate. */
  function MoodGatePessimismCheck(s: Profile): (r: seq<Violation>)
    ensures forall v :: v in r ==> v.ruleType == Clinical
    ensures forall rule :: Reports(r, rule) <==>
      rule == MoodGatePessimism && Score(s, ReportedSadness) <= 1 && Score(s, PessimisticThoughts) > 2
  {
    var sadness := Score(s, ReportedSadness);
    var pessimism := Score(s, PessimisticThoughts);
    if sadness <= 1 && pessimism > 2 then
      var v := Violation(Clinical, MoodGatePessimism, [sadness, pessimism]);
      ReportsSingleton(v);
      [v]
    else []
  }

  /** Rule 3, the anhedonia link. */
  function AnhedoniaLinkCheck(s: Profile): (r: seq<Violation>)
    ensures forall v :: v in r ==> v.ruleType == Clinical
    ensures forall rule :: Reports(r, rule) <==>
      rule == AnhedoniaRequiresSadness && Score(s, InabilityToFeel) >= 4 && Score(s, ReportedSadness) < 2
  {
    var sadness := Score(s, ReportedSadness);
    var inability := Score(s, InabilityToFeel);
    if inability >= 4 && sadness < 2 then
      var v := Violation(Clinical, AnhedoniaRequiresSadness, [inability, sadness]);
      ReportsSingleton(v);
      [v]
    else []
  }

  /** Rule 4, the tension and sleep link. */
  function TensionSleepLinkCheck(s: Profile): (r: seq<Violation>)
    ensures forall v :: v in r ==> v.ruleType == Clinical
    ensures forall rule :: Reports(r, rule) <==>
      rule == TensionRequiresSleepDisturbance && Score(s, InnerTension) >= 4 && Score(s, ReducedSleep) == 0
  {
    var tension := Score(s, InnerTension);
    var sleep := Score(s, ReducedSleep);
    if tension >= 4 && sleep == 0 then
      var v := Violation(Clinical, TensionRequiresSleepDisturbance, [tension]);
      ReportsSingleton(v);
      [v]
    else []
  }

  /** The clinical checker reports a rule exactly when one of its four checks does. */
  lemma ClinicalReports(s: Profile, rule: Rule)
    ensures Reports(CheckClinicalRules(s), rule) <==>
      Reports(MoodGateSuicidalCheck(s), rule) || Reports(MoodGatePessimismCheck(s), rule)
      || Reports(AnhedoniaLinkCheck(s), rule) || Reports(TensionSleepLinkCheck(s), rule)
  {
    var a, b, c, d := MoodGateSuicidalCheck(s), MoodGatePessimismCheck(s), AnhedoniaLinkCheck(s), TensionSleepLinkCheck(s);
    ReportsAppend(a, b, rule);
    ReportsAppend(a + b, c, rule);
    ReportsAppend(a + b + c, d, rule);
  }

  /** Each clinical rule is reported exactly when its condition holds. */
  lemma ClinicalRulesReported(s: Profile)
    ensures Reports(CheckClinicalRules(s), MoodGateSuicidal)
      <==> Score(s, ReportedSadness) <= 1 && Score(s, SuicidalThoughts) > 2
    ensures Reports(CheckClinicalRules(s), MoodGatePessimism)
      <==> Score(s, ReportedSadness) <= 1 && Score(s, PessimisticThoughts) > 2
    ensures Reports(CheckClinicalRules(s), AnhedoniaRequiresSadness)
      <==> Score(s, InabilityToFeel) >= 4 && Score(s, ReportedSadness) < 2
    ensures Reports(CheckClinicalRules(s), TensionRequiresSleepDisturbance)
      <==> Score(s, InnerTension) >= 4 && Score(s, ReducedSleep) == 0
  {
    ClinicalReports(s, MoodGateSuicidal);
    ClinicalReports(s, MoodGatePessimism);
    ClinicalReports(s, AnhedoniaRequiresSadness);
    ClinicalReports(s, TensionRequiresSleepDisturbance);
  }
}
