# MADRS profile generators and violation checker, modelled in Dafny

This project models the integer logic of a repository that generates synthetic
profiles for the Montgomery-Asberg Depression Rating Scale (MADRS). A profile
has ten items, each scored from 0 to 6, and is generated to hit a total score.
The model covers four pieces of that logic:

- **The violation checker** (`violations.dfy`, module `Violations`). Two
  read-only checks over one profile record. The generating rules are the
  constraints of the rule-based generator: apparent sadness within one point
  of reported sadness, suicidal and pessimistic thoughts bounded by sadness,
  the anhedonia floor, each item in [0, 6], and the total equal to the
  target. The clinical rules are the four plausibility rules: the two
  mood-gate rules, the anhedonia link, and the tension/sleep link. Each check
  returns its violations as a sequence, in the order the source appends them.
- **The hierarchical generator's integer back end** (`hierarchical.dfy`,
  module `HierarchicalGenerator`). It rejects targets outside [0, 60], clamps
  each rounded value into [0, 6], and runs the adjustment loop. That loop moves
  one item a single point towards the target while it is off target, for at
  most 100 iterations. It picks the item with the largest gap between its
  continuous value and its score, and the first such item in item order on
  ties. Last comes the in-place clinical correction pass.
- **The factor-based generator's point distribution** (`factor_generator.dfy`,
  module `FactorGenerator`). Ten items start at 0. Points go out one at a time
  to any item still below 6.
- **The correlation-matrix generator's point distribution**
  (`matrix_generator.dfy`, module `MatrixGenerator`). The same distribution,
  for a matrix with any number of rows. Its result pairs each row label with
  its score.

`madrs.dfy` (module `Madrs`) holds the shared vocabulary. It defines the ten
items in column order, a profile as a sequence of ten integers indexed by
item, the scale bounds, and the facts about totals that the generators rely
on.

Randomness is replaced by choice:

- In the two distribution loops, the weighted random pick becomes an arbitrary
  valid index, chosen with `:|`. Every property therefore holds for every
  sequence of picks.
- The hierarchical generator's continuous item values and their rounded
  integers are inputs to `GenerateProfile`. The loop uses the continuous values
  only to compare gaps, and they are modelled as `real`.

In-place state becomes arrays:

- The `discrete` and `scores` dictionaries are `array<int>` of length ten.
- The matrix generator's `final_scores` is an `array<int>` of length `n`.
- The methods that update them are proved against specification functions:
  - `ApplyMadrsRules` against `MadrsRules`;
  - `AdjustToTarget` against `Adjusted`, the loop with a number of iterations
    left.

The source comment beside the correction pass (generate_profiles_hopkins_latent.py:136-137)
says the total "may drift by 1-2 points". The model proves a wider range, and
shows both ends can happen:

- On a profile within the scale, the drift lies between -9 and +5
  (`MadrsRulesDrift`).
- Both -9 and +5 are reached (`MadrsRulesDriftAttained`).

So the generator's output totals between target - 9 and target + 5
(`GenerateProfile`). The code does what it evidently means to do; only the
comment understates the range.

## Model

| member | source | states |
|---|---|---|
| Madrs.ItemColsEnumerateItems | check_profile_violations.py:173-178 | the item columns list each of the ten items exactly once, and position k holds the item whose index is k |
| Madrs.ColumnsIdentifyItems | check_profile_violations.py:173-178 | two items read the same record column exactly when they are the same item |
| Madrs.CreditPoint | generate_profiles_hopkins.py:53-55 | one point added to an item below 6 keeps every item within [0, 6] and raises the total by exactly one |
| Violations.MaxSuicidal | check_profile_violations.py:41-46 | the suicidal-thoughts bound is 1 for sadness at most 1, 3 for sadness 2 or 3, and 6 from sadness 4 up |
| Violations.MaxPessimism | check_profile_violations.py:75 | the pessimism bound for non-zero sadness is sadness + 2 up to sadness 4, and 6 from sadness 4 up |
| Violations.RuleTypeLabelsDistinct | check_profile_violations.py:237-238 | the "generating" and "clinical" strings that split a report tell the two rule types apart |
| Violations.RuleNamesIdentifyRules | check_profile_violations.py:240-254 | two rules share a rule string exactly when they are the same rule or both item-range rules, so counting by rule string counts by rule with the range rules pooled |
| Violations.ApparentSadnessCheck | check_profile_violations.py:30-38 | reports only the apparent-sadness rule, exactly when apparent and reported sadness differ by more than 1; every entry is a generating violation |
| Violations.SuicidalCheck | check_profile_violations.py:40-63 | reports "suicidal zero when no sadness" exactly when sadness is 0 and suicidal thoughts are positive, and the bounded-by-sadness rule exactly when sadness is not 0 and suicidal thoughts exceed the bound; nothing else |
| Violations.PessimismCheck | check_profile_violations.py:65-82 | reports "pessimism zero when no sadness" exactly when sadness is 0 and pessimism is positive, and the bounded rule exactly when sadness is not 0 and pessimism exceeds min(6, sadness + 2); nothing else |
| Violations.AnhedoniaCheck | check_profile_violations.py:84-93 | reports the anhedonia floor exactly when sadness is positive and inability to feel is below sadness // 2, i.e. 2 * inability + 1 < sadness |
| Violations.RangeViolations | check_profile_violations.py:95-102 | over the first n columns, reports an item-range violation for an item exactly when that item is outside [0, 6], reports no other rule, and has one entry per such item |
| Violations.TotalCheck | check_profile_violations.py:104-112 | reports only the total rule, exactly when the sum of the ten items differs from the target |
| Violations.CheckGeneratingRules | check_profile_violations.py:22-114 | every violation it returns has rule type "generating" |
| Violations.GeneratingReports | check_profile_violations.py:22-114 | the generating checker reports a rule exactly when one of its six checks does |
| Violations.ApparentSadnessReported | check_profile_violations.py:30-38 | the generating checker reports the apparent-sadness rule iff the two sadness items differ by more than 1 |
| Violations.SuicidalReported | check_profile_violations.py:40-63 | the generating checker reports each of the two suicidal-thoughts rules iff its condition holds |
| Violations.PessimismReported | check_profile_violations.py:65-82 | the generating checker reports each of the two pessimism rules iff its condition holds |
| Violations.AnhedoniaReported | check_profile_violations.py:84-93 | the generating checker reports the anhedonia floor iff sadness is positive and inability to feel is below sadness // 2 |
| Violations.RangeReported | check_profile_violations.py:95-102 | the generating checker reports an item-range violation for an item iff that item lies outside [0, 6] |
| Violations.TotalReported | check_profile_violations.py:104-112 | the generating checker reports the total rule iff the total differs from the target |
| Violations.RangeViolationsCounted | check_profile_violations.py:95-102 | the number of item-range violations equals the number of items outside [0, 6] |
| Violations.MoodGateSuicidalCheck | check_profile_violations.py:128-136 | reports only the suicidal mood gate, exactly when sadness is at most 1 and suicidal thoughts exceed 2; entries are clinical |
| Violations.MoodGatePessimismCheck | check_profile_violations.py:138-146 | reports only the pessimism mood gate, exactly when sadness is at most 1 and pessimism exceeds 2; entries are clinical |
| Violations.AnhedoniaLinkCheck | check_profile_violations.py:148-156 | reports only the anhedonia link, exactly when inability to feel is at least 4 and sadness is below 2; entries are clinical |
| Violations.TensionSleepLinkCheck | check_profile_violations.py:158-166 | reports only the tension/sleep link, exactly when inner tension is at least 4 and reduced sleep is 0; entries are clinical |
| Violations.CheckClinicalRules | check_profile_violations.py:119-168 | every violation has rule type "clinical", and the list is empty iff none of the four implausible conditions holds |
| Violations.ClinicalReports | check_profile_violations.py:119-168 | the clinical checker reports a rule exactly when one of its four checks does |
| Violations.ClinicalRulesReported | check_profile_violations.py:128-166 | the clinical checker reports each of its four rules iff that rule's condition holds |
| HierarchicalGenerator.Clamp | generate_profiles_hopkins_latent.py:116 | the clamped value lies in [0, 6], equals the input inside the scale, is 0 below it and 6 above it |
| HierarchicalGenerator.Discretised | generate_profiles_hopkins_latent.py:111-116 | every item of the starting profile lies in [0, 6]: a rounded value inside the scale is kept, one below it becomes 0 and one above it becomes 6 |
| HierarchicalGenerator.MadrsRules | generate_profiles_hopkins_latent.py:54-72 | the corrected profile is clinically plausible and stays within the scale. The rules only lower suicidal thoughts (to 1, from above 2) and pessimism (to 2, from above 2). They only raise reported sadness (to 3, from below 2) and reduced sleep (to 2, from 0). The other six items are unchanged |
| HierarchicalGenerator.ApplyMadrsRules | generate_profiles_hopkins_latent.py:54-72 | the in-place pass leaves the score table equal to MadrsRules of its old contents |
| HierarchicalGenerator.MadrsRulesPassClinicalCheck | generate_profiles_hopkins_latent.py:136-138 | the corrected profile has no violation under the clinical checker |
| HierarchicalGenerator.MadrsRulesIdempotent | generate_profiles_hopkins_latent.py:54-72 | correcting a corrected profile changes nothing |
| HierarchicalGenerator.MadrsRulesDrift | generate_profiles_hopkins_latent.py:136-138 | on a profile within the scale, the correction changes the total by between -9 and +5 |
| HierarchicalGenerator.MadrsRulesDriftAttained | generate_profiles_hopkins_latent.py:136-138 | profiles within the scale exist whose total drops by 9 and rises by 5 under the correction |
| HierarchicalGenerator.CandidatesUpTo | generate_profiles_hopkins_latent.py:124 | every candidate among the first n items is an item index below n |
| HierarchicalGenerator.CandidatesUpToMovable | generate_profiles_hopkins_latent.py:124 | the candidates among the first n items are exactly those that can still move (below 6 going up, above 0 going down) |
| HierarchicalGenerator.CandidatesUpToIncreasing | generate_profiles_hopkins_latent.py:124 | the candidates come in strictly increasing item order |
| HierarchicalGenerator.Candidates | generate_profiles_hopkins_latent.py:123-129 | the candidate list of a step (the comprehension at line 123 going up, line 129 going down) holds only item indices; CandidatesAreMovable states its contents and order |
| HierarchicalGenerator.CandidatesAreMovable | generate_profiles_hopkins_latent.py:124-130 | the candidates of a step are exactly the movable items, listed in item_keys order |
| HierarchicalGenerator.FirstArgMax | generate_profiles_hopkins_latent.py:127 | the chosen position lies within a non-empty sequence |
| HierarchicalGenerator.FirstArgMaxIsFirstMax | generate_profiles_hopkins_latent.py:127 | the chosen position holds a maximum and every earlier value is strictly smaller, which is how Python's max breaks ties |
| HierarchicalGenerator.Gap | generate_profiles_hopkins_latent.py:126-132 | the ranking key of a candidate: continuous value minus score going up (line 126), score minus continuous value going down (line 132); MaxByGapIsFirstMax states how it decides the choice |
| HierarchicalGenerator.MaxByGap | generate_profiles_hopkins_latent.py:127-133 | the chosen item is one of the candidates |
| HierarchicalGenerator.MaxByGapIsFirstMax | generate_profiles_hopkins_latent.py:127-133 | the chosen item is movable and has the largest gap among the movable items. The gap is continuous minus discrete going up, discrete minus continuous going down. The item is the first in item order with that gap |
| HierarchicalGenerator.Nudge | generate_profiles_hopkins_latent.py:127-133 | the chosen item rises by one (line 127) or falls by one (line 133), every other item is unchanged, the total moves by the same point, and a movable item keeps the profile in [0, 6] |
| HierarchicalGenerator.Adjusted | generate_profiles_hopkins_latent.py:117-134 | the adjustment loop with fuel iterations left: it stops on the target or when no item can move in the needed direction, and otherwise moves the MaxByGap item one point and goes on with one iteration fewer. Its properties are carried by AdjustedStops, AdjustedMoves, AdjustedStaysInScale and AdjustedReachesTarget |
| HierarchicalGenerator.AdjustmentStep | generate_profiles_hopkins_latent.py:122-134 | off target with a valid target: some item can move, exactly one item changes, by +1 below the target and -1 above it, the profile stays in the scale, and the distance to the target drops by exactly 1 |
| HierarchicalGenerator.AdjustedStaysInScale | generate_profiles_hopkins_latent.py:123-133 | the adjustment loop keeps every item in [0, 6], whatever the target |
| HierarchicalGenerator.AdjustedReachesTarget | generate_profiles_hopkins_latent.py:117-134 | for a target in [0, 60], with at least as many iterations left as the distance to the target, the loop ends exactly on the target |
| HierarchicalGenerator.DistanceWithinCap | generate_profiles_hopkins_latent.py:118 | a profile within the scale is at most 60 points from a valid target, below the cap of 100 |
| HierarchicalGenerator.AdjustedStops | generate_profiles_hopkins_latent.py:119-126 | on the target, or with no movable item, the loop leaves the profile unchanged |
| HierarchicalGenerator.AdjustedMoves | generate_profiles_hopkins_latent.py:122-134 | otherwise one iteration moves the chosen item one point and the loop continues with one iteration fewer |
| HierarchicalGenerator.AdjustedWithinCap | generate_profiles_hopkins_latent.py:117-134 | within the 100-iteration cap the adjusted profile stays in the scale and, for a target in [0, 60], totals exactly the target |
| HierarchicalGenerator.AdjustOnce | generate_profiles_hopkins_latent.py:119-134 | one iteration on the score table. It stops exactly when the total is the target or no item can move in the needed direction, and then leaves the table unchanged. Otherwise it leaves the old table with the chosen item moved one point |
| HierarchicalGenerator.AdjustToTarget | generate_profiles_hopkins_latent.py:117-134 | the loop leaves the table equal to the specified adjustment with 100 iterations, every item in [0, 6], and, for a target in [0, 60], the total equal to the target |
| HierarchicalGenerator.GenerateProfile | generate_profiles_hopkins_latent.py:90-140 | None exactly for a target outside [0, 60]. Otherwise it returns the clamped, adjusted and corrected profile: within the scale, with no clinical violation, and with a total between target - 9 and target + 5 |
| FactorGenerator.LoadingPosition | generate_profiles_hopkins.py:7-12 | every item has a position in the loading order that holds that item |
| FactorGenerator.LoadingOrderEnumeratesItems | generate_profiles_hopkins.py:7-12 | the loadings name each of the ten items exactly once |
| FactorGenerator.Generate | generate_profiles_hopkins.py:40-57 | for every sequence of picks: every item ends in [0, 6]. A target of 0 or more gives a total of min(target, 60). A target of 0 or less leaves every item at 0. A target of 60 or more fills every item to 6 |
| MatrixGenerator.ValidMask | generate_profiles_borentain.py:27 | the mask marks exactly the rows whose score is below 6 |
| MatrixGenerator.GenerateFromMatrix | generate_profiles_borentain.py:21-38 | one entry per row, labelled with that row, in row order, all in [0, 6], for every sequence of picks. A target of 0 or more gives a total of min(target, 6 * rows). A target of 0 or less leaves every row at 0. A target of at least 6 per row fills every row to 6 |

## Left out

- Multivariate-normal and Gaussian sampling, the `exp`/softmax propensities and probability normalisation are floating-point library work. Each weighted pick is replaced by an arbitrary valid choice.
- Python's `round` on floats is not modelled. The rounded integers are an input beside the continuous values, and only the clamp is modelled.
- The floating-point subtraction in the gap comparison is modelled as exact `real` arithmetic.
- `_severity_scaled_cov` and the factor-mean formula are not modelled. They are real-valued parameters that only feed the sampler.
- `validate` only computes statistics and prints; not modelled.
- `main` in the checker (CSV reading, counting, printing, report files) is I/O; not modelled.
- The plotting script and the batch driver scripts are outside the modelled core.
- Loading the correlation matrix from CSV is I/O. `GenerateFromMatrix` takes the matrix's row labels directly, and the matrix values feed only the sampler.
- Detail strings: each violation's detail string is reduced to the integers it quotes, in the order it quotes them. The rule and rule-type strings are kept as `Rule.Name` and `RuleType.Label`.
- Violations.CheckGeneratingRules and Violations.CheckClinicalRules: converting each record field with `int(...)` (check_profile_violations.py:28, 106 and 126) is not modelled; the checkers take an integer profile and an integer target. A record missing an item column makes `row[k]` raise `KeyError`; a `Profile` always has all ten items, so that error path is not modelled.
- HierarchicalGenerator.ApplyMadrsRules: the guard `"REPORTED_SADNESS" in scores` is not modelled. A profile always has every item, so the guard always holds.
- HierarchicalGenerator.AdjustToTarget: the loop body is one call to `AdjustOnce`. The early exits return a stop flag, and the loop breaks on it, in place of a `break` between the tests.
- FactorGenerator.Generate: the source returns a dictionary keyed in loading order (APPARENT_SADNESS first); the model returns a `Profile` indexed in item-column order, so that key order is not kept. `LoadingPosition` records the correspondence between the two orders.
- MatrixGenerator.GenerateFromMatrix: the result is the row-ordered sequence of (label, score) pairs that `zip` builds. When two rows share a label, the dictionary would merge them; that merge is not modelled.
