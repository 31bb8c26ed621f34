# Water-treatment optimization APIs, modelled in Dafny

This project models the two Python "ML" APIs of the HydroNail water-treatment system. Every
"prediction" in them is closed-form arithmetic, clamping and threshold rules. The model covers
both files:

- **`three_stage_ml_api.py`**
  - The optimizers for the primary stage (solid removal), the secondary stage (biological
    organic removal) and the tertiary stage (nutrient removal and disinfection). Each reads a
    sensor dictionary with per-key defaults. It then computes clamped set-points and clamped
    predicted outputs, and builds a short list of priority actions by guarded appends.
  - The first-match reuse-grade classifier (A, B, C, D).
  - The complete-system analysis, which:
    - merges the stage actions and tags each with its stage;
    - sorts them stably by priority (CRITICAL, HIGH, MEDIUM, LOW) in place and keeps the first ten;
    - weights the stage efficiencies 0.3/0.4/0.3;
    - works out daily cost, reuse value, net benefit and ROI.
- **`watertreatmentapi.py`**
  - Five models: the efficiency predictor (its Gaussian noise is a parameter), the anomaly
    detector, the chemical-dosing optimizer, the resource-recovery predictor and the energy
    optimizer.
  - The insight dashboard that combines them.

Modules:

- `Shared` (`shared.dfy`): the clamp and the coagulant formula that both APIs use.
- `Actions` (`actions.dfy`): priority actions and ranks; the guarded append of an optimizer;
  `ByPriority`, the specification of the stable sort; and `SortByPriority`, an in-place
  insertion sort on an array proved equal to it.
- `ThreeStage` (`stages.dfy`): the three optimizers and the reuse classifier.
  - Set-points and predictions are pure functions.
  - Action lists are built by methods whose contracts give, for each action kind, whether it
    is emitted and with what priority and numbers.
- `Analysis` (`analysis.dfy`): the merge loop, the sort and truncation, the efficiency and the
  economics of `analyze_complete_system`.
- `TreatmentApi` (`treatment.dfy`): the five models of `watertreatmentapi.py`.
  - The anomaly loop is a method proved equal to a recursive specification. The insight
    aggregator's alert loop is a method proved against a per-position specification: the
    alert at each position is the one built from the anomaly at that position.

All quantities are exact `real`s. A dictionary read with a default, `d.get(k, v)`, is a lookup
in a `map<string, real>` with that default. A missing keyword section of
`get_comprehensive_insights` is an `Option`.

Three facts that follow from the code rather than from its comments:

- Each stage emits at most three actions, so the merged list has at most nine and the `[:10]`
  truncation never drops an action.
- The hourly chemical cost is at least 1500: the coagulant dose is at least 20 kg/h (900),
  the polymer dose at least 1.5 L/h (300) and the chlorine dose at least 2 kg/h (300). The
  ROI division in the analysis therefore never divides by zero.
- Grade D is returned exactly when pathogens or nitrogen reach 10. When both the A and the B
  limits fail but both values stay below 10, the grade is C, not D.

Two observations about the code as written:

- `get_comprehensive_insights` recommends a dosing change when the daily savings exceed 500. The
  savings formula of `optimize_chemical_dosing` can never exceed 475 (`DosingSavingsPeak`), so
  that recommendation is never issued (`NoCostRecommendation`).
- `predict_treatment_efficiency` reports the mean of the *unclipped* stage efficiencies as the
  overall efficiency. The overall value can therefore lie outside every reported band, even
  above 100 % (`OverallIgnoresClipping`).

Neither is listed as a finding, since the intended behaviour is not evident from the code.

## Model

| member | source | states |
|---|---|---|
| Shared.Clamp | three_stage_ml_api.py:56 | `max(lo, min(hi, x))` lies in [lo, hi], is x inside the band, and saturates at the bound that x passes |
| Shared.CoagulantDose | three_stage_ml_api.py:50-56 | the optimal alum dose always lies in [20, 70], and is 30 at the nominal influent (150 NTU, 180 mg/L, pH 7.0) |
| Shared.CoagulantDoseMonotone | three_stage_ml_api.py:50-56 | more turbid or more solid-laden or more acidic influent never lowers the dose |
| Shared.RemovalBelowFull | three_stage_ml_api.py:74 | a removal efficiency `(in - out) / in * 100` with positive concentrations stays below 100 % |
| ThreeStage.PlanPrimary | three_stage_ml_api.py:50-169 | coagulant in [20,70], polymer in [1.5,4], mixer in [50,95], settler time in [2,3.5]; predicted turbidity in [5,40] and TSS in [8,35]; efficiency below 100 % for positive TSS; pump at 100 % only above 400 m3/h and MAINTAIN exactly for 300 < flow < 400; mixer ADJUST exactly when the speed is more than 10 from 70; chemical costs at least 900 and 300 per hour; savings positive exactly when the dose is below 45; status OPTIMAL exactly at efficiency 85 % or more |
| ThreeStage.PrimaryActions | three_stage_ml_api.py:101-133 | at most three actions, in program order. A coagulant action is emitted exactly when the optimal dose is more than 3 from the current one, HIGH beyond 8 and MEDIUM otherwise. A MEDIUM mixer action is emitted exactly when the speed is more than 15 from 70. A HIGH monitoring action is emitted exactly above 180 NTU |
| ThreeStage.OptimizePrimaryStage | three_stage_ml_api.py:27-171 | the readings come from the dictionary with the source's defaults, the plan is `PlanPrimary` of them, and the actions are those of `PrimaryActionsFor` (the rules `PrimaryRules` that `PrimaryActions` ensures); the primary stage never raises a CRITICAL action; a mixer action always comes with ADJUST on the coagulation mixer |
| ThreeStage.PlanSecondary | three_stage_ml_api.py:202-320 | aeration in [50,100], SRT in [10,20], BOD out in [10,40], COD out in [30,70], efficiency below 100 % for positive BOD; air flow in [125,250]; blower ADJUST exactly when aeration is more than 10 from 75; the WAS flow 350/SRT lies in [17.5,35]; energy cost in [60,120] per hour, savings positive exactly when aeration is below 75; DO and biomass status OPTIMAL exactly inside [5,7.5] and [3000,4000] |
| ThreeStage.AerationFallsWithOxygen | three_stage_ml_api.py:202-203 | more dissolved oxygen, other readings equal, never raises the aeration intensity |
| ThreeStage.SecondaryActions | three_stage_ml_api.py:243-282 | at most three actions, in program order. A CRITICAL aeration increase is emitted exactly when DO < 4. A MEDIUM aeration reduction is emitted exactly when DO > 8, so the two are never both emitted. A HIGH SRT action is emitted exactly above 300 mg/L BOD. A MEDIUM WAS action is emitted exactly below 2500 mg/L MLSS |
| ThreeStage.OptimizeSecondaryStage | three_stage_ml_api.py:177-322 | readings with defaults, plan `PlanSecondary`, actions those of `SecondaryActionsFor` (the rules `SecondaryRules` that `SecondaryActions` ensures); a CRITICAL action exactly when DO < 4 |
| ThreeStage.DetermineReuseCategory | three_stage_ml_api.py:478-512 | first match in the order A, B, C, D. Each grade holds exactly when its limits hold and those of the earlier grades fail. D holds exactly when pathogens or nitrogen reach 10. The value per m3 is 15/10/5/2 |
| ThreeStage.GradeLimitsNest | three_stage_ml_api.py:481-497 | the A limits imply the B limits, and the B limits imply the C limits |
| ThreeStage.CleanerWaterGradesNoWorse | three_stage_ml_api.py:478-512 | lower nitrogen, phosphorus, pathogens and turbidity never give a worse grade or a lower value per m3 |
| ThreeStage.PlanTertiary | three_stage_ml_api.py:351-474 | chlorine in [2,5], UV in [60,100], membrane pressure in [2,3.5]; nitrogen out in [2,10], phosphorus out in [0.5,2], pathogens out in [0,10]; efficiency below 100 % for positive nitrogen; the reuse grade is classified from the predicted outputs and turbidity x 0.2, and is D exactly when pathogens or nitrogen out reach 10; chlorine cost in [300,750]; pump ADJUST exactly when the dose is more than 0.5 from 3.5; UV ADJUST exactly beyond 2000 CFU/100ml influent pathogens (or for a negative count); disinfection and nutrient status as the thresholds 5 and 8 say |
| ThreeStage.ChlorineRisesWithPathogens | three_stage_ml_api.py:351-355 | more pathogens and turbidity never lower the chlorine dose or the UV intensity |
| ThreeStage.TertiaryActions | three_stage_ml_api.py:407-439 | at most three actions, in program order. A HIGH chlorine action is emitted exactly when the optimal dose is more than 0.5 from the current one. A CRITICAL UV action is emitted exactly above 1500 CFU. A MEDIUM secondary-check action is emitted exactly above 40 mg/L nitrogen |
| ThreeStage.OptimizeTertiaryStage | three_stage_ml_api.py:328-476 | readings with defaults, plan `PlanTertiary`, actions those of `TertiaryActionsFor` (the rules `TertiaryRules` that `TertiaryActions` ensures); a CRITICAL action exactly when pathogens exceed 1500 |
| Actions.Rank | three_stage_ml_api.py:549 | the priority ranks lie in 0..3, and rank 0 is CRITICAL and nothing else |
| Actions.AppendIf | three_stage_ml_api.py:104-133 | a guarded append of a later action of the same stage keeps the list at most three long, single-stage and in program order. Afterwards the action of its kind is the new one exactly when the guard held, and every other kind is unchanged |
| Actions.EmitNext | three_stage_ml_api.py:104-133 | one append of a later action of the same stage keeps the list's shape and makes it the action of its kind |
| Actions.EmissionDetermined | three_stage_ml_api.py:101-133 | two single-stage lists in program order that hold the same action of every kind are equal, so an optimizer's per-kind contract fixes its whole list |
| Actions.ByPrioritySorted | three_stage_ml_api.py:548-550 | the stable priority sort is in rank order |
| Actions.ByPriorityPermutes | three_stage_ml_api.py:550 | the sort is a permutation: same multiset, same length |
| Actions.ByPriorityStable | three_stage_ml_api.py:550 | the sort is stable: the actions of each rank keep their relative order |
| Actions.SortedUnique | three_stage_ml_api.py:550 | any rank-ordered list whose per-rank subsequences match the input is exactly `ByPriority` of it, so a stable sort has one result |
| Actions.SortByPriority | three_stage_ml_api.py:550 | the in-place sort leaves the array in rank order, with each rank's actions in their old order, equal to `ByPriority` of the old contents |
| Actions.InsertIntoPrefix | three_stage_ml_api.py:550 | one insertion pass grows the sorted prefix by one, keeps every rank's subsequence, and leaves every action after position i where it was |
| Actions.WithRankKeepsEmissionOrder | three_stage_ml_api.py:541-550 | each rank's subsequence of an emission-ordered list is emission-ordered, so equal-priority actions stay primary, then secondary, then tertiary |
| Analysis.Tagged | three_stage_ml_api.py:544-546 | tagging keeps the actions, their order and their number, and sets every stage field to the emitting stage |
| Analysis.MergeActions | three_stage_ml_api.py:542-546 | the nested loop builds exactly the stage-after-stage concatenation of the tagged lists |
| Analysis.MergeThree | three_stage_ml_api.py:543-546 | merging the three stages gives primary, then secondary, then tertiary actions |
| Analysis.MergedInEmissionOrder | three_stage_ml_api.py:101-546 | the merged list has at most nine actions, in emission order, each tagged with the stage that emits its kind |
| Analysis.MergedCritical | three_stage_ml_api.py:542-546 | the merged list holds a CRITICAL action exactly when some stage emitted one |
| Analysis.OverallEfficiency | three_stage_ml_api.py:535-539 | the weighted efficiency lies between the smallest and the largest stage efficiency, and equals them when all three are equal |
| Analysis.OverallEfficiencyMonotone | three_stage_ml_api.py:535-539 | raising any stage's efficiency never lowers the overall efficiency |
| Analysis.EconomicAnalysis | three_stage_ml_api.py:553-582 | the daily cost is 24 x the hourly chemical and energy costs, the treated volume is passed through, and net benefit plus cost is the reuse value |
| Analysis.RoiIsNetBenefitShare | three_stage_ml_api.py:565-582 | the reuse value is volume x value per m3; ROI x cost = net benefit x 100, so ROI is positive (zero) exactly when the net benefit is |
| Analysis.Take | three_stage_ml_api.py:576 | `s[:n]` is the prefix of length min(n, \|s\|) |
| Analysis.ConsolidateActions | three_stage_ml_api.py:548-576 | copying into an array, sorting in place and keeping ten gives `ByPriority` of the merged list. The result is a permutation of it, in rank order and stable per rank, with correct stage tags. It holds a CRITICAL action exactly when the merged list does, and then starts with one |
| Analysis.EmittedActionsConsolidated | three_stage_ml_api.py:541-550 | the stable sort of the merged list holds every action that any stage emitted, tagged with that stage |
| Analysis.ConsolidatedShape | three_stage_ml_api.py:548-550 | the stable sort of the merged list is a permutation, in rank order, emission-ordered per rank, correctly tagged, and starts with a CRITICAL action whenever it holds one |
| Analysis.AnalyzeCompleteSystem | three_stage_ml_api.py:518-589 | the three stage analyses read the payload's stage dictionaries (empty when missing). Each stage's readings, plan and action list are those of its optimizer (`PrimaryActionsFor`, `SecondaryActionsFor`, `TertiaryActionsFor`, which fix each list by `EmissionDetermined`). The overall efficiency is the weighted one. Status OPTIMAL exactly at 90 % and COMPLIANT exactly at 88 %, so OPTIMAL implies COMPLIANT. The consolidated actions are the stable priority sort of all merged actions, at most nine and none dropped: every action a stage emitted appears in it, tagged with its stage. A CRITICAL action is present, and first, exactly when DO < 4 or pathogens > 1500. Chemical cost is at least 1500/h, energy cost at least 60/h and daily cost at least 37440. The economics use the flow rate x 24 and the grade's value. Fresh water saved is 0.75 and CO2 reduction 0.5 of the treated volume |
| TreatmentApi.PredictTreatmentEfficiency | watertreatmentapi.py:59-85 | stage efficiencies clipped to [75,95], [82,97], [92,99], equal to the raw values inside the bands; overall is the mean of the raw (unclipped) values |
| TreatmentApi.OverallIsMeanWhenUnclipped | watertreatmentapi.py:80-85 | when no stage value is clipped, overall is the mean of the reported efficiencies |
| TreatmentApi.OverallIgnoresClipping | watertreatmentapi.py:80-85 | with a coagulant dose of 345 and no noise, the primary efficiency is clipped to 95 while the overall efficiency is 105 |
| TreatmentApi.ParamIndex | watertreatmentapi.py:121-130 | each parameter has one position in the fixed check order turbidity, BOD, COD, TSS removal, DO, flow, pH, temperature |
| TreatmentApi.NormalRange | watertreatmentapi.py:110-119 | every normal range is non-empty and positive |
| TreatmentApi.CriticalIsOutOfRange | watertreatmentapi.py:135-136 | a value rated critical is outside its normal range |
| TreatmentApi.AnomaliesSound | watertreatmentapi.py:132-142 | after n checks there are at most n anomalies. Each is a checked parameter whose value is outside its closed range, and it carries that value and its severity |
| TreatmentApi.AnomaliesOrdered | watertreatmentapi.py:133-142 | anomalies appear in check order, no parameter twice |
| TreatmentApi.AnomaliesComplete | watertreatmentapi.py:133-142 | after n checks, each checked parameter is reported exactly when its value is out of range |
| TreatmentApi.DetectAnomalies | watertreatmentapi.py:91-149 | the loop builds the specified list. A parameter is reported exactly when it is out of range, with its value and its severity (critical beyond 0.8 x min or 1.2 x max, else warning), in check order. The count is the list length, at most 8. `is_anomaly` holds exactly when the count is positive. Confidence is 0.95 for a non-empty list, else 0 |
| TreatmentApi.ChlorineDose | watertreatmentapi.py:177-181 | the chlorine dose lies in [2,5] and follows 3 + 0.05 per degree above 25 between 5 and 65 degrees |
| TreatmentApi.OptimizeChemicalDosing | watertreatmentapi.py:155-195 | the coagulant is the shared dose formula, the chlorine is `ChlorineDose`, and the savings are (45 - coagulant) x 10 + (3.5 - chlorine) x 150, within [-475, 475]; confidence 0.93 |
| TreatmentApi.DosingSavingsPeak | watertreatmentapi.py:183-193 | the daily savings never exceed 475, so never reach 500, and they are 475 at the smallest doses |
| TreatmentApi.ChlorineRisesWithTemperature | watertreatmentapi.py:177-181 | warmer water never lowers the chlorine dose |
| TreatmentApi.BiogasYield | watertreatmentapi.py:218-224 | the biogas yield lies in [0.2, 0.45] |
| TreatmentApi.PredictResourceRecovery | watertreatmentapi.py:201-246 | values are 25, 50 and 120 per unit of biogas, nitrogen and phosphorus; the total is their sum and the monthly value 30 x the total |
| TreatmentApi.RecoveryBounds | watertreatmentapi.py:218-235 | with non-negative inputs the biogas lies between 0.2 and 0.45 of the organic sludge volume, and every recovered quantity and value is non-negative |
| TreatmentApi.OptimizeEnergyConsumption | watertreatmentapi.py:252-301 | current and optimized energy are the daily pumping + aeration + mixing energy before and after the 8 %, 11 % and 14 % cuts; energy savings are their difference; monthly and annual savings are 30 x and 365 x the daily cost savings |
| TreatmentApi.CostSavingsAtPrice | watertreatmentapi.py:272-288 | the cost savings are the energy savings at the electricity price and the difference of the two costs |
| TreatmentApi.EnergySavingsShare | watertreatmentapi.py:268-289 | with non-negative inputs and positive current energy the optimized energy never exceeds the current one, and the savings are between 8 % and 14 % |
| TreatmentApi.GetComprehensiveInsights | watertreatmentapi.py:307-363 | the status stays 'optimal'. The efficiency and dosing predictions are present exactly when their sections are, and equal the models' outputs. The anomaly report is present exactly with current parameters. It holds the specified anomaly list, its count, `is_anomaly` exactly for a positive count, and confidence 0.95 or 0. The recommendation list is exactly `RecommendationsFor` of the predictions: the efficiency one below 88 % overall, then the cost one carrying the predicted savings above 500. One alert is raised per anomaly, in anomaly order, with its severity, parameter and value, and none without current parameters |
| TreatmentApi.RaiseAlerts | watertreatmentapi.py:339-349 | for a report that flags anomalies, one alert per anomaly, in order, with its severity, parameter and value; none otherwise |
| TreatmentApi.RecommendationsShape | watertreatmentapi.py:327-361 | at most two recommendations, efficiency first, never the same kind twice. Each is issued exactly when its threshold is crossed, and the cost one carries the dosing savings |
| TreatmentApi.NoCostRecommendation | watertreatmentapi.py:352-361 | the cost recommendation is never issued |

## Left out

- `generate_mqtt_sensor_data`, `example_usage`, the `__init__` banners and every `print`. They
  are a random data simulator and demo output, not logic.
- `np.random.normal`. The three noise draws of `predict_treatment_efficiency` are an explicit
  `Noise` argument.
- Timestamps (`datetime.now()`, `np.datetime64('now')`). They are clock reads.
- All f-string texts (action, reason, estimated time, alert message, recommendation message,
  expected-range text). An action keeps its priority, its kind and the current and target
  numbers that its text quotes. An alert keeps severity, parameter and value.
- `round(x, n)` and floating-point behaviour. Values are exact reals. In particular:
  - `analyze_complete_system` weights the stage efficiencies, and adds the costs, after they
    were rounded to two decimals in the stage dictionaries. The model uses the unrounded values.
  - The rounded equipment figures `round(optimal_mixer_speed)` and the WAS flow to one
    decimal are kept unrounded.
- Constant payloads: pump/mixer/scraper status strings and fixed speeds, `uses` lists,
  category names, compliance texts, and the fixed current and target figures of the stage
  dictionaries.
- Some figures that depend on the inputs but are plain echoes or differences of modelled
  values:
  - the `adjustment` entries of the three stage dictionaries (optimal minus current coagulant,
    aeration minus 75, optimal minus current chlorine);
  - the UV block's `intensity_percent` and `lamps_active` (the UV intensity / 25);
  - the membrane block's echoed `pathogens_in` and `ph`.
  The ADJUST flags of the pump, mixer, blower, chlorination and UV actions are modelled.
- The default `electricity_price = 7.5` of `optimize_energy_consumption`. The price is always
  an explicit argument, and no modelled caller omits it.
- The aliasing of `action['stage'] = ...` is not modelled. The source writes the stage into
  the same dict objects that the stage results hold. The model builds new tagged records, so
  the stage results' own action lists do not gain a stage field.
- The unknown-priority rank 4 of `priority_order.get(..., 4)`. Every emitted priority is one
  of the four known ones, so the default cannot arise.
- Division by zero for `tss_in`, `bod_in`, `nitrogen_in` or a current energy of 0. The source
  does not guard it, so non-zero values are preconditions of `PlanPrimary`, `PlanSecondary`,
  `PlanTertiary`, `OptimizeEnergyConsumption` and the members that call them.
- Keyword-argument unpacking (`**system_data[...]`). Each section is a record with one field
  per keyword. An unexpected or missing keyword, which raises `TypeError` in Python, is not
  modelled. The unused `water_volume` argument of the energy optimizer is kept and ignored.
- The dashboard's tolerance-band status display, alert acknowledgement, auto-fix and reading
  import are not part of this model. No code for them appears in these two files.
