/**
 * The complete-system analysis of the three-stage treatment API: run the three stage
 * optimizers, weight their removal efficiencies, merge their priority actions in stage
 * order, sort them by priority and keep the first ten, and work out the daily economics
 * and environmental figures.
 */
module Analysis {
  import opened Shared
  import opened Actions
  import opened ThreeStage

  // =================================================================================
  // Merging the stage action lists

  /** One stage's contribution to the merge: its name and its priority actions. */
  datatype StageActions = StageActions(stage: Stage, actions: seq<Action>)

  /** The actions of one stage with their `stage` field set. */
  function Tagged(s: Stage, acts: seq<Action>): (r: seq<StagedAction>)
    ensures |r| == |acts|
    ensures forall i :: 0 <= i < |r| ==> r[i].stage == s && r[i].action == acts[i]
  {
    if acts == [] then [] else Tagged(s, acts[..|acts| - 1]) + [StagedAction(s, acts[|acts| - 1])]
  }

  /** All actions of the stages, stage after stage, each stage's actions in its own order. */
  function Merge(rs: seq<StageActions>): seq<StagedAction>
  {
    if rs == [] then [] else Merge(rs[..|rs| - 1]) + Tagged(rs[|rs| - 1].stage, rs[|rs| - 1].actions)
  }

  /**
   * The nested loop of the analysis that sets every action's stage and appends it to
   * `all_actions`.
   */
  method MergeActions(rs: seq<StageActions>) returns (all: seq<StagedAction>)
    ensures all == Merge(rs)
  {
    all := [];
    var i := 0;
    while i < |rs|
      invariant 0 <= i <= |rs|
      invariant all == Merge(rs[..i])
    {
      var stage, acts := rs[i].stage, rs[i].actions;
      var j := 0;
      while j < |acts|
        invariant 0 <= j <= |acts|
        invariant all == Merge(rs[..i]) + Tagged(stage, acts[..j])
      {
        all := all + [StagedAction(stage, acts[j])];
        assert acts[..j + 1][..j] == acts[..j];
        j := j + 1;
      }
      assert acts[..j] == acts;
      assert rs[..i + 1][..i] == rs[..i];
      i := i + 1;
    }
    assert rs[..i] == rs;
  }

  /** A stage's list keeps its emission order once tagged, and every tag names the emitting stage. */
  lemma TaggedShape(s: Stage, acts: seq<Action>)
    requires StageEmission(acts, s)
    ensures EmissionOrdered(Tagged(s, acts))
    ensures forall x :: x in Tagged(s, acts) ==> x.stage == s == StageOf(x.action.kind)
  {
  }

  /** Two emission-ordered lists, the second emitted wholly after the first, concatenate in order. */
  lemma ConcatOrdered(a: seq<StagedAction>, b: seq<StagedAction>)
    requires EmissionOrdered(a) && EmissionOrdered(b)
    requires forall x, y :: x in a && y in b ==> Ordinal(x.action.kind) < Ordinal(y.action.kind)
    ensures EmissionOrdered(a + b)
  {
    var c := a + b;
    forall i, j | 0 <= i < j < |c|
      ensures Ordinal(c[i].action.kind) < Ordinal(c[j].action.kind)
    {
      if j < |a| {
        assert c[i] == a[i] && c[j] == a[j];
      } else if i < |a| {
        assert c[i] == a[i] && c[j] == b[j - |a|];
        assert a[i] in a && b[j - |a|] in b;
      } else {
        assert c[i] == b[i - |a|] && c[j] == b[j - |a|];
      }
    }
  }

  /** The merge of the three stages is the primary, then the secondary, then the tertiary actions. */
  lemma MergeThree(p: seq<Action>, s: seq<Action>, t: seq<Action>)
    ensures Merge([StageActions(Primary, p), StageActions(Secondary, s), StageActions(Tertiary, t)])
         == Tagged(Primary, p) + Tagged(Secondary, s) + Tagged(Tertiary, t)
  {
    var rs := [StageActions(Primary, p), StageActions(Secondary, s), StageActions(Tertiary, t)];
    assert rs[..2] == rs[..2][..2] && rs[..2][..1] == [rs[0]] && [rs[0]][..0] == [];
    assert Merge(rs[..2][..1]) == Tagged(Primary, p);
    assert Merge(rs[..2]) == Tagged(Primary, p) + Tagged(Secondary, s);
  }

  /** Some merged action is CRITICAL. */
  predicate AnyCritical(m: seq<StagedAction>)
  {
    exists i :: 0 <= i < |m| && m[i].action.priority == Critical
  }

  /** Tagging keeps the priorities: a stage's tagged list has a CRITICAL action exactly when its list does. */
  lemma TaggedCritical(s: Stage, acts: seq<Action>)
    ensures AnyCritical(Tagged(s, acts)) <==> HasCritical(acts)
  {
    CriticalAt(acts);
    var r := Tagged(s, acts);
    if HasCritical(acts) {
      var i :| 0 <= i < |acts| && acts[i].priority == Critical;
      assert r[i].action == acts[i];
    }
  }

  lemma AnyCriticalConcat(a: seq<StagedAction>, b: seq<StagedAction>)
    ensures AnyCritical(a + b) <==> AnyCritical(a) || AnyCritical(b)
  {
    var c := a + b;
    if AnyCritical(c) {
      var i :| 0 <= i < |c| && c[i].action.priority == Critical;
      if i < |a| {
        assert c[i] == a[i];
      } else {
        assert c[i] == b[i - |a|];
      }
    }
    if AnyCritical(a) {
      var i :| 0 <= i < |a| && a[i].action.priority == Critical;
      assert c[i] == a[i];
    }
    if AnyCritical(b) {
      var i :| 0 <= i < |b| && b[i].action.priority == Critical;
      assert c[|a| + i] == b[i];
    }
  }

  /** The merged list holds a CRITICAL action exactly when one of the stages emitted one. */
  lemma MergedCritical(p: seq<Action>, s: seq<Action>, t: seq<Action>)
    ensures AnyCritical(Merge([StageActions(Primary, p), StageActions(Secondary, s), StageActions(Tertiary, t)]))
        <==> HasCritical(p) || HasCritical(s) || HasCritical(t)
  {
    var tp, ts, tt := Tagged(Primary, p), Tagged(Secondary, s), Tagged(Tertiary, t);
    MergeThree(p, s, t);
    TaggedCritical(Primary, p);
    TaggedCritical(Secondary, s);
    TaggedCritical(Tertiary, t);
    AnyCriticalConcat(tp, ts);
    AnyCriticalConcat(tp + ts, tt);
  }

  /** The action a stage emitted of a kind is in its tagged list, tagged with that stage. */
  lemma TaggedHolds(st: Stage, acts: seq<Action>, k: ActionKind)
    requires ActionOf(acts, k).Some?
    ensures StagedAction(st, ActionOf(acts, k).value) in Tagged(st, acts)
  {
    ActionOfFound(acts, k);
    var i :| 0 <= i < |acts| && acts[i] == ActionOf(acts, k).value;
    assert Tagged(st, acts)[i] == StagedAction(st, acts[i]);
  }

  /**
   * Nothing an optimizer emits is lost: the stable sort of the merged list holds, for every
   * kind, the action of that kind of each stage, tagged with the stage.
   */
  lemma EmittedActionsConsolidated(p: seq<Action>, s: seq<Action>, t: seq<Action>)
    ensures var b := ByPriority(Merge([StageActions(Primary, p), StageActions(Secondary, s), StageActions(Tertiary, t)]));
      && (forall k :: ActionOf(p, k).Some? ==> StagedAction(Primary, ActionOf(p, k).value) in b)
      && (forall k :: ActionOf(s, k).Some? ==> StagedAction(Secondary, ActionOf(s, k).value) in b)
      && (forall k :: ActionOf(t, k).Some? ==> StagedAction(Tertiary, ActionOf(t, k).value) in b)
  {
    var tp, ts, tt := Tagged(Primary, p), Tagged(Secondary, s), Tagged(Tertiary, t);
    MergeThree(p, s, t);
    var merged := tp + ts + tt;
    forall k | ActionOf(p, k).Some?
      ensures StagedAction(Primary, ActionOf(p, k).value) in ByPriority(merged)
    {
      TaggedHolds(Primary, p, k);
      SortKeeps(merged, StagedAction(Primary, ActionOf(p, k).value));
    }
    forall k | ActionOf(s, k).Some?
      ensures StagedAction(Secondary, ActionOf(s, k).value) in ByPriority(merged)
    {
      TaggedHolds(Secondary, s, k);
      SortKeeps(merged, StagedAction(Secondary, ActionOf(s, k).value));
    }
    forall k | ActionOf(t, k).Some?
      ensures StagedAction(Tertiary, ActionOf(t, k).value) in ByPriority(merged)
    {
      TaggedHolds(Tertiary, t, k);
      SortKeeps(merged, StagedAction(Tertiary, ActionOf(t, k).value));
    }
  }

  /** The stable sort keeps every action of the merged list. */
  lemma SortKeeps(merged: seq<StagedAction>, x: StagedAction)
    requires x in merged
    ensures x in ByPriority(merged)
  {
    ByPriorityPermutes(merged);
    assert x in multiset(merged);
  }

  /**
   * Merging the primary, secondary and tertiary lists gives at most nine actions, in the
   * order in which the optimizers emitted them, each tagged with the stage that emitted it.
   */
  lemma MergedInEmissionOrder(p: seq<Action>, s: seq<Action>, t: seq<Action>)
    requires StageEmission(p, Primary) && StageEmission(s, Secondary) && StageEmission(t, Tertiary)
    ensures var m := Merge([StageActions(Primary, p), StageActions(Secondary, s), StageActions(Tertiary, t)]);
      && |m| <= 9
      && EmissionOrdered(m)
      && forall x :: x in m ==> x.stage == StageOf(x.action.kind)
  {
    MergeThree(p, s, t);
    MergedOrdered(p, s, t);
    MergedTags(p, s, t);
  }

  lemma MergedOrdered(p: seq<Action>, s: seq<Action>, t: seq<Action>)
    requires StageEmission(p, Primary) && StageEmission(s, Secondary) && StageEmission(t, Tertiary)
    ensures EmissionOrdered(Tagged(Primary, p) + Tagged(Secondary, s) + Tagged(Tertiary, t))
  {
    var tp, ts, tt := Tagged(Primary, p), Tagged(Secondary, s), Tagged(Tertiary, t);
    TaggedShape(Primary, p);
    TaggedShape(Secondary, s);
    TaggedShape(Tertiary, t);
    ConcatOrdered(tp, ts);
    ConcatOrdered(tp + ts, tt);
  }

  lemma MergedTags(p: seq<Action>, s: seq<Action>, t: seq<Action>)
    requires StageEmission(p, Primary) && StageEmission(s, Secondary) && StageEmission(t, Tertiary)
    ensures forall x :: x in Tagged(Primary, p) + Tagged(Secondary, s) + Tagged(Tertiary, t) ==>
                          x.stage == StageOf(x.action.kind)
  {
    TaggedShape(Primary, p);
    TaggedShape(Secondary, s);
    TaggedShape(Tertiary, t);
  }

  // =================================================================================
  // Overall figures

  /** The weighted overall efficiency: 30 % primary, 40 % secondary, 30 % tertiary. */
  function OverallEfficiency(primary: real, secondary: real, tertiary: real): (e: real)
    ensures Min3(primary, secondary, tertiary) <= e <= Max3(primary, secondary, tertiary)
    ensures primary == secondary == tertiary ==> e == primary
  {
    primary * 0.3 + secondary * 0.4 + tertiary * 0.3
  }

  /** Raising any stage's efficiency never lowers the overall efficiency. */
  lemma OverallEfficiencyMonotone(p1: real, s1: real, t1: real, p2: real, s2: real, t2: real)
    requires p1 <= p2 && s1 <= s2 && t1 <= t2
    ensures OverallEfficiency(p1, s1, t1) <= OverallEfficiency(p2, s2, t2)
  {
  }

  /** `economic_analysis`: daily cost, treated volume, reuse value, net benefit and ROI. */
  datatype Economics = Economics(
    dailyCost: real, waterTreated: real, reuseValue: real, netBenefit: real, roi: real)

  /**
   * Economics of one day at the given hourly chemical and energy costs, treated volume
   * (m3/day) and reuse value per m3. The ROI is computed as `(value / cost - 1) * 100`.
   */
  function EconomicAnalysis(chemicalPerHour: real, energyPerHour: real, waterTreated: real, valuePerM3: real)
    : (e: Economics)
    requires chemicalPerHour + energyPerHour != 0.0
    ensures e.dailyCost == (chemicalPerHour + energyPerHour) * 24.0
    ensures e.waterTreated == waterTreated
    ensures e.netBenefit + e.dailyCost == e.reuseValue
  {
    var cost := (chemicalPerHour + energyPerHour) * 24.0;
    var value := waterTreated * valuePerM3;
    Economics(cost, waterTreated, value, value - cost, (value / cost - 1.0) * 100.0)
  }

  /**
   * The ROI `(value / cost - 1) * 100` is the net benefit as a percentage of the daily cost:
   * positive exactly when reuse earns more than treatment costs, zero at break-even.
   */
  lemma RoiIsNetBenefitShare(chemicalPerHour: real, energyPerHour: real, waterTreated: real, valuePerM3: real)
    requires chemicalPerHour + energyPerHour > 0.0
    ensures var e := EconomicAnalysis(chemicalPerHour, energyPerHour, waterTreated, valuePerM3);
      && e.reuseValue == waterTreated * valuePerM3
      && e.roi * e.dailyCost == e.netBenefit * 100.0
      && (e.roi > 0.0 <==> e.netBenefit > 0.0)
      && (e.roi == 0.0 <==> e.netBenefit == 0.0)
  {
    var e := EconomicAnalysis(chemicalPerHour, energyPerHour, waterTreated, valuePerM3);
    var q := e.reuseValue / e.dailyCost;
    assert q * e.dailyCost == e.reuseValue;
    assert e.roi * e.dailyCost == (q * e.dailyCost - e.dailyCost) * 100.0;
  }

  // =================================================================================
  // analyze_complete_system

  /** A stage's dictionary in the MQTT payload, `{}` when the stage is missing. */
  function StageData(data: map<string, SensorData>, key: string): SensorData
  {
    if key in data then data[key] else map[]
  }

  /** The economics of the three stage results: chemical and energy cost per hour, volume from the primary flow rate. */
  function SystemEconomics(p: PrimaryResult, s: SecondaryResult, t: TertiaryResult): Economics
    requires p.plan.coagulantCost + p.plan.polymerCost + t.plan.chlorineCost + s.plan.energyCost != 0.0
  {
    EconomicAnalysis(p.plan.coagulantCost + p.plan.polymerCost + t.plan.chlorineCost, s.plan.energyCost,
                     p.reading.flowRate * 24.0, t.plan.reuse.valuePerM3)
  }

  datatype SystemAnalysis = SystemAnalysis(
    optimal: bool,                   // system status OPTIMAL rather than ATTENTION_REQUIRED
    overallEfficiency: real,
    primary: PrimaryResult,
    secondary: SecondaryResult,
    tertiary: TertiaryResult,
    consolidated: seq<StagedAction>, // the first ten actions by priority
    economics: Economics,
    freshWaterSaved: real,           // m3/day
    co2Reduction: real,              // kg/day
    compliant: bool)                 // compliance status COMPLIANT rather than REVIEW_REQUIRED

  /** The merged, tagged action list of the three stage results, before sorting. */
  function MergedOf(p: PrimaryResult, s: SecondaryResult, t: TertiaryResult): seq<StagedAction>
  {
    Merge([StageActions(Primary, p.actions), StageActions(Secondary, s.actions), StageActions(Tertiary, t.actions)])
  }

  /** Python's slice `s[:n]`: the first n elements, or all of them when there are fewer. */
  function Take<T>(s: seq<T>, n: nat): (r: seq<T>)
    ensures |r| == if |s| <= n then |s| else n
    ensures r == s[..|r|]
  {
    if |s| <= n then s else s[..n]
  }

  /**
   * `all_actions.sort(...)` followed by `all_actions[:10]`: the merged actions are copied
   * into an array, sorted there in place, and the first ten are kept. With at most nine
   * actions nothing is cut.
   */
  method ConsolidateActions(merged: seq<StagedAction>) returns (consolidated: seq<StagedAction>)
    requires |merged| <= 9
    requires EmissionOrdered(merged)
    requires forall x :: x in merged ==> x.stage == StageOf(x.action.kind)
    ensures consolidated == ByPriority(merged)
    ensures multiset(consolidated) == multiset(merged) && |consolidated| == |merged|
    ensures SortedByRank(consolidated)
    ensures forall k: nat :: EmissionOrdered(WithRank(consolidated, k))
    ensures forall x :: x in consolidated ==> x.stage == StageOf(x.action.kind)
    ensures AnyCritical(consolidated) <==> AnyCritical(merged)
    ensures AnyCritical(consolidated) ==> consolidated[0].action.priority == Critical
  {
    var a := new StagedAction[|merged|](i requires 0 <= i < |merged| => merged[i]);
    assert a[..] == merged;
    SortByPriority(a);
    consolidated := Take(a[..], 10);
    ConsolidatedShape(merged);
  }

  /**
   * `analyze_complete_system`: the three stage analyses of the payload's `primary`,
   * `secondary` and `tertiary` dictionaries, the weighted efficiency and its two status
   * thresholds, the consolidated actions (merged, stably sorted by priority, first ten),
   * and the daily economics and environmental figures.
   */
  method AnalyzeCompleteSystem(data: map<string, SensorData>) returns (r: SystemAnalysis)
    requires ReadPrimary(StageData(data, "primary")).tssIn != 0.0
    requires ReadSecondary(StageData(data, "secondary")).bodIn != 0.0
    requires ReadTertiary(StageData(data, "tertiary")).nitrogenIn != 0.0
    ensures r.primary.reading == ReadPrimary(StageData(data, "primary"))
    ensures r.secondary.reading == ReadSecondary(StageData(data, "secondary"))
    ensures r.tertiary.reading == ReadTertiary(StageData(data, "tertiary"))
    ensures r.primary.plan == PlanPrimary(r.primary.reading)
    ensures r.secondary.plan == PlanSecondary(r.secondary.reading)
    ensures r.tertiary.plan == PlanTertiary(r.tertiary.reading)
    ensures PrimaryActionsFor(r.primary.reading, r.primary.plan, r.primary.actions)
    ensures SecondaryActionsFor(r.secondary.reading, r.secondary.actions)
    ensures TertiaryActionsFor(r.tertiary.reading, r.tertiary.plan, r.tertiary.actions)
    ensures r.overallEfficiency
         == OverallEfficiency(r.primary.plan.efficiency, r.secondary.plan.efficiency, r.tertiary.plan.efficiency)
    ensures r.optimal <==> r.overallEfficiency >= 90.0
    ensures r.compliant <==> r.overallEfficiency >= 88.0
    ensures r.optimal ==> r.compliant
    // the consolidated list is the stable priority sort of all actions, and nothing is cut
    ensures var merged := MergedOf(r.primary, r.secondary, r.tertiary);
      && r.consolidated == ByPriority(merged)
      && multiset(r.consolidated) == multiset(merged)
      && |r.consolidated| <= 9
    ensures SortedByRank(r.consolidated)
    ensures forall k: nat :: EmissionOrdered(WithRank(r.consolidated, k))
    ensures forall x :: x in r.consolidated ==> x.stage == StageOf(x.action.kind)
    // every action a stage emitted is reported, tagged with its stage
    ensures forall k :: ActionOf(r.primary.actions, k).Some? ==>
      StagedAction(Primary, ActionOf(r.primary.actions, k).value) in r.consolidated
    ensures forall k :: ActionOf(r.secondary.actions, k).Some? ==>
      StagedAction(Secondary, ActionOf(r.secondary.actions, k).value) in r.consolidated
    ensures forall k :: ActionOf(r.tertiary.actions, k).Some? ==>
      StagedAction(Tertiary, ActionOf(r.tertiary.actions, k).value) in r.consolidated
    // a CRITICAL action is raised, and then heads the list, exactly for low oxygen or high pathogens
    ensures AnyCritical(r.consolidated)
        <==> r.secondary.reading.dissolvedOxygen < 4.0 || r.tertiary.reading.pathogensIn > 1500.0
    ensures AnyCritical(r.consolidated) ==> r.consolidated[0].action.priority == Critical
    ensures r.primary.plan.coagulantCost + r.primary.plan.polymerCost + r.tertiary.plan.chlorineCost >= 1500.0
    ensures r.secondary.plan.energyCost >= 60.0
    ensures r.economics == SystemEconomics(r.primary, r.secondary, r.tertiary)
    ensures 37440.0 <= r.economics.dailyCost
    ensures r.freshWaterSaved == r.economics.waterTreated * 0.75
    ensures r.co2Reduction == r.economics.waterTreated * 0.5
  {
    var primary := OptimizePrimaryStage(StageData(data, "primary"));
    var secondary := OptimizeSecondaryStage(StageData(data, "secondary"));
    var tertiary := OptimizeTertiaryStage(StageData(data, "tertiary"));

    var efficiency := OverallEfficiency(primary.plan.efficiency, secondary.plan.efficiency, tertiary.plan.efficiency);

    var merged := MergeActions([StageActions(Primary, primary.actions), StageActions(Secondary, secondary.actions),
                                StageActions(Tertiary, tertiary.actions)]);
    MergedInEmissionOrder(primary.actions, secondary.actions, tertiary.actions);
    MergedCritical(primary.actions, secondary.actions, tertiary.actions);
    EmittedActionsConsolidated(primary.actions, secondary.actions, tertiary.actions);
    var consolidated := ConsolidateActions(merged);

    var water := primary.reading.flowRate * 24.0;
    var economics := SystemEconomics(primary, secondary, tertiary);

    r := SystemAnalysis(
      efficiency >= 90.0, efficiency, primary, secondary, tertiary, consolidated, economics,
      water * 0.75, water * 0.5, efficiency >= 88.0);
  }

  /**
   * What the stable sort keeps of the merged list: every action once, in priority order,
   * each priority class in emission order, every tag naming the emitting stage.
   */
  lemma ConsolidatedShape(merged: seq<StagedAction>)
    requires EmissionOrdered(merged)
    requires forall x :: x in merged ==> x.stage == StageOf(x.action.kind)
    ensures multiset(ByPriority(merged)) == multiset(merged) && |ByPriority(merged)| == |merged|
    ensures SortedByRank(ByPriority(merged))
    ensures forall k: nat :: EmissionOrdered(WithRank(ByPriority(merged), k))
    ensures forall x :: x in ByPriority(merged) ==> x.stage == StageOf(x.action.kind)
    ensures AnyCritical(ByPriority(merged)) <==> AnyCritical(merged)
    ensures AnyCritical(ByPriority(merged)) ==> ByPriority(merged)[0].action.priority == Critical
  {
    var b := ByPriority(merged);
    ByPriorityPermutes(merged);
    ByPrioritySorted(merged);
    ByPriorityStable(merged);
    forall k: nat ensures EmissionOrdered(WithRank(b, k)) {
      WithRankKeepsEmissionOrder(merged, k);
    }
    forall x | x in b ensures x.stage == StageOf(x.action.kind) {
      assert x in multiset(b);
    }
    SortedCriticalFirst(merged);
  }

  /** The stable sort keeps the CRITICAL actions, and puts one first when there is any. */
  lemma SortedCriticalFirst(merged: seq<StagedAction>)
    ensures AnyCritical(ByPriority(merged)) <==> AnyCritical(merged)
    ensures AnyCritical(ByPriority(merged)) ==> ByPriority(merged)[0].action.priority == Critical
  {
    var b := ByPriority(merged);
    ByPriorityPermutes(merged);
    ByPrioritySorted(merged);
    if AnyCritical(b) {
      var i :| 0 <= i < |b| && b[i].action.priority == Critical;
      assert b[i] in multiset(merged);
      assert RankOf(b[0]) <= RankOf(b[i]);
    }
    if AnyCritical(merged) {
      var i :| 0 <= i < |merged| && merged[i].action.priority == Critical;
      assert merged[i] in multiset(b);
    }
  }
}
