/**
 * The five closed-form models of the water-treatment ML API and the insight dashboard
 * that combines them: treatment-efficiency prediction (with its Gaussian noise passed in),
 * anomaly detection against fixed normal ranges, chemical-dosing optimization, resource
 * recovery and energy optimization.
 */
module TreatmentApi {
  import opened Shared

  // =================================================================================
  // Model 1: treatment efficiency

  /** The keyword arguments of `predict_treatment_efficiency`. */
  datatype InfluentParameters = InfluentParameters(
    turbidity: real, bod: real, cod: real, tss: real, flowRate: real,
    coagulantDose: real, chlorineDose: real, temperature: real, ph: real, dissolvedOxygen: real)

  /** The three `np.random.normal` draws: N(0, 1), N(0, 1) and N(0, 0.5). */
  datatype Noise = Noise(primary: real, secondary: real, tertiary: real)

  datatype EfficiencyPrediction = EfficiencyPrediction(primary: real, secondary: real, tertiary: real, overall: real)

  function RawPrimaryEfficiency(p: InfluentParameters, noise: Noise): real
  {
    85.0 + (p.coagulantDose - 45.0) * 0.15 + (p.temperature - 25.0) * 0.1 + noise.primary
  }

  function RawSecondaryEfficiency(p: InfluentParameters, noise: Noise): real
  {
    90.0 + (p.dissolvedOxygen - 6.5) * 1.5 + (p.temperature - 25.0) * 0.2 + (p.ph - 7.2) * 1.0 + noise.secondary
  }

  function RawTertiaryEfficiency(p: InfluentParameters, noise: Noise): real
  {
    95.0 + (p.chlorineDose - 3.5) * 0.5 + noise.tertiary
  }

  /**
   * `predict_treatment_efficiency`: each stage's efficiency clipped to its band; the overall
   * efficiency is the mean of the three values before clipping.
   */
  function PredictTreatmentEfficiency(p: InfluentParameters, noise: Noise): (e: EfficiencyPrediction)
    ensures 75.0 <= e.primary <= 95.0 && 82.0 <= e.secondary <= 97.0 && 92.0 <= e.tertiary <= 99.0
    ensures 75.0 <= RawPrimaryEfficiency(p, noise) <= 95.0 ==> e.primary == RawPrimaryEfficiency(p, noise)
    ensures 82.0 <= RawSecondaryEfficiency(p, noise) <= 97.0 ==> e.secondary == RawSecondaryEfficiency(p, noise)
    ensures 92.0 <= RawTertiaryEfficiency(p, noise) <= 99.0 ==> e.tertiary == RawTertiaryEfficiency(p, noise)
    ensures e.overall * 3.0
         == RawPrimaryEfficiency(p, noise) + RawSecondaryEfficiency(p, noise) + RawTertiaryEfficiency(p, noise)
  {
    var primary := RawPrimaryEfficiency(p, noise);
    var secondary := RawSecondaryEfficiency(p, noise);
    var tertiary := RawTertiaryEfficiency(p, noise);
    EfficiencyPrediction(
      Clamp(75.0, 95.0, primary), Clamp(82.0, 97.0, secondary), Clamp(92.0, 99.0, tertiary),
      (primary + secondary + tertiary) / 3.0)
  }

  /** When no stage value is clipped, the overall efficiency is the mean of the reported ones. */
  lemma OverallIsMeanWhenUnclipped(p: InfluentParameters, noise: Noise)
    requires 75.0 <= RawPrimaryEfficiency(p, noise) <= 95.0
    requires 82.0 <= RawSecondaryEfficiency(p, noise) <= 97.0
    requires 92.0 <= RawTertiaryEfficiency(p, noise) <= 99.0
    ensures var e := PredictTreatmentEfficiency(p, noise);
      e.overall == (e.primary + e.secondary + e.tertiary) / 3.0
  {
  }

  /**
   * The overall efficiency ignores the clipping: a coagulant overdose lifts it above every
   * reported stage efficiency, and above 99 %.
   */
  lemma OverallIgnoresClipping()
    ensures var p := InfluentParameters(150.0, 250.0, 450.0, 180.0, 350.0, 345.0, 3.5, 25.0, 7.2, 6.5);
      var e := PredictTreatmentEfficiency(p, Noise(0.0, 0.0, 0.0));
      e.primary == 95.0 && e.overall == 105.0 && e.overall > e.tertiary
  {
  }

  // =================================================================================
  // Model 2: anomaly detection

  datatype Parameter = Turbidity | Bod | Cod | TssRemoval | DoLevel | FlowRate | PhLevel | Temperature

  /** The parameters in the order in which `detect_anomalies` checks them. */
  const Parameters: seq<Parameter> := [Turbidity, Bod, Cod, TssRemoval, DoLevel, FlowRate, PhLevel, Temperature]

  function ParamIndex(p: Parameter): (i: nat)
    ensures i < |Parameters| && Parameters[i] == p
  {
    match p
    case Turbidity => 0
    case Bod => 1
    case Cod => 2
    case TssRemoval => 3
    case DoLevel => 4
    case FlowRate => 5
    case PhLevel => 6
    case Temperature => 7
  }

  datatype Range = Range(min: real, max: real)

  /** `normal_ranges`. */
  function NormalRange(p: Parameter): (r: Range)
    ensures 0.0 < r.min < r.max
  {
    match p
    case Turbidity => Range(8.0, 18.0)
    case Bod => Range(15.0, 30.0)
    case Cod => Range(35.0, 55.0)
    case TssRemoval => Range(82.0, 95.0)
    case DoLevel => Range(5.0, 8.0)
    case FlowRate => Range(280.0, 420.0)
    case PhLevel => Range(6.8, 7.6)
    case Temperature => Range(18.0, 32.0)
  }

  /** The keyword arguments of `detect_anomalies`. */
  datatype CurrentParameters = CurrentParameters(
    turbidity: real, bod: real, cod: real, tssRemoval: real, doLevel: real, flowRate: real,
    phLevel: real, temperature: real)

  function ValueOf(c: CurrentParameters, p: Parameter): real
  {
    match p
    case Turbidity => c.turbidity
    case Bod => c.bod
    case Cod => c.cod
    case TssRemoval => c.tssRemoval
    case DoLevel => c.doLevel
    case FlowRate => c.flowRate
    case PhLevel => c.phLevel
    case Temperature => c.temperature
  }

  predicate OutOfRange(p: Parameter, v: real)
  {
    v < NormalRange(p).min || v > NormalRange(p).max
  }

  datatype Severity = Warning | Critical

  /** Critical more than 20 % beyond the range (below 0.8 min or above 1.2 max), else a warning. */
  function SeverityOf(p: Parameter, v: real): Severity
  {
    if v < NormalRange(p).min * 0.8 || v > NormalRange(p).max * 1.2 then Critical else Warning
  }

  /** Every value rated critical is out of its normal range. */
  lemma CriticalIsOutOfRange(p: Parameter, v: real)
    requires v < NormalRange(p).min * 0.8 || v > NormalRange(p).max * 1.2
    ensures OutOfRange(p, v)
  {
  }

  /** One anomaly record; its `expected_range` text is `NormalRange(parameter)`. */
  datatype Anomaly = Anomaly(parameter: Parameter, value: real, severity: Severity)

  /** What the check of one parameter adds to the anomaly list. */
  function Check(c: CurrentParameters, p: Parameter): seq<Anomaly>
  {
    var v := ValueOf(c, p);
    if OutOfRange(p, v) then [Anomaly(p, v, SeverityOf(p, v))] else []
  }

  /** The anomaly list after checking the first n parameters. */
  function AnomaliesUpTo(c: CurrentParameters, n: nat): seq<Anomaly>
    requires n <= |Parameters|
  {
    if n == 0 then [] else AnomaliesUpTo(c, n - 1) + Check(c, Parameters[n - 1])
  }

  predicate Reports(anomalies: seq<Anomaly>, p: Parameter)
  {
    exists a :: a in anomalies && a.parameter == p
  }

  /** Every anomaly in the list after n checks is a checked, out-of-range value with its severity. */
  lemma {:induction false} AnomaliesSound(c: CurrentParameters, n: nat)
    requires n <= |Parameters|
    ensures var r := AnomaliesUpTo(c, n);
      && |r| <= n
      && forall a :: a in r ==>
           && ParamIndex(a.parameter) < n
           && a.value == ValueOf(c, a.parameter)
           && OutOfRange(a.parameter, a.value)
           && a.severity == SeverityOf(a.parameter, a.value)
  {
    if n > 0 {
      AnomaliesSound(c, n - 1);
      assert ParamIndex(Parameters[n - 1]) == n - 1;
    }
  }

  /** The anomalies appear in check order. */
  lemma {:induction false} AnomaliesOrdered(c: CurrentParameters, n: nat)
    requires n <= |Parameters|
    ensures var r := AnomaliesUpTo(c, n);
      forall i, j :: 0 <= i < j < |r| ==> ParamIndex(r[i].parameter) < ParamIndex(r[j].parameter)
  {
    if n > 0 {
      AnomaliesOrdered(c, n - 1);
      AnomaliesSound(c, n - 1);
      var prev, last := AnomaliesUpTo(c, n - 1), Check(c, Parameters[n - 1]);
      var r := prev + last;
      assert ParamIndex(Parameters[n - 1]) == n - 1;
      forall i, j | 0 <= i < j < |r|
        ensures ParamIndex(r[i].parameter) < ParamIndex(r[j].parameter)
      {
        if j >= |prev| {
          assert r[i] == prev[i] && prev[i] in prev;
          assert r[j] == last[0];
        } else {
          assert r[i] == prev[i] && r[j] == prev[j];
        }
      }
    }
  }

  lemma ReportsAppend(s: seq<Anomaly>, t: seq<Anomaly>, p: Parameter)
    ensures Reports(s + t, p) <==> Reports(s, p) || Reports(t, p)
  {
    if Reports(s + t, p) {
      var a :| a in s + t && a.parameter == p;
      assert a in s || a in t;
    }
    if Reports(s, p) {
      var a :| a in s && a.parameter == p;
      assert a in s + t;
    }
    if Reports(t, p) {
      var a :| a in t && a.parameter == p;
      assert a in s + t;
    }
  }

  /** After n checks, each checked parameter is reported exactly when it is out of range. */
  lemma {:induction false} AnomaliesComplete(c: CurrentParameters, n: nat)
    requires n <= |Parameters|
    ensures forall p :: ParamIndex(p) < n ==> (Reports(AnomaliesUpTo(c, n), p) <==> OutOfRange(p, ValueOf(c, p)))
  {
    if n > 0 {
      AnomaliesComplete(c, n - 1);
      AnomaliesSound(c, n - 1);
      var prev, q := AnomaliesUpTo(c, n - 1), Parameters[n - 1];
      assert ParamIndex(q) == n - 1;
      forall p | ParamIndex(p) < n
        ensures Reports(AnomaliesUpTo(c, n), p) <==> OutOfRange(p, ValueOf(c, p))
      {
        ReportsAppend(prev, Check(c, q), p);
        if p == q {
          assert !Reports(prev, p);
          if OutOfRange(p, ValueOf(c, p)) {
            assert Check(c, q)[0] in Check(c, q);
          }
        } else {
          assert !Reports(Check(c, q), p);
        }
      }
    }
  }

  datatype AnomalyReport = AnomalyReport(isAnomaly: bool, count: nat, anomalies: seq<Anomaly>, confidence: real)

  /**
   * `detect_anomalies`: the loop over the parameters in check order, appending an anomaly
   * for each value outside its normal range.
   */
  method DetectAnomalies(c: CurrentParameters) returns (rep: AnomalyReport)
    ensures rep.anomalies == AnomaliesUpTo(c, |Parameters|)
    ensures forall p :: Reports(rep.anomalies, p) <==> OutOfRange(p, ValueOf(c, p))
    ensures forall a :: a in rep.anomalies ==>
      a.value == ValueOf(c, a.parameter) && a.severity == SeverityOf(a.parameter, a.value)
    ensures forall i, j :: 0 <= i < j < |rep.anomalies| ==>
      ParamIndex(rep.anomalies[i].parameter) < ParamIndex(rep.anomalies[j].parameter)
    ensures rep.count == |rep.anomalies| <= 8
    ensures rep.isAnomaly <==> rep.count > 0
    ensures rep.confidence == if rep.count > 0 then 0.95 else 0.0
  {
    var anomalies: seq<Anomaly> := [];
    for i := 0 to |Parameters|
      invariant anomalies == AnomaliesUpTo(c, i)
    {
      var p := Parameters[i];
      assert AnomaliesUpTo(c, i + 1) == AnomaliesUpTo(c, i) + Check(c, p);
      var v := ValueOf(c, p);
      var range := NormalRange(p);
      if v < range.min || v > range.max {
        var severity := if v < range.min * 0.8 || v > range.max * 1.2 then Critical else Warning;
        anomalies := anomalies + [Anomaly(p, v, severity)];
      }
    }
    AnomaliesSound(c, |Parameters|);
    AnomaliesOrdered(c, |Parameters|);
    AnomaliesComplete(c, |Parameters|);
    rep := AnomalyReport(|anomalies| > 0, |anomalies|, anomalies, if |anomalies| > 0 then 0.95 else 0.0);
  }

  // =================================================================================
  // Model 3: chemical dosing

  datatype DosingParameters = DosingParameters(turbidity: real, tss: real, temperature: real, ph: real)

  datatype DosingPlan = DosingPlan(coagulant: real, chlorine: real, dailySavings: real, confidence: real)

  /** Chlorine dose: 3.0 mg/L corrected by 0.05 per degree above 25 °C, clipped to [2.0, 5.0]. */
  function ChlorineDose(temperature: real): (c: real)
    ensures 2.0 <= c <= 5.0
    ensures 5.0 <= temperature <= 65.0 ==> c == 3.0 + (temperature - 25.0) * 0.05
  {
    Clamp(2.0, 5.0, 3.0 + (temperature - 25.0) * 0.05)
  }

  /**
   * `optimize_chemical_dosing`: the same coagulant formula as the primary-stage optimizer,
   * the temperature-corrected chlorine dose, and the savings against the standard doses of
   * 45 (at 10 per unit) and 3.5 (at 150 per unit).
   */
  function OptimizeChemicalDosing(d: DosingParameters): (r: DosingPlan)
    ensures r.coagulant == CoagulantDose(d.turbidity, d.tss, d.ph)
    ensures r.chlorine == ChlorineDose(d.temperature)
    ensures r.dailySavings == (45.0 - r.coagulant) * 10.0 + (3.5 - r.chlorine) * 150.0
    ensures -475.0 <= r.dailySavings <= 475.0
    ensures r.confidence == 0.93
  {
    var coagulant := CoagulantDose(d.turbidity, d.tss, d.ph);
    var chlorine := ChlorineDose(d.temperature);
    DosingPlan(coagulant, chlorine, (45.0 - coagulant) * 10.0 + (3.5 - chlorine) * 150.0, 0.93)
  }

  /** The savings are largest, 475, at the smallest doses and never reach 500. */
  lemma DosingSavingsPeak(d: DosingParameters)
    ensures OptimizeChemicalDosing(d).dailySavings <= 475.0 < 500.0
    ensures d.turbidity <= 0.0 && d.tss <= 0.0 && d.ph >= 7.0 && d.temperature <= 5.0
        ==> OptimizeChemicalDosing(d).dailySavings == 475.0
  {
  }

  /** Colder water never raises the chlorine dose. */
  lemma ChlorineRisesWithTemperature(t1: real, t2: real)
    requires t1 <= t2
    ensures ChlorineDose(t1) <= ChlorineDose(t2)
  {
  }

  // =================================================================================
  // Model 4: resource recovery

  datatype Recovery = Recovery(
    biogas: real, nitrogen: real, phosphorus: real,
    biogasValue: real, nitrogenValue: real, phosphorusValue: real,
    totalValue: real, monthlyValue: real)

  /** Biogas yield per unit of organic sludge, clipped to [0.2, 0.45]. */
  function BiogasYield(organicContent: real, temperatureDigester: real, retentionTime: real): (y: real)
    ensures 0.2 <= y <= 0.45
  {
    Clamp(0.2, 0.45, 0.3 + (temperatureDigester - 35.0) * 0.01 + (organicContent - 65.0) * 0.002
                     + (retentionTime - 20.0) * 0.005)
  }

  /**
   * `predict_resource_recovery`: biogas from the organic share of the sludge, 75 % of its
   * nitrogen and 80 % of its phosphorus, valued at 25, 50 and 120 per unit.
   */
  function PredictResourceRecovery(sludgeVolume: real, organicContent: real, temperatureDigester: real,
                                   retentionTime: real, nutrientN: real, nutrientP: real): (r: Recovery)
    ensures r.totalValue == r.biogasValue + r.nitrogenValue + r.phosphorusValue
    ensures r.monthlyValue == 30.0 * r.totalValue
    ensures r.biogasValue == 25.0 * r.biogas && r.nitrogenValue == 50.0 * r.nitrogen
         && r.phosphorusValue == 120.0 * r.phosphorus
  {
    var y := BiogasYield(organicContent, temperatureDigester, retentionTime);
    var biogas := sludgeVolume * (organicContent / 100.0) * y;
    var nitrogen := nutrientN * sludgeVolume / 100.0 * 0.75;
    var phosphorus := nutrientP * sludgeVolume / 100.0 * 0.80;
    var total := biogas * 25.0 + nitrogen * 50.0 + phosphorus * 120.0;
    Recovery(biogas, nitrogen, phosphorus, biogas * 25.0, nitrogen * 50.0, phosphorus * 120.0, total, total * 30.0)
  }

  lemma MulNonNegative(a: real, b: real)
    requires 0.0 <= a && 0.0 <= b
    ensures 0.0 <= a * b
  {
  }

  /**
   * With non-negative inputs every recovered quantity and value is non-negative, and the
   * biogas lies between 0.2 and 0.45 of the organic sludge volume.
   */
  lemma RecoveryBounds(sludgeVolume: real, organicContent: real, temperatureDigester: real,
                       retentionTime: real, nutrientN: real, nutrientP: real)
    requires 0.0 <= sludgeVolume && 0.0 <= organicContent && 0.0 <= nutrientN && 0.0 <= nutrientP
    ensures var r := PredictResourceRecovery(sludgeVolume, organicContent, temperatureDigester,
                                             retentionTime, nutrientN, nutrientP);
      var organic := sludgeVolume * (organicContent / 100.0);
      && 0.2 * organic <= r.biogas <= 0.45 * organic
      && 0.0 <= r.nitrogen && 0.0 <= r.phosphorus
      && 0.0 <= r.totalValue && 0.0 <= r.monthlyValue
  {
    var organic := sludgeVolume * (organicContent / 100.0);
    var y := BiogasYield(organicContent, temperatureDigester, retentionTime);
    assert 0.0 <= organic;
    MulNonNegative(organic, y - 0.2);
    MulNonNegative(organic, 0.45 - y);
    MulNonNegative(nutrientN, sludgeVolume);
    MulNonNegative(nutrientP, sludgeVolume);
    assert sludgeVolume * (organicContent / 100.0) * y == organic * y;
  }

  // =================================================================================
  // Model 5: energy

  datatype EnergyPlan = EnergyPlan(
    currentEnergy: real, currentCost: real, optimizedEnergy: real, optimizedCost: real,
    energySavings: real, costSavings: real, savingsPercent: real,
    monthlySavings: real, annualSavings: real)

  /** Daily energy of pumping, aeration and mixing. */
  function DailyEnergy(pumpFlowRate: real, aerationTime: real, mixingIntensity: real): real
  {
    pumpFlowRate * 0.25 * 24.0 + aerationTime * 150.0 + (mixingIntensity / 100.0) * 50.0 * 24.0
  }

  /**
   * `optimize_energy_consumption`: the current daily energy and cost, and those after cutting
   * pump flow by 8 %, aeration time by 11 % and mixing intensity by 14 %. The water volume
   * argument is not used by the source.
   */
  function OptimizeEnergyConsumption(waterVolume: real, pumpFlowRate: real, aerationTime: real,
                                     mixingIntensity: real, electricityPrice: real): (e: EnergyPlan)
    requires DailyEnergy(pumpFlowRate, aerationTime, mixingIntensity) != 0.0
    ensures e.currentEnergy == DailyEnergy(pumpFlowRate, aerationTime, mixingIntensity)
    ensures e.optimizedEnergy == DailyEnergy(pumpFlowRate * 0.92, aerationTime * 0.89, mixingIntensity * 0.86)
    ensures e.energySavings == e.currentEnergy - e.optimizedEnergy
    ensures e.monthlySavings == e.costSavings * 30.0 && e.annualSavings == e.costSavings * 365.0
  {
    var current := DailyEnergy(pumpFlowRate, aerationTime, mixingIntensity);
    var optimized := DailyEnergy(pumpFlowRate * 0.92, aerationTime * 0.89, mixingIntensity * 0.86);
    var energySavings := current - optimized;
    var costSavings := current * electricityPrice - optimized * electricityPrice;
    EnergyPlan(
      current, current * electricityPrice, optimized, optimized * electricityPrice,
      energySavings, costSavings, (energySavings / current) * 100.0,
      costSavings * 30.0, costSavings * 365.0)
  }

  /** The cost savings are the energy savings at the electricity price. */
  lemma CostSavingsAtPrice(waterVolume: real, pumpFlowRate: real, aerationTime: real,
                           mixingIntensity: real, electricityPrice: real)
    requires DailyEnergy(pumpFlowRate, aerationTime, mixingIntensity) != 0.0
    ensures var e := OptimizeEnergyConsumption(waterVolume, pumpFlowRate, aerationTime, mixingIntensity, electricityPrice);
      e.costSavings == e.energySavings * electricityPrice
      && e.currentCost - e.optimizedCost == e.costSavings
  {
  }

  /**
   * With non-negative inputs the optimized energy never exceeds the current one, and the
   * savings are between 8 % and 14 % of the current energy.
   */
  lemma EnergySavingsShare(waterVolume: real, pumpFlowRate: real, aerationTime: real,
                           mixingIntensity: real, electricityPrice: real)
    requires 0.0 <= pumpFlowRate && 0.0 <= aerationTime && 0.0 <= mixingIntensity
    requires DailyEnergy(pumpFlowRate, aerationTime, mixingIntensity) != 0.0
    ensures var e := OptimizeEnergyConsumption(waterVolume, pumpFlowRate, aerationTime, mixingIntensity, electricityPrice);
      && e.optimizedEnergy <= e.currentEnergy
      && 8.0 <= e.savingsPercent <= 14.0
  {
    var e := OptimizeEnergyConsumption(waterVolume, pumpFlowRate, aerationTime, mixingIntensity, electricityPrice);
    var current, savings := e.currentEnergy, e.energySavings;
    assert 0.08 * current <= savings <= 0.14 * current;
    var q := savings / current;
    assert q * current == savings;
    assert 0.08 <= q <= 0.14;
  }

  // =================================================================================
  // Combined intelligence dashboard

  /** The three optional sections of `system_data`. */
  datatype SystemInputs = SystemInputs(
    influent: Option<InfluentParameters>,
    current: Option<CurrentParameters>,
    dosing: Option<DosingParameters>)

  /** The two recommendations: 'high' priority efficiency, 'medium' priority cost optimization. */
  datatype Recommendation = ImproveEfficiency | ReduceDosingCost(savings: real)

  datatype Alert = Alert(severity: Severity, parameter: Parameter, value: real)

  datatype Insights = Insights(
    status: string,
    recommendations: seq<Recommendation>,
    efficiency: Option<EfficiencyPrediction>,
    anomalies: Option<AnomalyReport>,
    chemicalOptimization: Option<DosingPlan>,
    alerts: seq<Alert>)

  /** The alert raised for one anomaly. */
  function AlertFor(a: Anomaly): Alert
  {
    Alert(a.severity, a.parameter, a.value)
  }

  /**
   * The recommendations issued for the predictions that were made: the efficiency one
   * below 88 % overall, then the cost one, carrying the predicted savings, above 500.
   */
  function RecommendationsFor(e: Option<EfficiencyPrediction>, d: Option<DosingPlan>): seq<Recommendation>
  {
    (match e
     case Some(p) => if p.overall < 88.0 then [ImproveEfficiency] else []
     case None => [])
    + (match d
       case Some(q) => if q.dailySavings > 500.0 then [ReduceDosingCost(q.dailySavings)] else []
       case None => [])
  }

  /** At most two recommendations, no kind twice, the efficiency one first, each issued exactly on its threshold. */
  lemma RecommendationsShape(e: Option<EfficiencyPrediction>, d: Option<DosingPlan>)
    ensures var recs := RecommendationsFor(e, d);
      && |recs| <= 2
      && (ImproveEfficiency in recs <==> e.Some? && e.value.overall < 88.0)
      && ((exists x :: x in recs && x.ReduceDosingCost?) <==> d.Some? && d.value.dailySavings > 500.0)
      && (forall x :: x in recs && x.ReduceDosingCost? ==> x.savings == d.value.dailySavings)
      && (|recs| == 2 ==> recs[0] == ImproveEfficiency && recs[1] != ImproveEfficiency)
  {
    var recs := RecommendationsFor(e, d);
    if d.Some? && d.value.dailySavings > 500.0 {
      assert recs[|recs| - 1].ReduceDosingCost?;
    }
  }

  /** The alert loop of `get_comprehensive_insights`: one alert per anomaly of a report that flags any. */
  method RaiseAlerts(report: AnomalyReport) returns (alerts: seq<Alert>)
    ensures |alerts| == if report.isAnomaly then |report.anomalies| else 0
    ensures forall i :: 0 <= i < |alerts| ==> alerts[i] == AlertFor(report.anomalies[i])
  {
    alerts := [];
    if report.isAnomaly {
      for i := 0 to |report.anomalies|
        invariant |alerts| == i
        invariant forall k :: 0 <= k < i ==> alerts[k] == AlertFor(report.anomalies[k])
      {
        alerts := alerts + [AlertFor(report.anomalies[i])];
      }
    }
  }

  /**
   * `get_comprehensive_insights`: predictions for whichever sections are present, a
   * recommendation when predicted efficiency is below 88 % or dosing savings exceed 500,
   * and one alert per anomaly, in anomaly order.
   */
  method GetComprehensiveInsights(data: SystemInputs, noise: Noise) returns (r: Insights)
    ensures r.status == "optimal"
    ensures r.efficiency == if data.influent.Some? then Some(PredictTreatmentEfficiency(data.influent.value, noise)) else None
    ensures r.anomalies.Some? <==> data.current.Some?
    ensures data.current.Some? ==>
      var rep := r.anomalies.value;
      && rep.anomalies == AnomaliesUpTo(data.current.value, |Parameters|)
      && rep.count == |rep.anomalies|
      && (rep.isAnomaly <==> rep.count > 0)
      && rep.confidence == (if rep.count > 0 then 0.95 else 0.0)
    ensures r.chemicalOptimization == if data.dosing.Some? then Some(OptimizeChemicalDosing(data.dosing.value)) else None
    ensures r.recommendations == RecommendationsFor(r.efficiency, r.chemicalOptimization)
    ensures data.current.None? ==> r.alerts == []
    ensures data.current.Some? ==>
      && |r.alerts| == |r.anomalies.value.anomalies|
      && forall i :: 0 <= i < |r.alerts| ==> r.alerts[i] == AlertFor(r.anomalies.value.anomalies[i])
  {
    var recommendations: seq<Recommendation> := [];
    var efficiency: Option<EfficiencyPrediction> := None;
    var anomalies: Option<AnomalyReport> := None;
    var dosing: Option<DosingPlan> := None;
    var alerts: seq<Alert> := [];

    if data.influent.Some? {
      var e := PredictTreatmentEfficiency(data.influent.value, noise);
      efficiency := Some(e);
      if e.overall < 88.0 {
        recommendations := recommendations + [ImproveEfficiency];
      }
    }

    if data.current.Some? {
      var report := DetectAnomalies(data.current.value);
      anomalies := Some(report);
      alerts := RaiseAlerts(report);
    }

    if data.dosing.Some? {
      var d := OptimizeChemicalDosing(data.dosing.value);
      dosing := Some(d);
      if d.dailySavings > 500.0 {
        recommendations := recommendations + [ReduceDosingCost(d.dailySavings)];
      }
    }

    r := Insights("optimal", recommendations, efficiency, anomalies, dosing, alerts);
  }

  /** The cost recommendation is never issued: the dosing savings never exceed 475. */
  lemma NoCostRecommendation(d: DosingParameters)
    ensures !(OptimizeChemicalDosing(d).dailySavings > 500.0)
  {
    DosingSavingsPeak(d);
  }
}
