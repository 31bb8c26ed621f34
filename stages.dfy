/**
 * The three stage optimizers of the three-stage treatment API (primary: solid removal,
 * secondary: biological organic removal, tertiary: nutrient removal and disinfection)
 * and the reuse-grade classifier.
 *
 * Each optimizer reads a sensor dictionary with per-key defaults, computes clamped
 * set-points and clamped predicted outputs (pure functions `PlanPrimary`, `PlanSecondary`,
 * `PlanTertiary`) and then builds its priority-action list by conditional appends
 * (the methods `OptimizePrimaryStage`, `OptimizeSecondaryStage`, `OptimizeTertiaryStage`).
 */
module ThreeStage {
  import opened Shared
  import opened Actions

  /** One stage's sensor dictionary. */
  type SensorData = map<string, real>

  /** `sensor_data.get(key, default)`. */
  function Get(m: SensorData, key: string, default: real): real
  {
    if key in m then m[key] else default
  }

  // =================================================================================
  // Primary stage: solid removal

  datatype PrimaryReading = PrimaryReading(
    turbidityIn: real, tssIn: real, flowRate: real, ph: real, temperature: real,
    currentCoagulant: real)

  function ReadPrimary(m: SensorData): PrimaryReading
  {
    PrimaryReading(
      Get(m, "turbidity_in", 150.0), Get(m, "tss_in", 180.0), Get(m, "flow_rate", 350.0),
      Get(m, "ph", 7.0), Get(m, "temperature", 25.0), Get(m, "current_coagulant", 45.0))
  }

  datatype PrimaryPlan = PrimaryPlan(
    coagulant: real,         // kg/h
    polymer: real,           // L/h
    mixerSpeed: real,        // % of full speed
    settlerTime: real,       // h
    turbidityOut: real,      // NTU
    tssOut: real,            // mg/L
    efficiency: real,        // solid removal, %
    pumpSpeed: real,         // primary pump, %
    pumpAdjust: bool,        // primary pump action is ADJUST rather than MAINTAIN
    mixerAdjust: bool,       // coagulation mixer action is ADJUST rather than MAINTAIN
    coagulantCost: real,     // per hour
    polymerCost: real,       // per hour
    coagulantSavings: real,  // per day, against the 45 kg/h standard dose
    meetsTarget: bool)       // performance status OPTIMAL

  function PlanPrimary(r: PrimaryReading): (p: PrimaryPlan)
    requires r.tssIn != 0.0
    ensures 20.0 <= p.coagulant <= 70.0 && 1.5 <= p.polymer <= 4.0
    ensures 50.0 <= p.mixerSpeed <= 95.0 && 2.0 <= p.settlerTime <= 3.5
    ensures 5.0 <= p.turbidityOut <= 40.0 && 8.0 <= p.tssOut <= 35.0
    ensures r.tssIn > 0.0 ==> p.efficiency < 100.0
    ensures p.pumpSpeed == (if r.flowRate > 400.0 then 100.0 else 85.0)
    ensures !p.pumpAdjust <==> 300.0 < r.flowRate < 400.0
    ensures p.mixerAdjust <==> Abs(p.mixerSpeed - 70.0) > 10.0
    ensures p.coagulantCost >= 900.0 && p.polymerCost >= 300.0
    ensures 0.0 <= p.coagulantSavings && (0.0 < p.coagulantSavings <==> p.coagulant < 45.0)
    ensures p.meetsTarget <==> p.efficiency >= 85.0
  {
    var coagulant := CoagulantDose(r.turbidityIn, r.tssIn, r.ph);
    var polymer := Clamp(1.5, 4.0, 2.5 + (r.turbidityIn - 150.0) * 0.01);
    var mixer := Clamp(50.0, 95.0, 70.0 + (r.tssIn - 180.0) * 0.15);
    var settler := Clamp(2.0, 3.5, 2.5 + (r.flowRate - 350.0) * 0.005);
    var turbidityOut := Clamp(5.0, 40.0, r.turbidityIn * 0.15 + (45.0 - coagulant) * 0.3);
    var tssOut := Clamp(8.0, 35.0, r.tssIn * 0.12 + (45.0 - coagulant) * 0.25);
    var efficiency := (r.tssIn - tssOut) / r.tssIn * 100.0;
    assert r.tssIn > 0.0 ==> efficiency < 100.0 by {
      if r.tssIn > 0.0 {
        RemovalBelowFull(r.tssIn, tssOut);
      }
    }
    PrimaryPlan(
      coagulant, polymer, mixer, settler, turbidityOut, tssOut, efficiency,
      if r.flowRate > 400.0 then 100.0 else 85.0,
      !(300.0 < r.flowRate < 400.0),
      Abs(mixer - 70.0) > 10.0,
      coagulant * 45.0,
      polymer * 200.0,
      if coagulant < 45.0 then (45.0 - coagulant) * 45.0 * 24.0 else 0.0,
      efficiency >= 85.0)
  }

  datatype PrimaryResult = PrimaryResult(reading: PrimaryReading, plan: PrimaryPlan, actions: seq<Action>)

  /**
   * The priority actions of the primary stage, appended in program order: a coagulant
   * adjustment when the optimal dose differs from the current one by more than 3 kg/h
   * (HIGH beyond 8 kg/h), a mixer adjustment when the optimal speed is more than 15 points
   * from the nominal 70 %, and a monitoring alert when influent turbidity exceeds 180 NTU.
   */
  method PrimaryActions(coagulant: real, current: real, mixerSpeed: real, turbidityIn: real)
    returns (actions: seq<Action>)
    ensures PrimaryRules(coagulant, current, mixerSpeed, turbidityIn, actions)
  {
    var diff := coagulant - current;
    var adjustDose, adjustMixer, highTurbidity := Abs(diff) > 3.0, Abs(mixerSpeed - 70.0) > 15.0, turbidityIn > 180.0;
    var dosePriority := if Abs(diff) > 8.0 then High else Medium;
    actions := AppendIf([], adjustDose, Action(dosePriority, AdjustCoagulant, current, coagulant), Primary);
    actions := AppendIf(actions, adjustMixer, Action(Medium, AdjustMixer, 70.0, mixerSpeed), Primary);
    actions := AppendIf(actions, highTurbidity, Action(High, MonitorTurbidity, turbidityIn, 150.0), Primary);
  }

  /**
   * The primary stage's rules, kind by kind: which actions a list of that stage's shape holds,
   * with what priority and numbers. A list of this shape is determined by them
   * (`EmissionDetermined`).
   */
  predicate PrimaryRules(coagulant: real, current: real, mixerSpeed: real, turbidityIn: real, acts: seq<Action>)
  {
    var gap := Abs(coagulant - current);
    && StageEmission(acts, Primary)
    && ActionOf(acts, AdjustCoagulant)
       == (if gap > 3.0 then Some(Action(if gap > 8.0 then High else Medium, AdjustCoagulant, current, coagulant)) else None)
    && ActionOf(acts, AdjustMixer)
       == (if Abs(mixerSpeed - 70.0) > 15.0 then Some(Action(Medium, AdjustMixer, 70.0, mixerSpeed)) else None)
    && ActionOf(acts, MonitorTurbidity)
       == (if turbidityIn > 180.0 then Some(Action(High, MonitorTurbidity, turbidityIn, 150.0)) else None)
  }

  /** The actions `optimize_primary_stage` emits for a reading and its plan. */
  predicate PrimaryActionsFor(r: PrimaryReading, p: PrimaryPlan, acts: seq<Action>)
  {
    PrimaryRules(p.coagulant, r.currentCoagulant, p.mixerSpeed, r.turbidityIn, acts)
  }

  /** `optimize_primary_stage`. */
  method OptimizePrimaryStage(m: SensorData) returns (res: PrimaryResult)
    requires ReadPrimary(m).tssIn != 0.0
    ensures res.reading == ReadPrimary(m) && res.plan == PlanPrimary(res.reading)
    ensures PrimaryActionsFor(res.reading, res.plan, res.actions)
    ensures !HasCritical(res.actions)
    // a mixer action (more than 15 points off) always comes with ADJUST on the mixer (more than 10)
    ensures ActionOf(res.actions, AdjustMixer).Some? ==> res.plan.mixerAdjust
  {
    var reading := ReadPrimary(m);
    var plan := PlanPrimary(reading);
    var actions := PrimaryActions(plan.coagulant, reading.currentCoagulant, plan.mixerSpeed, reading.turbidityIn);
    CriticalByKind(actions, Primary);
    res := PrimaryResult(reading, plan, actions);
  }

  // =================================================================================
  // Secondary stage: biological organic removal

  datatype SecondaryReading = SecondaryReading(
    bodIn: real, codIn: real, dissolvedOxygen: real, ph: real, temperature: real, mlss: real)

  function ReadSecondary(m: SensorData): SecondaryReading
  {
    SecondaryReading(
      Get(m, "bod_in", 250.0), Get(m, "cod_in", 450.0), Get(m, "do", 6.5),
      Get(m, "ph", 7.2), Get(m, "temperature", 25.0), Get(m, "mlss", 3500.0))
  }

  datatype SecondaryPlan = SecondaryPlan(
    aeration: real,         // blower power, %
    srt: real,              // sludge retention time, days
    bodOut: real,           // mg/L
    codOut: real,           // mg/L
    efficiency: real,       // organic removal, %
    airFlow: real,          // m3/min
    aerationAdjust: bool,   // blower action is ADJUST rather than MAINTAIN
    wasFlow: real,          // waste activated sludge pump, m3/h
    energyCost: real,       // per hour
    energySavings: real,    // per day, against 75 % aeration
    doOptimal: bool,        // DO status OPTIMAL
    biomassOptimal: bool)   // biomass status OPTIMAL

  function PlanSecondary(r: SecondaryReading): (p: SecondaryPlan)
    requires r.bodIn != 0.0
    ensures 50.0 <= p.aeration <= 100.0 && 10.0 <= p.srt <= 20.0
    ensures 10.0 <= p.bodOut <= 40.0 && 30.0 <= p.codOut <= 70.0
    ensures r.bodIn > 0.0 ==> p.efficiency < 100.0
    ensures 125.0 <= p.airFlow <= 250.0
    ensures p.aerationAdjust <==> Abs(p.aeration - 75.0) > 10.0
    ensures 17.5 <= p.wasFlow <= 35.0 && p.wasFlow * p.srt == 350.0
    ensures 60.0 <= p.energyCost <= 120.0
    ensures 0.0 <= p.energySavings && (0.0 < p.energySavings <==> p.aeration < 75.0)
    ensures p.doOptimal <==> 5.0 <= r.dissolvedOxygen <= 7.5
    ensures p.biomassOptimal <==> 3000.0 <= r.mlss <= 4000.0
  {
    var aeration := Clamp(50.0, 100.0, 75.0 + (6.5 - r.dissolvedOxygen) * 10.0 + (250.0 - r.bodIn) * 0.05);
    var srt := Clamp(10.0, 20.0, 15.0 + (r.mlss - 3500.0) * 0.002);
    var bodOut := Clamp(10.0, 40.0, r.bodIn * 0.08 + (6.5 - r.dissolvedOxygen) * 2.0);
    var codOut := Clamp(30.0, 70.0, r.codIn * 0.1 + (6.5 - r.dissolvedOxygen) * 3.0);
    var efficiency := (r.bodIn - bodOut) / r.bodIn * 100.0;
    assert r.bodIn > 0.0 ==> efficiency < 100.0 by {
      if r.bodIn > 0.0 {
        RemovalBelowFull(r.bodIn, bodOut);
      }
    }
    var wasFlow := 350.0 / srt;
    assert wasFlow * srt == 350.0;
    assert 17.5 <= wasFlow <= 35.0;
    SecondaryPlan(
      aeration, srt, bodOut, codOut, efficiency,
      aeration * 2.5,
      Abs(aeration - 75.0) > 10.0,
      wasFlow,
      aeration * 150.0 * 0.008,
      if aeration < 75.0 then (75.0 - aeration) * 150.0 * 0.008 * 24.0 else 0.0,
      5.0 <= r.dissolvedOxygen <= 7.5,
      3000.0 <= r.mlss <= 4000.0)
  }

  /** Lower dissolved oxygen never asks for less aeration. */
  lemma AerationFallsWithOxygen(r1: SecondaryReading, r2: SecondaryReading)
    requires r1.bodIn != 0.0 && r2.bodIn != 0.0
    requires r1.bodIn == r2.bodIn && r1.mlss == r2.mlss && r1.codIn == r2.codIn
    requires r1.dissolvedOxygen <= r2.dissolvedOxygen
    ensures PlanSecondary(r2).aeration <= PlanSecondary(r1).aeration
  {
  }

  datatype SecondaryResult = SecondaryResult(reading: SecondaryReading, plan: SecondaryPlan, actions: seq<Action>)

  /**
   * The priority actions of the secondary stage: a CRITICAL aeration increase when dissolved
   * oxygen is below 4.0 mg/L, otherwise a MEDIUM aeration reduction above 8.0 mg/L; a HIGH
   * alert for organic load above 300 mg/L BOD; a MEDIUM request to cut sludge wasting when
   * MLSS is below 2500 mg/L.
   */
  method SecondaryActions(dissolvedOxygen: real, bodIn: real, mlss: real) returns (actions: seq<Action>)
    ensures SecondaryRules(dissolvedOxygen, bodIn, mlss, actions)
  {
    var lowOxygen, highOxygen := dissolvedOxygen < 4.0, dissolvedOxygen > 8.0;
    var highLoad, lowBiomass := bodIn > 300.0, mlss < 2500.0;
    actions := AppendIf([], lowOxygen, Action(Critical, IncreaseAeration, dissolvedOxygen, 6.5), Secondary);
    // the `elif` of the oxygen check
    actions := AppendIf(actions, !lowOxygen && highOxygen, Action(Medium, ReduceAeration, dissolvedOxygen, 6.5), Secondary);
    actions := AppendIf(actions, highLoad, Action(High, RaiseSrt, bodIn, 250.0), Secondary);
    actions := AppendIf(actions, lowBiomass, Action(Medium, ReduceWasFlow, mlss, 3500.0), Secondary);
  }

  /**
   * The secondary stage's rules, kind by kind. A list of this shape is determined by them
   * (`EmissionDetermined`).
   */
  predicate SecondaryRules(o: real, bodIn: real, mlss: real, acts: seq<Action>)
  {
    && StageEmission(acts, Secondary)
    && ActionOf(acts, IncreaseAeration) == (if o < 4.0 then Some(Action(Critical, IncreaseAeration, o, 6.5)) else None)
    && ActionOf(acts, ReduceAeration) == (if o > 8.0 then Some(Action(Medium, ReduceAeration, o, 6.5)) else None)
    && ActionOf(acts, RaiseSrt) == (if bodIn > 300.0 then Some(Action(High, RaiseSrt, bodIn, 250.0)) else None)
    && ActionOf(acts, ReduceWasFlow)
       == (if mlss < 2500.0 then Some(Action(Medium, ReduceWasFlow, mlss, 3500.0)) else None)
  }

  /** The actions `optimize_secondary_stage` emits for a reading. */
  predicate SecondaryActionsFor(r: SecondaryReading, acts: seq<Action>)
  {
    SecondaryRules(r.dissolvedOxygen, r.bodIn, r.mlss, acts)
  }

  /** `optimize_secondary_stage`. */
  method OptimizeSecondaryStage(m: SensorData) returns (res: SecondaryResult)
    requires ReadSecondary(m).bodIn != 0.0
    ensures res.reading == ReadSecondary(m) && res.plan == PlanSecondary(res.reading)
    ensures SecondaryActionsFor(res.reading, res.actions)
    ensures HasCritical(res.actions) <==> res.reading.dissolvedOxygen < 4.0
  {
    var reading := ReadSecondary(m);
    var plan := PlanSecondary(reading);
    var actions := SecondaryActions(reading.dissolvedOxygen, reading.bodIn, reading.mlss);
    CriticalByKind(actions, Secondary);
    if reading.dissolvedOxygen < 4.0 {
      assert ActionOf(actions, IncreaseAeration).value.priority == Critical;
    }
    res := SecondaryResult(reading, plan, actions);
  }

  // =================================================================================
  // Reuse classification

  datatype Grade = A | B | C | D

  /** The reuse category record; its category name, uses and compliance texts are not modelled. */
  datatype ReuseCategory = ReuseCategory(grade: Grade, valuePerM3: real)

  predicate GradeAQuality(nitrogen: real, phosphorus: real, pathogens: real, turbidity: real)
  {
    pathogens < 2.0 && nitrogen < 5.0 && phosphorus < 1.0 && turbidity < 2.0
  }

  predicate GradeBQuality(nitrogen: real, phosphorus: real, pathogens: real, turbidity: real)
  {
    pathogens < 5.0 && nitrogen < 8.0 && phosphorus < 1.5 && turbidity < 5.0
  }

  predicate GradeCQuality(nitrogen: real, pathogens: real)
  {
    pathogens < 10.0 && nitrogen < 10.0
  }

  /** Value of reused water per m3 for each grade. */
  function UnitValue(g: Grade): (v: real)
    ensures v in {15.0, 10.0, 5.0, 2.0}
  {
    match g
    case A => 15.0
    case B => 10.0
    case C => 5.0
    case D => 2.0
  }

  function GradeIndex(g: Grade): nat
  {
    match g
    case A => 0
    case B => 1
    case C => 2
    case D => 3
  }

  /** `_determine_reuse_category`: the first of A, B, C whose limits the water meets, else D. */
  function DetermineReuseCategory(nitrogen: real, phosphorus: real, pathogens: real, turbidity: real): (c: ReuseCategory)
    ensures c.grade == A <==> GradeAQuality(nitrogen, phosphorus, pathogens, turbidity)
    ensures c.grade == B <==> (!GradeAQuality(nitrogen, phosphorus, pathogens, turbidity)
                               && GradeBQuality(nitrogen, phosphorus, pathogens, turbidity))
    ensures c.grade == C <==> (!GradeBQuality(nitrogen, phosphorus, pathogens, turbidity)
                               && GradeCQuality(nitrogen, pathogens))
    ensures c.grade == D <==> pathogens >= 10.0 || nitrogen >= 10.0
    ensures c.valuePerM3 == UnitValue(c.grade)
  {
    if GradeAQuality(nitrogen, phosphorus, pathogens, turbidity) then ReuseCategory(A, 15.0)
    else if GradeBQuality(nitrogen, phosphorus, pathogens, turbidity) then ReuseCategory(B, 10.0)
    else if GradeCQuality(nitrogen, pathogens) then ReuseCategory(C, 5.0)
    else ReuseCategory(D, 2.0)
  }

  /** The grade limits are nested: grade A water also meets B's limits, and B water meets C's. */
  lemma GradeLimitsNest(nitrogen: real, phosphorus: real, pathogens: real, turbidity: real)
    ensures GradeAQuality(nitrogen, phosphorus, pathogens, turbidity) ==> GradeBQuality(nitrogen, phosphorus, pathogens, turbidity)
    ensures GradeBQuality(nitrogen, phosphorus, pathogens, turbidity) ==> GradeCQuality(nitrogen, pathogens)
  {
  }

  /** Water that is no worse in every measure never gets a worse grade, nor a lower value. */
  lemma CleanerWaterGradesNoWorse(n1: real, p1: real, g1: real, t1: real, n2: real, p2: real, g2: real, t2: real)
    requires n1 <= n2 && p1 <= p2 && g1 <= g2 && t1 <= t2
    ensures GradeIndex(DetermineReuseCategory(n1, p1, g1, t1).grade) <= GradeIndex(DetermineReuseCategory(n2, p2, g2, t2).grade)
    ensures DetermineReuseCategory(n2, p2, g2, t2).valuePerM3 <= DetermineReuseCategory(n1, p1, g1, t1).valuePerM3
  {
  }

  // =================================================================================
  // Tertiary stage: nutrients and disinfection

  datatype TertiaryReading = TertiaryReading(
    nitrogenIn: real, phosphorusIn: real, turbidityIn: real, pathogensIn: real, ph: real,
    currentChlorine: real)

  function ReadTertiary(m: SensorData): TertiaryReading
  {
    TertiaryReading(
      Get(m, "nitrogen_in", 35.0), Get(m, "phosphorus_in", 8.0), Get(m, "turbidity_in", 8.0),
      Get(m, "pathogens_in", 1000.0), Get(m, "ph", 7.2), Get(m, "current_chlorine", 3.5))
  }

  datatype TertiaryPlan = TertiaryPlan(
    chlorine: real,            // kg/h
    uv: real,                  // UV intensity, %
    membranePressure: real,    // bar
    nitrogenOut: real,         // mg/L
    phosphorusOut: real,       // mg/L
    pathogensOut: real,        // CFU/100ml
    turbidityOut: real,        // NTU
    efficiency: real,          // nutrient removal, %
    reuse: ReuseCategory,
    chlorineAdjust: bool,      // chlorination pump action is ADJUST
    uvAdjust: bool,            // UV action is ADJUST
    chlorineCost: real,        // per hour
    disinfectionOptimal: bool, // disinfection status OPTIMAL
    nutrientOptimal: bool)     // nutrient status OPTIMAL

  function PlanTertiary(r: TertiaryReading): (p: TertiaryPlan)
    requires r.nitrogenIn != 0.0
    ensures 2.0 <= p.chlorine <= 5.0 && 60.0 <= p.uv <= 100.0 && 2.0 <= p.membranePressure <= 3.5
    ensures 2.0 <= p.nitrogenOut <= 10.0 && 0.5 <= p.phosphorusOut <= 2.0 && 0.0 <= p.pathogensOut <= 10.0
    ensures r.nitrogenIn > 0.0 ==> p.efficiency < 100.0
    ensures p.reuse == DetermineReuseCategory(p.nitrogenOut, p.phosphorusOut, p.pathogensOut, p.turbidityOut)
    ensures p.reuse.grade == D <==> p.pathogensOut == 10.0 || p.nitrogenOut == 10.0
    ensures 300.0 <= p.chlorineCost <= 750.0
    ensures p.chlorineAdjust <==> Abs(p.chlorine - 3.5) > 0.5
    // the UV intensity leaves 70..90 % only beyond 2000 CFU/100ml (or for a negative count)
    ensures p.uvAdjust <==> r.pathogensIn > 2000.0 || r.pathogensIn < 0.0
    ensures p.disinfectionOptimal <==> p.pathogensOut < 5.0
    ensures p.nutrientOptimal <==> p.nitrogenOut < 8.0
  {
    var chlorine := Clamp(2.0, 5.0, 3.0 + (r.pathogensIn - 1000.0) * 0.001 + (r.turbidityIn - 8.0) * 0.1);
    var uv := Clamp(60.0, 100.0, 80.0 + (r.pathogensIn - 1000.0) * 0.01);
    var membrane := Clamp(2.0, 3.5, 2.5 + (r.nitrogenIn - 35.0) * 0.01);
    var nitrogenOut := Clamp(2.0, 10.0, r.nitrogenIn * 0.15);
    var phosphorusOut := Clamp(0.5, 2.0, r.phosphorusIn * 0.1);
    var pathogensOut := Clamp(0.0, 10.0, r.pathogensIn * 0.001 + (3.5 - chlorine) * 5.0);
    var efficiency := (r.nitrogenIn - nitrogenOut) / r.nitrogenIn * 100.0;
    assert r.nitrogenIn > 0.0 ==> efficiency < 100.0 by {
      if r.nitrogenIn > 0.0 {
        RemovalBelowFull(r.nitrogenIn, nitrogenOut);
      }
    }
    var turbidityOut := r.turbidityIn * 0.2;
    TertiaryPlan(
      chlorine, uv, membrane, nitrogenOut, phosphorusOut, pathogensOut, turbidityOut, efficiency,
      DetermineReuseCategory(nitrogenOut, phosphorusOut, pathogensOut, turbidityOut),
      Abs(chlorine - 3.5) > 0.5,
      Abs(uv - 80.0) > 10.0,
      chlorine * 150.0,
      pathogensOut < 5.0,
      nitrogenOut < 8.0)
  }

  /** More pathogens (or more turbid water) never lower the chlorine dose. */
  lemma ChlorineRisesWithPathogens(r1: TertiaryReading, r2: TertiaryReading)
    requires r1.nitrogenIn != 0.0 && r2.nitrogenIn != 0.0
    requires r1.pathogensIn <= r2.pathogensIn && r1.turbidityIn <= r2.turbidityIn
    ensures PlanTertiary(r1).chlorine <= PlanTertiary(r2).chlorine
    ensures PlanTertiary(r1).uv <= PlanTertiary(r2).uv
  {
  }

  datatype TertiaryResult = TertiaryResult(reading: TertiaryReading, plan: TertiaryPlan, actions: seq<Action>)

  /**
   * The priority actions of the tertiary stage: a HIGH chlorine adjustment when the optimal
   * dose differs from the current one by more than 0.5 kg/h, a CRITICAL UV boost above
   * 1500 CFU/100ml pathogens, a MEDIUM check of the secondary stage above 40 mg/L nitrogen.
   */
  method TertiaryActions(chlorine: real, current: real, pathogensIn: real, nitrogenIn: real)
    returns (actions: seq<Action>)
    ensures TertiaryRules(chlorine, current, pathogensIn, nitrogenIn, actions)
  {
    var adjustDose, highPathogens, highNitrogen := Abs(chlorine - current) > 0.5, pathogensIn > 1500.0, nitrogenIn > 40.0;
    actions := AppendIf([], adjustDose, Action(High, AdjustChlorine, current, chlorine), Tertiary);
    actions := AppendIf(actions, highPathogens, Action(Critical, BoostUv, pathogensIn, 1000.0), Tertiary);
    actions := AppendIf(actions, highNitrogen, Action(Medium, CheckSecondary, nitrogenIn, 35.0), Tertiary);
  }

  /**
   * The tertiary stage's rules, kind by kind. A list of this shape is determined by them
   * (`EmissionDetermined`).
   */
  predicate TertiaryRules(chlorine: real, current: real, pathogensIn: real, nitrogenIn: real, acts: seq<Action>)
  {
    && StageEmission(acts, Tertiary)
    && ActionOf(acts, AdjustChlorine)
       == (if Abs(chlorine - current) > 0.5 then Some(Action(High, AdjustChlorine, current, chlorine)) else None)
    && ActionOf(acts, BoostUv)
       == (if pathogensIn > 1500.0 then Some(Action(Critical, BoostUv, pathogensIn, 1000.0)) else None)
    && ActionOf(acts, CheckSecondary)
       == (if nitrogenIn > 40.0 then Some(Action(Medium, CheckSecondary, nitrogenIn, 35.0)) else None)
  }

  /** The actions `optimize_tertiary_stage` emits for a reading and its plan. */
  predicate TertiaryActionsFor(r: TertiaryReading, p: TertiaryPlan, acts: seq<Action>)
  {
    TertiaryRules(p.chlorine, r.currentChlorine, r.pathogensIn, r.nitrogenIn, acts)
  }

  /** `optimize_tertiary_stage`. */
  method OptimizeTertiaryStage(m: SensorData) returns (res: TertiaryResult)
    requires ReadTertiary(m).nitrogenIn != 0.0
    ensures res.reading == ReadTertiary(m) && res.plan == PlanTertiary(res.reading)
    ensures TertiaryActionsFor(res.reading, res.plan, res.actions)
    ensures HasCritical(res.actions) <==> res.reading.pathogensIn > 1500.0
  {
    var reading := ReadTertiary(m);
    var plan := PlanTertiary(reading);
    var actions := TertiaryActions(plan.chlorine, reading.currentChlorine, reading.pathogensIn, reading.nitrogenIn);
    CriticalByKind(actions, Tertiary);
    if reading.pathogensIn > 1500.0 {
      assert ActionOf(actions, BoostUv).value.priority == Critical;
    }
    res := TertiaryResult(reading, plan, actions);
  }
}
