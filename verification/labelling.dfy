/** The synthetic-data generator (datasets/generate_datasets.py): the
    per-disease table, the rule-based risk score and the appointment
    show-up probability, each as a pure function of values already drawn
    from the random number generator.

    Scores and probabilities are integer hundredths (0.15 is 15); the
    drawn distance from the hospital, which the source rounds to two
    decimals, is also in hundredths (30.00 km is 3000). */
module Labelling {
  import opened Outcomes
  import opened Numbers
  import opened Records
  import RecordIds

  // ---------------------------------------------------------------------
  // Draws

  /** An inclusive range, as `random.randint(lo, hi)` takes it. */
  datatype Range = Range(lo: int, hi: int) {
    predicate Valid() {
      lo <= hi
    }

    predicate Has(x: int) {
      lo <= x <= hi
    }
  }

  /** `random.randint(r.lo, r.hi)`. Python computes `lo + randbelow(n)` with
      `n = hi - lo + 1`; the raw draw `k` stands for any value of the
      generator, reduced modulo `n`. */
  function Pick(r: Range, k: nat): (x: int)
    requires r.Valid()
    ensures r.Has(x)
  {
    r.lo + k % (r.hi - r.lo + 1)
  }

  /** The abstraction of draws loses nothing: every value of the range is
      the pick of some draw. */
  lemma PickReachesEveryValue(r: Range, x: int)
    requires r.Valid() && r.Has(x)
    ensures Pick(r, (x - r.lo) as nat) == x
  {
  }

  /** `random.choice(xs)`. */
  function Choice<T>(xs: seq<T>, k: nat): (x: T)
    requires |xs| > 0
    ensures x in xs
  {
    xs[k % |xs|]
  }

  // ---------------------------------------------------------------------
  // The disease table

  datatype Pattern = Pattern(
    ages: Range,
    symptoms: map<string, nat>,   // presence probability in hundredths
    malariaTest: string,
    systolic: Range,
    diastolic: Range,
    glucose: Range)

  /** The keys of the disease table, in the order the dict lists them. */
  const Diseases: seq<string> := ["Malaria", "Typhoid", "TB", "Pneumonia", "Diabetes", "Hypertension"]

  /** The eight symptom flags every row carries, in the order they are drawn. */
  const SymptomNames: seq<string> := ["fever", "headache", "fatigue", "cough", "vomiting", "diarrhea", "joint_pain", "rash"]

  const DiseasePatterns: map<string, Pattern> := map[
    "Malaria" := Pattern(Range(15, 50),
      map["fever" := 95, "headache" := 90, "fatigue" := 90, "joint_pain" := 70, "vomiting" := 30],
      "positive", Range(110, 130), Range(70, 85), Range(85, 100)),
    "Typhoid" := Pattern(Range(20, 55),
      map["fever" := 95, "headache" := 85, "fatigue" := 90, "cough" := 60, "vomiting" := 70, "diarrhea" := 60],
      "negative", Range(120, 135), Range(75, 90), Range(90, 110)),
    "TB" := Pattern(Range(25, 65),
      map["cough" := 95, "fatigue" := 90, "fever" := 70, "headache" := 50],
      "negative", Range(115, 130), Range(70, 85), Range(85, 105)),
    "Pneumonia" := Pattern(Range(5, 70),
      map["cough" := 95, "fever" := 90, "fatigue" := 85, "headache" := 60],
      "negative", Range(120, 140), Range(75, 90), Range(90, 110)),
    "Diabetes" := Pattern(Range(35, 75),
      map["fatigue" := 80, "cough" := 30, "headache" := 40],
      "negative", Range(135, 160), Range(85, 105), Range(180, 250)),
    "Hypertension" := Pattern(Range(40, 80),
      map["headache" := 70, "fatigue" := 60],
      "negative", Range(150, 190), Range(95, 120), Range(95, 120))
  ]

  /** The probability used for a symptom: the table's entry, or 0.1 for a
      symptom the disease does not list (`pattern['symptoms'].get(s, 0.1)`). */
  function SymptomProbability(p: Pattern, symptom: string): nat {
    if symptom in p.symptoms then p.symptoms[symptom] else 10
  }

  /** `1 if random.random() < prob else 0`. */
  function SymptomFlag(roll: real, probability: nat): (flag: nat)
    ensures flag == 0 || flag == 1
    ensures flag == 1 <==> roll < probability as real / 100.0
  {
    if roll < probability as real / 100.0 then 1 else 0
  }

  /** The table is well formed: the key list and the table agree, every
      range is non-empty, every listed symptom is one of the eight that are
      drawn (so no entry is silently ignored), and only malaria tests
      positive. */
  lemma DiseaseTableWellFormed()
    ensures forall d :: d in Diseases <==> d in DiseasePatterns
    ensures forall d :: d in DiseasePatterns ==>
      && DiseasePatterns[d].ages.Valid()
      && DiseasePatterns[d].systolic.Valid()
      && DiseasePatterns[d].diastolic.Valid()
      && DiseasePatterns[d].glucose.Valid()
    ensures forall d, s :: d in DiseasePatterns && s in DiseasePatterns[d].symptoms ==> s in SymptomNames
    ensures forall d :: d in DiseasePatterns ==> (DiseasePatterns[d].malariaTest == "positive" <==> d == "Malaria")
    ensures forall d :: d in DiseasePatterns ==> DiseasePatterns[d].malariaTest in {"positive", "negative"}
  {
    DiseaseKeys();
    forall d | d in DiseasePatterns
      ensures DiseasePatterns[d].ages.Valid() && DiseasePatterns[d].systolic.Valid()
      ensures DiseasePatterns[d].diastolic.Valid() && DiseasePatterns[d].glucose.Valid()
      ensures forall s :: s in DiseasePatterns[d].symptoms ==> s in SymptomNames
      ensures DiseasePatterns[d].malariaTest == "positive" <==> d == "Malaria"
      ensures DiseasePatterns[d].malariaTest in {"positive", "negative"}
    {
      PatternWellFormed(d);
    }
  }

  lemma DiseaseKeys()
    ensures forall d :: d in Diseases <==> d in DiseasePatterns
  {
  }

  lemma PatternWellFormed(d: string)
    requires d in DiseasePatterns
    ensures DiseasePatterns[d].ages.Valid() && DiseasePatterns[d].systolic.Valid()
    ensures DiseasePatterns[d].diastolic.Valid() && DiseasePatterns[d].glucose.Valid()
    ensures forall s :: s in DiseasePatterns[d].symptoms ==> s in SymptomNames
    ensures DiseasePatterns[d].malariaTest == "positive" <==> d == "Malaria"
    ensures DiseasePatterns[d].malariaTest in {"positive", "negative"}
  {
  }

  /** No disease lists a rash, so its flag is always drawn with probability 0.1. */
  lemma RashAlwaysDefault(d: string)
    requires d in DiseasePatterns
    ensures SymptomProbability(DiseasePatterns[d], "rash") == 10
  {
  }

  // ---------------------------------------------------------------------
  // Regions of the generator

  const GeneratorRegions: seq<string> := ["Oromia", "Amhara", "Tigray", "SNNPR", "Addis Ababa"]

  const GeneratorWoredas: seq<seq<string>> := [
    ["Adama", "Jimma", "Nekemte", "Dire Dawa", "Harar"],
    ["Bahir Dar", "Gondar", "Debre Markos", "Dessie", "Debre Birhan"],
    ["Mekelle", "Axum", "Shire", "Adigrat", "Wukro"],
    ["Hawassa", "Arba Minch", "Wolaita", "Dilla", "Hosanna"],
    ["Bole", "Kirkos", "Yeka", "Arada", "Lideta"]
  ]

  // ---------------------------------------------------------------------
  // Disease rows

  /** The values drawn for one disease row, in the order the loop draws them. */
  datatype DiseaseDraw = DiseaseDraw(
    disease: nat, age: nat, gender: nat, region: nat, woreda: nat,
    symptomRolls: seq<real>,
    systolic: nat, diastolic: nat, glucose: nat)

  datatype DiseaseRow = DiseaseRow(
    age: int, gender: string, region: string, woreda: string,
    symptoms: seq<nat>,              // one flag per entry of SymptomNames
    malariaTest: string, rdtResult: string,
    systolic: int, diastolic: int, glucose: int,
    diagnosis: string)

  /** One row of the disease dataset. */
  function DiseaseRowOf(draw: DiseaseDraw): (row: DiseaseRow)
    requires |draw.symptomRolls| == |SymptomNames|
    ensures row.diagnosis in Diseases
    ensures row.gender in {"M", "F"}
    ensures |row.symptoms| == |SymptomNames|
    ensures forall k :: 0 <= k < |SymptomNames| ==>
      (row.symptoms[k] == 0 || row.symptoms[k] == 1)
      && (row.symptoms[k] == 1 <==>
           draw.symptomRolls[k] < SymptomProbability(DiseasePatterns[row.diagnosis], SymptomNames[k]) as real / 100.0)
    ensures row.rdtResult == row.malariaTest
    ensures row.malariaTest == "positive" <==> row.diagnosis == "Malaria"
    ensures DiseasePatterns[row.diagnosis].ages.Has(row.age)
    ensures DiseasePatterns[row.diagnosis].systolic.Has(row.systolic)
    ensures DiseasePatterns[row.diagnosis].diastolic.Has(row.diastolic)
    ensures DiseasePatterns[row.diagnosis].glucose.Has(row.glucose)
    ensures exists i :: 0 <= i < |GeneratorRegions| && row.region == GeneratorRegions[i] && row.woreda in GeneratorWoredas[i]
  {
    DiseaseTableWellFormed();
    var disease := Choice(Diseases, draw.disease);
    var p := DiseasePatterns[disease];
    var age := Pick(p.ages, draw.age);
    var gender := Choice(["M", "F"], draw.gender);
    var r := draw.region % |GeneratorRegions|;
    var woreda := Choice(GeneratorWoredas[r], draw.woreda);
    var flags := seq(|SymptomNames|, k requires 0 <= k < |SymptomNames| =>
      SymptomFlag(draw.symptomRolls[k], SymptomProbability(p, SymptomNames[k])));
    DiseaseRow(age, gender, GeneratorRegions[r], woreda, flags,
      p.malariaTest, p.malariaTest,
      Pick(p.systolic, draw.systolic), Pick(p.diastolic, draw.diastolic), Pick(p.glucose, draw.glucose),
      disease)
  }

  /** The row as the dataset file stores it, keyed by column name. */
  function DiseaseRecord(row: DiseaseRow): (rec: Record)
    requires |row.symptoms| == |SymptomNames|
    ensures forall k :: 0 <= k < |SymptomNames| ==>
      SymptomNames[k] in rec && rec[SymptomNames[k]] == Num(row.symptoms[k] as real)
    ensures "age" in rec && rec["age"] == Num(row.age as real)
    ensures "gender" in rec && rec["gender"] == Text(row.gender)
    ensures "blood_pressure_systolic" in rec && rec["blood_pressure_systolic"] == Num(row.systolic as real)
    ensures "blood_pressure_diastolic" in rec && rec["blood_pressure_diastolic"] == Num(row.diastolic as real)
    ensures "glucose_level" in rec && rec["glucose_level"] == Num(row.glucose as real)
    ensures "diagnosis" in rec && rec["diagnosis"] == Text(row.diagnosis)
  {
    map[
      "age" := Num(row.age as real),
      "gender" := Text(row.gender),
      "region" := Text(row.region),
      "woreda" := Text(row.woreda),
      "fever" := Num(row.symptoms[0] as real),
      "headache" := Num(row.symptoms[1] as real),
      "fatigue" := Num(row.symptoms[2] as real),
      "cough" := Num(row.symptoms[3] as real),
      "vomiting" := Num(row.symptoms[4] as real),
      "diarrhea" := Num(row.symptoms[5] as real),
      "joint_pain" := Num(row.symptoms[6] as real),
      "rash" := Num(row.symptoms[7] as real),
      "malaria_test" := Text(row.malariaTest),
      "rdt_result" := Text(row.rdtResult),
      "blood_pressure_systolic" := Num(row.systolic as real),
      "blood_pressure_diastolic" := Num(row.diastolic as real),
      "glucose_level" := Num(row.glucose as real),
      "diagnosis" := Text(row.diagnosis)
    ]
  }

  // ---------------------------------------------------------------------
  // The risk rule

  function AgeRisk(age: int): nat {
    if age > 60 then 20 else if age > 45 then 10 else 0
  }

  function PregnancyRisk(pregnancy: nat, age: int): nat {
    if pregnancy != 0 then 15 + (if age > 35 then 10 else 0) else 0
  }

  function GlucoseRisk(glucose: int): nat {
    if glucose > 180 then 25 else if glucose > 140 then 15 else if glucose < 70 then 10 else 0
  }

  function BloodPressureRisk(systolic: int, diastolic: int): nat {
    if systolic > 160 || diastolic > 100 then 25
    else if systolic > 140 || diastolic > 90 then 15
    else 0
  }

  function HeartRateRisk(rate: int): nat {
    if rate > 100 || rate < 60 then 10 else 0
  }

  /** `weight / (height/100)**2`, the body-mass index of the source. */
  ghost function Bmi(weight: int, height: int): real
    requires height != 0
  {
    weight as real / ((height as real / 100.0) * (height as real / 100.0))
  }

  /** The BMI band, decided over integers: BMI > 30 is
      `weight * 10000 > 30 * height²`, BMI < 18.5 is
      `weight * 20000 < 37 * height²`. */
  function BmiRisk(weight: int, height: int): nat
    requires height != 0
  {
    if weight * 10000 > 30 * (height * height) then 15
    else if weight * 20000 < 37 * (height * height) then 10
    else 0
  }

  /** The integer bands are exactly the bands of the real-valued BMI. */
  lemma BmiRiskMatchesBmi(weight: int, height: int)
    requires height != 0
    ensures BmiRisk(weight, height) == (if Bmi(weight, height) > 30.0 then 15 else if Bmi(weight, height) < 18.5 then 10 else 0)
  {
    var h := height as real / 100.0;
    var sq := h * h;
    assert sq > 0.0;
    assert sq * 10000.0 == (height * height) as real;
    var w := weight as real;
    assert Bmi(weight, height) == w / sq;
    DivideCompare(w, sq, 30.0);
    DivideCompare(w, sq, 18.5);
    assert w > 30.0 * sq <==> weight * 10000 > 30 * (height * height) by {
      assert w * 10000.0 == (weight * 10000) as real;
    }
    assert w < 18.5 * sq <==> weight * 20000 < 37 * (height * height) by {
      assert w * 20000.0 == (weight * 20000) as real;
      assert 18.5 * sq * 20000.0 == (37 * (height * height)) as real;
    }
  }

  /** Comparing a quotient with a bound is comparing the dividend with the
      bound times the (positive) divisor. */
  lemma DivideCompare(w: real, sq: real, c: real)
    requires sq > 0.0
    ensures w / sq > c <==> w > c * sq
    ensures w / sq < c <==> w < c * sq
  {
    var b := w / sq;
    assert b * sq == w;
    MultiplyCompare(b, c, sq);
  }

  lemma MultiplyCompare(x: real, y: real, m: real)
    requires m > 0.0
    ensures x > y <==> x * m > y * m
    ensures x < y <==> x * m < y * m
  {
    assert x * m - y * m == (x - y) * m;
  }

  /** The risk label of one patient, before and after the cap at 1.0. */
  function UncappedRisk(age: int, pregnancy: nat, glucose: int, systolic: int, diastolic: int,
                        heartRate: int, weight: int, height: int): nat
    requires height != 0
  {
    AgeRisk(age) + PregnancyRisk(pregnancy, age) + GlucoseRisk(glucose)
    + BloodPressureRisk(systolic, diastolic) + HeartRateRisk(heartRate) + BmiRisk(weight, height)
  }

  /** The rule-based risk score in hundredths: always within [0, 1], and
      equal to the sum of the contributions whenever that sum is below the
      cap. */
  function RiskScore(age: int, pregnancy: nat, glucose: int, systolic: int, diastolic: int,
                     heartRate: int, weight: int, height: int): (score: nat)
    requires height != 0
    ensures score <= 100
    ensures score <= UncappedRisk(age, pregnancy, glucose, systolic, diastolic, heartRate, weight, height)
    ensures UncappedRisk(age, pregnancy, glucose, systolic, diastolic, heartRate, weight, height) <= 100 ==>
      score == UncappedRisk(age, pregnancy, glucose, systolic, diastolic, heartRate, weight, height)
  {
    var raw := UncappedRisk(age, pregnancy, glucose, systolic, diastolic, heartRate, weight, height);
    if raw < 100 then raw else 100
  }

  /** The cap is reachable: the largest contributions add up to 1.2. */
  lemma RiskCapBinds()
    ensures UncappedRisk(70, 1, 200, 170, 110, 110, 120, 150) == 120
    ensures RiskScore(70, 1, 200, 170, 110, 110, 120, 150) == 100
  {
  }

  /** Over the drawn glucose range 70..250 the glucose contribution never
      decreases; below 70 it does (the `< 70` band), which the draw never
      reaches. */
  lemma GlucoseRiskMonotone(g1: int, g2: int)
    requires 70 <= g1 <= g2
    ensures GlucoseRisk(g1) <= GlucoseRisk(g2)
  {
  }

  lemma GlucoseBands(g: int)
    requires 70 <= g <= 250
    ensures GlucoseRisk(g) == (if g <= 140 then 0 else if g <= 180 then 15 else 25)
  {
  }

  /** Holding everything else fixed, more glucose never lowers the score. */
  lemma RiskScoreMonotoneInGlucose(age: int, pregnancy: nat, g1: int, g2: int, systolic: int, diastolic: int,
                                   heartRate: int, weight: int, height: int)
    requires height != 0 && 70 <= g1 <= g2
    ensures RiskScore(age, pregnancy, g1, systolic, diastolic, heartRate, weight, height)
         <= RiskScore(age, pregnancy, g2, systolic, diastolic, heartRate, weight, height)
  {
    GlucoseRiskMonotone(g1, g2);
  }

  /** `1 if random.random() < 0.15 and age < 45 else 0`. */
  function PregnancyFlag(roll: real, age: int): (pregnancy: nat)
    ensures pregnancy == 0 || pregnancy == 1
    ensures pregnancy == 1 ==> age < 45
  {
    if roll < 0.15 && age < 45 then 1 else 0
  }

  /** The extra 0.1 for a pregnancy past 35 can only fall on ages 36..44. */
  lemma LatePregnancyAges(roll: real, age: int)
    requires PregnancyRisk(PregnancyFlag(roll, age), age) == 25
    ensures 36 <= age <= 44
  {
  }

  datatype RiskDraw = RiskDraw(
    age: nat, pregnancyRoll: real, glucose: nat, systolic: nat, diastolic: nat,
    heartRate: nat, weight: nat, height: nat)

  datatype RiskRow = RiskRow(
    age: int, pregnancy: nat, glucose: int, systolic: int, diastolic: int,
    heartRate: int, weight: int, height: int,
    bmi: int,         // weight / (height/100)^2 in hundredths, rounded half-even over exact reals
    riskScore: nat)   // round(risk_score, 2), in hundredths

  /** One row of the risk dataset. */
  function RiskRowOf(draw: RiskDraw): (row: RiskRow)
    ensures 18 <= row.age <= 80 && 70 <= row.glucose <= 250
    ensures 150 <= row.height <= 190 && 45 <= row.weight <= 120
    ensures row.pregnancy == 1 ==> row.age < 45
    ensures row.riskScore <= 100
    ensures row.riskScore == RiskScore(row.age, row.pregnancy, row.glucose, row.systolic, row.diastolic,
                                       row.heartRate, row.weight, row.height)
  {
    var age := Pick(Range(18, 80), draw.age);
    var pregnancy := PregnancyFlag(draw.pregnancyRoll, age);
    var glucose := Pick(Range(70, 250), draw.glucose);
    var systolic := Pick(Range(90, 190), draw.systolic);
    var diastolic := Pick(Range(60, 120), draw.diastolic);
    var heartRate := Pick(Range(55, 120), draw.heartRate);
    var weight := Pick(Range(45, 120), draw.weight);
    var height := Pick(Range(150, 190), draw.height);
    var bmi := RoundHundredths(weight as real / ((height as real / 100.0) * (height as real / 100.0)));
    RiskRow(age, pregnancy, glucose, systolic, diastolic, heartRate, weight, height, bmi,
      RiskScore(age, pregnancy, glucose, systolic, diastolic, heartRate, weight, height))
  }

  /** The row as the dataset file stores it. */
  function RiskRecord(row: RiskRow): Record {
    map[
      "age" := Num(row.age as real),
      "pregnancy" := Num(row.pregnancy as real),
      "glucose" := Num(row.glucose as real),
      "blood_pressure_systolic" := Num(row.systolic as real),
      "blood_pressure_diastolic" := Num(row.diastolic as real),
      "heart_rate" := Num(row.heartRate as real),
      "weight" := Num(row.weight as real),
      "height" := Num(row.height as real),
      "bmi" := Num(row.bmi as real / 100.0),
      "risk_score" := Num(row.riskScore as real / 100.0)
    ]
  }

  // ---------------------------------------------------------------------
  // The show-up rule

  function DistancePenalty(distance: int): nat {
    if distance > 3000 then 20 else if distance > 1500 then 10 else 0
  }

  function WeatherPenalty(weather: string): nat {
    if weather == "rainy" then 15 else 0
  }

  function HistoryPenalty(previousNoShows: int): nat {
    if previousNoShows > 2 then 20 else if previousNoShows > 0 then 10 else 0
  }

  function SmsBonus(smsSent: bool): nat {
    if smsSent then 15 else 0
  }

  /** The show-up probability before the clamp: 0.8 adjusted by distance,
      rain, earlier no-shows and a reminder; it already lies in
      [0.25, 0.95]. */
  function RawShowProbability(distance: int, weather: string, previousNoShows: int, smsSent: bool): (p: int)
    ensures 25 <= p <= 95
  {
    80 - DistancePenalty(distance) - WeatherPenalty(weather) - HistoryPenalty(previousNoShows) + SmsBonus(smsSent)
  }

  /** `max(0.1, min(0.95, p))`. */
  function Clamp(p: int): (c: int)
    ensures 10 <= c <= 95
    ensures 10 <= p <= 95 ==> c == p
  {
    if p > 95 then 95 else if p < 10 then 10 else p
  }

  /** The show-up probability used to draw `did_come`, in hundredths. */
  function ShowProbability(distance: int, weather: string, previousNoShows: int, smsSent: bool): (p: int)
    ensures 10 <= p <= 95
    ensures p == RawShowProbability(distance, weather, previousNoShows, smsSent)
  {
    Clamp(RawShowProbability(distance, weather, previousNoShows, smsSent))
  }

  /** Farther away never raises the probability. */
  lemma ShowProbabilityFallsWithDistance(d1: int, d2: int, weather: string, previousNoShows: int, smsSent: bool)
    requires d1 <= d2
    ensures ShowProbability(d2, weather, previousNoShows, smsSent) <= ShowProbability(d1, weather, previousNoShows, smsSent)
  {
  }

  /** More earlier no-shows never raise the probability. */
  lemma ShowProbabilityFallsWithHistory(distance: int, weather: string, n1: int, n2: int, smsSent: bool)
    requires n1 <= n2
    ensures ShowProbability(distance, weather, n2, smsSent) <= ShowProbability(distance, weather, n1, smsSent)
  {
  }

  /** Rain costs exactly 0.15; any other weather costs nothing. */
  lemma RainCostsFifteen(distance: int, weather: string, previousNoShows: int, smsSent: bool)
    requires weather != "rainy"
    ensures ShowProbability(distance, "rainy", previousNoShows, smsSent)
         == ShowProbability(distance, weather, previousNoShows, smsSent) - 15
  {
  }

  /** A reminder SMS adds exactly 0.15. */
  lemma SmsAddsFifteen(distance: int, weather: string, previousNoShows: int)
    ensures ShowProbability(distance, weather, previousNoShows, true)
         == ShowProbability(distance, weather, previousNoShows, false) + 15
  {
  }

  datatype AppointmentDraw = AppointmentDraw(
    dayOffset: nat, distance: nat, weather: nat, previousNoShows: nat, sms: nat, comeRoll: real)

  datatype AppointmentRow = AppointmentRow(
    patientId: string, dayOffset: int, distance: int, weather: string,
    previousNoShows: int, smsSent: nat, didCome: nat)

  /** Row `index` (counted from 0) of the no-show dataset. */
  function AppointmentRowOf(index: nat, draw: AppointmentDraw): (row: AppointmentRow)
    ensures row.patientId == RecordIds.FormatId(RecordIds.PatientPrefix, index + 1)
    ensures 0 <= row.dayOffset <= 365 && 50 <= row.distance <= 5000
    ensures row.weather in {"sunny", "rainy", "cloudy"}
    ensures 0 <= row.previousNoShows <= 5
    ensures row.smsSent == 0 || row.smsSent == 1
    ensures row.didCome == 1 <==>
      draw.comeRoll < ShowProbability(row.distance, row.weather, row.previousNoShows, row.smsSent == 1) as real / 100.0
  {
    var distance := Pick(Range(50, 5000), draw.distance);
    var weather := Choice(["sunny", "rainy", "cloudy"], draw.weather);
    var previousNoShows := Pick(Range(0, 5), draw.previousNoShows);
    var smsSent := Choice([0, 1], draw.sms);
    var p := ShowProbability(distance, weather, previousNoShows, smsSent == 1);
    AppointmentRow(RecordIds.FormatId(RecordIds.PatientPrefix, index + 1), Pick(Range(0, 365), draw.dayOffset),
      distance, weather, previousNoShows, smsSent,
      if draw.comeRoll < p as real / 100.0 then 1 else 0)
  }

  /** The row as the dataset file stores it. */
  function AppointmentRecord(row: AppointmentRow): Record {
    map[
      "patient_id" := Text(row.patientId),
      "distance_from_hospital" := Num(row.distance as real / 100.0),
      "weather_condition" := Text(row.weather),
      "previous_no_shows" := Num(row.previousNoShows as real),
      "sms_sent" := Num(row.smsSent as real),
      "did_come" := Num(row.didCome as real)
    ]
  }
}
