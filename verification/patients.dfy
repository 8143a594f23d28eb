/** Patients (patients/models.py, patients/views.py, patients/api_views.py):
    the patient record with its generated ID, age and full name, the list
    search, the disease prediction attached to a new medical history, and
    the two prediction endpoints. The vectors these sites build differ from
    the ones the models were trained on; each site has a corrected variant
    that goes through the predictors instead. */
module Patients {
  import opened Outcomes
  import opened Text
  import opened Records
  import opened Estimators
  import opened Tiers
  import Queries
  import RecordIds
  import Training
  import Serving

  // ---------------------------------------------------------------------
  // Dates and age

  datatype Date = Date(year: int, month: int, day: int)

  /** Whether `year` is a leap year of the Gregorian calendar. */
  predicate LeapYear(year: int) {
    year % 4 == 0 && (year % 100 != 0 || year % 400 == 0)
  }

  function DaysInMonth(year: int, month: int): (n: int)
    requires 1 <= month <= 12
    ensures 28 <= n <= 31
    ensures month == 2 ==> (n == 29 <==> LeapYear(year))
  {
    if month == 2 then (if LeapYear(year) then 29 else 28)
    else if month in {4, 6, 9, 11} then 30
    else 31
  }

  /** A date Python's `date(year, month, day)` accepts. */
  predicate ValidDate(d: Date) {
    1 <= d.year <= 9999 && 1 <= d.month <= 12 && 1 <= d.day <= DaysInMonth(d.year, d.month)
  }

  /** The calendar text `YYYY-MM-DD` of a date, as a date input posts it. */
  function IsoDate(d: Date): (s: string)
    requires ValidDate(d)
  {
    ZeroPad(d.year, 4) + "-" + ZeroPad(d.month, 2) + "-" + ZeroPad(d.day, 2)
  }

  /** How a `DateField` lookup reads a text value: four digits, a dash, one
      or two digits, a dash and one or two digits, naming a day that exists;
      any other text is a validation error. */
  function ParseIsoDate(s: string): (r: Result<Date>)
    ensures r.Ok? ==> ValidDate(r.value)
    ensures r.Ok? ==> 8 <= |s| <= 10 && AllDigits(s[..4]) && s[4] == '-' && r.value.year == ValueOf(s[..4])
    ensures r.Err? ==> r.fault == InvalidDate(s)
  {
    if |s| < 8 || !AllDigits(s[..4]) || s[4] != '-' then Err(InvalidDate(s))
    else
      var rest := s[5..];
      match IndexOf(rest, '-')
      case None => Err(InvalidDate(s))
      case Some(i) =>
        var month := rest[..i];
        var day := rest[i + 1..];
        if 1 <= |month| <= 2 && 1 <= |day| <= 2 && AllDigits(month) && AllDigits(day)
           && ValidDate(Date(ValueOf(s[..4]), ValueOf(month), ValueOf(day)))
        then Ok(Date(ValueOf(s[..4]), ValueOf(month), ValueOf(day)))
        else Err(InvalidDate(s))
  }

  /** Text of the parser's shape reads as the date its three numbers name,
      when that day exists, and is rejected otherwise. */
  lemma ParseIsoDateParts(y: string, m: string, d: string)
    requires |y| == 4 && 1 <= |m| <= 2 && 1 <= |d| <= 2
    requires AllDigits(y) && AllDigits(m) && AllDigits(d)
    ensures var date := Date(ValueOf(y), ValueOf(m), ValueOf(d));
            ParseIsoDate(y + "-" + m + "-" + d)
            == if ValidDate(date) then Ok(date) else Err(InvalidDate(y + "-" + m + "-" + d))
  {
    var s := y + "-" + m + "-" + d;
    assert s[..4] == y && s[4] == '-';
    var rest := s[5..];
    assert rest == m + "-" + d;
    assert rest[..|m|] == m && rest[|m|] == '-' && rest[|m| + 1..] == d;
    assert IndexOf(rest, '-') == Some(|m|) by {
      assert !IsDigit('-');
    }
  }

  /** Every date from year 1000 on reads back from its calendar text. */
  lemma IsoDateRoundTrip(d: Date)
    requires ValidDate(d) && d.year >= 1000
    ensures ParseIsoDate(IsoDate(d)) == Ok(d)
  {
    ZeroPadWidth(d.year, 4);
    ZeroPadWidth(d.month, 2);
    ZeroPadWidth(d.day, 2);
    ParseIsoDateParts(ZeroPad(d.year, 4), ZeroPad(d.month, 2), ZeroPad(d.day, 2));
  }

  /** A month or day out of range, and text that is no date at all, are
      rejected. */
  lemma MalformedDatesRejected()
    ensures ParseIsoDate("2024-13-45").Err? && ParseIsoDate("abc").Err?
  {
    var u := "2024-13-45";
    assert u[5..] == "13-45";
    assert IndexOf("13-45", '-') == Some(2);
    assert "13-45"[..2] == "13" && "13"[..1] == "1";
    assert ValueOf("13") == 13;
  }

  /** The 29th of February reads exactly in a leap year. */
  lemma LeapDayParses(y: string)
    requires |y| == 4 && AllDigits(y)
    ensures ParseIsoDate(y + "-02-29").Ok? <==> ValueOf(y) >= 1 && LeapYear(ValueOf(y))
  {
    LeapDayDigits();
    ParseIsoDateParts(y, "02", "29");
    LeapDayText(y);
    ValueOfBound(y);
    assert Pow10(4) == 10000;
    assert ValidDate(Date(ValueOf(y), 2, 29)) <==> 1 <= ValueOf(y) && LeapYear(ValueOf(y));
  }

  /** The leap-day text is the year followed by its month and day parts. */
  lemma LeapDayText(y: string)
    ensures y + "-" + "02" + "-" + "29" == y + "-02-29"
  {
  }

  /** The month and day of the leap day as the parser reads them. */
  lemma LeapDayDigits()
    ensures ValueOf("02") == 2 && ValueOf("29") == 29
  {
    assert "02"[..1] == "0" && "29"[..1] == "2";
  }




  /** Python's comparison of `(month, day)` pairs. */
  predicate DayBefore(m1: int, d1: int, m2: int, d2: int) {
    m1 < m2 || (m1 == m2 && d1 < d2)
  }

  /** Calendar order. */
  predicate Before(a: Date, b: Date) {
    a.year < b.year || (a.year == b.year && DayBefore(a.month, a.day, b.month, b.day))
  }

  /** The day someone born on `birth` turns `k`. */
  function Anniversary(birth: Date, k: int): Date {
    Date(birth.year + k, birth.month, birth.day)
  }

  /** `Patient.age` on the day `today` (the source reads the clock): the
      number of birthdays that have come, so the age-th birthday is not
      after today and the next one is. */
  function Age(birth: Date, today: Date): (age: int)
    ensures !Before(today, Anniversary(birth, age))
    ensures Before(today, Anniversary(birth, age + 1))
  {
    today.year - birth.year - (if DayBefore(today.month, today.day, birth.month, birth.day) then 1 else 0)
  }

  /** Those two facts pin the age down: it is the only such count. */
  lemma AgeIsUnique(birth: Date, today: Date, k: int)
    requires !Before(today, Anniversary(birth, k)) && Before(today, Anniversary(birth, k + 1))
    ensures Age(birth, today) == k
  {
  }

  /** Nobody born on or before today has a negative age. */
  lemma AgeNonNegative(birth: Date, today: Date)
    requires !Before(today, birth)
    ensures Age(birth, today) >= 0
  {
    assert Anniversary(birth, 0) == birth;
  }

  /** The age rises by exactly one on each birthday: the day before it
      (any day after the previous birthday) the patient is one year
      younger. */
  lemma AgeRisesOnBirthday(birth: Date, k: int, before: Date)
    requires Before(before, Anniversary(birth, k)) && !Before(before, Anniversary(birth, k - 1))
    ensures Age(birth, Anniversary(birth, k)) == k
    ensures Age(birth, before) == k - 1
  {
    AgeIsUnique(birth, Anniversary(birth, k), k);
    AgeIsUnique(birth, before, k - 1);
  }

  /** Age never decreases as time goes on. */
  lemma AgeMonotone(birth: Date, t1: Date, t2: Date)
    requires !Before(t2, t1)
    ensures Age(birth, t1) <= Age(birth, t2)
  {
  }

  // ---------------------------------------------------------------------
  // The patient record

  const GenderChoices: seq<string> := ["M", "F"]

  datatype Patient = Patient(
    pk: nat, patientId: string, firstName: string, lastName: string,
    dateOfBirth: Date, gender: string, phone: string)

  /** `full_name`: first name, one space, last name. */
  function FullName(p: Patient): (name: string)
    ensures |name| == |p.firstName| + 1 + |p.lastName|
    ensures name[..|p.firstName|] == p.firstName && name[|p.firstName|] == ' '
    ensures name[|p.firstName| + 1..] == p.lastName
  {
    p.firstName + " " + p.lastName
  }

  /** A first name without spaces can be read back off the full name: it is
      the first space-separated piece and the rest is the last name. */
  lemma FullNameSplits(p: Patient)
    requires ' ' !in p.firstName
    ensures |Split(FullName(p), ' ')| >= 2
    ensures Split(FullName(p), ' ')[0] == p.firstName
    ensures Join(Split(FullName(p), ' ')[1..], ' ') == p.lastName
  {
    assert FullName(p) == p.firstName + [' '] + p.lastName;
    SplitFront(p.firstName, ' ', p.lastName);
    JoinSplit(p.lastName, ' ');
    assert Split(FullName(p), ' ')[1..] == Split(p.lastName, ' ');
  }

  /** `Patient.save()`: a patient without an ID gets the next `PAT-` ID
      after the most recently created patient's (`last`); nothing else
      about the patient changes, and a patient with an ID keeps it. */
  function SavePatient(p: Patient, last: Option<string>): (r: Result<Patient>)
    ensures r.Ok? ==> r.value == p.(patientId := r.value.patientId)
    ensures p.patientId != "" ==> r == Ok(p)
    ensures p.patientId == "" && last.None? ==> r == Ok(p.(patientId := "PAT-000001"))
    ensures p.patientId == "" && last.Some? ==> (r.Ok? <==> RecordIds.IdNumber(last.value).Ok?)
    ensures p.patientId == "" && last.Some? && r.Ok? ==>
      RecordIds.IdNumber(r.value.patientId) == Ok(RecordIds.IdNumber(last.value).value + 1)
  {
    RecordIds.FirstId(RecordIds.PatientPrefix);
    assert RecordIds.PatientPrefix + "-000001" == "PAT-000001";
    var id :- RecordIds.AssignId(p.patientId, RecordIds.PatientPrefix, last);
    Ok(p.(patientId := id))
  }

  // ---------------------------------------------------------------------
  // Search

  /** `field__icontains=query`: a substring match ignoring ASCII case. */
  predicate IContains(field: string, query: string) {
    Contains(Lower(field), Lower(query))
  }

  predicate MatchesQuery(p: Patient, query: string) {
    IContains(p.patientId, query) || IContains(p.firstName, query)
    || IContains(p.lastName, query) || IContains(p.phone, query)
  }

  /** `patient_list`: with a non-empty query, the patients whose ID, first
      name, last name or phone contains it; with none, every patient. */
  function Search(patients: seq<Patient>, query: string): (r: seq<Patient>)
    ensures forall p :: p in r <==> p in patients && (query == "" || MatchesQuery(p, query))
  {
    if query == "" then patients else Queries.Filter(patients, p => MatchesQuery(p, query))
  }

  /** The empty query matches every patient, so skipping the filter for it
      gives the same list as filtering. */
  lemma SearchIsFilter(patients: seq<Patient>, query: string)
    ensures Search(patients, query) == Queries.Filter(patients, p => MatchesQuery(p, query))
  {
    if query == "" {
      forall p | p in patients
        ensures MatchesQuery(p, query)
      {
        assert Lower(query) == [];
        assert Lower(query) <= Lower(p.patientId);
      }
      Queries.FilterKeepsAll(patients, p => MatchesQuery(p, query));
    }
  }

  /** The search keeps the list's order: it works patient by patient. */
  lemma SearchKeepsOrder(a: seq<Patient>, b: seq<Patient>, query: string)
    ensures Search(a + b, query) == Search(a, query) + Search(b, query)
  {
    SearchIsFilter(a + b, query);
    SearchIsFilter(a, query);
    SearchIsFilter(b, query);
    Queries.FilterAppend(a, b, p => MatchesQuery(p, query));
  }

  /** Typing more narrows the result: searching the results of a query
      with a longer query containing it gives what the longer query gives
      on the whole list. */
  lemma LongerQueryNarrows(patients: seq<Patient>, short: string, long: string)
    requires Contains(long, short)
    ensures Search(Search(patients, short), long) == Search(patients, long)
  {
    SearchIsFilter(patients, short);
    SearchIsFilter(Search(patients, short), long);
    SearchIsFilter(patients, long);
    LowerKeepsContains(long, short);
    forall p: Patient | MatchesQuery(p, long)
      ensures MatchesQuery(p, short)
    {
      if IContains(p.patientId, long) {
        ContainsTransitive(Lower(p.patientId), Lower(long), Lower(short));
      } else if IContains(p.firstName, long) {
        ContainsTransitive(Lower(p.firstName), Lower(long), Lower(short));
      } else if IContains(p.lastName, long) {
        ContainsTransitive(Lower(p.lastName), Lower(long), Lower(short));
      } else {
        ContainsTransitive(Lower(p.phone), Lower(long), Lower(short));
      }
    }
    Queries.FilterChain(patients, p => MatchesQuery(p, short), p => MatchesQuery(p, long),
      p => MatchesQuery(p, long));
  }

  // ---------------------------------------------------------------------
  // Medical history and its disease prediction

  datatype MedicalHistory = MedicalHistory(
    patientPk: nat, diagnosis: string,
    bloodPressure: string,           // as typed, e.g. "140/90"; blank allowed
    temperature: Option<real>, glucoseLevel: Option<real>,
    predictedDisease: string)

  /** `1 if patient.gender == 'M' else 0`. */
  function GenderFlag(gender: string): (flag: real)
    ensures flag == 1.0 <==> gender == "M"
    ensures flag == 0.0 <==> gender != "M"
  {
    if gender == "M" then 1.0 else 0.0
  }

  /** The views code gender as the disease predictor does. */
  lemma GenderFlagMatchesPredictor(gender: string)
    ensures Serving.GenderCode(map["gender" := Text(gender)]) == Ok(GenderFlag(gender))
  {
  }

  /** `float(bp.split('/')[0]) if bp else 120`: the systolic reading, the
      text before the first slash. */
  function Systolic(bloodPressure: string): (r: Result<real>)
    ensures bloodPressure == "" ==> r == Ok(120.0)
    ensures bloodPressure != "" && '/' !in bloodPressure ==> r == ParseDecimal(bloodPressure)
    ensures IndexOf(bloodPressure, '/').Some? ==>
      r == ParseDecimal(bloodPressure[..IndexOf(bloodPressure, '/').value])
  {
    if bloodPressure == "" then Ok(120.0)
    else
      match IndexOf(bloodPressure, '/')
      case Some(i) => SplitAt(bloodPressure, '/', i); ParseDecimal(Split(bloodPressure, '/')[0])
      case None => ParseDecimal(Split(bloodPressure, '/')[0])
  }

  /** A reading written `systolic/diastolic` gives its systolic number. */
  lemma SystolicOfReading(systolic: nat, diastolic: nat)
    ensures Systolic(Digits(systolic) + "/" + Digits(diastolic)) == Ok(systolic as real)
  {
    var s := Digits(systolic);
    ValueOfDigits(systolic);
    assert '/' !in s;
    assert s + "/" + Digits(diastolic) == s + ['/'] + Digits(diastolic);
    SplitFront(s, '/', Digits(diastolic));
  }

  /** `float(x) if x else d`: a blank value and a zero both count as
      missing. */
  function OrDefault(x: Option<real>, d: real): (r: real)
    ensures x.Some? && x.value != 0.0 ==> r == x.value
    ensures x.None? || x.value == 0.0 ==> r == d
  {
    if x.Some? && x.value != 0.0 then x.value else d
  }

  /** The features `add_medical_history` builds: age, gender flag,
      systolic, glucose and temperature, with 120, 100 and 37 for blanks. */
  function HistoryVector(p: Patient, h: MedicalHistory, today: Date): (r: Result<seq<real>>)
    ensures r.Ok? <==> Systolic(h.bloodPressure).Ok?
    ensures r.Ok? ==> |r.value| == 5
    ensures r.Ok? ==> r.value[0] == Age(p.dateOfBirth, today) as real && r.value[1] == GenderFlag(p.gender)
    ensures r.Ok? ==> r.value[2] == Systolic(h.bloodPressure).value
    ensures r.Ok? ==> r.value[3] == OrDefault(h.glucoseLevel, 100.0) && r.value[4] == OrDefault(h.temperature, 37.0)
  {
    var systolic :- Systolic(h.bloodPressure);
    Ok([Age(p.dateOfBirth, today) as real, GenderFlag(p.gender), systolic,
        OrDefault(h.glucoseLevel, 100.0), OrDefault(h.temperature, 37.0)])
  }

  /** The five features are neither as many nor in the places of the
      thirteen the disease model was trained on: the second trained column
      is a symptom flag, not the gender. */
  lemma HistoryVectorMisfits(p: Patient, h: MedicalHistory, today: Date)
    requires HistoryVector(p, h, today).Ok?
    ensures |HistoryVector(p, h, today).value| != |Training.DiseaseModelColumns|
    ensures Training.DiseaseModelColumns[1] == "fever" && Training.DiseaseModelColumns[12] == "gender_encoded"
  {
    Training.ModelWidths();
  }

  /** The prediction the view attempts; the model file is `Absent` when it
      does not exist and `Unreadable` when loading it raises. */
  function HistoryPrediction(p: Patient, h: MedicalHistory, today: Date, model: Artifact<Classifier<string>>): (r: Result<string>)
    ensures r.Ok? <==> model.Stored? && HistoryVector(p, h, today).Ok? && Predict(model.model, HistoryVector(p, h, today).value).Ok?
    ensures r.Ok? ==> r == Predict(model.model, HistoryVector(p, h, today).value)
  {
    var m :- Load(model);
    var x :- HistoryVector(p, h, today);
    Predict(m, x)
  }

  /** `add_medical_history` once the form is valid: the history is saved
      whatever happens; only a successful prediction sets
      `predicted_disease`, and any failure is swallowed. */
  function AddMedicalHistory(p: Patient, h: MedicalHistory, today: Date, model: Artifact<Classifier<string>>): (saved: MedicalHistory)
    ensures saved == h.(predictedDisease := saved.predictedDisease)
    ensures HistoryPrediction(p, h, today, model).Ok? ==> saved.predictedDisease == HistoryPrediction(p, h, today, model).value
    ensures HistoryPrediction(p, h, today, model).Err? ==> saved == h
  {
    match HistoryPrediction(p, h, today, model)
    case Ok(disease) => h.(predictedDisease := disease)
    case Err(_) => h
  }

  /** As written: with the trained disease model, which expects thirteen
      features, the prediction always fails and the saved history never
      gets a predicted disease. */
  lemma HistoryPredictionNeverSet(p: Patient, h: MedicalHistory, today: Date, m: Classifier<string>)
    requires m.nFeatures == |Training.DiseaseModelColumns|
    ensures HistoryPrediction(p, h, today, Stored(m)).Err?
    ensures AddMedicalHistory(p, h, today, Stored(m)) == h
  {
    Training.ModelWidths();
  }

  /** `bp.split('/')[1]`: the diastolic reading after the slash. */
  function Diastolic(bloodPressure: string): (r: Result<real>)
    ensures '/' !in bloodPressure ==> r.Err?
  {
    var parts := Split(bloodPressure, '/');
    if |parts| < 2 then Err(IndexOutOfRange(1)) else ParseDecimal(parts[1])
  }

  /** The record the disease predictor reads, assembled from the patient,
      the form's vitals and the eight symptom flags (`symptoms`, keyed by
      the symptom names). */
  function HistoryRecord(p: Patient, h: MedicalHistory, today: Date, symptoms: Record): (r: Result<Record>)
    ensures r.Ok? <==> Systolic(h.bloodPressure).Ok? && Diastolic(h.bloodPressure).Ok?
    ensures r.Ok? ==> forall k :: k in symptoms && k !in HistoryKeys ==> k in r.value && r.value[k] == symptoms[k]
    ensures r.Ok? ==> "age" in r.value && r.value["age"] == Num(Age(p.dateOfBirth, today) as real)
    ensures r.Ok? ==> "gender" in r.value && r.value["gender"] == Text(p.gender)
  {
    var systolic :- Systolic(h.bloodPressure);
    var diastolic :- Diastolic(h.bloodPressure);
    Ok(symptoms + map[
      "age" := Num(Age(p.dateOfBirth, today) as real),
      "gender" := Text(p.gender),
      "blood_pressure_systolic" := Num(systolic),
      "blood_pressure_diastolic" := Num(diastolic),
      "glucose_level" := Num(OrDefault(h.glucoseLevel, 100.0))])
  }

  const HistoryKeys: set<string> :=
    {"age", "gender", "blood_pressure_systolic", "blood_pressure_diastolic", "glucose_level"}

  /** Corrected: the history's prediction goes through the disease
      predictor, so the model receives its thirteen trained columns. */
  function AddMedicalHistoryCorrected(p: Patient, h: MedicalHistory, today: Date,
                                      model: Artifact<Classifier<string>>, symptoms: Record): (saved: MedicalHistory)
    ensures saved == h.(predictedDisease := saved.predictedDisease)
    ensures HistoryRecord(p, h, today, symptoms).Ok? && Serving.PredictDisease(model, HistoryRecord(p, h, today, symptoms).value).Ok?
      ==> saved.predictedDisease == Serving.PredictDisease(model, HistoryRecord(p, h, today, symptoms).value).value.disease
    ensures HistoryRecord(p, h, today, symptoms).Err? ==> saved == h
  {
    match HistoryRecord(p, h, today, symptoms)
    case Err(_) => h
    case Ok(rec) =>
      match Serving.PredictDisease(model, rec)
      case Ok(result) => h.(predictedDisease := result.disease)
      case Err(_) => h
  }

  /** With the trained model, the corrected history never fails on the
      number of features: a complete record yields exactly the trained
      width. */
  lemma CorrectedHistoryFitsModel(p: Patient, h: MedicalHistory, today: Date, m: Classifier<string>, symptoms: Record)
    requires m.nFeatures == |Training.DiseaseModelColumns|
    requires HistoryRecord(p, h, today, symptoms).Ok?
    requires Serving.DiseaseVector(HistoryRecord(p, h, today, symptoms).value).Ok?
    ensures |Serving.DiseaseVector(HistoryRecord(p, h, today, symptoms).value).value| == m.nFeatures
    ensures !Serving.PredictDisease(Stored(m), HistoryRecord(p, h, today, symptoms).value).Err?
         || !Serving.PredictDisease(Stored(m), HistoryRecord(p, h, today, symptoms).value).fault.FeatureCount?
  {
    Training.ModelWidths();
  }

  // ---------------------------------------------------------------------
  // The prediction endpoints

  datatype DiseaseReply = DiseaseReply(patientId: string, predictedDisease: string, confidence: real)

  /** The features `predict_disease` builds from the patient and the
      request: age, gender flag, then blood pressure, glucose and
      temperature with defaults 120, 100 and 37. */
  function ApiDiseaseVector(p: Patient, data: Record, today: Date): (r: Result<seq<real>>)
    ensures r.Ok? <==> FloatOr(data, "blood_pressure", 120.0).Ok? && FloatOr(data, "glucose_level", 100.0).Ok?
                       && FloatOr(data, "temperature", 37.0).Ok?
    ensures r.Ok? ==> r.value == [Age(p.dateOfBirth, today) as real, GenderFlag(p.gender),
      FloatOr(data, "blood_pressure", 120.0).value, FloatOr(data, "glucose_level", 100.0).value,
      FloatOr(data, "temperature", 37.0).value]
  {
    var bp :- FloatOr(data, "blood_pressure", 120.0);
    var glucose :- FloatOr(data, "glucose_level", 100.0);
    var temperature :- FloatOr(data, "temperature", 37.0);
    Ok([Age(p.dateOfBirth, today) as real, GenderFlag(p.gender), bp, glucose, temperature])
  }

  /** `predict_disease`: a reply with the predicted class and the largest
      class probability, or (status 500) only the error. */
  function ApiPredictDisease(p: Patient, data: Record, today: Date, model: Artifact<Classifier<string>>): (r: Result<DiseaseReply>)
    ensures r.Ok? <==> model.Stored? && ApiDiseaseVector(p, data, today).Ok?
                       && Predict(model.model, ApiDiseaseVector(p, data, today).value).Ok?
    ensures r.Ok? ==> (
      var ps := model.model.proba(ApiDiseaseVector(p, data, today).value);
      && r.value.patientId == p.patientId
      && r.value.predictedDisease == Predict(model.model, ApiDiseaseVector(p, data, today).value).value
      && r.value.confidence in ps
      && forall k :: 0 <= k < |ps| ==> ps[k] <= r.value.confidence)
  {
    var m :- Load(model);
    var x :- ApiDiseaseVector(p, data, today);
    var disease :- Predict(m, x);
    var ps := m.proba(x);
    Ok(DiseaseReply(p.patientId, disease, Max(ps)))
  }

  /** The reported confidence is the probability of the predicted class. */
  lemma ApiConfidenceIsPredictedClass(p: Patient, data: Record, today: Date, m: Classifier<string>)
    requires ApiPredictDisease(p, data, today, Stored(m)).Ok?
    ensures ApiPredictDisease(p, data, today, Stored(m)).value.confidence
         == m.proba(ApiDiseaseVector(p, data, today).value)[ArgMax(m.proba(ApiDiseaseVector(p, data, today).value))]
  {
    var ps := m.proba(ApiDiseaseVector(p, data, today).value);
    MaxIsAtArgMax(ps);
  }

  /** As written: the trained disease model rejects the five features, so
      the endpoint always answers with an error. */
  lemma ApiDiseaseAlwaysFails(p: Patient, data: Record, today: Date, m: Classifier<string>)
    requires m.nFeatures == |Training.DiseaseModelColumns|
    ensures ApiPredictDisease(p, data, today, Stored(m)).Err?
  {
    Training.ModelWidths();
  }

  /** The request with the patient's age and gender added, as the disease
      predictor reads it. */
  function PatientRecord(p: Patient, data: Record, today: Date): (rec: Record)
    ensures "age" in rec && rec["age"] == Num(Age(p.dateOfBirth, today) as real)
    ensures "gender" in rec && rec["gender"] == Text(p.gender)
    ensures forall k :: k in data && k != "age" && k != "gender" ==> k in rec && rec[k] == data[k]
  {
    data + map["age" := Num(Age(p.dateOfBirth, today) as real), "gender" := Text(p.gender)]
  }

  /** Corrected: the endpoint answers with the disease predictor's result
      for the request completed by the patient's own age and gender. */
  function ApiPredictDiseaseCorrected(p: Patient, data: Record, today: Date, model: Artifact<Classifier<string>>): (r: Result<DiseaseReply>)
    ensures r.Ok? <==> Serving.PredictDisease(model, PatientRecord(p, data, today)).Ok?
    ensures r.Ok? ==> r.value.predictedDisease == Serving.PredictDisease(model, PatientRecord(p, data, today)).value.disease
    ensures r.Ok? ==> r.value.confidence == Serving.PredictDisease(model, PatientRecord(p, data, today)).value.confidence
  {
    var result :- Serving.PredictDisease(model, PatientRecord(p, data, today));
    Ok(DiseaseReply(p.patientId, result.disease, result.confidence))
  }

  /** With the trained model, the corrected endpoint never fails on the
      number of features. */
  lemma ApiDiseaseCorrectedFitsModel(p: Patient, data: Record, today: Date, m: Classifier<string>)
    requires m.nFeatures == |Training.DiseaseModelColumns|
    requires Serving.DiseaseVector(PatientRecord(p, data, today)).Ok?
    ensures ApiPredictDiseaseCorrected(p, data, today, Stored(m)).Ok?
        <==> Predict(m, Serving.DiseaseVector(PatientRecord(p, data, today)).value).Ok?
    ensures |Serving.DiseaseVector(PatientRecord(p, data, today)).value| == m.nFeatures
  {
    Training.ModelWidths();
  }

  datatype RiskReply = RiskReply(patientId: string, riskScore: real, riskLevel: string)

  /** The features `calculate_risk` builds: age, then pregnancy (as an
      integer), glucose, blood pressure, heart rate and weight with
      defaults 0, 100, 120, 75 and 70. */
  function ApiRiskVector(p: Patient, data: Record, today: Date): (r: Result<seq<real>>)
    ensures r.Ok? <==> (IntOr(data, "pregnancy", 0).Ok? && FloatOr(data, "glucose", 100.0).Ok?
      && FloatOr(data, "blood_pressure", 120.0).Ok? && FloatOr(data, "heart_rate", 75.0).Ok?
      && FloatOr(data, "weight", 70.0).Ok?)
    ensures r.Ok? ==> r.value == [Age(p.dateOfBirth, today) as real, IntOr(data, "pregnancy", 0).value as real,
      FloatOr(data, "glucose", 100.0).value, FloatOr(data, "blood_pressure", 120.0).value,
      FloatOr(data, "heart_rate", 75.0).value, FloatOr(data, "weight", 70.0).value]
  {
    var pregnancy :- IntOr(data, "pregnancy", 0);
    var glucose :- FloatOr(data, "glucose", 100.0);
    var bp :- FloatOr(data, "blood_pressure", 120.0);
    var heartRate :- FloatOr(data, "heart_rate", 75.0);
    var weight :- FloatOr(data, "weight", 70.0);
    Ok([Age(p.dateOfBirth, today) as real, pregnancy as real, glucose, bp, heartRate, weight])
  }

  /** `calculate_risk`: the unscaled features go straight to the
      regressor, and the score is banded with the shared tiers. */
  function ApiCalculateRisk(p: Patient, data: Record, today: Date, model: Artifact<Regressor>): (r: Result<RiskReply>)
    ensures r.Ok? <==> model.Stored? && ApiRiskVector(p, data, today).Ok?
                       && |ApiRiskVector(p, data, today).value| == model.model.nFeatures
    ensures r.Ok? ==> r.value.riskScore == model.model.predict(ApiRiskVector(p, data, today).value)
    ensures r.Ok? ==> r.value.riskLevel == TierName(TierOf(r.value.riskScore))
  {
    var m :- Load(model);
    var x :- ApiRiskVector(p, data, today);
    var score :- PredictValue(m, x);
    Ok(RiskReply(p.patientId, score, TierName(TierOf(score))))
  }

  /** As written: the trained risk model expects eight scaled features and
      rejects these six, so the endpoint always answers with an error. */
  lemma ApiRiskAlwaysFails(p: Patient, data: Record, today: Date, m: Regressor)
    requires m.nFeatures == |Training.RiskFeatureColumns|
    ensures ApiCalculateRisk(p, data, today, Stored(m)).Err?
  {
    Training.ModelWidths();
  }

  /** Corrected: the endpoint answers with the risk predictor's result,
      which scales the eight trained columns first. */
  function ApiCalculateRiskCorrected(p: Patient, data: Record, today: Date,
                                     model: Artifact<Regressor>, scaler: Artifact<Scaler>): (r: Result<RiskReply>)
    ensures r.Ok? <==> Serving.CalculateRisk(model, scaler, PatientRecord(p, data, today)).Ok?
    ensures r.Ok? ==> r.value.riskScore == Serving.CalculateRisk(model, scaler, PatientRecord(p, data, today)).value.riskScore
    ensures r.Ok? ==> r.value.riskLevel == TierName(TierOf(r.value.riskScore))
  {
    var result :- Serving.CalculateRisk(model, scaler, PatientRecord(p, data, today));
    Ok(RiskReply(p.patientId, result.riskScore, result.riskLevel))
  }

  /** With the trained model and a scaler of the same width, the corrected
      endpoint succeeds for every request carrying the risk columns. */
  lemma ApiRiskCorrectedSucceeds(p: Patient, data: Record, today: Date, m: Regressor, s: Scaler)
    requires m.nFeatures == |Training.RiskFeatureColumns|
    requires |s.mean| == |s.scale| == |Training.RiskFeatureColumns|
    requires Serving.RiskVector(PatientRecord(p, data, today)).Ok?
    ensures ApiCalculateRiskCorrected(p, data, today, Stored(m), Stored(s)).Ok?
  {
    Training.ModelWidths();
  }

  // ---------------------------------------------------------------------
  // History listing

  /** `MedicalHistoryViewSet.get_queryset`: without a `patient_id`
      parameter every history; with one, the histories of the patient with
      that primary key (a parameter that is not a number is an error). */
  function HistoriesFor(histories: seq<MedicalHistory>, patientParam: Option<string>): (r: Result<seq<MedicalHistory>>)
    ensures patientParam.None? || patientParam.value == "" ==> r == Ok(histories)
    ensures patientParam.Some? && patientParam.value != "" ==> (r.Ok? <==> ParseNat(patientParam.value).Ok?)
    ensures patientParam.Some? && patientParam.value != "" && r.Ok? ==>
      forall h :: h in r.value <==> h in histories && h.patientPk == ParseNat(patientParam.value).value
  {
    if patientParam.None? || patientParam.value == "" then Ok(histories)
    else
      var pk :- ParseNat(patientParam.value);
      Ok(Queries.Filter(histories, (h: MedicalHistory) => h.patientPk == pk))
  }

  /** Asking for a patient's key gives exactly that patient's histories,
      in stored order. */
  lemma HistoriesOfPatient(histories: seq<MedicalHistory>, pk: nat)
    ensures HistoriesFor(histories, Some(Digits(pk))) == Ok(Queries.Filter(histories, (h: MedicalHistory) => h.patientPk == pk))
  {
    ValueOfDigits(pk);
  }
}
