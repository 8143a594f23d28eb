/** The three predictors the application calls: each loads its persisted
    artefacts, builds an input row from a dict of named values, and turns
    the estimator's output into the dict the callers receive. */
module Serving {
  import opened Outcomes
  import opened Records
  import opened Estimators
  import opened Tiers
  import Training

  // ---------------------------------------------------------------------
  // Disease prediction

  /** The disease names the predictor pairs with the probability columns,
      in the order the dataset generator lists them. */
  const DiseaseNames: seq<string> := ["Malaria", "Typhoid", "TB", "Pneumonia", "Diabetes", "Hypertension"]

  /** The gender entry of the input row: 1 for exactly "M", 0 for anything
      else; a missing gender is a KeyError. */
  function GenderCode(data: Record): (r: Result<real>)
    ensures r.Ok? <==> "gender" in data
    ensures r.Ok? ==> (r.value == 1.0 <==> data["gender"] == Text("M"))
    ensures r.Ok? ==> r.value == 0.0 || r.value == 1.0
  {
    if "gender" !in data then Err(MissingKey("gender"))
    else if data["gender"] == Text("M") then Ok(1.0)
    else Ok(0.0)
  }

  /** The input row of the disease model: the twelve named values in the
      training column order, then the gender code. */
  function DiseaseVector(data: Record): (r: Result<seq<real>>)
    ensures r.Ok? <==> Select(data, Training.DiseaseFeatureColumns).Ok? && "gender" in data
    ensures r.Ok? ==> |r.value| == 13
    ensures r.Ok? ==> forall k :: 0 <= k < 12 ==> r.value[k] == data[Training.DiseaseFeatureColumns[k]].n
    ensures r.Ok? ==> r.value[12] == GenderCode(data).value
  {
    var base :- Select(data, Training.DiseaseFeatureColumns);
    var gender :- GenderCode(data);
    Ok(base + [gender])
  }

  /** The disease row is the selected values followed by the gender code. */
  lemma DiseaseVectorParts(data: Record)
    requires DiseaseVector(data).Ok?
    ensures DiseaseVector(data).value == Select(data, Training.DiseaseFeatureColumns).value + [GenderCode(data).value]
  {
  }

  predicate Distinct(keys: seq<string>) {
    forall i, j :: 0 <= i < j < |keys| ==> keys[i] != keys[j]
  }

  /** `{k: v for k, v in zip(keys, values)}`: pairs up to the shorter of
      the two sequences; a repeated key keeps its last value. */
  function Zip(keys: seq<string>, values: seq<real>): (m: map<string, real>)
    ensures forall k :: k in m <==> exists i :: 0 <= i < |keys| && i < |values| && keys[i] == k
    ensures Distinct(keys) ==> forall i :: 0 <= i < |keys| && i < |values| ==> keys[i] in m && m[keys[i]] == values[i]
  {
    if |keys| == 0 || |values| == 0 then map[]
    else
      var rest := Zip(keys[1..], values[1..]);
      assert forall k :: k in rest <==> exists i :: 1 <= i < |keys| && i < |values| && keys[i] == k by {
        forall k | k in rest
          ensures exists i :: 1 <= i < |keys| && i < |values| && keys[i] == k
        {
          var i :| 0 <= i < |keys[1..]| && i < |values[1..]| && keys[1..][i] == k;
          assert keys[i + 1] == k;
        }
        forall k | exists i :: 1 <= i < |keys| && i < |values| && keys[i] == k
          ensures k in rest
        {
          var i :| 1 <= i < |keys| && i < |values| && keys[i] == k;
          assert keys[1..][i - 1] == k;
        }
      }
      if keys[0] in rest then rest else rest[keys[0] := values[0]]
  }

  datatype DiseaseResult = DiseaseResult(disease: string, confidence: real, allProbabilities: map<string, real>)

  /** `DiseasePrediction().predict(data)`: the predicted class, the largest
      probability, and the probabilities keyed by the generator's disease
      list (paired by position with the classifier's columns). */
  function PredictDisease(artifact: Artifact<Classifier<string>>, data: Record): (r: Result<DiseaseResult>)
    ensures r.Ok? <==> artifact.Stored? && DiseaseVector(data).Ok? && Predict(artifact.model, DiseaseVector(data).value).Ok?
    ensures r.Ok? ==> (
      var m := artifact.model;
      var ps := m.proba(DiseaseVector(data).value);
      && |ps| > 0 && ArgMax(ps) < |m.classes|
      && r.value.disease == m.classes[ArgMax(ps)]
      && r.value.confidence == ps[ArgMax(ps)]
      && r.value.allProbabilities == Zip(DiseaseNames, ps))
    ensures artifact.Stored? && DiseaseVector(data).Ok? && |DiseaseVector(data).value| != artifact.model.nFeatures
      ==> r == Err(FeatureCount(|DiseaseVector(data).value|, artifact.model.nFeatures))
  {
    var m :- Load(artifact);
    var x :- DiseaseVector(data);
    var predicted :- Predict(m, x);
    var ps := m.proba(x);
    MaxIsAtArgMax(ps);
    Ok(DiseaseResult(predicted, Max(ps), Zip(DiseaseNames, ps)))
  }

  /** The probabilities keyed by the classifier's own classes, which is the
      pairing the columns actually have. */
  function LabelledProbabilities(m: Classifier<string>, ps: seq<real>): (probs: map<string, real>)
    requires |ps| == |m.classes|
    ensures forall c :: c in probs <==> c in m.classes
    ensures Distinct(m.classes) ==> forall k :: 0 <= k < |m.classes| ==> probs[m.classes[k]] == ps[k]
  {
    Zip(m.classes, ps)
  }

  /** The disease prediction with each probability keyed by its own
      class. */
  function PredictDiseaseLabelled(artifact: Artifact<Classifier<string>>, data: Record): (r: Result<DiseaseResult>)
    ensures r.Ok? <==> artifact.Stored? && DiseaseVector(data).Ok? && Predict(artifact.model, DiseaseVector(data).value).Ok?
                       && |artifact.model.proba(DiseaseVector(data).value)| == |artifact.model.classes|
    ensures r.Ok? ==> (
      var m := artifact.model;
      var ps := m.proba(DiseaseVector(data).value);
      && |ps| == |m.classes| > 0
      && r.value.disease == m.classes[ArgMax(ps)]
      && r.value.confidence == ps[ArgMax(ps)]
      && r.value.allProbabilities == LabelledProbabilities(m, ps))
    ensures r.Ok? ==> r.value.disease in r.value.allProbabilities
  {
    var m :- Load(artifact);
    var x :- DiseaseVector(data);
    var predicted :- Predict(m, x);
    var ps := m.proba(x);
    if |ps| != |m.classes| then Err(IndexOutOfRange(|m.classes|))
    else
      MaxIsAtArgMax(ps);
      Ok(DiseaseResult(predicted, Max(ps), LabelledProbabilities(m, ps)))
  }

  // ---------------------------------------------------------------------
  // Risk scoring

  /** The values `calculate_risk` substitutes for absent keys. */
  const RiskDefaults: map<string, Value> := map["pregnancy" := Num(0.0), "bmi" := Num(25.0)]

  /** The input dict with `.get(key, default)` applied: present keys keep
      their value, absent keys with a default take it. */
  function WithDefaults(data: Record, defaults: map<string, Value>): (full: Record)
    ensures forall k :: k in data ==> k in full && full[k] == data[k]
    ensures forall k :: k !in data && k in defaults ==> k in full && full[k] == defaults[k]
    ensures forall k :: k in full ==> k in data || k in defaults
  {
    map k | k in data.Keys + defaults.Keys :: if k in data then data[k] else defaults[k]
  }

  /** Selecting columns after `.get(key, default)`: a column is read from
      the input when present and from the defaults otherwise. */
  lemma SelectWithDefaults(data: Record, defaults: map<string, Value>, columns: seq<string>)
    requires forall c :: c in defaults ==> defaults[c].Num?
    ensures Select(WithDefaults(data, defaults), columns).Ok? <==> forall k :: 0 <= k < |columns| ==>
      if columns[k] in data then data[columns[k]].Num? else columns[k] in defaults
    ensures Select(WithDefaults(data, defaults), columns).Ok? ==> forall k :: 0 <= k < |columns| ==>
      Select(WithDefaults(data, defaults), columns).value[k]
      == if columns[k] in data then data[columns[k]].n else defaults[columns[k]].n
  {
  }

  /** The input row of the risk model, in the training column order;
      pregnancy defaults to 0 and BMI to 25. */
  function RiskVector(data: Record): (r: Result<seq<real>>)
    ensures r.Ok? <==> forall k :: 0 <= k < |Training.RiskFeatureColumns| ==>
      if Training.RiskFeatureColumns[k] in data then data[Training.RiskFeatureColumns[k]].Num?
      else Training.RiskFeatureColumns[k] in RiskDefaults
    ensures r.Ok? ==> |r.value| == |Training.RiskFeatureColumns|
    ensures r.Ok? ==> forall k :: 0 <= k < |Training.RiskFeatureColumns| ==>
      r.value[k] == if Training.RiskFeatureColumns[k] in data then data[Training.RiskFeatureColumns[k]].n
                    else RiskDefaults[Training.RiskFeatureColumns[k]].n
  {
    SelectWithDefaults(data, RiskDefaults, Training.RiskFeatureColumns);
    Select(WithDefaults(data, RiskDefaults), Training.RiskFeatureColumns)
  }

  /** Absent pregnancy reads as 0 and absent BMI as 25, in their training
      positions. */
  lemma RiskVectorDefaults(data: Record)
    requires RiskVector(data).Ok?
    ensures "pregnancy" !in data ==> RiskVector(data).value[1] == 0.0
    ensures "bmi" !in data ==> RiskVector(data).value[7] == 25.0
  {
    assert Training.RiskFeatureColumns[1] == "pregnancy" && Training.RiskFeatureColumns[7] == "bmi";
  }

  datatype RiskResult = RiskResult(riskScore: real, riskLevel: string, recommendation: string)

  /** `RiskScoring().calculate_risk(data)`: scale the row with the persisted
      scaler, predict, and band the score. */
  function CalculateRisk(model: Artifact<Regressor>, scaler: Artifact<Scaler>, data: Record): (r: Result<RiskResult>)
    ensures r.Ok? ==> model.Stored? && scaler.Stored? && RiskVector(data).Ok?
    ensures r.Ok? ==> Transform(scaler.model, RiskVector(data).value).Ok?
    ensures r.Ok? ==> r.value.riskScore == model.model.predict(Transform(scaler.model, RiskVector(data).value).value)
    ensures r.Ok? ==> r.value.riskLevel == TierName(TierOf(r.value.riskScore))
    ensures r.Ok? ==> r.value.recommendation == RiskRecommendation(TierOf(r.value.riskScore))
    ensures model.Absent? || scaler.Absent? ==> r == Err(MissingArtifact)
    ensures r.Ok? <==>
      && model.Stored? && scaler.Stored? && RiskVector(data).Ok?
      && Transform(scaler.model, RiskVector(data).value).Ok?
      && |Transform(scaler.model, RiskVector(data).value).value| == model.model.nFeatures
    ensures model.Stored? && scaler.Stored? && RiskVector(data).Ok?
      && Transform(scaler.model, RiskVector(data).value).Ok?
      && |Transform(scaler.model, RiskVector(data).value).value| != model.model.nFeatures
      ==> r == Err(FeatureCount(|Transform(scaler.model, RiskVector(data).value).value|, model.model.nFeatures))
  {
    var m :- Load(model);
    var s :- Load(scaler);
    var x :- RiskVector(data);
    var scaled :- Transform(s, x);
    var score :- PredictValue(m, scaled);
    var tier := TierOf(score);
    Ok(RiskResult(score, TierName(tier), RiskRecommendation(tier)))
  }

  // ---------------------------------------------------------------------
  // No-show prediction

  /** The predictor's own weather table. */
  const WeatherTable: map<string, real> := map["sunny" := 0.0, "rainy" := 1.0, "cloudy" := 2.0]

  /** `weather_table.get(value, 0)`: a value outside the table is coded 0,
      the same as sunny. */
  function WeatherCode(v: Value): (code: real)
    ensures code in {0.0, 1.0, 2.0}
    ensures v.Text? && v.s in WeatherTable ==> code == WeatherTable[v.s]
    ensures !(v.Text? && v.s in WeatherTable) ==> code == 0.0
  {
    if v.Text? && v.s in WeatherTable then WeatherTable[v.s] else 0.0
  }

  /** The input row of the no-show model as the predictor builds it:
      distance, earlier no-shows, SMS flag, then the weather code from its
      own table. */
  function NoShowVector(data: Record): (r: Result<seq<real>>)
    ensures r.Ok? <==> Select(data, Training.NoShowBaseColumns).Ok? && "weather_condition" in data
    ensures r.Ok? ==> (r.value == Select(data, Training.NoShowBaseColumns).value + [WeatherCode(data["weather_condition"])])
  {
    var base :- Select(data, Training.NoShowBaseColumns);
    if "weather_condition" !in data then Err(MissingKey("weather_condition"))
    else Ok(base + [WeatherCode(data["weather_condition"])])
  }

  /** The input row built with the weather encoder fitted at training time,
      so that each condition gets the code the model was trained with; an
      unseen condition is rejected rather than coded 0. */
  function EncodedNoShowVector(data: Record, weatherClasses: seq<string>): (r: Result<seq<real>>)
    ensures r.Ok? <==> Select(data, Training.NoShowBaseColumns).Ok? && Training.TextAt(data, "weather_condition").Ok?
                       && data["weather_condition"].s in weatherClasses
    ensures r.Ok? ==> (r.value == Select(data, Training.NoShowBaseColumns).value
      + [Encode(weatherClasses, data["weather_condition"].s, Training.Describe).value as real])
  {
    var base :- Select(data, Training.NoShowBaseColumns);
    var weather :- Training.TextAt(data, "weather_condition");
    var code :- Encode(weatherClasses, weather, Training.Describe);
    Ok(base + [code as real])
  }

  datatype NoShowResult = NoShowResult(willShowUp: bool, showProbability: real, noShowProbability: real,
                                       riskLevel: string, recommendation: string)

  /** The dict returned for a probability row: column 0 is read as the
      no-show probability and column 1 as the show probability. */
  function NoShowReport(predicted: real, ps: seq<real>): (r: Result<NoShowResult>)
    ensures r.Ok? <==> |ps| >= 2
    ensures r.Ok? ==> r.value.noShowProbability == ps[0] && r.value.showProbability == ps[1]
    ensures r.Ok? ==> (r.value.willShowUp <==> predicted != 0.0)
    ensures r.Ok? ==> r.value.riskLevel == TierName(TierOf(ps[0]))
    ensures r.Ok? ==> r.value.recommendation == NoShowRecommendation(ps[0])
  {
    if |ps| < 2 then Err(IndexOutOfRange(|ps|))
    else Ok(NoShowResult(predicted != 0.0, ps[1], ps[0], TierName(TierOf(ps[0])), NoShowRecommendation(ps[0])))
  }

  /** `NoShowPrediction().predict_noshow(data)` as written, with the
      predictor's own weather table. */
  function PredictNoShow(artifact: Artifact<Classifier<real>>, data: Record): (r: Result<NoShowResult>)
    ensures r.Ok? <==> artifact.Stored? && NoShowVector(data).Ok? && Predict(artifact.model, NoShowVector(data).value).Ok?
                       && |artifact.model.proba(NoShowVector(data).value)| >= 2
    ensures r.Ok? ==> (
      var m := artifact.model;
      var ps := m.proba(NoShowVector(data).value);
      && |ps| >= 2 && ArgMax(ps) < |m.classes|
      && r == NoShowReport(m.classes[ArgMax(ps)], ps))
  {
    var m :- Load(artifact);
    var x :- NoShowVector(data);
    var predicted :- Predict(m, x);
    var ps := m.proba(x);
    NoShowReport(predicted, ps)
  }

  /** The no-show prediction with the persisted weather encoder. */
  function PredictNoShowEncoded(artifact: Artifact<Classifier<real>>, encoder: Artifact<seq<string>>,
                                data: Record): (r: Result<NoShowResult>)
    ensures r.Ok? <==> artifact.Stored? && encoder.Stored? && EncodedNoShowVector(data, encoder.model).Ok?
                       && Predict(artifact.model, EncodedNoShowVector(data, encoder.model).value).Ok?
                       && |artifact.model.proba(EncodedNoShowVector(data, encoder.model).value)| >= 2
    ensures r.Ok? ==> (
      var m := artifact.model;
      var ps := m.proba(EncodedNoShowVector(data, encoder.model).value);
      && |ps| >= 2 && ArgMax(ps) < |m.classes|
      && r == NoShowReport(m.classes[ArgMax(ps)], ps))
  {
    var m :- Load(artifact);
    var classes :- Load(encoder);
    var x :- EncodedNoShowVector(data, classes);
    var predicted :- Predict(m, x);
    var ps := m.proba(x);
    NoShowReport(predicted, ps)
  }
}
