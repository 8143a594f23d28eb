/** The training script: which dataset columns each model is fitted on and
    in what order, how the text columns are encoded, how rows are split,
    and what is persisted. Fitting itself (the random forests and the
    logistic regression) is a parameter: the model only fixes which rows
    and columns the fit sees and what the fitted estimator is known to
    remember. */
module Training {
  import opened Outcomes
  import opened Text
  import opened Records
  import opened Estimators
  import opened Tiers
  import Queries

  // ---------------------------------------------------------------------
  // Column lists

  const DiseaseFeatureColumns: seq<string> := ["age", "fever", "headache", "fatigue", "cough", "vomiting",
    "diarrhea", "joint_pain", "rash", "blood_pressure_systolic", "blood_pressure_diastolic", "glucose_level"]

  /** The columns of the disease model's input, in order: the encoded
      gender is appended after the twelve selected columns. */
  const DiseaseModelColumns: seq<string> := DiseaseFeatureColumns + ["gender_encoded"]

  const RiskFeatureColumns: seq<string> := ["age", "pregnancy", "glucose", "blood_pressure_systolic",
    "blood_pressure_diastolic", "heart_rate", "weight", "bmi"]

  const NoShowBaseColumns: seq<string> := ["distance_from_hospital", "previous_no_shows", "sms_sent"]

  const NoShowModelColumns: seq<string> := NoShowBaseColumns + ["weather_encoded"]

  /** The report's names for the no-show classes 0 and 1. */
  const NoShowTargetNames: seq<string> := ["No Show", "Showed Up"]

  /** How `train_test_split` is called: test share in percent, seed, and
      whether the split is stratified by the label. */
  datatype SplitSettings = SplitSettings(testPercent: nat, seed: nat, stratified: bool)

  const DiseaseSplit: SplitSettings := SplitSettings(20, 42, true)
  const RiskSplit: SplitSettings := SplitSettings(20, 42, false)
  const NoShowSplit: SplitSettings := SplitSettings(20, 42, true)

  lemma ModelWidths()
    ensures |DiseaseModelColumns| == 13 && DiseaseModelColumns[12] == "gender_encoded"
    ensures |RiskFeatureColumns| == 8
    ensures |NoShowModelColumns| == 4 && NoShowModelColumns[3] == "weather_encoded"
  {
  }

  // ---------------------------------------------------------------------
  // Columns of a dataset

  function TextAt(row: Record, key: string): (r: Result<string>)
    ensures r.Ok? <==> key in row && row[key].Text?
    ensures r.Ok? ==> r.value == row[key].s
  {
    if key !in row then Err(MissingKey(key))
    else if row[key].Num? then Err(NotText(key))
    else Ok(row[key].s)
  }

  /** `df[key]` of a text column. */
  function TextColumn(rows: seq<Record>, key: string): (r: Result<seq<string>>)
    ensures r.Ok? <==> forall i :: 0 <= i < |rows| ==> TextAt(rows[i], key).Ok?
    ensures r.Ok? ==> |r.value| == |rows| && forall i :: 0 <= i < |rows| ==> r.value[i] == rows[i][key].s
  {
    if |rows| == 0 then Ok([])
    else
      var head :- TextAt(rows[0], key);
      var rest :- TextColumn(rows[1..], key);
      Ok([head] + rest)
  }

  /** `df[key]` of a numeric column. */
  function NumberColumn(rows: seq<Record>, key: string): (r: Result<seq<real>>)
    ensures r.Ok? <==> forall i :: 0 <= i < |rows| ==> Number(rows[i], key).Ok?
    ensures r.Ok? ==> |r.value| == |rows| && forall i :: 0 <= i < |rows| ==> r.value[i] == rows[i][key].n
  {
    if |rows| == 0 then Ok([])
    else
      var head :- Number(rows[0], key);
      var rest :- NumberColumn(rows[1..], key);
      Ok([head] + rest)
  }

  /** `df[columns]`: one row of numbers per record. */
  function Matrix(rows: seq<Record>, columns: seq<string>): (r: Result<seq<seq<real>>>)
    ensures r.Ok? <==> forall i :: 0 <= i < |rows| ==> Select(rows[i], columns).Ok?
    ensures r.Ok? ==> |r.value| == |rows| && forall i :: 0 <= i < |rows| ==> r.value[i] == Select(rows[i], columns).value
  {
    if |rows| == 0 then Ok([])
    else
      var head :- Select(rows[0], columns);
      var rest :- Matrix(rows[1..], columns);
      Ok([head] + rest)
  }

  /** Labels describe themselves in an UnseenLabel fault. */
  function Describe(s: string): string {
    s
  }

  /** The rows at the given indices, in index order. */
  function Gather<T>(xs: seq<T>, idx: seq<nat>): (r: seq<T>)
    requires forall k :: 0 <= k < |idx| ==> idx[k] < |xs|
    ensures |r| == |idx| && forall k :: 0 <= k < |idx| ==> r[k] == xs[idx[k]]
  {
    seq(|idx|, k requires 0 <= k < |idx| => xs[idx[k]])
  }

  /** The indices of the two sides, or the error for a dataset too small to
      split; every index names a row. */
  function SplitRows(n: nat, perm: seq<nat>): (r: Result<TrainTest>)
    requires IsPermutation(perm, n)
    ensures r == SplitIndices(n, perm)
    ensures r.Ok? ==> forall k :: 0 <= k < |r.value.train| ==> r.value.train[k] < n
    ensures r.Ok? ==> forall k :: 0 <= k < |r.value.test| ==> r.value.test[k] < n
  {
    var s :- SplitIndices(n, perm);
    SplitPartitionsRows(n, perm);
    assert forall k :: 0 <= k < |s.train| ==> s.train[k] in s.train;
    assert forall k :: 0 <= k < |s.test| ==> s.test[k] in s.test;
    Ok(s)
  }

  // ---------------------------------------------------------------------
  // Disease model

  datatype DiseaseInputs = DiseaseInputs(genderClasses: seq<string>, inputs: seq<seq<real>>)

  /** The disease model's input matrix: the twelve selected columns of each
      row followed by the LabelEncoder code of its gender. */
  function PrepareDisease(rows: seq<Record>): (r: Result<DiseaseInputs>)
    ensures r.Ok? <==> Matrix(rows, DiseaseFeatureColumns).Ok? && TextColumn(rows, "gender").Ok?
    ensures r.Ok? ==> r.value.genderClasses == Unique(TextColumn(rows, "gender").value, LexLess)
    ensures r.Ok? ==> |r.value.inputs| == |rows|
    ensures r.Ok? ==> forall i :: 0 <= i < |rows| ==>
      Encode(r.value.genderClasses, rows[i]["gender"].s, Describe).Ok?
      && r.value.inputs[i] == Select(rows[i], DiseaseFeatureColumns).value
           + [Encode(r.value.genderClasses, rows[i]["gender"].s, Describe).value as real]
  {
    var features :- Matrix(rows, DiseaseFeatureColumns);
    var genders :- TextColumn(rows, "gender");
    var fitted := FitTransform(genders, LexLess);
    var inputs := seq(|rows|, i requires 0 <= i < |rows| => features[i] + [fitted.1[i] as real]);
    Ok(DiseaseInputs(fitted.0, inputs))
  }

  datatype DiseaseArtifacts = DiseaseArtifacts(model: Classifier<string>, genderEncoder: seq<string>)

  /** Fit the disease classifier on the training side of a stratified split
      and keep the gender encoder. `fit` stands for the random forest. */
  function TrainDisease(rows: seq<Record>, perm: seq<nat>,
                        fit: (seq<seq<real>>, seq<string>) -> (seq<real> -> seq<real>)): (r: Result<DiseaseArtifacts>)
    requires IsPermutation(perm, |rows|)
    ensures r.Ok? <==>
      && PrepareDisease(rows).Ok? && TextColumn(rows, "diagnosis").Ok? && |rows| >= 2
      && Stratifiable(TextColumn(rows, "diagnosis").value, LexLess)
    ensures r.Ok? ==> r.value.model.nFeatures == |DiseaseModelColumns|
    ensures r.Ok? ==> r.value.genderEncoder == PrepareDisease(rows).value.genderClasses
    ensures r.Ok? ==> (r.value.model.classes
      == Unique(Gather(TextColumn(rows, "diagnosis").value, SplitRows(|rows|, perm).value.train), LexLess))
  {
    var prepared :- PrepareDisease(rows);
    var labels :- TextColumn(rows, "diagnosis");
    var split :- SplitRows(|rows|, perm);
    if !Stratifiable(labels, LexLess) then Err(Unstratifiable) else
    var trainX := Gather(prepared.inputs, split.train);
    var trainY := Gather(labels, split.train);
    Ok(DiseaseArtifacts(Classifier(|DiseaseModelColumns|, Unique(trainY, LexLess), fit(trainX, trainY)),
                        prepared.genderClasses))
  }

  // ---------------------------------------------------------------------
  // Risk model

  /** `scaler.transform(rows)`. */
  function TransformAll(s: Scaler, xs: seq<seq<real>>): (r: Result<seq<seq<real>>>)
    ensures r.Ok? <==> forall i :: 0 <= i < |xs| ==> Transform(s, xs[i]).Ok?
    ensures r.Ok? ==> |r.value| == |xs| && forall i :: 0 <= i < |xs| ==> r.value[i] == Transform(s, xs[i]).value
  {
    if |xs| == 0 then Ok([])
    else
      var head :- Transform(s, xs[0]);
      var rest :- TransformAll(s, xs[1..]);
      Ok([head] + rest)
  }

  /** The two sides of the risk dataset: selected columns and target. */
  datatype RiskSides = RiskSides(trainX: seq<seq<real>>, trainY: seq<real>, testX: seq<seq<real>>, testY: seq<real>)

  /** Select the eight risk columns and the target and split the rows
      (unstratified). */
  function SplitRisk(rows: seq<Record>, perm: seq<nat>): (r: Result<RiskSides>)
    requires IsPermutation(perm, |rows|)
    ensures r.Ok? <==> Matrix(rows, RiskFeatureColumns).Ok? && NumberColumn(rows, "risk_score").Ok? && |rows| >= 2
    ensures r.Ok? ==> (
      var split := SplitRows(|rows|, perm).value;
      && r.value.trainX == Gather(Matrix(rows, RiskFeatureColumns).value, split.train)
      && r.value.testX == Gather(Matrix(rows, RiskFeatureColumns).value, split.test)
      && r.value.trainY == Gather(NumberColumn(rows, "risk_score").value, split.train)
      && r.value.testY == Gather(NumberColumn(rows, "risk_score").value, split.test))
  {
    var features :- Matrix(rows, RiskFeatureColumns);
    var targets :- NumberColumn(rows, "risk_score");
    var split :- SplitRows(|rows|, perm);
    Ok(RiskSides(Gather(features, split.train), Gather(targets, split.train),
                 Gather(features, split.test), Gather(targets, split.test)))
  }

  datatype RiskArtifacts = RiskArtifacts(model: Regressor, scaler: Scaler, scaledTest: seq<seq<real>>)

  /** Fit the scaler on the training side only, scale both sides with it,
      and fit the regressor on the scaled training side. `fitScaler` stands
      for StandardScaler's fit and `fit` for the random forest. */
  function FitRisk(sides: RiskSides, fitScaler: seq<seq<real>> -> Scaler,
                   fit: (seq<seq<real>>, seq<real>) -> (seq<real> -> real)): (r: Result<RiskArtifacts>)
    ensures r.Ok? ==> r.value.scaler == fitScaler(sides.trainX)
    ensures r.Ok? ==> r.value.model.nFeatures == |RiskFeatureColumns|
    ensures r.Ok? <==> (TransformAll(fitScaler(sides.trainX), sides.trainX).Ok?
                        && TransformAll(fitScaler(sides.trainX), sides.testX).Ok?)
    ensures r.Ok? ==> (|r.value.scaledTest| == |sides.testX|
      && forall k :: 0 <= k < |sides.testX| ==> Transform(r.value.scaler, sides.testX[k]) == Ok(r.value.scaledTest[k]))
  {
    var scaler := fitScaler(sides.trainX);
    var scaledTrain :- TransformAll(scaler, sides.trainX);
    var scaledTest :- TransformAll(scaler, sides.testX);
    Ok(RiskArtifacts(Regressor(|RiskFeatureColumns|, fit(scaledTrain, sides.trainY)), scaler, scaledTest))
  }

  /** The risk part of the training script: split, then fit. */
  function TrainRisk(rows: seq<Record>, perm: seq<nat>, fitScaler: seq<seq<real>> -> Scaler,
                     fit: (seq<seq<real>>, seq<real>) -> (seq<real> -> real)): (r: Result<RiskArtifacts>)
    requires IsPermutation(perm, |rows|)
    ensures r.Ok? <==>
      && Matrix(rows, RiskFeatureColumns).Ok? && NumberColumn(rows, "risk_score").Ok? && |rows| >= 2
      && (var split := SplitRows(|rows|, perm).value;
          var xs := Matrix(rows, RiskFeatureColumns).value;
          && TransformAll(fitScaler(Gather(xs, split.train)), Gather(xs, split.train)).Ok?
          && TransformAll(fitScaler(Gather(xs, split.train)), Gather(xs, split.test)).Ok?)
    ensures r.Ok? ==> (
      var split := SplitRows(|rows|, perm).value;
      var xs := Matrix(rows, RiskFeatureColumns).value;
      && r.value.scaler == fitScaler(Gather(xs, split.train))
      && r.value.model.nFeatures == |RiskFeatureColumns|
      && |r.value.scaledTest| == |split.test|
      && forall k :: 0 <= k < |split.test| ==> Transform(r.value.scaler, xs[split.test[k]]) == Ok(r.value.scaledTest[k]))
  {
    var sides :- SplitRisk(rows, perm);
    FitRisk(sides, fitScaler, fit)
  }

  /** No test row reaches the scaler: two datasets that agree on the
      training rows give the same scaler, whatever their test rows hold. */
  lemma ScalerSeesOnlyTrainingRows(rows1: seq<Record>, rows2: seq<Record>, perm: seq<nat>,
                                   fitScaler: seq<seq<real>> -> Scaler,
                                   fit: (seq<seq<real>>, seq<real>) -> (seq<real> -> real))
    requires |rows1| == |rows2| && IsPermutation(perm, |rows1|)
    requires TrainRisk(rows1, perm, fitScaler, fit).Ok? && TrainRisk(rows2, perm, fitScaler, fit).Ok?
    requires SplitRows(|rows1|, perm).Ok?
    requires forall k :: 0 <= k < |SplitRows(|rows1|, perm).value.train| ==>
      rows1[SplitRows(|rows1|, perm).value.train[k]] == rows2[SplitRows(|rows1|, perm).value.train[k]]
    ensures TrainRisk(rows1, perm, fitScaler, fit).value.scaler == TrainRisk(rows2, perm, fitScaler, fit).value.scaler
  {
    SameTrainingFeatures(rows1, rows2, SplitRows(|rows1|, perm).value.train);
  }

  /** Datasets that agree on some rows have the same features at them. */
  lemma SameTrainingFeatures(rows1: seq<Record>, rows2: seq<Record>, train: seq<nat>)
    requires |rows1| == |rows2|
    requires Matrix(rows1, RiskFeatureColumns).Ok? && Matrix(rows2, RiskFeatureColumns).Ok?
    requires forall k :: 0 <= k < |train| ==> train[k] < |rows1| && rows1[train[k]] == rows2[train[k]]
    ensures Gather(Matrix(rows1, RiskFeatureColumns).value, train) == Gather(Matrix(rows2, RiskFeatureColumns).value, train)
  {
    var x1 := Matrix(rows1, RiskFeatureColumns).value;
    var x2 := Matrix(rows2, RiskFeatureColumns).value;
    var g1, g2 := Gather(x1, train), Gather(x2, train);
    forall k | 0 <= k < |train|
      ensures g1[k] == g2[k]
    {
      var i := train[k];
      assert x1[i] == Select(rows1[i], RiskFeatureColumns).value;
      assert x2[i] == Select(rows2[i], RiskFeatureColumns).value;
    }
    assert g1 == g2;
  }

  /** The test-set distribution the training report prints. */
  function HighCount(ys: seq<real>): nat {
    Queries.Count(ys, y => y > 0.7)
  }

  function MediumCount(ys: seq<real>): nat {
    Queries.Count(ys, y => y > 0.4 && y <= 0.7)
  }

  function LowCount(ys: seq<real>): nat {
    Queries.Count(ys, y => y <= 0.4)
  }

  /** The three counts cover the test set exactly once. */
  lemma {:induction false} DistributionCoversTestSet(ys: seq<real>)
    ensures HighCount(ys) + MediumCount(ys) + LowCount(ys) == |ys|
  {
    if |ys| > 0 {
      DistributionCoversTestSet(ys[1..]);
    }
  }

  /** The report's bands are the tiers the risk endpoint assigns. */
  lemma DistributionMatchesTiers(ys: seq<real>)
    ensures HighCount(ys) == Queries.Count(ys, y => TierOf(y) == High)
    ensures MediumCount(ys) == Queries.Count(ys, y => TierOf(y) == Medium)
    ensures LowCount(ys) == Queries.Count(ys, y => TierOf(y) == Low)
  {
    Queries.CountSameCondition(ys, y => y > 0.7, y => TierOf(y) == High);
    Queries.CountSameCondition(ys, y => y > 0.4 && y <= 0.7, y => TierOf(y) == Medium);
    Queries.CountSameCondition(ys, y => y <= 0.4, y => TierOf(y) == Low);
  }

  // ---------------------------------------------------------------------
  // No-show model

  datatype NoShowInputs = NoShowInputs(weatherClasses: seq<string>, inputs: seq<seq<real>>)

  /** The no-show model's input matrix: distance, earlier no-shows and the
      SMS flag, followed by the LabelEncoder code of the weather. */
  function PrepareNoShow(rows: seq<Record>): (r: Result<NoShowInputs>)
    ensures r.Ok? <==> Matrix(rows, NoShowBaseColumns).Ok? && TextColumn(rows, "weather_condition").Ok?
    ensures r.Ok? ==> r.value.weatherClasses == Unique(TextColumn(rows, "weather_condition").value, LexLess)
    ensures r.Ok? ==> |r.value.inputs| == |rows|
    ensures r.Ok? ==> forall i :: 0 <= i < |rows| ==>
      Encode(r.value.weatherClasses, rows[i]["weather_condition"].s, Describe).Ok?
      && r.value.inputs[i] == Select(rows[i], NoShowBaseColumns).value
           + [Encode(r.value.weatherClasses, rows[i]["weather_condition"].s, Describe).value as real]
  {
    var features :- Matrix(rows, NoShowBaseColumns);
    var weather :- TextColumn(rows, "weather_condition");
    var fitted := FitTransform(weather, LexLess);
    var inputs := seq(|rows|, i requires 0 <= i < |rows| => features[i] + [fitted.1[i] as real]);
    Ok(NoShowInputs(fitted.0, inputs))
  }

  datatype NoShowArtifacts = NoShowArtifacts(model: Classifier<real>, weatherEncoder: seq<string>)

  /** Fit the no-show classifier on the training side of a stratified split
      and keep the weather encoder. `fit` stands for the logistic
      regression. */
  function TrainNoShow(rows: seq<Record>, perm: seq<nat>,
                       fit: (seq<seq<real>>, seq<real>) -> (seq<real> -> seq<real>)): (r: Result<NoShowArtifacts>)
    requires IsPermutation(perm, |rows|)
    ensures r.Ok? <==>
      && PrepareNoShow(rows).Ok? && NumberColumn(rows, "did_come").Ok? && |rows| >= 2
      && Stratifiable(NumberColumn(rows, "did_come").value, RealLess)
      && |Unique(Gather(NumberColumn(rows, "did_come").value, SplitRows(|rows|, perm).value.train), RealLess)| >= 2
    ensures r.Ok? ==> r.value.model.nFeatures == |NoShowModelColumns|
    ensures r.Ok? ==> r.value.weatherEncoder == PrepareNoShow(rows).value.weatherClasses
    ensures r.Ok? ==> (r.value.model.classes
      == Unique(Gather(NumberColumn(rows, "did_come").value, SplitRows(|rows|, perm).value.train), RealLess))
  {
    var prepared :- PrepareNoShow(rows);
    var labels :- NumberColumn(rows, "did_come");
    var split :- SplitRows(|rows|, perm);
    if !Stratifiable(labels, RealLess) then Err(Unstratifiable) else
    var trainX := Gather(prepared.inputs, split.train);
    var trainY := Gather(labels, split.train);
    if |Unique(trainY, RealLess)| < 2 then Err(SingleClass) else
    Ok(NoShowArtifacts(Classifier(|NoShowModelColumns|, Unique(trainY, RealLess), fit(trainX, trainY)),
                       prepared.weatherClasses))
  }

  // ---------------------------------------------------------------------
  // What the encoders and classifiers hold for the generated datasets

  /** A gender column holding both M and F and nothing else is encoded
      F as 0 and M as 1. */
  lemma GenderClasses(genders: seq<string>)
    requires "M" in genders && "F" in genders
    requires forall i :: 0 <= i < |genders| ==> genders[i] in {"M", "F"}
    ensures Unique(genders, LexLess) == ["F", "M"]
  {
    SortedClasses(["F", "M"]);
    assert forall y :: y in genders ==> y in ["F", "M"] by {
      forall y | y in genders
        ensures y in ["F", "M"]
      {
        var i :| 0 <= i < |genders| && genders[i] == y;
      }
    }
    UniqueIs(genders, ["F", "M"], LexLess);
  }

  /** Literal class lists in increasing order, as the encoders sort them. */
  lemma SortedClasses(classes: seq<string>)
    requires classes == ["F", "M"] || classes == ["cloudy", "rainy", "sunny"]
    ensures StrictOrder(LexLess) && StrictlySorted(classes, LexLess)
  {
    StringOrder();
    if classes == ["F", "M"] {
      assert LexLess("F", "M");
    } else {
      assert LexLess("cloudy", "rainy") && LexLess("rainy", "sunny");
    }
    NeighboursSorted(classes, LexLess);
  }

  /** A weather column holding the three generated conditions is encoded in
      alphabetical order: cloudy 0, rainy 1, sunny 2. */
  lemma WeatherClasses(weather: seq<string>)
    requires "sunny" in weather && "rainy" in weather && "cloudy" in weather
    requires forall i :: 0 <= i < |weather| ==> weather[i] in {"sunny", "rainy", "cloudy"}
    ensures Unique(weather, LexLess) == ["cloudy", "rainy", "sunny"]
  {
    SortedClasses(["cloudy", "rainy", "sunny"]);
    assert forall y :: y in weather ==> y in ["cloudy", "rainy", "sunny"] by {
      forall y | y in weather
        ensures y in ["cloudy", "rainy", "sunny"]
      {
        var i :| 0 <= i < |weather| && weather[i] == y;
      }
    }
    UniqueIs(weather, ["cloudy", "rainy", "sunny"], LexLess);
  }

  const SortedDiseases: seq<string> := ["Diabetes", "Hypertension", "Malaria", "Pneumonia", "TB", "Typhoid"]

  lemma SortedDiseasesIncrease()
    ensures StrictOrder(LexLess) && StrictlySorted(SortedDiseases, LexLess)
  {
    StringOrder();
    SortedDiseaseNeighbours();
    NeighboursSorted(SortedDiseases, LexLess);
  }

  lemma SortedDiseaseNeighbours()
    ensures forall i :: 0 <= i < |SortedDiseases| - 1 ==> LexLess(SortedDiseases[i], SortedDiseases[i + 1])
  {
    var s := SortedDiseases;
    assert LexLess(s[0], s[1]);
    assert LexLess(s[1], s[2]);
    assert LexLess(s[2], s[3]);
    assert LexLess(s[3], s[4]);
    assert LexLess(s[4], s[5]);
  }

  /** A classifier trained on labels covering the six diseases orders its
      probability columns alphabetically. */
  lemma DiseaseClasses(labels: seq<string>)
    requires forall d :: d in SortedDiseases ==> d in labels
    requires forall i :: 0 <= i < |labels| ==> labels[i] in SortedDiseases
    ensures Unique(labels, LexLess) == SortedDiseases
  {
    SortedDiseasesIncrease();
    UniqueIs(labels, SortedDiseases, LexLess);
  }

  /** A classifier trained on 0/1 labels holding both classes has column 0
      for "No Show" and column 1 for "Showed Up". */
  lemma NoShowClasses(labels: seq<real>)
    requires 0.0 in labels && 1.0 in labels
    requires forall i :: 0 <= i < |labels| ==> labels[i] == 0.0 || labels[i] == 1.0
    ensures Unique(labels, RealLess) == [0.0, 1.0]
    ensures NoShowTargetNames[0] == "No Show" && NoShowTargetNames[1] == "Showed Up"
  {
    NumberOrder();
    UniqueIs(labels, [0.0, 1.0], RealLess);
  }
}
