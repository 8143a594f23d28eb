/** How the rows the predictors build compare with the rows the models were
    trained on. The disease and risk rows agree. The no-show row does not
    agree for sunny or cloudy weather, because the predictor uses its own
    weather table instead of the persisted encoder. The disease
    probabilities are keyed by a list in another order than the
    classifier's columns. For both defects the corrected predictor is
    proved to agree. */
module Agreement {
  import opened Outcomes
  import opened Text
  import opened Records
  import opened Estimators
  import opened Tiers
  import Training
  import Serving
  import Labelling

  // ---------------------------------------------------------------------
  // Disease model

  /** For a dataset whose gender column holds exactly M and F, the
      predictor's row for any record is the row the model was trained
      on. */
  lemma DiseaseRowsAgree(rows: seq<Record>, i: nat)
    requires Training.PrepareDisease(rows).Ok? && i < |rows|
    requires "M" in Training.TextColumn(rows, "gender").value && "F" in Training.TextColumn(rows, "gender").value
    requires forall j :: 0 <= j < |rows| ==> Training.TextColumn(rows, "gender").value[j] in {"M", "F"}
    ensures Serving.DiseaseVector(rows[i]) == Ok(Training.PrepareDisease(rows).value.inputs[i])
  {
    DiseaseTrainedRow(rows, i);
    DiseaseServedRow(rows[i]);
  }

  /** Training side: a row's vector is its twelve values and 1 for "M",
      0 for "F". */
  lemma DiseaseTrainedRow(rows: seq<Record>, i: nat)
    requires Training.PrepareDisease(rows).Ok? && i < |rows|
    requires "M" in Training.TextColumn(rows, "gender").value && "F" in Training.TextColumn(rows, "gender").value
    requires forall j :: 0 <= j < |rows| ==> Training.TextColumn(rows, "gender").value[j] in {"M", "F"}
    ensures "gender" in rows[i] && rows[i]["gender"].Text?
    ensures Select(rows[i], Training.DiseaseFeatureColumns).Ok?
    ensures Training.PrepareDisease(rows).value.inputs[i]
              == Select(rows[i], Training.DiseaseFeatureColumns).value
                 + [if rows[i]["gender"].s == "M" then 1.0 else 0.0]
  {
    TrainedGenderClasses(rows);
    var g := rows[i]["gender"].s;
    assert Training.TextAt(rows[i], "gender").Ok? && g in {"M", "F"} by {
      assert Training.TextColumn(rows, "gender").value[i] == g;
    }
    EncodeGender(g);
  }

  /** The gender encoder of such a dataset has the classes F, M. */
  lemma TrainedGenderClasses(rows: seq<Record>)
    requires Training.PrepareDisease(rows).Ok?
    requires "M" in Training.TextColumn(rows, "gender").value && "F" in Training.TextColumn(rows, "gender").value
    requires forall j :: 0 <= j < |rows| ==> Training.TextColumn(rows, "gender").value[j] in {"M", "F"}
    ensures Training.PrepareDisease(rows).value.genderClasses == ["F", "M"]
  {
    Training.GenderClasses(Training.TextColumn(rows, "gender").value);
  }

  /** With classes F, M the encoder codes M as 1 and F as 0. */
  lemma EncodeGender(g: string)
    requires g in {"M", "F"}
    ensures Encode(["F", "M"], g, Training.Describe) == Ok(if g == "M" then 1 else 0)
  {
    assert ["F", "M"][0] == "F" && ["F", "M"][1] == "M";
  }

  /** Serving side: the same row is served as its twelve values and 1 for
      exactly "M", 0 otherwise. */
  lemma DiseaseServedRow(row: Record)
    requires Select(row, Training.DiseaseFeatureColumns).Ok?
    requires "gender" in row && row["gender"].Text?
    ensures Serving.DiseaseVector(row)
              == Ok(Select(row, Training.DiseaseFeatureColumns).value + [if row["gender"].s == "M" then 1.0 else 0.0])
  {
    var code := if row["gender"].s == "M" then 1.0 else 0.0;
    assert Serving.GenderCode(row) == Ok(code);
    Serving.DiseaseVectorParts(row);
  }

  /** A disease record carries every column the disease model and its
      encoders read. */
  lemma DiseaseRecordIsComplete(row: Labelling.DiseaseRow)
    requires |row.symptoms| == |Labelling.SymptomNames|
    ensures Select(Labelling.DiseaseRecord(row), Training.DiseaseFeatureColumns).Ok?
    ensures Training.TextAt(Labelling.DiseaseRecord(row), "gender") == Ok(row.gender)
    ensures Training.TextAt(Labelling.DiseaseRecord(row), "diagnosis") == Ok(row.diagnosis)
  {
    var rec := Labelling.DiseaseRecord(row);
    var cols := Training.DiseaseFeatureColumns;
    assert rec["age"].Num? && rec["blood_pressure_systolic"].Num?;
    assert rec["blood_pressure_diastolic"].Num? && rec["glucose_level"].Num?;
    assert cols[1..9] == Labelling.SymptomNames;
    forall k | 0 <= k < |cols|
      ensures Number(rec, cols[k]).Ok?
    {
      if 1 <= k < 9 {
        assert cols[k] == Labelling.SymptomNames[k - 1];
      }
    }
  }

  /** Every generated disease record has a gender of M or F and one of the
      six diagnoses besides the columns the model reads. */
  lemma GeneratedDiseaseRecordIsComplete(draw: Labelling.DiseaseDraw)
    requires |draw.symptomRolls| == |Labelling.SymptomNames|
    ensures Select(Labelling.DiseaseRecord(Labelling.DiseaseRowOf(draw)), Training.DiseaseFeatureColumns).Ok?
    ensures Training.TextAt(Labelling.DiseaseRecord(Labelling.DiseaseRowOf(draw)), "gender").value in {"M", "F"}
    ensures Training.TextAt(Labelling.DiseaseRecord(Labelling.DiseaseRowOf(draw)), "diagnosis").value
              in Training.SortedDiseases
  {
    var row := Labelling.DiseaseRowOf(draw);
    DiseaseRecordIsComplete(row);
    assert forall d :: d in Labelling.Diseases ==> d in Training.SortedDiseases;
  }

  /** The generator's list pairs its first entry, Malaria, with the first
      probability column and Diabetes with the fifth. */
  lemma ZipOfDiseaseNames(ps: seq<real>)
    requires |ps| == 6
    ensures "Malaria" in Serving.Zip(Serving.DiseaseNames, ps) && Serving.Zip(Serving.DiseaseNames, ps)["Malaria"] == ps[0]
    ensures "Diabetes" in Serving.Zip(Serving.DiseaseNames, ps) && Serving.Zip(Serving.DiseaseNames, ps)["Diabetes"] == ps[4]
  {
    var names := Serving.DiseaseNames;
    var z := Serving.Zip(names, ps);
    DiseaseNamesDistinct();
    assert names[0] in z && z[names[0]] == ps[0];
    assert names[4] in z && z[names[4]] == ps[4];
    assert names[0] == "Malaria" && names[4] == "Diabetes";
  }

  /** The generator's disease list holds no repeats. */
  lemma DiseaseNamesDistinct()
    ensures Serving.Distinct(Serving.DiseaseNames)
  {
  }

  /** What the predictor returns as written: probabilities keyed by the
      generator's list, paired by position with alphabetically ordered
      columns. When the classifier puts 0.9 on Diabetes (its first column),
      the result reports 0.9 for Malaria and 0.02 for the predicted disease
      itself, whose confidence is 0.9. */
  lemma ProbabilitiesMislabelled(m: Classifier<string>, data: Record)
    requires m.classes == Training.SortedDiseases
    requires Serving.DiseaseVector(data).Ok? && |Serving.DiseaseVector(data).value| == m.nFeatures
    requires m.proba(Serving.DiseaseVector(data).value) == [0.9, 0.02, 0.02, 0.02, 0.02, 0.02]
    ensures Serving.PredictDisease(Stored(m), data).Ok?
    ensures Serving.PredictDisease(Stored(m), data).value.disease == "Diabetes"
    ensures Serving.PredictDisease(Stored(m), data).value.confidence == 0.9
    ensures "Malaria" in Serving.PredictDisease(Stored(m), data).value.allProbabilities
         && Serving.PredictDisease(Stored(m), data).value.allProbabilities["Malaria"] == 0.9
    ensures "Diabetes" in Serving.PredictDisease(Stored(m), data).value.allProbabilities
         && Serving.PredictDisease(Stored(m), data).value.allProbabilities["Diabetes"] == 0.02
  {
    var x := Serving.DiseaseVector(data).value;
    var ps := m.proba(x);
    ConcentratedArgMax(ps);
    ZipOfDiseaseNames(ps);
    assert Training.SortedDiseases[0] == "Diabetes";
    assert Predict(m, x).Ok?;
  }

  /** The first column holds the largest probability, so it is the one
      picked. */
  lemma ConcentratedArgMax(ps: seq<real>)
    requires ps == [0.9, 0.02, 0.02, 0.02, 0.02, 0.02]
    ensures ArgMax(ps) == 0 && ps[0] == 0.9 && ps[4] == 0.02
  {
    var k := ArgMax(ps);
    assert ps[0] <= ps[k];
  }

  /** Sorted classes hold no repeats. */
  lemma SortedClassesDistinct(classes: seq<string>)
    requires StrictlySorted(classes, LexLess)
    ensures Serving.Distinct(classes)
  {
    forall i, j | 0 <= i < j < |classes|
      ensures classes[i] != classes[j]
    {
      LexLessIrreflexive(classes[i]);
    }
  }

  /** With each probability keyed by its own class, the predicted disease's
      entry is the reported confidence, and every class's entry is its own
      column. */
  lemma LabelledProbabilitiesConsistent(m: Classifier<string>, data: Record)
    requires StrictlySorted(m.classes, LexLess)
    requires Serving.PredictDiseaseLabelled(Stored(m), data).Ok?
    ensures Serving.PredictDiseaseLabelled(Stored(m), data).value.allProbabilities[
              Serving.PredictDiseaseLabelled(Stored(m), data).value.disease]
         == Serving.PredictDiseaseLabelled(Stored(m), data).value.confidence
    ensures forall k :: 0 <= k < |m.classes| ==>
      Serving.PredictDiseaseLabelled(Stored(m), data).value.allProbabilities[m.classes[k]]
        == m.proba(Serving.DiseaseVector(data).value)[k]
  {
    SortedClassesDistinct(m.classes);
  }

  // ---------------------------------------------------------------------
  // Risk model

  /** A record holding all eight risk columns gets the training row: the
      defaults for pregnancy and BMI only fill keys that are absent. */
  lemma RiskRowsAgree(row: Record)
    requires Select(row, Training.RiskFeatureColumns).Ok?
    ensures Serving.RiskVector(row) == Select(row, Training.RiskFeatureColumns)
  {
    var full := Serving.WithDefaults(row, Serving.RiskDefaults);
    forall k | 0 <= k < |Training.RiskFeatureColumns|
      ensures Training.RiskFeatureColumns[k] in row
    {
      assert Number(row, Training.RiskFeatureColumns[k]).Ok?;
    }
    SelectReadsOnlyColumns(full, row, Training.RiskFeatureColumns);
  }

  /** Every generated risk record holds the eight columns, so the predictor
      sees it exactly as training did. */
  lemma GeneratedRiskRecordAgrees(draw: Labelling.RiskDraw)
    ensures Select(Labelling.RiskRecord(Labelling.RiskRowOf(draw)), Training.RiskFeatureColumns).Ok?
    ensures Serving.RiskVector(Labelling.RiskRecord(Labelling.RiskRowOf(draw)))
         == Select(Labelling.RiskRecord(Labelling.RiskRowOf(draw)), Training.RiskFeatureColumns)
  {
    var rec := Labelling.RiskRecord(Labelling.RiskRowOf(draw));
    forall k | 0 <= k < |Training.RiskFeatureColumns|
      ensures Number(rec, Training.RiskFeatureColumns[k]).Ok?
    {
    }
    RiskRowsAgree(rec);
  }

  // ---------------------------------------------------------------------
  // No-show model

  /** The weather codes of the generated dataset: the fitted encoder orders
      the conditions alphabetically, the predictor's table does not. */
  lemma WeatherTablesDiffer()
    ensures Encode(["cloudy", "rainy", "sunny"], "sunny", Training.Describe) == Ok(2)
    ensures Encode(["cloudy", "rainy", "sunny"], "rainy", Training.Describe) == Ok(1)
    ensures Encode(["cloudy", "rainy", "sunny"], "cloudy", Training.Describe) == Ok(0)
    ensures Serving.WeatherCode(Text("sunny")) == 0.0
    ensures Serving.WeatherCode(Text("rainy")) == 1.0
    ensures Serving.WeatherCode(Text("cloudy")) == 2.0
  {
    var c := ["cloudy", "rainy", "sunny"];
    assert Position(c, "sunny") == 2 by {
      assert c[0] != "sunny" && c[1] != "sunny";
      assert c[1..][1..] == ["sunny"];
    }
    assert Position(c, "rainy") == 1 by {
      assert c[0] != "rainy";
      assert c[1..] == ["rainy", "sunny"];
    }
  }

  /** The training data codes sunny as 2 once all three conditions occur. */
  lemma SunnyTrainedAsTwo(rows: seq<Record>, i: nat)
    requires Training.PrepareNoShow(rows).Ok? && i < |rows|
    requires "sunny" in Training.TextColumn(rows, "weather_condition").value
    requires "rainy" in Training.TextColumn(rows, "weather_condition").value
    requires "cloudy" in Training.TextColumn(rows, "weather_condition").value
    requires forall j :: 0 <= j < |rows| ==>
      Training.TextColumn(rows, "weather_condition").value[j] in {"sunny", "rainy", "cloudy"}
    requires rows[i]["weather_condition"] == Text("sunny")
    ensures "weather_condition" in rows[i] && Select(rows[i], Training.NoShowBaseColumns).Ok?
    ensures Training.PrepareNoShow(rows).value.inputs[i]
         == Select(rows[i], Training.NoShowBaseColumns).value + [2.0]
  {
    var weather := Training.TextColumn(rows, "weather_condition").value;
    Training.WeatherClasses(weather);
    WeatherTablesDiffer();
  }

  /** As written: in a dataset with all three conditions, a sunny record is
      fed to the model with code 0 although the model learned sunny as 2
      (and 0 as cloudy). */
  lemma SunnyRowsDisagree(rows: seq<Record>, i: nat)
    requires Training.PrepareNoShow(rows).Ok? && i < |rows|
    requires "sunny" in Training.TextColumn(rows, "weather_condition").value
    requires "rainy" in Training.TextColumn(rows, "weather_condition").value
    requires "cloudy" in Training.TextColumn(rows, "weather_condition").value
    requires forall j :: 0 <= j < |rows| ==>
      Training.TextColumn(rows, "weather_condition").value[j] in {"sunny", "rainy", "cloudy"}
    requires rows[i]["weather_condition"] == Text("sunny")
    ensures Serving.NoShowVector(rows[i]).Ok?
    ensures |Serving.NoShowVector(rows[i]).value| == 4 && Serving.NoShowVector(rows[i]).value[3] == 0.0
    ensures |Training.PrepareNoShow(rows).value.inputs[i]| == 4 && Training.PrepareNoShow(rows).value.inputs[i][3] == 2.0
    ensures Serving.NoShowVector(rows[i]) != Ok(Training.PrepareNoShow(rows).value.inputs[i])
  {
    SunnyTrainedAsTwo(rows, i);
    SunnyServedAsZero(rows[i]);
    LastCodeDiffers(Select(rows[i], Training.NoShowBaseColumns).value);
  }

  /** Rows that differ only in the weather code differ. */
  lemma LastCodeDiffers(base: seq<real>)
    requires |base| == |Training.NoShowBaseColumns|
    ensures |base + [0.0]| == 4 && (base + [0.0])[3] == 0.0
    ensures |base + [2.0]| == 4 && (base + [2.0])[3] == 2.0
    ensures Ok(base + [0.0]) != Ok(base + [2.0])
  {
    assert (base + [0.0])[3] != (base + [2.0])[3];
  }

  /** The predictor's own table codes sunny as 0. */
  lemma SunnyServedAsZero(row: Record)
    requires Select(row, Training.NoShowBaseColumns).Ok?
    requires "weather_condition" in row && row["weather_condition"] == Text("sunny")
    ensures Serving.NoShowVector(row) == Ok(Select(row, Training.NoShowBaseColumns).value + [0.0])
  {
    assert Serving.WeatherCode(Text("sunny")) == 0.0;
  }

  /** Corrected: with the persisted encoder every record of the training
      data is fed to the model exactly as it was trained on, whatever
      conditions the dataset holds. */
  lemma EncodedRowsAgree(rows: seq<Record>, i: nat)
    requires Training.PrepareNoShow(rows).Ok? && i < |rows|
    ensures Serving.EncodedNoShowVector(rows[i], Training.PrepareNoShow(rows).value.weatherClasses)
         == Ok(Training.PrepareNoShow(rows).value.inputs[i])
  {
    var weather := Training.TextColumn(rows, "weather_condition").value;
    assert Training.TextAt(rows[i], "weather_condition").Ok?;
    assert weather[i] in weather;
  }

  /** The no-show model's columns are the classes 0 ("No Show") and 1
      ("Showed Up"), so column 0 is the no-show probability the endpoint
      reads, and the patient is predicted to come exactly when showing up
      is strictly more likely. */
  lemma NoShowReadingIsRight(m: Classifier<real>, data: Record)
    requires m.classes == [0.0, 1.0]
    requires Serving.PredictNoShow(Stored(m), data).Ok?
    ensures Training.NoShowTargetNames[m.classes[0].Floor] == "No Show"
    ensures Serving.PredictNoShow(Stored(m), data).value.noShowProbability == m.proba(Serving.NoShowVector(data).value)[0]
    ensures Serving.PredictNoShow(Stored(m), data).value.willShowUp
       <==> m.proba(Serving.NoShowVector(data).value)[1] > m.proba(Serving.NoShowVector(data).value)[0]
  {
    var ps := m.proba(Serving.NoShowVector(data).value);
    var k := ArgMax(ps);
    assert k == 0 || k == 1;
  }
}
