/** Laboratory tests (laboratory/models.py): the test record, its `LAB-`
    ID, its status choices and the malaria result choices. */
module Laboratory {
  import opened Outcomes
  import RecordIds
  import Labelling

  const StatusChoices: seq<string> := ["pending", "in_progress", "completed", "cancelled"]

  const DefaultStatus: string := "pending"

  /** The choices of `malaria_test`; the field may also stay blank. */
  const MalariaChoices: seq<string> := ["positive", "negative"]

  datatype LabTest = LabTest(
    testId: string, patientPk: nat, testName: string, testType: string,
    status: string, malariaTest: string, rdtResult: string,
    cost: int)                         // in cents

  /** A newly requested test: pending, with no ID and no results yet. */
  function NewLabTest(patientPk: nat, testName: string, testType: string, cost: int): (t: LabTest)
    ensures t.status == DefaultStatus && t.status in StatusChoices
    ensures t.testId == "" && t.malariaTest == "" && t.rdtResult == ""
    ensures t.patientPk == patientPk && t.testName == testName && t.cost == cost
  {
    LabTest("", patientPk, testName, testType, DefaultStatus, "", "", cost)
  }

  /** A value the `malaria_test` field accepts. */
  predicate ValidMalariaTest(v: string) {
    v == "" || v in MalariaChoices
  }

  /** `LabTest.save()`: the next `LAB-` ID after the most recently created
      test's, only while the test has none. */
  function SaveLabTest(t: LabTest, last: Option<string>): (r: Result<LabTest>)
    ensures r.Ok? ==> r.value == t.(testId := r.value.testId)
    ensures t.testId != "" ==> r == Ok(t)
    ensures t.testId == "" && last.None? ==> r == Ok(t.(testId := "LAB-000001"))
    ensures t.testId == "" && last.Some? ==> (r.Ok? <==> RecordIds.IdNumber(last.value).Ok?)
    ensures t.testId == "" && last.Some? && r.Ok? ==>
      RecordIds.IdNumber(r.value.testId) == Ok(RecordIds.IdNumber(last.value).value + 1)
  {
    RecordIds.FirstId(RecordIds.LabTestPrefix);
    assert RecordIds.LabTestPrefix + "-000001" == "LAB-000001";
    var id :- RecordIds.AssignId(t.testId, RecordIds.LabTestPrefix, last);
    Ok(t.(testId := id))
  }

  /** The malaria results of the generated disease data are values the
      field accepts. */
  lemma GeneratedMalariaResultsAreChoices(draw: Labelling.DiseaseDraw)
    requires |draw.symptomRolls| == |Labelling.SymptomNames|
    ensures ValidMalariaTest(Labelling.DiseaseRowOf(draw).malariaTest)
    ensures ValidMalariaTest(Labelling.DiseaseRowOf(draw).rdtResult)
  {
    var row := Labelling.DiseaseRowOf(draw);
    Labelling.DiseaseTableWellFormed();
    assert row.malariaTest == Labelling.DiseasePatterns[row.diagnosis].malariaTest;
  }
}
