/** The pharmacy (pharmacy/models.py): medicines with their stock level
    and reorder level, the low-stock test, prescriptions, and the `MED-` and
    `PRE-` IDs; plus the dashboard's low-stock count (core/views.py). */
module Pharmacy {
  import opened Outcomes
  import RecordIds
  import Queries

  const DefaultQuantity: int := 0
  const DefaultReorderLevel: int := 50

  datatype Medicine = Medicine(
    medicineId: string, name: string, unit: string,
    quantity: int, reorderLevel: int,
    unitPrice: int)                    // in cents

  /** A medicine entered with the model's defaults: no stock, reorder
      level 50, unit "tablet". */
  function NewMedicine(name: string, unitPrice: int): (m: Medicine)
    ensures m.medicineId == "" && m.name == name && m.unitPrice == unitPrice
    ensures m.quantity == 0 && m.reorderLevel == 50 && m.unit == "tablet"
  {
    Medicine("", name, "tablet", DefaultQuantity, DefaultReorderLevel, unitPrice)
  }

  /** `Medicine.save()`: the next `MED-` ID, only while the medicine has none. */
  function SaveMedicine(m: Medicine, last: Option<string>): (r: Result<Medicine>)
    ensures r.Ok? ==> r.value == m.(medicineId := r.value.medicineId)
    ensures m.medicineId != "" ==> r == Ok(m)
    ensures m.medicineId == "" && last.None? ==> r == Ok(m.(medicineId := "MED-000001"))
    ensures m.medicineId == "" && last.Some? ==> (r.Ok? <==> RecordIds.IdNumber(last.value).Ok?)
    ensures m.medicineId == "" && last.Some? && r.Ok? ==>
      RecordIds.IdNumber(r.value.medicineId) == Ok(RecordIds.IdNumber(last.value).value + 1)
  {
    RecordIds.FirstId(RecordIds.MedicinePrefix);
    assert RecordIds.MedicinePrefix + "-000001" == "MED-000001";
    var id :- RecordIds.AssignId(m.medicineId, RecordIds.MedicinePrefix, last);
    Ok(m.(medicineId := id))
  }

  /** `is_low_stock`: strictly fewer units than the medicine's own reorder level. */
  predicate IsLowStock(m: Medicine) {
    m.quantity < m.reorderLevel
  }

  /** Stock at the reorder level itself is not low, one unit fewer is. */
  lemma LowStockBoundary(m: Medicine)
    ensures !IsLowStock(m.(quantity := m.reorderLevel))
    ensures IsLowStock(m.(quantity := m.reorderLevel - 1))
  {
  }

  /** The dashboard's test: fewer than 50 units, whatever the medicine's
      reorder level. */
  predicate DashboardLow(m: Medicine) {
    m.quantity < 50
  }

  /** The dashboard agrees with `is_low_stock` at every stock level exactly
      when the medicine keeps the default reorder level. */
  lemma DashboardAgreesIffDefaultLevel(m: Medicine)
    ensures (forall q: int :: IsLowStock(m.(quantity := q)) == DashboardLow(m.(quantity := q)))
            <==> m.reorderLevel == DefaultReorderLevel
  {
    if m.reorderLevel < DefaultReorderLevel {
      var w := m.(quantity := m.reorderLevel);
      assert !IsLowStock(w) && DashboardLow(w);
    } else if m.reorderLevel > DefaultReorderLevel {
      var w := m.(quantity := 50);
      assert IsLowStock(w) && !DashboardLow(w);
    }
  }

  /** The dashboard's `low_stock_medicines` count. */
  function DashboardLowStockCount(meds: seq<Medicine>): (n: nat)
    ensures n <= |meds|
    ensures n == |Queries.Filter(meds, DashboardLow)|
  {
    Queries.CountIsFilterLength(meds, DashboardLow);
    Queries.Count(meds, DashboardLow)
  }

  /** The number of medicines `is_low_stock` flags. */
  function LowStockCount(meds: seq<Medicine>): (n: nat)
    ensures n <= |meds|
    ensures n == |Queries.Filter(meds, IsLowStock)|
  {
    Queries.CountIsFilterLength(meds, IsLowStock);
    Queries.Count(meds, IsLowStock)
  }

  /** While every medicine keeps the default reorder level, the dashboard
      counts the medicines `is_low_stock` flags. */
  lemma DashboardCountsLowStock(meds: seq<Medicine>)
    requires forall i :: 0 <= i < |meds| ==> meds[i].reorderLevel == DefaultReorderLevel
    ensures DashboardLowStockCount(meds) == LowStockCount(meds)
  {
    assert forall m :: m in meds ==> (IsLowStock(m) <==> DashboardLow(m));
    Queries.FilterSameOnRows(meds, IsLowStock, DashboardLow);
  }

  /** `medicine_list`: any non-blank `low_stock` parameter keeps only the
      medicines below their own reorder level, in the stored order. */
  function MedicineList(meds: seq<Medicine>, lowStock: string): (r: seq<Medicine>)
    ensures lowStock == "" ==> r == meds
    ensures lowStock != "" ==> forall m :: m in r <==> m in meds && m.quantity < m.reorderLevel
  {
    if lowStock == "" then meds else Queries.Filter(meds, IsLowStock)
  }

  /** The dashboard's count as it evidently means to be taken: one pass
      over the medicines, counting each one below its own reorder level.
      It is the length of the list's low-stock view. */
  method CorrectedDashboardLowStockCount(meds: seq<Medicine>) returns (n: nat)
    ensures n == |MedicineList(meds, "1")|
    ensures n == LowStockCount(meds)
  {
    n := 0;
    var i := 0;
    while i < |meds|
      invariant 0 <= i <= |meds|
      invariant n == |Queries.Filter(meds[..i], IsLowStock)|
    {
      assert meds[..i + 1] == meds[..i] + [meds[i]];
      Queries.FilterAppend(meds[..i], [meds[i]], IsLowStock);
      assert [meds[i]][1..] == [];
      if meds[i].quantity < meds[i].reorderLevel {
        n := n + 1;
      }
      i := i + 1;
    }
    assert meds[..i] == meds;
  }

  /** A medicine whose reorder level was raised is flagged by
      `is_low_stock` but missed by the dashboard. */
  lemma DashboardMissesRaisedLevel()
    ensures var m := Medicine("MED-000001", "Amoxicillin", "tablet", 60, 100, 500);
            IsLowStock(m) && !DashboardLow(m)
            && DashboardLowStockCount([m]) == 0 && LowStockCount([m]) == 1
            && MedicineList([m], "1") == [m]
  {
    var m := Medicine("MED-000001", "Amoxicillin", "tablet", 60, 100, 500);
    assert Queries.Filter([m], DashboardLow) == [] by {
      assert [m][1..] == [];
    }
    assert Queries.Filter([m], IsLowStock) == [m] by {
      assert [m][1..] == [];
    }
  }

  // ---------------------------------------------------------------------
  // Prescriptions

  const PrescriptionStatusChoices: seq<string> := ["pending", "dispensed", "cancelled"]

  const DefaultPrescriptionStatus: string := "pending"

  datatype Prescription = Prescription(
    prescriptionId: string, patientPk: nat, doctorPk: Option<nat>,
    diagnosis: string, status: string)

  /** A newly written prescription: pending and without an ID. */
  function NewPrescription(patientPk: nat, doctorPk: Option<nat>, diagnosis: string): (p: Prescription)
    ensures p.status == DefaultPrescriptionStatus && p.status in PrescriptionStatusChoices
    ensures p.prescriptionId == "" && p.patientPk == patientPk && p.doctorPk == doctorPk
    ensures p.diagnosis == diagnosis
  {
    Prescription("", patientPk, doctorPk, diagnosis, DefaultPrescriptionStatus)
  }

  /** `Prescription.save()`: the next `PRE-` ID, only while the
      prescription has none. */
  function SavePrescription(p: Prescription, last: Option<string>): (r: Result<Prescription>)
    ensures r.Ok? ==> r.value == p.(prescriptionId := r.value.prescriptionId)
    ensures p.prescriptionId != "" ==> r == Ok(p)
    ensures p.prescriptionId == "" && last.None? ==> r == Ok(p.(prescriptionId := "PRE-000001"))
    ensures p.prescriptionId == "" && last.Some? ==> (r.Ok? <==> RecordIds.IdNumber(last.value).Ok?)
    ensures p.prescriptionId == "" && last.Some? && r.Ok? ==>
      RecordIds.IdNumber(r.value.prescriptionId) == Ok(RecordIds.IdNumber(last.value).value + 1)
  {
    RecordIds.FirstId(RecordIds.PrescriptionPrefix);
    assert RecordIds.PrescriptionPrefix + "-000001" == "PRE-000001";
    var id :- RecordIds.AssignId(p.prescriptionId, RecordIds.PrescriptionPrefix, last);
    Ok(p.(prescriptionId := id))
  }
}
