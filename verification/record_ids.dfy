/** Human-readable record IDs: a prefix, a dash and a sequence number
    zero-padded to six digits (patients/models.py, appointments/models.py,
    laboratory/models.py, pharmacy/models.py, billing/models.py). A new
    record takes the number of the most recently created row plus one. */
module RecordIds {
  import opened Outcomes
  import opened Text

  const PatientPrefix: string := "PAT"
  const AppointmentPrefix: string := "APT"
  const LabTestPrefix: string := "LAB"
  const MedicinePrefix: string := "MED"
  const PrescriptionPrefix: string := "PRE"
  const BillPrefix: string := "BILL"

  const IdWidth: nat := 6

  /** The prefixes the source uses; none contains the separator. */
  predicate IsPrefix(p: string) {
    p in [PatientPrefix, AppointmentPrefix, LabTestPrefix, MedicinePrefix, PrescriptionPrefix, BillPrefix]
  }

  /** `f'{prefix}-{n:06d}'`. */
  function FormatId(prefix: string, n: nat): string {
    prefix + "-" + ZeroPad(n, IdWidth)
  }

  /** `int(id.split('-')[1])`: an IndexError when the ID has no dash, a
      ValueError when the second piece is not a number. */
  function IdNumber(id: string): (r: Result<nat>)
    ensures '-' !in id ==> r.Err?
  {
    var parts := Split(id, '-');
    if |parts| < 2 then Err(IndexOutOfRange(1)) else ParseNat(parts[1])
  }

  /** Parsing a formatted ID gives back its number. */
  lemma IdRoundTrip(prefix: string, n: nat)
    requires '-' !in prefix
    ensures IdNumber(FormatId(prefix, n)) == Ok(n)
  {
    var pad := ZeroPad(n, IdWidth);
    assert '-' !in pad;
    assert FormatId(prefix, n) == prefix + ['-'] + pad;
    SplitFront(prefix, '-', pad);
    assert Split(pad, '-') == [pad];
  }

  /** Different numbers give different IDs under one prefix. */
  lemma FormatIdInjective(prefix: string, a: nat, b: nat)
    requires '-' !in prefix
    requires FormatId(prefix, a) == FormatId(prefix, b)
    ensures a == b
  {
    IdRoundTrip(prefix, a);
    IdRoundTrip(prefix, b);
  }

  /** The first ID of a table is number 1 written with six digits. */
  lemma FirstId(prefix: string)
    ensures FormatId(prefix, 1) == prefix + "-000001"
  {
    assert Digits(1) == "1";
    assert Zeros(5) == "00000";
    assert ZeroPad(1, IdWidth) == "000001";
    assert "-" + "000001" == "-000001";
    assert FormatId(prefix, 1) == prefix + ("-" + "000001");
  }

  /** The ID a new record receives, given the ID of the most recently
      created row of its table (`None` when the table is empty). */
  function NextId(prefix: string, last: Option<string>): (r: Result<string>)
    requires '-' !in prefix
    ensures last.None? ==> r == Ok(FormatId(prefix, 1))
    ensures last.Some? ==> (r.Ok? <==> IdNumber(last.value).Ok?)
    ensures last.Some? && r.Ok? ==> IdNumber(r.value) == Ok(IdNumber(last.value).value + 1)
    ensures last.Some? && r.Ok? ==> r.value == FormatId(prefix, IdNumber(last.value).value + 1)
  {
    match last
    case None =>
      FirstId(prefix);
      Ok(prefix + "-000001")
    case Some(id) =>
      match IdNumber(id)
      case Err(f) => Err(f)
      case Ok(n) =>
        IdRoundTrip(prefix, n + 1);
        Ok(FormatId(prefix, n + 1))
  }

  /** `save()`: an ID is generated only while the record has none; a record
      that already has one keeps it. */
  function AssignId(current: string, prefix: string, last: Option<string>): (r: Result<string>)
    requires '-' !in prefix
    ensures current != "" ==> r == Ok(current)
    ensures current == "" ==> r == NextId(prefix, last)
  {
    if current != "" then Ok(current) else NextId(prefix, last)
  }

  /** Saving one more record after the records with IDs `ids`. */
  function IssueNext(prefix: string, ids: seq<string>): Result<seq<string>>
    requires '-' !in prefix
  {
    var last := if ids == [] then None else Some(ids[|ids| - 1]);
    match AssignId("", prefix, last)
    case Err(f) => Err(f)
    case Ok(id) => Ok(ids + [id])
  }

  /** The IDs of `k` records saved one after another into an empty table. */
  function IssueIds(prefix: string, k: nat): Result<seq<string>>
    requires '-' !in prefix
  {
    if k == 0 then Ok([])
    else
      match IssueIds(prefix, k - 1)
      case Err(f) => Err(f)
      case Ok(ids) => IssueNext(prefix, ids)
  }

  /** The IDs numbered 1..k under one prefix. */
  function Numbered(prefix: string, k: nat): (ids: seq<string>)
    ensures |ids| == k
  {
    if k == 0 then [] else Numbered(prefix, k - 1) + [FormatId(prefix, k)]
  }

  /** The `j`-th of them carries the number `j + 1`. */
  lemma {:induction false} NumberedAt(prefix: string, k: nat, j: nat)
    requires j < k
    ensures Numbered(prefix, k)[j] == FormatId(prefix, j + 1)
  {
    if j < k - 1 {
      NumberedAt(prefix, k - 1, j);
    }
  }

  /** After records numbered 1..k-1, the next record is numbered k. */
  lemma IssueNextNumbersInOrder(prefix: string, k: nat)
    requires '-' !in prefix && k >= 1
    ensures IssueNext(prefix, Numbered(prefix, k - 1)) == Ok(Numbered(prefix, k))
  {
    var ids := Numbered(prefix, k - 1);
    var last := if ids == [] then None else Some(ids[|ids| - 1]);
    assert AssignId("", prefix, last) == Ok(FormatId(prefix, k)) by {
      if k > 1 {
        assert last == Some(FormatId(prefix, k - 1));
        IdRoundTrip(prefix, k - 1);
      }
    }
  }

  /** Saving `k` records into an empty table numbers them 1..k, so the IDs
      are pairwise distinct. */
  lemma {:induction false} IssueIdsNumbersInOrder(prefix: string, k: nat)
    requires '-' !in prefix
    ensures IssueIds(prefix, k) == Ok(Numbered(prefix, k))
  {
    if k > 0 {
      IssueIdsNumbersInOrder(prefix, k - 1);
      IssueNextNumbersInOrder(prefix, k);
    }
  }

  lemma IssuedIdsDistinct(prefix: string, k: nat, i: nat, j: nat)
    requires '-' !in prefix
    requires i < j < k
    ensures IssueIds(prefix, k).Ok? && |IssueIds(prefix, k).value| == k
    ensures IssueIds(prefix, k).value[i] != IssueIds(prefix, k).value[j]
  {
    IssueIdsNumbersInOrder(prefix, k);
    NumberedAt(prefix, k, i);
    NumberedAt(prefix, k, j);
    if FormatId(prefix, i + 1) == FormatId(prefix, j + 1) {
      FormatIdInjective(prefix, i + 1, j + 1);
    }
  }
}
