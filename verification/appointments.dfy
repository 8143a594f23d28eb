/** Appointments (appointments/models.py, appointments/views.py,
    appointments/api_views.py): the appointment record and its ID, the
    list filters, the no-show estimate stored when an appointment is
    created, the status update, and the no-show endpoint. Both prediction
    sites build a five-entry row the trained model does not accept and
    read the probability of showing up as the no-show probability; the
    corrected variants go through the no-show predictor instead. */
module Appointments {
  import opened Outcomes
  import opened Records
  import opened Estimators
  import opened Tiers
  import Numbers
  import Queries
  import RecordIds
  import Training
  import Serving
  import Patients

  const StatusChoices: seq<string> := ["scheduled", "confirmed", "completed", "cancelled", "no_show"]

  /** The status a new appointment takes. */
  const DefaultStatus: string := "scheduled"

  datatype Appointment = Appointment(
    pk: nat, appointmentId: string, patientPk: nat, doctorUserPk: nat,
    date: Patients.Date, status: string,
    distance: Option<real>,            // kilometres; blank allowed
    weather: string, smsSent: bool,
    noShowProbability: Option<int>)    // hundredths, as the decimal field stores it

  /** A valid appointment form, saved before any prediction: the status is
      the default and no estimate is stored yet. */
  function NewAppointment(patientPk: nat, doctorUserPk: nat, date: Patients.Date,
                          distance: Option<real>, weather: string, smsSent: bool): (a: Appointment)
    ensures a.status == DefaultStatus && a.status in StatusChoices
    ensures a.appointmentId == "" && a.noShowProbability.None?
    ensures a.patientPk == patientPk && a.distance == distance && a.weather == weather && a.smsSent == smsSent
  {
    Appointment(0, "", patientPk, doctorUserPk, date, DefaultStatus, distance, weather, smsSent, None)
  }

  /** `Appointment.save()`: the next `APT-` ID after the most recently
      created appointment's, only while the appointment has none. */
  function SaveAppointment(a: Appointment, last: Option<string>): (r: Result<Appointment>)
    ensures r.Ok? ==> r.value == a.(appointmentId := r.value.appointmentId)
    ensures a.appointmentId != "" ==> r == Ok(a)
    ensures a.appointmentId == "" && last.None? ==> r == Ok(a.(appointmentId := "APT-000001"))
    ensures a.appointmentId == "" && last.Some? ==> (r.Ok? <==> RecordIds.IdNumber(last.value).Ok?)
    ensures a.appointmentId == "" && last.Some? && r.Ok? ==>
      RecordIds.IdNumber(r.value.appointmentId) == Ok(RecordIds.IdNumber(last.value).value + 1)
  {
    RecordIds.FirstId(RecordIds.AppointmentPrefix);
    assert RecordIds.AppointmentPrefix + "-000001" == "APT-000001";
    var id :- RecordIds.AssignId(a.appointmentId, RecordIds.AppointmentPrefix, last);
    Ok(a.(appointmentId := id))
  }

  // ---------------------------------------------------------------------
  // Listing

  datatype Viewer = Viewer(userPk: nat, role: string)

  /** The conditions of `appointment_list`, each one switched off when its
      parameter is blank or the viewer is not a doctor. */
  predicate OnDate(a: Appointment, date: Option<Patients.Date>) {
    date.None? || a.date == date.value
  }

  predicate HasStatus(a: Appointment, status: string) {
    status == "" || a.status == status
  }

  predicate VisibleTo(a: Appointment, viewer: Viewer) {
    viewer.role != "doctor" || a.doctorUserPk == viewer.userPk
  }

  /** The filters of `appointment_list` once the date is read: the date
      filter, then the status filter, then, for a doctor, only the doctor's
      own appointments. */
  function FilterAppointments(appointments: seq<Appointment>, date: Option<Patients.Date>,
                              status: string, viewer: Viewer): (r: seq<Appointment>)
    ensures forall a :: a in r <==>
      a in appointments && OnDate(a, date) && HasStatus(a, status) && VisibleTo(a, viewer)
  {
    var byDate := if date.Some? then Queries.Filter(appointments, a => OnDate(a, date)) else appointments;
    var byStatus := if status != "" then Queries.Filter(byDate, a => HasStatus(a, status)) else byDate;
    if viewer.role == "doctor" then Queries.Filter(byStatus, a => VisibleTo(a, viewer)) else byStatus
  }

  /** `appointment_list` on the raw `date` parameter: a blank one filters
      nothing, and one the date field cannot read is a validation error
      before anything is listed. */
  function AppointmentList(appointments: seq<Appointment>, date: string,
                           status: string, viewer: Viewer): (r: Result<seq<Appointment>>)
    ensures r.Ok? <==> date == "" || Patients.ParseIsoDate(date).Ok?
    ensures r.Err? ==> r.fault == InvalidDate(date)
    ensures r.Ok? ==> forall a :: a in r.value <==>
      && a in appointments
      && (date == "" || a.date == Patients.ParseIsoDate(date).value)
      && HasStatus(a, status) && VisibleTo(a, viewer)
  {
    if date == "" then Ok(FilterAppointments(appointments, None, status, viewer))
    else
      var day :- Patients.ParseIsoDate(date);
      Ok(FilterAppointments(appointments, Some(day), status, viewer))
  }

  /** The three filters compose into one conjunctive filter over the stored
      order. */
  lemma ListIsConjunction(appointments: seq<Appointment>, date: Option<Patients.Date>,
                          status: string, viewer: Viewer)
    ensures FilterAppointments(appointments, date, status, viewer)
         == Queries.Filter(appointments, a => OnDate(a, date) && HasStatus(a, status) && VisibleTo(a, viewer))
  {
    var d := (a: Appointment) => OnDate(a, date);
    var s := (a: Appointment) => HasStatus(a, status);
    var v := (a: Appointment) => VisibleTo(a, viewer);
    var ds := (a: Appointment) => OnDate(a, date) && HasStatus(a, status);
    var all := (a: Appointment) => OnDate(a, date) && HasStatus(a, status) && VisibleTo(a, viewer);
    if date.None? {
      Queries.FilterKeepsAll(appointments, d);
    }
    var byDate := Queries.Filter(appointments, d);
    if status == "" {
      Queries.FilterKeepsAll(byDate, s);
    }
    Queries.FilterChain(appointments, d, s, ds);
    var byStatus := Queries.Filter(appointments, ds);
    if viewer.role != "doctor" {
      Queries.FilterKeepsAll(byStatus, v);
    }
    Queries.FilterChain(appointments, ds, v, all);
  }

  // ---------------------------------------------------------------------
  // The no-show estimate

  predicate IsNoShowOf(a: Appointment, patientPk: nat) {
    a.patientPk == patientPk && a.status == "no_show"
  }

  /** The number of the patient's appointments marked as no-shows. */
  function PreviousNoShows(appointments: seq<Appointment>, patientPk: nat): (n: nat)
    ensures n <= |appointments|
  {
    Queries.Count(appointments, (a: Appointment) => IsNoShowOf(a, patientPk))
  }

  /** An empty table holds no no-shows; one more appointment raises the
      count by one exactly when it is a no-show of this patient. */
  lemma PreviousNoShowsCountsOwnNoShows(appointments: seq<Appointment>, patientPk: nat, b: Appointment)
    ensures PreviousNoShows([], patientPk) == 0
    ensures b.patientPk == patientPk && b.status == "no_show" ==>
      PreviousNoShows(appointments + [b], patientPk) == PreviousNoShows(appointments, patientPk) + 1
    ensures !(b.patientPk == patientPk && b.status == "no_show") ==>
      PreviousNoShows(appointments + [b], patientPk) == PreviousNoShows(appointments, patientPk)
  {
    Queries.CountAppend(appointments, [b], (a: Appointment) => IsNoShowOf(a, patientPk));
    assert [b][1..] == [];
  }

  /** The row both sites build: age, distance (5 when blank or zero), a
      rainy flag, the earlier no-shows and an SMS flag. */
  function AppointmentVector(patient: Patients.Patient, a: Appointment, previousNoShows: nat,
                             today: Patients.Date): (v: seq<real>)
    ensures |v| == 5
    ensures v[0] == Patients.Age(patient.dateOfBirth, today) as real
    ensures v[1] == Patients.OrDefault(a.distance, 5.0)
    ensures v[2] == 1.0 <==> a.weather == "rainy"
    ensures v[2] == 0.0 <==> a.weather != "rainy"
    ensures v[3] == previousNoShows as real
    ensures v[4] == 1.0 <==> a.smsSent
    ensures v[4] == 0.0 <==> !a.smsSent
  {
    [Patients.Age(patient.dateOfBirth, today) as real,
     Patients.OrDefault(a.distance, 5.0),
     if a.weather == "rainy" then 1.0 else 0.0,
     previousNoShows as real,
     if a.smsSent then 1.0 else 0.0]
  }

  /** The row disagrees with the model's four trained columns in length and
      position: the trained first column is the distance, not the age, and
      sunny and cloudy get the same weather flag although the encoder tells
      them apart. */
  lemma AppointmentVectorMisfits(patient: Patients.Patient, a: Appointment, b: Appointment, n: nat, today: Patients.Date)
    requires a == b.(weather := "sunny") && b.weather == "cloudy"
    ensures |AppointmentVector(patient, a, n, today)| != |Training.NoShowModelColumns|
    ensures Training.NoShowModelColumns[0] == "distance_from_hospital"
    ensures AppointmentVector(patient, a, n, today) == AppointmentVector(patient, b, n, today)
  {
    Training.ModelWidths();
  }

  /** The probability the sites read: column 1 of the probability row. */
  function SecondColumn(m: Classifier<real>, x: seq<real>): (r: Result<real>)
    ensures r.Ok? <==> |x| == m.nFeatures && |m.proba(x)| >= 2
    ensures r.Ok? ==> r.value == m.proba(x)[1]
  {
    var ps :- PredictProba(m, x);
    if |ps| < 2 then Err(IndexOutOfRange(1)) else Ok(ps[1])
  }

  datatype Created = Created(saved: Appointment, highRiskWarning: bool)

  /** `appointment_create` once the form is saved: when the model file
      exists and the prediction succeeds, the estimate rounded to
      hundredths is stored and a warning is raised above 0.7; any failure
      is swallowed and the appointment is kept as saved. `table` holds the
      appointments after the save. */
  function CreateAppointment(a: Appointment, patient: Patients.Patient, table: seq<Appointment>,
                             today: Patients.Date, model: Artifact<Classifier<real>>): (c: Created)
    ensures c.saved == a.(noShowProbability := c.saved.noShowProbability)
    ensures (
      var x := AppointmentVector(patient, a, PreviousNoShows(table, a.patientPk), today);
      && (model.Stored? && SecondColumn(model.model, x).Ok? ==>
           && c.saved.noShowProbability == Some(Numbers.RoundHundredths(SecondColumn(model.model, x).value))
           && (c.highRiskWarning <==> SecondColumn(model.model, x).value > 0.7))
      && (!(model.Stored? && SecondColumn(model.model, x).Ok?) ==> c == Created(a, false)))
  {
    var x := AppointmentVector(patient, a, PreviousNoShows(table, a.patientPk), today);
    match (var m :- Load(model); SecondColumn(m, x))
    case Ok(p) => Created(a.(noShowProbability := Some(Numbers.RoundHundredths(p))), p > 0.7)
    case Err(_) => Created(a, false)
  }

  /** Whatever the model does, creation goes ahead: the appointment is kept
      and only its estimate can change. */
  lemma CreationNeverBlocked(a: Appointment, patient: Patients.Patient, table: seq<Appointment>,
                             today: Patients.Date, model: Artifact<Classifier<real>>)
    ensures CreateAppointment(a, patient, table, today, model).saved.appointmentId == a.appointmentId
    ensures CreateAppointment(a, patient, table, today, model).saved.status == a.status
  {
  }

  /** A stored estimate of a probability fits the field's three digits with
      two decimals. */
  lemma StoredEstimateFits(a: Appointment, patient: Patients.Patient, table: seq<Appointment>,
                           today: Patients.Date, model: Artifact<Classifier<real>>)
    requires a.noShowProbability.None?
    requires model.Stored? ==> forall x :: forall k :: 0 <= k < |model.model.proba(x)| ==>
      0.0 <= model.model.proba(x)[k] <= 1.0
    ensures CreateAppointment(a, patient, table, today, model).saved.noShowProbability.Some? ==>
      0 <= CreateAppointment(a, patient, table, today, model).saved.noShowProbability.value <= 100
  {
    if model.Stored? {
      var x := AppointmentVector(patient, a, PreviousNoShows(table, a.patientPk), today);
      if SecondColumn(model.model, x).Ok? {
        Numbers.RoundHundredthsOfProbability(model.model.proba(x)[1]);
      }
    }
  }

  /** As written: the trained no-show model expects four columns and
      rejects the five-entry row, so no estimate is ever stored and no
      warning is raised. */
  lemma CreateNeverEstimates(a: Appointment, patient: Patients.Patient, table: seq<Appointment>,
                             today: Patients.Date, m: Classifier<real>)
    requires m.nFeatures == |Training.NoShowModelColumns|
    ensures CreateAppointment(a, patient, table, today, Stored(m)) == Created(a, false)
  {
    Training.ModelWidths();
  }

  /** As written: whenever an estimate is stored by a model with the
      trained classes, it is the probability of class 1, which the training
      report names "Showed Up". */
  lemma StoredEstimateIsShowUp(a: Appointment, patient: Patients.Patient, table: seq<Appointment>,
                               today: Patients.Date, m: Classifier<real>)
    requires m.classes == [0.0, 1.0]
    requires CreateAppointment(a, patient, table, today, Stored(m)).saved.noShowProbability
          != a.noShowProbability
    ensures (
      var x := AppointmentVector(patient, a, PreviousNoShows(table, a.patientPk), today);
      && |m.proba(x)| >= 2
      && CreateAppointment(a, patient, table, today, Stored(m)).saved.noShowProbability
           == Some(Numbers.RoundHundredths(m.proba(x)[1]))
      && Training.NoShowTargetNames[m.classes[1].Floor] == "Showed Up")
  {
  }

  /** The record the no-show predictor reads, built from the appointment. */
  function AppointmentRecord(a: Appointment, previousNoShows: nat): (rec: Record)
    ensures Select(rec, Training.NoShowBaseColumns)
         == Ok([Patients.OrDefault(a.distance, 5.0), previousNoShows as real, if a.smsSent then 1.0 else 0.0])
    ensures Training.TextAt(rec, "weather_condition") == Ok(a.weather)
  {
    var rec := map[
      "distance_from_hospital" := Num(Patients.OrDefault(a.distance, 5.0)),
      "previous_no_shows" := Num(previousNoShows as real),
      "sms_sent" := Num(if a.smsSent then 1.0 else 0.0),
      "weather_condition" := Text(a.weather)];
    var columns := Training.NoShowBaseColumns;
    assert Number(rec, columns[0]).Ok? && Number(rec, columns[1]).Ok? && Number(rec, columns[2]).Ok?;
    assert Select(rec, columns).value
        == [Patients.OrDefault(a.distance, 5.0), previousNoShows as real, if a.smsSent then 1.0 else 0.0];
    rec
  }

  /** Corrected: the estimate comes from the no-show predictor with the
      persisted weather encoder, and is its no-show probability. */
  function CreateAppointmentCorrected(a: Appointment, table: seq<Appointment>,
                                      model: Artifact<Classifier<real>>, encoder: Artifact<seq<string>>): (c: Created)
    ensures c.saved == a.(noShowProbability := c.saved.noShowProbability)
    ensures (
      var rec := AppointmentRecord(a, PreviousNoShows(table, a.patientPk));
      && (Serving.PredictNoShowEncoded(model, encoder, rec).Ok? ==>
           && c.saved.noShowProbability
                == Some(Numbers.RoundHundredths(Serving.PredictNoShowEncoded(model, encoder, rec).value.noShowProbability))
           && (c.highRiskWarning <==> Serving.PredictNoShowEncoded(model, encoder, rec).value.noShowProbability > 0.7))
      && (Serving.PredictNoShowEncoded(model, encoder, rec).Err? ==> c == Created(a, false)))
  {
    var rec := AppointmentRecord(a, PreviousNoShows(table, a.patientPk));
    match Serving.PredictNoShowEncoded(model, encoder, rec)
    case Ok(result) =>
      Created(a.(noShowProbability := Some(Numbers.RoundHundredths(result.noShowProbability))),
              result.noShowProbability > 0.7)
    case Err(_) => Created(a, false)
  }

  /** With the trained model and encoder, the corrected creation feeds the
      model its four trained columns, and the stored estimate is column 0,
      the class the training report names "No Show". */
  lemma CorrectedCreationReadsNoShow(a: Appointment, table: seq<Appointment>, m: Classifier<real>, weatherClasses: seq<string>)
    requires m.nFeatures == |Training.NoShowModelColumns| && m.classes == [0.0, 1.0]
    requires a.weather in weatherClasses
    ensures Serving.EncodedNoShowVector(AppointmentRecord(a, PreviousNoShows(table, a.patientPk)), weatherClasses).Ok?
    ensures |Serving.EncodedNoShowVector(AppointmentRecord(a, PreviousNoShows(table, a.patientPk)), weatherClasses).value| == m.nFeatures
    ensures Training.NoShowTargetNames[m.classes[0].Floor] == "No Show"
    ensures (
      var rec := AppointmentRecord(a, PreviousNoShows(table, a.patientPk));
      var ps := m.proba(Serving.EncodedNoShowVector(rec, weatherClasses).value);
      Serving.PredictNoShowEncoded(Stored(m), Stored(weatherClasses), rec).Ok? ==>
        CreateAppointmentCorrected(a, table, Stored(m), Stored(weatherClasses)).saved.noShowProbability
          == Some(Numbers.RoundHundredths(ps[0])))
  {
    Training.ModelWidths();
  }

  // ---------------------------------------------------------------------
  // Status update

  /** `appointment_update_status`: the posted status is taken only when it
      is one of the five choices; anything else (or nothing) leaves the
      appointment as it is. */
  function UpdateStatus(a: Appointment, posted: Option<string>): (r: Appointment)
    ensures posted.Some? && posted.value in StatusChoices ==> r == a.(status := posted.value)
    ensures !(posted.Some? && posted.value in StatusChoices) ==> r == a
  {
    if posted.Some? && posted.value in StatusChoices then a.(status := posted.value) else a
  }

  /** A status update never leaves the set of choices, and repeating it
      changes nothing. */
  lemma UpdateStatusKeepsChoices(a: Appointment, posted: Option<string>)
    requires a.status in StatusChoices
    ensures UpdateStatus(a, posted).status in StatusChoices
    ensures UpdateStatus(UpdateStatus(a, posted), posted) == UpdateStatus(a, posted)
  {
  }

  // ---------------------------------------------------------------------
  // The no-show endpoint

  datatype NoShowReply = NoShowReply(appointmentId: string, noShowProbability: real, riskLevel: string)

  /** `predict_noshow`: column 1 of the probability row as the no-show
      probability, banded with the shared tiers, or (status 500) only the
      error. */
  function ApiPredictNoShow(a: Appointment, patient: Patients.Patient, table: seq<Appointment>,
                            today: Patients.Date, model: Artifact<Classifier<real>>): (r: Result<NoShowReply>)
    ensures (
      var x := AppointmentVector(patient, a, PreviousNoShows(table, a.patientPk), today);
      && (r.Ok? <==> model.Stored? && SecondColumn(model.model, x).Ok?)
      && (r.Ok? ==> r.value.noShowProbability == SecondColumn(model.model, x).value))
    ensures r.Ok? ==> r.value.appointmentId == a.appointmentId
    ensures r.Ok? ==> r.value.riskLevel == TierName(TierOf(r.value.noShowProbability))
  {
    var m :- Load(model);
    var x := AppointmentVector(patient, a, PreviousNoShows(table, a.patientPk), today);
    var p :- SecondColumn(m, x);
    Ok(NoShowReply(a.appointmentId, p, TierName(TierOf(p))))
  }

  /** As written: the endpoint and the creation view read the same column
      of the same row, and with the trained model the endpoint always
      answers with an error. */
  lemma ApiNoShowMatchesCreation(a: Appointment, patient: Patients.Patient, table: seq<Appointment>,
                                 today: Patients.Date, m: Classifier<real>)
    ensures ApiPredictNoShow(a, patient, table, today, Stored(m)).Ok? ==>
      CreateAppointment(a, patient, table, today, Stored(m)).saved.noShowProbability
        == Some(Numbers.RoundHundredths(ApiPredictNoShow(a, patient, table, today, Stored(m)).value.noShowProbability))
    ensures m.nFeatures == |Training.NoShowModelColumns| ==> ApiPredictNoShow(a, patient, table, today, Stored(m)).Err?
  {
    Training.ModelWidths();
  }

  /** Corrected: the endpoint answers with the no-show predictor's
      estimate for the appointment's record. */
  function ApiPredictNoShowCorrected(a: Appointment, table: seq<Appointment>,
                                     model: Artifact<Classifier<real>>, encoder: Artifact<seq<string>>): (r: Result<NoShowReply>)
    ensures r.Ok? <==> Serving.PredictNoShowEncoded(model, encoder, AppointmentRecord(a, PreviousNoShows(table, a.patientPk))).Ok?
    ensures r.Ok? ==> (r.value.noShowProbability
      == Serving.PredictNoShowEncoded(model, encoder, AppointmentRecord(a, PreviousNoShows(table, a.patientPk))).value.noShowProbability)
    ensures r.Ok? ==> r.value.riskLevel == TierName(TierOf(r.value.noShowProbability))
  {
    var result :- Serving.PredictNoShowEncoded(model, encoder, AppointmentRecord(a, PreviousNoShows(table, a.patientPk)));
    Ok(NoShowReply(a.appointmentId, result.noShowProbability, result.riskLevel))
  }
}
