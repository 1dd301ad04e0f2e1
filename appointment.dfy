/** backend/src/controllers/appointment.controller.js: the appointment list
    (scoped to the caller when the caller is a patient), lookup, booking,
    update, cancellation and completion. */
module AppointmentController {
  import opened Base
  import opened Schema
  import opened Sql

  // ---------------------------------------------------------------------
  // getAllAppointments
  // ---------------------------------------------------------------------

  /** A row of `appointments a JOIN patients pt ON a.patient_id = pt.id
      JOIN users p ON pt.user_id = p.id`. The `LEFT JOIN users d` supplies
      display columns only. */
  type AppointmentRow = (Row<Appointment>, (Row<Patient>, Row<User>))

  predicate AppointmentJoined(a: Row<Appointment>, pu: (Row<Patient>, Row<User>)) {
    a.data.patientId == pu.0.id
  }

  function AppointmentView(x: AppointmentRow): (v: View)
    ensures PatientRef in v && v[PatientRef] == Int(x.0.data.patientId)
    ensures DoctorRef in v && v[DoctorRef] == Int(x.0.data.doctorId)
    ensures Status in v && v[Status] == Str(x.0.data.status)
    ensures FirstName in v && v[FirstName] == Str(x.1.1.data.firstName)
    ensures LastName in v && v[LastName] == Str(x.1.1.data.lastName)
    ensures PatientCode in v && v[PatientCode] == Str(x.1.0.data.code)
  {
    map[PatientRef := Int(x.0.data.patientId), DoctorRef := Int(x.0.data.doctorId),
        Status := Str(x.0.data.status), FirstName := Str(x.1.1.data.firstName),
        LastName := Str(x.1.1.data.lastName), PatientCode := Str(x.1.0.data.code)]
  }

  predicate AppointmentSearchHit(x: AppointmentRow, term: string) {
    || Contains(x.1.1.data.firstName, term) || Contains(x.1.1.data.lastName, term)
    || Contains(x.1.0.data.code, term)
  }

  /** The request filters after the patient scope: search, status, doctor
      and patient, the last ignored for a patient caller. */
  predicate AppointmentFiltered(callerIsPatient: bool, search: Option<string>, status: Option<string>,
                                doctorId: Option<nat>, patientId: Option<nat>, x: AppointmentRow) {
    && (Given(search) ==> AppointmentSearchHit(x, search.value))
    && (Given(status) ==> x.0.data.status == status.value)
    && (doctorId.Some? ==> x.0.data.doctorId == doctorId.value)
    && (patientId.Some? && !callerIsPatient ==> x.0.data.patientId == patientId.value)
  }

  /** The meaning of the filters: the patient scope, then the request filters. */
  predicate AppointmentListed(own: Option<nat>, callerIsPatient: bool, search: Option<string>,
                              status: Option<string>, doctorId: Option<nat>, patientId: Option<nat>,
                              x: AppointmentRow) {
    && (own.Some? ==> x.0.data.patientId == own.value)
    && AppointmentFiltered(callerIsPatient, search, status, doctorId, patientId, x)
  }

  /** The conditions the query string adds after the scope. */
  method AppointmentFilters(q0: Query, paramCount0: nat, callerIsPatient: bool, search: Option<string>,
                            status: Option<string>, doctorId: Option<nat>, patientId: Option<nat>)
    returns (q: Query, paramCount: nat)
    requires Numbered(q0) && paramCount0 == |q0.params| + 1
    ensures Numbered(q) && paramCount == |q.params| + 1
    ensures forall x :: Admits(q, AppointmentView(x)) <==>
                        Admits(q0, AppointmentView(x)) &&
                        AppointmentFiltered(callerIsPatient, search, status, doctorId, patientId, x)
  {
    q, paramCount := AppointmentSearch(q0, paramCount0, search);
    q, paramCount := AndIf(q, paramCount, Given(status), Eq(Status, paramCount), OptStr(status));
    q, paramCount := AndIf(q, paramCount, doctorId.Some?, Eq(DoctorRef, paramCount), OptInt(doctorId));
    q, paramCount := AndIf(q, paramCount, patientId.Some? && !callerIsPatient, Eq(PatientRef, paramCount), OptInt(patientId));
  }

  /** The search condition over the patient's names and code. */
  method AppointmentSearch(q0: Query, paramCount0: nat, search: Option<string>) returns (q: Query, paramCount: nat)
    requires Numbered(q0) && paramCount0 == |q0.params| + 1
    ensures Numbered(q) && paramCount == |q.params| + 1
    ensures forall x :: Admits(q, AppointmentView(x)) <==>
                        Admits(q0, AppointmentView(x)) && (Given(search) ==> AppointmentSearchHit(x, search.value))
  {
    var like := AnyLike([FirstName, LastName, PatientCode], paramCount0);
    q, paramCount := AndIf(q0, paramCount0, Given(search), like, OptPattern(search));
    forall x | Given(search)
      ensures Test(like, OptPattern(search), AppointmentView(x)) <==> AppointmentSearchHit(x, search.value) {
      LikeAny3(FirstName, LastName, PatientCode, like.p, OptPattern(search), AppointmentView(x));
    }
  }

  method AppointmentQuery(own: Option<nat>, callerIsPatient: bool, search: Option<string>,
                          status: Option<string>, doctorId: Option<nat>, patientId: Option<nat>)
    returns (q: Query)
    ensures Numbered(q)
    ensures forall x :: Admits(q, AppointmentView(x)) <==>
                        AppointmentListed(own, callerIsPatient, search, status, doctorId, patientId, x)
  {
    q := Query([], []);
    var paramCount := 1;
    q, paramCount := AndIf(q, paramCount, own.Some?, Eq(PatientRef, paramCount), OptInt(own));
    q, paramCount := AppointmentFilters(q, paramCount, callerIsPatient, search, status, doctorId, patientId);
  }

  /** `getAllAppointments`; the `ORDER BY` on date and time is not modelled. */
  method GetAllAppointments(t: Tables, caller: Option<Caller>, search: Option<string>, status: Option<string>,
                            doctorId: Option<nat>, patientId: Option<nat>)
    returns (rows: seq<AppointmentRow>)
    ensures forall x :: x in rows <==>
              && x.0 in t.appointments && x.1.0 in t.patients && x.1.1 in t.users
              && AppointmentJoined(x.0, x.1) && PatientJoined(x.1.0, x.1.1)
              && AppointmentListed(OwnPatient(t, caller), CallerIsPatient(caller), search, status,
                                   doctorId, patientId, x)
    ensures forall x :: multiset(rows)[x] ==
              if AppointmentListed(OwnPatient(t, caller), CallerIsPatient(caller), search, status,
                                   doctorId, patientId, x)
              then multiset(Pairs(t.appointments, Pairs(t.patients, t.users, PatientJoined), AppointmentJoined))[x]
              else 0
  {
    var own := OwnPatient(t, caller);
    var q := AppointmentQuery(own, CallerIsPatient(caller), search, status, doctorId, patientId);
    var joined := Pairs(t.appointments, Pairs(t.patients, t.users, PatientJoined), AppointmentJoined);
    rows := Select(joined, AppointmentView, q);
    SelectCounts(joined, AppointmentView, q);
  }

  /** A patient caller who has a patients row sees only appointments of that
      row, whatever `patient_id` the query string names. */
  lemma PatientSeesOwn(own: nat, search: Option<string>, status: Option<string>, doctorId: Option<nat>,
                       patientId: Option<nat>, x: AppointmentRow)
    ensures AppointmentListed(Some(own), true, search, status, doctorId, patientId, x) ==>
              x.0.data.patientId == own
    ensures AppointmentListed(Some(own), true, search, status, doctorId, patientId, x) <==>
              AppointmentListed(Some(own), true, search, status, doctorId, None, x)
  {
  }

  /** A patient caller with no patients row (a self-registered account) is
      not scoped: the filters apply as for staff, except `patient_id`. */
  lemma UnlinkedPatientUnscoped(search: Option<string>, status: Option<string>, doctorId: Option<nat>,
                                patientId: Option<nat>, x: AppointmentRow)
    ensures AppointmentListed(None, true, search, status, doctorId, patientId, x) <==>
              AppointmentListed(None, false, search, status, doctorId, None, x)
  {
  }

  // ---------------------------------------------------------------------
  // getAppointmentById
  // ---------------------------------------------------------------------

  /** The object `getAppointmentById` sends: the columns of `a.*`, then
      `pt.patient_id` and the patient's names. The patient code comes later
      under the same name as the appointment's foreign key and overwrites it,
      so `patientId` is the `PAT…` code and the key itself is not sent. */
  datatype AppointmentDetail = AppointmentDetail(
    id: nat,
    patientId: string,
    doctorId: nat,
    date: nat,
    time: nat,
    reason: Option<string>,
    status: string,
    notes: Option<string>,
    patientName: PersonName)

  function AppointmentSent(r: Row<Appointment>, p: Row<Patient>, u: Row<User>): AppointmentDetail {
    AppointmentDetail(r.id, p.data.code, r.data.doctorId, r.data.date, r.data.time, r.data.reason,
                      r.data.status, r.data.notes, NameOf(u))
  }

  function GetAppointmentById(t: Tables, id: nat): (resp: Response<AppointmentDetail>)
    ensures !resp.Ok? <==> id !in Keys(t.appointments) ||
                           var r := t.appointments[IndexOf(t.appointments, id).value];
                           r.data.patientId !in Keys(t.patients) ||
                           t.patients[IndexOf(t.patients, r.data.patientId).value].data.userId !in Keys(t.users)
    ensures resp.Ok? ==>
              && IndexOf(t.appointments, id).Some?
              && var r := t.appointments[IndexOf(t.appointments, id).value];
              && IndexOf(t.patients, r.data.patientId).Some?
              && var p := t.patients[IndexOf(t.patients, r.data.patientId).value];
              && IndexOf(t.users, p.data.userId).Some?
              && resp.value.id == id
              && resp.value.patientId == p.data.code
              && resp.value.doctorId == r.data.doctorId
              && resp.value.date == r.data.date && resp.value.time == r.data.time
              && resp.value.reason == r.data.reason && resp.value.status == r.data.status
              && resp.value.notes == r.data.notes
              && resp.value.patientName == NameOf(t.users[IndexOf(t.users, p.data.userId).value])
    ensures resp.Ok? || resp == NotFound("Appointment not found")
  {
    match IndexOf(t.appointments, id)
    case None => NotFound("Appointment not found")
    case Some(i) =>
      match IndexOf(t.patients, t.appointments[i].data.patientId)
      case None => NotFound("Appointment not found")
      case Some(j) =>
        match IndexOf(t.users, t.patients[j].data.userId)
        case None => NotFound("Appointment not found")
        case Some(k) => Ok(AppointmentSent(t.appointments[i], t.patients[j], t.users[k]))
  }
  /** With unique keys, `getAppointmentById` answers the row of the join
      `appointments JOIN patients JOIN users` with that id, and 404 exactly when
      the join has none. */
  lemma AppointmentByIdIsJoinRow(t: Tables, id: nat)
    requires UniqueKeys(t.appointments) && UniqueKeys(t.patients) && UniqueKeys(t.users)
    ensures GetAppointmentById(t, id).Ok? <==>
              exists r, p, u :: && r in t.appointments && p in t.patients && u in t.users
                                && AppointmentJoined(r, (p, u)) && PatientJoined(p, u) && r.id == id
    ensures forall r, p, u :: && r in t.appointments && p in t.patients && u in t.users
                              && AppointmentJoined(r, (p, u)) && PatientJoined(p, u) && r.id == id ==>
              GetAppointmentById(t, id) == Ok(AppointmentSent(r, p, u))
  {
    forall r, p, u | && r in t.appointments && p in t.patients && u in t.users
                     && AppointmentJoined(r, (p, u)) && PatientJoined(p, u) && r.id == id
      ensures GetAppointmentById(t, id) == Ok(AppointmentSent(r, p, u))
    {
      AppointmentJoinRowFound(t, id, r, p, u);
    }
    if GetAppointmentById(t, id).Ok? {
      var r := t.appointments[IndexOf(t.appointments, id).value];
      var p := t.patients[IndexOf(t.patients, r.data.patientId).value];
      var u := t.users[IndexOf(t.users, p.data.userId).value];
      assert AppointmentJoined(r, (p, u)) && PatientJoined(p, u);
    }
  }
  lemma AppointmentJoinRowFound(t: Tables, id: nat, r: Row<Appointment>, p: Row<Patient>, u: Row<User>)
    requires UniqueKeys(t.appointments) && UniqueKeys(t.patients) && UniqueKeys(t.users)
    requires r in t.appointments && p in t.patients && u in t.users
    requires AppointmentJoined(r, (p, u)) && PatientJoined(p, u) && r.id == id
    ensures GetAppointmentById(t, id) == Ok(AppointmentSent(r, p, u))
  {
    var i :| 0 <= i < |t.appointments| && t.appointments[i] == r;
    var j :| 0 <= j < |t.patients| && t.patients[j] == p;
    var k :| 0 <= k < |t.users| && t.users[k] == u;
    IndexOfKey(t.appointments, i);
    IndexOfKey(t.patients, j);
    IndexOfKey(t.users, k);
  }



  // ---------------------------------------------------------------------
  // createAppointment
  // ---------------------------------------------------------------------

  datatype AppointmentRequest = AppointmentRequest(
    patientId: Option<nat>,
    doctorId: Option<nat>,
    date: Option<nat>,
    time: Option<nat>,
    reason: Option<string>)

  predicate AppointmentFieldsGiven(r: AppointmentRequest) {
    GivenNat(r.patientId) && GivenNat(r.doctorId) && r.date.Some? && r.time.Some?
  }

  function NewAppointment(r: AppointmentRequest): (a: Appointment)
    requires AppointmentFieldsGiven(r)
    ensures a.status == "scheduled" && a.notes.None?
    ensures a.patientId == r.patientId.value && a.doctorId == r.doctorId.value
    ensures a.date == r.date.value && a.time == r.time.value && a.reason == r.reason
  {
    Appointment(r.patientId.value, r.doctorId.value, r.date.value, r.time.value, r.reason, "scheduled", None)
  }

  /** Booking succeeds exactly when both keys exist; the `doctor_id` may name
      any user, not only a doctor. */
  lemma BookingAccepted(r: AppointmentRequest, patients: set<nat>, users: set<nat>)
    requires AppointmentFieldsGiven(r)
    ensures AppointmentError(NewAppointment(r), patients, users).None? <==>
              r.patientId.value in patients && r.doctorId.value in users
  {
  }

  method CreateAppointment(db: Store, r: AppointmentRequest) returns (resp: Response<Row<Appointment>>)
    requires db.Valid()
    modifies db
    ensures db.Valid()
    ensures !AppointmentFieldsGiven(r) ==>
              resp == BadRequest("Required fields missing") && db.Snapshot() == old(db.Snapshot()) &&
              db.next == old(db.next)
    ensures AppointmentFieldsGiven(r) ==>
              var a, id := NewAppointment(r), old(db.next.appointments);
              if AppointmentError(a, Keys(old(db.patients)), Keys(old(db.users))).None? then
                resp == Created(Row(id, a)) &&
                db.Snapshot() == old(db.Snapshot()).(appointments := old(db.appointments) + [Row(id, a)])
              else
                resp == ServerError("Failed to create appointment") && db.Snapshot() == old(db.Snapshot())
  {
    if !AppointmentFieldsGiven(r) {
      return BadRequest("Required fields missing");
    }
    var a := NewAppointment(r);
    var id, err := db.InsertAppointment(a);
    if err.Some? {
      return ServerError("Failed to create appointment");
    }
    resp := Created(Row(id, a));
  }

  // ---------------------------------------------------------------------
  // updateAppointment, cancelAppointment, completeAppointment
  // ---------------------------------------------------------------------

  datatype AppointmentUpdate = AppointmentUpdate(
    date: Option<nat>,
    time: Option<nat>,
    reason: Option<string>,
    notes: Option<string>,
    status: Option<string>)

  function AppointmentPatched(a: Appointment, r: AppointmentUpdate): Appointment {
    a.(date := Coalesce(r.date, a.date), time := Coalesce(r.time, a.time),
       reason := CoalesceNull(r.reason, a.reason), notes := CoalesceNull(r.notes, a.notes),
       status := Coalesce(r.status, a.status))
  }

  /** An update never moves an appointment to another patient or doctor;
      an empty update keeps the row; applying it twice is applying it once. */
  lemma AppointmentPatchedKeeps(a: Appointment, r: AppointmentUpdate)
    ensures var a' := AppointmentPatched(a, r);
            && a'.patientId == a.patientId && a'.doctorId == a.doctorId
            && AppointmentPatched(a, AppointmentUpdate(None, None, None, None, None)) == a
            && AppointmentPatched(a', r) == a'
  {
  }

  method UpdateAppointment(db: Store, id: nat, r: AppointmentUpdate) returns (resp: Response<Row<Appointment>>)
    requires db.Valid()
    modifies db
    ensures db.Valid() && db.next == old(db.next)
    ensures IndexOf(old(db.appointments), id).None? ==>
              resp == NotFound("Appointment not found") && db.Snapshot() == old(db.Snapshot())
    ensures IndexOf(old(db.appointments), id).Some? ==>
              var i := IndexOf(old(db.appointments), id).value;
              var a := AppointmentPatched(old(db.appointments)[i].data, r);
              if r.status.None? || r.status.value in AppointmentStatuses then
                resp == Ok(Row(id, a)) &&
                db.Snapshot() == old(db.Snapshot()).(appointments := Put(old(db.appointments), i, a))
              else
                resp == ServerError("Failed to update appointment") && db.Snapshot() == old(db.Snapshot())
  {
    var found := IndexOf(db.appointments, id);
    if found.None? {
      return NotFound("Appointment not found");
    }
    var i := found.value;
    var a := AppointmentPatched(db.appointments[i].data, r);
    assert AppointmentRowOk(db.appointments[i].data, Keys(db.patients), Keys(db.users));
    var err := db.UpdateAppointmentRow(i, a);
    if err.Some? {
      return ServerError("Failed to update appointment");
    }
    resp := Ok(Row(id, a));
  }

  /** The body of the cancel and complete responses. */
  datatype Outcome = Outcome(message: string, appointment: Row<Appointment>)

  /** Sets the status (and, for completion, the notes by COALESCE) of an
      existing appointment; both statuses pass the CHECK and no key changes,
      so the statement cannot fail. */
  method SetAppointmentStatus(db: Store, id: nat, status: string, notes: Option<string>, message: string,
                              notFound: string)
    returns (resp: Response<Outcome>)
    requires db.Valid() && status in AppointmentStatuses
    modifies db
    ensures db.Valid() && db.next == old(db.next)
    ensures IndexOf(old(db.appointments), id).None? ==>
              resp == NotFound(notFound) && db.Snapshot() == old(db.Snapshot())
    ensures IndexOf(old(db.appointments), id).Some? ==>
              var i := IndexOf(old(db.appointments), id).value;
              var old_a := old(db.appointments)[i].data;
              var a := old_a.(status := status, notes := CoalesceNull(notes, old_a.notes));
              resp == Ok(Outcome(message, Row(id, a))) &&
              db.Snapshot() == old(db.Snapshot()).(appointments := Put(old(db.appointments), i, a))
  {
    var found := IndexOf(db.appointments, id);
    if found.None? {
      return NotFound(notFound);
    }
    var i := found.value;
    var a := db.appointments[i].data.(status := status, notes := CoalesceNull(notes, db.appointments[i].data.notes));
    assert AppointmentRowOk(db.appointments[i].data, Keys(db.patients), Keys(db.users));
    var err := db.UpdateAppointmentRow(i, a);
    resp := Ok(Outcome(message, Row(id, a)));
  }

  /** `cancelAppointment`: status 'cancelled', notes kept. */
  method CancelAppointment(db: Store, id: nat) returns (resp: Response<Outcome>)
    requires db.Valid()
    modifies db
    ensures db.Valid() && db.next == old(db.next)
    ensures IndexOf(old(db.appointments), id).None? ==>
              resp == NotFound("Appointment not found") && db.Snapshot() == old(db.Snapshot())
    ensures IndexOf(old(db.appointments), id).Some? ==>
              var i := IndexOf(old(db.appointments), id).value;
              var a := old(db.appointments)[i].data.(status := "cancelled");
              resp == Ok(Outcome("Appointment cancelled successfully", Row(id, a))) &&
              db.Snapshot() == old(db.Snapshot()).(appointments := Put(old(db.appointments), i, a))
  {
    resp := SetAppointmentStatus(db, id, "cancelled", None, "Appointment cancelled successfully",
                                 "Appointment not found");
  }

  /** `completeAppointment`: status 'completed', notes by COALESCE. */
  method CompleteAppointment(db: Store, id: nat, notes: Option<string>) returns (resp: Response<Outcome>)
    requires db.Valid()
    modifies db
    ensures db.Valid() && db.next == old(db.next)
    ensures IndexOf(old(db.appointments), id).None? ==>
              resp == NotFound("Appointment not found") && db.Snapshot() == old(db.Snapshot())
    ensures IndexOf(old(db.appointments), id).Some? ==>
              var i := IndexOf(old(db.appointments), id).value;
              var old_a := old(db.appointments)[i].data;
              var a := old_a.(status := "completed", notes := CoalesceNull(notes, old_a.notes));
              resp == Ok(Outcome("Appointment completed successfully", Row(id, a))) &&
              db.Snapshot() == old(db.Snapshot()).(appointments := Put(old(db.appointments), i, a))
  {
    resp := SetAppointmentStatus(db, id, "completed", notes, "Appointment completed successfully",
                                 "Appointment not found");
  }
}
