/** backend/src/controllers/prescription.controller.js: the prescription
    list (scoped to the caller when the caller is a doctor or a patient),
    lookup, creation, update and deletion. */
module PrescriptionController {
  import opened Base
  import opened Schema
  import opened Sql

  // ---------------------------------------------------------------------
  // getAllPrescriptions
  // ---------------------------------------------------------------------

  /** A row of `prescriptions pr JOIN patients pt ON pr.patient_id = pt.id
      JOIN users p ON pt.user_id = p.id`; the `LEFT JOIN users d` supplies
      display columns only. */
  type PrescriptionRow = (Row<Prescription>, (Row<Patient>, Row<User>))

  predicate PrescriptionJoined(pr: Row<Prescription>, pu: (Row<Patient>, Row<User>)) {
    pr.data.patientId == pu.0.id
  }

  function PrescriptionView(x: PrescriptionRow): (v: View)
    ensures DoctorRef in v && v[DoctorRef] == Int(x.0.data.doctorId)
    ensures PatientRef in v && v[PatientRef] == Int(x.0.data.patientId)
    ensures Medication in v && v[Medication] == Str(x.0.data.medication)
    ensures FirstName in v && v[FirstName] == Str(x.1.1.data.firstName)
    ensures LastName in v && v[LastName] == Str(x.1.1.data.lastName)
    ensures Status in v && v[Status] == Str(x.0.data.status)
  {
    map[DoctorRef := Int(x.0.data.doctorId), PatientRef := Int(x.0.data.patientId),
        Medication := Str(x.0.data.medication), FirstName := Str(x.1.1.data.firstName),
        LastName := Str(x.1.1.data.lastName), Status := Str(x.0.data.status)]
  }

  predicate PrescriptionSearchHit(x: PrescriptionRow, term: string) {
    || Contains(x.0.data.medication, term) || Contains(x.1.1.data.firstName, term)
    || Contains(x.1.1.data.lastName, term)
  }

  predicate CallerIsDoctor(caller: Option<Caller>) {
    caller.Some? && caller.value.role == "doctor"
  }

  /** The caller's scope: a doctor's own users key, a patient's own patients key. */
  predicate PrescriptionScoped(doctorScope: Option<nat>, own: Option<nat>, x: PrescriptionRow) {
    && (doctorScope.Some? ==> x.0.data.doctorId == doctorScope.value)
    && (own.Some? ==> x.0.data.patientId == own.value)
  }

  /** The request filters; the patient filter is ignored for a patient caller
      and the doctor filter for a doctor caller. */
  predicate PrescriptionFiltered(callerIsPatient: bool, callerIsDoctor: bool, search: Option<string>,
                                 patientId: Option<nat>, doctorId: Option<nat>, status: Option<string>,
                                 x: PrescriptionRow) {
    && (Given(search) ==> PrescriptionSearchHit(x, search.value))
    && (patientId.Some? && !callerIsPatient ==> x.0.data.patientId == patientId.value)
    && (doctorId.Some? && !callerIsDoctor ==> x.0.data.doctorId == doctorId.value)
    && (Given(status) ==> x.0.data.status == status.value)
  }

  predicate PrescriptionListed(doctorScope: Option<nat>, own: Option<nat>, callerIsPatient: bool,
                               callerIsDoctor: bool, search: Option<string>, patientId: Option<nat>,
                               doctorId: Option<nat>, status: Option<string>, x: PrescriptionRow) {
    && PrescriptionScoped(doctorScope, own, x)
    && PrescriptionFiltered(callerIsPatient, callerIsDoctor, search, patientId, doctorId, status, x)
  }

  /** The conditions the caller's role adds first. */
  method PrescriptionScope(doctorScope: Option<nat>, own: Option<nat>) returns (q: Query, paramCount: nat)
    ensures Numbered(q) && paramCount == |q.params| + 1
    ensures forall x :: Admits(q, PrescriptionView(x)) <==> PrescriptionScoped(doctorScope, own, x)
  {
    q := Query([], []);
    paramCount := 1;
    q, paramCount := AndIf(q, paramCount, doctorScope.Some?, Eq(DoctorRef, paramCount), OptInt(doctorScope));
    q, paramCount := AndIf(q, paramCount, own.Some?, Eq(PatientRef, paramCount), OptInt(own));
  }

  /** The conditions the query string adds after the scope. */
  method PrescriptionFilters(q0: Query, paramCount0: nat, callerIsPatient: bool, callerIsDoctor: bool,
                             search: Option<string>, patientId: Option<nat>, doctorId: Option<nat>,
                             status: Option<string>)
    returns (q: Query, paramCount: nat)
    requires Numbered(q0) && paramCount0 == |q0.params| + 1
    ensures Numbered(q) && paramCount == |q.params| + 1
    ensures forall x :: Admits(q, PrescriptionView(x)) <==>
                        Admits(q0, PrescriptionView(x)) &&
                        PrescriptionFiltered(callerIsPatient, callerIsDoctor, search, patientId, doctorId, status, x)
  {
    q, paramCount := PrescriptionSearch(q0, paramCount0, search);
    q, paramCount := AndIf(q, paramCount, patientId.Some? && !callerIsPatient, Eq(PatientRef, paramCount), OptInt(patientId));
    q, paramCount := AndIf(q, paramCount, doctorId.Some? && !callerIsDoctor, Eq(DoctorRef, paramCount), OptInt(doctorId));
    q, paramCount := AndIf(q, paramCount, Given(status), Eq(Status, paramCount), OptStr(status));
  }

  /** The search condition over the medication and the patient's names. */
  method PrescriptionSearch(q0: Query, paramCount0: nat, search: Option<string>) returns (q: Query, paramCount: nat)
    requires Numbered(q0) && paramCount0 == |q0.params| + 1
    ensures Numbered(q) && paramCount == |q.params| + 1
    ensures forall x :: Admits(q, PrescriptionView(x)) <==>
                        Admits(q0, PrescriptionView(x)) && (Given(search) ==> PrescriptionSearchHit(x, search.value))
  {
    var like := AnyLike([Medication, FirstName, LastName], paramCount0);
    q, paramCount := AndIf(q0, paramCount0, Given(search), like, OptPattern(search));
    forall x | Given(search)
      ensures Test(like, OptPattern(search), PrescriptionView(x)) <==> PrescriptionSearchHit(x, search.value) {
      LikeAny3(Medication, FirstName, LastName, like.p, OptPattern(search), PrescriptionView(x));
    }
  }

  method PrescriptionQuery(doctorScope: Option<nat>, own: Option<nat>, callerIsPatient: bool,
                           callerIsDoctor: bool, search: Option<string>, patientId: Option<nat>,
                           doctorId: Option<nat>, status: Option<string>)
    returns (q: Query)
    ensures Numbered(q)
    ensures forall x :: Admits(q, PrescriptionView(x)) <==>
                        PrescriptionListed(doctorScope, own, callerIsPatient, callerIsDoctor, search,
                                           patientId, doctorId, status, x)
  {
    var paramCount;
    q, paramCount := PrescriptionScope(doctorScope, own);
    q, paramCount := PrescriptionFilters(q, paramCount, callerIsPatient, callerIsDoctor, search, patientId, doctorId, status);
  }

  function DoctorScope(caller: Option<Caller>): (r: Option<nat>)
    ensures r.Some? <==> CallerIsDoctor(caller)
    ensures r.Some? ==> r.value == caller.value.id
  {
    if CallerIsDoctor(caller) then Some(caller.value.id) else None
  }

  /** `getAllPrescriptions`; the `ORDER BY` on the prescribed date is not modelled. */
  method GetAllPrescriptions(t: Tables, caller: Option<Caller>, search: Option<string>,
                             patientId: Option<nat>, doctorId: Option<nat>, status: Option<string>)
    returns (rows: seq<PrescriptionRow>)
    ensures forall x :: x in rows <==>
              && x.0 in t.prescriptions && x.1.0 in t.patients && x.1.1 in t.users
              && PrescriptionJoined(x.0, x.1) && PatientJoined(x.1.0, x.1.1)
              && PrescriptionListed(DoctorScope(caller), OwnPatient(t, caller), CallerIsPatient(caller),
                                    CallerIsDoctor(caller), search, patientId, doctorId, status, x)
    ensures forall x :: multiset(rows)[x] ==
              if PrescriptionListed(DoctorScope(caller), OwnPatient(t, caller), CallerIsPatient(caller),
                                    CallerIsDoctor(caller), search, patientId, doctorId, status, x)
              then multiset(Pairs(t.prescriptions, Pairs(t.patients, t.users, PatientJoined), PrescriptionJoined))[x]
              else 0
  {
    var q := PrescriptionQuery(DoctorScope(caller), OwnPatient(t, caller), CallerIsPatient(caller),
                               CallerIsDoctor(caller), search, patientId, doctorId, status);
    var joined := Pairs(t.prescriptions, Pairs(t.patients, t.users, PatientJoined), PrescriptionJoined);
    rows := Select(joined, PrescriptionView, q);
    SelectCounts(joined, PrescriptionView, q);
  }

  /** A doctor sees only the prescriptions they wrote, and the `doctor_id`
      filter has no effect for them. */
  lemma DoctorSeesOwn(caller: Caller, t: Tables, search: Option<string>, patientId: Option<nat>,
                      doctorId: Option<nat>, status: Option<string>, x: PrescriptionRow)
    requires caller.role == "doctor"
    ensures var c := Some(caller);
            var listed := PrescriptionListed(DoctorScope(c), OwnPatient(t, c), CallerIsPatient(c),
                                             CallerIsDoctor(c), search, patientId, doctorId, status, x);
            && (listed ==> x.0.data.doctorId == caller.id)
            && (listed <==> PrescriptionListed(DoctorScope(c), OwnPatient(t, c), CallerIsPatient(c),
                                               CallerIsDoctor(c), search, patientId, None, status, x))
  {
  }

  /** A patient with a patients row sees only their own prescriptions, and
      the `patient_id` filter has no effect for them. */
  lemma PatientSeesOwn(caller: Caller, t: Tables, search: Option<string>, patientId: Option<nat>,
                       doctorId: Option<nat>, status: Option<string>, x: PrescriptionRow)
    requires caller.role == "patient" && PatientOf(t.patients, caller.id).Some?
    ensures var c := Some(caller);
            var listed := PrescriptionListed(DoctorScope(c), OwnPatient(t, c), CallerIsPatient(c),
                                             CallerIsDoctor(c), search, patientId, doctorId, status, x);
            && (listed ==> x.0.data.patientId == t.patients[PatientOf(t.patients, caller.id).value].id)
            && (listed <==> PrescriptionListed(DoctorScope(c), OwnPatient(t, c), CallerIsPatient(c),
                                               CallerIsDoctor(c), search, None, doctorId, status, x))
  {
  }

  // ---------------------------------------------------------------------
  // getPrescriptionById
  // ---------------------------------------------------------------------

  /** The object `getPrescriptionById` sends: the columns of `pr.*`, then
      `pt.patient_id` and the patient's names. The patient code comes later
      under the same name as the prescription's foreign key and overwrites it,
      so `patientId` is the `PAT…` code and the key itself is not sent. */
  datatype PrescriptionDetail = PrescriptionDetail(
    id: nat,
    patientId: string,
    doctorId: nat,
    medication: string,
    dosage: Option<string>,
    frequency: Option<string>,
    duration: Option<string>,
    instructions: Option<string>,
    status: string,
    patientName: PersonName)

  function PrescriptionSent(r: Row<Prescription>, p: Row<Patient>, u: Row<User>): PrescriptionDetail {
    PrescriptionDetail(r.id, p.data.code, r.data.doctorId, r.data.medication, r.data.dosage, r.data.frequency,
                       r.data.duration, r.data.instructions, r.data.status, NameOf(u))
  }

  function GetPrescriptionById(t: Tables, id: nat): (resp: Response<PrescriptionDetail>)
    ensures !resp.Ok? <==> id !in Keys(t.prescriptions) ||
                           var r := t.prescriptions[IndexOf(t.prescriptions, id).value];
                           r.data.patientId !in Keys(t.patients) ||
                           t.patients[IndexOf(t.patients, r.data.patientId).value].data.userId !in Keys(t.users)
    ensures resp.Ok? ==>
              && IndexOf(t.prescriptions, id).Some?
              && var r := t.prescriptions[IndexOf(t.prescriptions, id).value];
              && IndexOf(t.patients, r.data.patientId).Some?
              && var p := t.patients[IndexOf(t.patients, r.data.patientId).value];
              && IndexOf(t.users, p.data.userId).Some?
              && resp.value.id == id
              && resp.value.patientId == p.data.code
              && resp.value.doctorId == r.data.doctorId
              && resp.value.medication == r.data.medication && resp.value.dosage == r.data.dosage
              && resp.value.frequency == r.data.frequency && resp.value.duration == r.data.duration
              && resp.value.instructions == r.data.instructions && resp.value.status == r.data.status
              && resp.value.patientName == NameOf(t.users[IndexOf(t.users, p.data.userId).value])
    ensures resp.Ok? || resp == NotFound("Prescription not found")
  {
    match IndexOf(t.prescriptions, id)
    case None => NotFound("Prescription not found")
    case Some(i) =>
      match IndexOf(t.patients, t.prescriptions[i].data.patientId)
      case None => NotFound("Prescription not found")
      case Some(j) =>
        match IndexOf(t.users, t.patients[j].data.userId)
        case None => NotFound("Prescription not found")
        case Some(k) => Ok(PrescriptionSent(t.prescriptions[i], t.patients[j], t.users[k]))
  }
  /** With unique keys, `getPrescriptionById` answers the row of the join
      `prescriptions JOIN patients JOIN users` with that id, and 404 exactly when
      the join has none. */
  lemma PrescriptionByIdIsJoinRow(t: Tables, id: nat)
    requires UniqueKeys(t.prescriptions) && UniqueKeys(t.patients) && UniqueKeys(t.users)
    ensures GetPrescriptionById(t, id).Ok? <==>
              exists r, p, u :: && r in t.prescriptions && p in t.patients && u in t.users
                                && PrescriptionJoined(r, (p, u)) && PatientJoined(p, u) && r.id == id
    ensures forall r, p, u :: && r in t.prescriptions && p in t.patients && u in t.users
                              && PrescriptionJoined(r, (p, u)) && PatientJoined(p, u) && r.id == id ==>
              GetPrescriptionById(t, id) == Ok(PrescriptionSent(r, p, u))
  {
    forall r, p, u | && r in t.prescriptions && p in t.patients && u in t.users
                     && PrescriptionJoined(r, (p, u)) && PatientJoined(p, u) && r.id == id
      ensures GetPrescriptionById(t, id) == Ok(PrescriptionSent(r, p, u))
    {
      PrescriptionJoinRowFound(t, id, r, p, u);
    }
    if GetPrescriptionById(t, id).Ok? {
      var r := t.prescriptions[IndexOf(t.prescriptions, id).value];
      var p := t.patients[IndexOf(t.patients, r.data.patientId).value];
      var u := t.users[IndexOf(t.users, p.data.userId).value];
      assert PrescriptionJoined(r, (p, u)) && PatientJoined(p, u);
    }
  }
  lemma PrescriptionJoinRowFound(t: Tables, id: nat, r: Row<Prescription>, p: Row<Patient>, u: Row<User>)
    requires UniqueKeys(t.prescriptions) && UniqueKeys(t.patients) && UniqueKeys(t.users)
    requires r in t.prescriptions && p in t.patients && u in t.users
    requires PrescriptionJoined(r, (p, u)) && PatientJoined(p, u) && r.id == id
    ensures GetPrescriptionById(t, id) == Ok(PrescriptionSent(r, p, u))
  {
    var i :| 0 <= i < |t.prescriptions| && t.prescriptions[i] == r;
    var j :| 0 <= j < |t.patients| && t.patients[j] == p;
    var k :| 0 <= k < |t.users| && t.users[k] == u;
    IndexOfKey(t.prescriptions, i);
    IndexOfKey(t.patients, j);
    IndexOfKey(t.users, k);
  }



  // ---------------------------------------------------------------------
  // createPrescription
  // ---------------------------------------------------------------------

  /** The request body; `doctor_id` is taken from the body, not from the caller. */
  datatype PrescriptionRequest = PrescriptionRequest(
    patientId: Option<nat>,
    doctorId: Option<nat>,
    medication: Option<string>,
    dosage: Option<string>,
    frequency: Option<string>,
    duration: Option<string>,
    instructions: Option<string>)

  predicate PrescriptionFieldsGiven(r: PrescriptionRequest) {
    GivenNat(r.patientId) && GivenNat(r.doctorId) && Given(r.medication)
  }

  function NewPrescription(r: PrescriptionRequest): (p: Prescription)
    requires PrescriptionFieldsGiven(r)
    ensures p.status == "active"
    ensures p.patientId == r.patientId.value && p.doctorId == r.doctorId.value
    ensures p.medication == r.medication.value && p.dosage == r.dosage && p.instructions == r.instructions
  {
    Prescription(r.patientId.value, r.doctorId.value, r.medication.value, r.dosage, r.frequency,
                 r.duration, r.instructions, "active")
  }

  method CreatePrescription(db: Store, r: PrescriptionRequest) returns (resp: Response<Row<Prescription>>)
    requires db.Valid()
    modifies db
    ensures db.Valid()
    ensures !PrescriptionFieldsGiven(r) ==>
              resp == BadRequest("Required fields missing") && db.Snapshot() == old(db.Snapshot()) &&
              db.next == old(db.next)
    ensures PrescriptionFieldsGiven(r) ==>
              var p, id := NewPrescription(r), old(db.next.prescriptions);
              if r.patientId.value in Keys(old(db.patients)) && r.doctorId.value in Keys(old(db.users)) then
                resp == Created(Row(id, p)) &&
                db.Snapshot() == old(db.Snapshot()).(prescriptions := old(db.prescriptions) + [Row(id, p)])
              else
                resp == ServerError("Failed to create prescription") && db.Snapshot() == old(db.Snapshot())
  {
    if !PrescriptionFieldsGiven(r) {
      return BadRequest("Required fields missing");
    }
    var p := NewPrescription(r);
    var id, err := db.InsertPrescription(p);
    if err.Some? {
      return ServerError("Failed to create prescription");
    }
    resp := Created(Row(id, p));
  }

  // ---------------------------------------------------------------------
  // updatePrescription, deletePrescription
  // ---------------------------------------------------------------------

  datatype PrescriptionUpdate = PrescriptionUpdate(
    medication: Option<string>,
    dosage: Option<string>,
    frequency: Option<string>,
    duration: Option<string>,
    instructions: Option<string>,
    status: Option<string>)

  function PrescriptionPatched(p: Prescription, r: PrescriptionUpdate): Prescription {
    p.(medication := Coalesce(r.medication, p.medication), dosage := CoalesceNull(r.dosage, p.dosage),
       frequency := CoalesceNull(r.frequency, p.frequency), duration := CoalesceNull(r.duration, p.duration),
       instructions := CoalesceNull(r.instructions, p.instructions), status := Coalesce(r.status, p.status))
  }

  /** An update keeps the patient and the prescribing doctor; an empty update
      keeps the row; applying it twice is applying it once. */
  lemma PrescriptionPatchedKeeps(p: Prescription, r: PrescriptionUpdate)
    ensures var p' := PrescriptionPatched(p, r);
            && p'.patientId == p.patientId && p'.doctorId == p.doctorId
            && PrescriptionPatched(p, PrescriptionUpdate(None, None, None, None, None, None)) == p
            && PrescriptionPatched(p', r) == p'
  {
  }

  method UpdatePrescription(db: Store, id: nat, r: PrescriptionUpdate) returns (resp: Response<Row<Prescription>>)
    requires db.Valid()
    modifies db
    ensures db.Valid() && db.next == old(db.next)
    ensures IndexOf(old(db.prescriptions), id).None? ==>
              resp == NotFound("Prescription not found") && db.Snapshot() == old(db.Snapshot())
    ensures IndexOf(old(db.prescriptions), id).Some? ==>
              var i := IndexOf(old(db.prescriptions), id).value;
              var p := PrescriptionPatched(old(db.prescriptions)[i].data, r);
              if r.status.None? || r.status.value in PrescriptionStatuses then
                resp == Ok(Row(id, p)) &&
                db.Snapshot() == old(db.Snapshot()).(prescriptions := Put(old(db.prescriptions), i, p))
              else
                resp == ServerError("Failed to update prescription") && db.Snapshot() == old(db.Snapshot())
  {
    var found := IndexOf(db.prescriptions, id);
    if found.None? {
      return NotFound("Prescription not found");
    }
    var i := found.value;
    var p := PrescriptionPatched(db.prescriptions[i].data, r);
    assert PrescriptionRowOk(db.prescriptions[i].data, Keys(db.patients), Keys(db.users));
    var err := db.UpdatePrescriptionRow(i, p);
    if err.Some? {
      return ServerError("Failed to update prescription");
    }
    resp := Ok(Row(id, p));
  }

  method DeletePrescription(db: Store, id: nat) returns (resp: Response<string>)
    requires db.Valid()
    modifies db
    ensures db.Valid() && db.next == old(db.next)
    ensures IndexOf(old(db.prescriptions), id).None? ==>
              resp == NotFound("Prescription not found") && db.Snapshot() == old(db.Snapshot())
    ensures IndexOf(old(db.prescriptions), id).Some? ==>
              resp == Ok("Prescription deleted successfully") &&
              db.Snapshot() == old(db.Snapshot()).(prescriptions :=
                                 Remove(old(db.prescriptions), IndexOf(old(db.prescriptions), id).value))
    ensures id !in Keys(db.prescriptions)
  {
    var found := IndexOf(db.prescriptions, id);
    if found.None? {
      return NotFound("Prescription not found");
    }
    db.DeletePrescriptionRow(found.value);
    resp := Ok("Prescription deleted successfully");
  }
}
