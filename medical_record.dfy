/** backend/src/controllers/medicalRecord.controller.js: the medical record
    list, lookup, creation, update and deletion. Unlike appointments and
    prescriptions, the list is not scoped to the caller. */
module MedicalRecordController {
  import opened Base
  import opened Schema
  import opened Sql

  // ---------------------------------------------------------------------
  // getAllMedicalRecords
  // ---------------------------------------------------------------------

  /** A row of `medical_records mr JOIN patients pt ON mr.patient_id = pt.id
      JOIN users p ON pt.user_id = p.id`; the `LEFT JOIN users d` supplies
      display columns only. */
  type RecordRow = (Row<MedicalRecord>, (Row<Patient>, Row<User>))

  predicate RecordJoined(m: Row<MedicalRecord>, pu: (Row<Patient>, Row<User>)) {
    m.data.patientId == pu.0.id
  }

  function RecordView(x: RecordRow): (v: View)
    ensures Diagnosis in v && v[Diagnosis] == OptStr(x.0.data.diagnosis)
    ensures RecordType in v && v[RecordType] == Str(x.0.data.recordType)
    ensures FirstName in v && v[FirstName] == Str(x.1.1.data.firstName)
    ensures LastName in v && v[LastName] == Str(x.1.1.data.lastName)
    ensures PatientRef in v && v[PatientRef] == Int(x.0.data.patientId)
    ensures DoctorRef in v && v[DoctorRef] == Int(x.0.data.doctorId)
  {
    map[Diagnosis := OptStr(x.0.data.diagnosis), RecordType := Str(x.0.data.recordType),
        FirstName := Str(x.1.1.data.firstName), LastName := Str(x.1.1.data.lastName),
        PatientRef := Int(x.0.data.patientId), DoctorRef := Int(x.0.data.doctorId)]
  }

  /** The term occurs in the diagnosis (a NULL diagnosis never matches), the
      record type or a name of the patient. */
  predicate RecordSearchHit(x: RecordRow, term: string) {
    || (x.0.data.diagnosis.Some? && Contains(x.0.data.diagnosis.value, term))
    || Contains(x.0.data.recordType, term)
    || Contains(x.1.1.data.firstName, term) || Contains(x.1.1.data.lastName, term)
  }

  predicate RecordListed(search: Option<string>, patientId: Option<nat>, doctorId: Option<nat>,
                         recordType: Option<string>, x: RecordRow) {
    && (Given(search) ==> RecordSearchHit(x, search.value))
    && (patientId.Some? ==> x.0.data.patientId == patientId.value)
    && (doctorId.Some? ==> x.0.data.doctorId == doctorId.value)
    && (Given(recordType) ==> x.0.data.recordType == recordType.value)
  }

  method RecordQuery(search: Option<string>, patientId: Option<nat>, doctorId: Option<nat>,
                     recordType: Option<string>) returns (q: Query)
    ensures Numbered(q)
    ensures forall x :: Admits(q, RecordView(x)) <==> RecordListed(search, patientId, doctorId, recordType, x)
  {
    var paramCount;
    q, paramCount := RecordSearch(search);
    q, paramCount := AndIf(q, paramCount, patientId.Some?, Eq(PatientRef, paramCount), OptInt(patientId));
    q, paramCount := AndIf(q, paramCount, doctorId.Some?, Eq(DoctorRef, paramCount), OptInt(doctorId));
    q, paramCount := AndIf(q, paramCount, Given(recordType), Eq(RecordType, paramCount), OptStr(recordType));
  }

  /** The first condition: the search over the diagnosis, the record type and the patient's names. */
  method RecordSearch(search: Option<string>) returns (q: Query, paramCount: nat)
    ensures Numbered(q) && paramCount == |q.params| + 1
    ensures forall x :: Admits(q, RecordView(x)) <==> (Given(search) ==> RecordSearchHit(x, search.value))
  {
    q := Query([], []);
    paramCount := 1;
    var like := AnyLike([Diagnosis, RecordType, FirstName, LastName], paramCount);
    q, paramCount := AndIf(q, paramCount, Given(search), like, OptPattern(search));
    forall x | Given(search)
      ensures Test(like, OptPattern(search), RecordView(x)) <==> RecordSearchHit(x, search.value) {
      LikeAny4(Diagnosis, RecordType, FirstName, LastName, like.p, OptPattern(search), RecordView(x));
    }
  }

  /** `getAllMedicalRecords`; the `ORDER BY` on the record date is not modelled. */
  method GetAllMedicalRecords(t: Tables, search: Option<string>, patientId: Option<nat>, doctorId: Option<nat>,
                              recordType: Option<string>) returns (rows: seq<RecordRow>)
    ensures forall x :: x in rows <==>
              && x.0 in t.records && x.1.0 in t.patients && x.1.1 in t.users
              && RecordJoined(x.0, x.1) && PatientJoined(x.1.0, x.1.1)
              && RecordListed(search, patientId, doctorId, recordType, x)
    ensures forall x :: multiset(rows)[x] ==
              if RecordListed(search, patientId, doctorId, recordType, x)
              then multiset(Pairs(t.records, Pairs(t.patients, t.users, PatientJoined), RecordJoined))[x] else 0
  {
    var q := RecordQuery(search, patientId, doctorId, recordType);
    var joined := Pairs(t.records, Pairs(t.patients, t.users, PatientJoined), RecordJoined);
    rows := Select(joined, RecordView, q);
    SelectCounts(joined, RecordView, q);
  }

  // ---------------------------------------------------------------------
  // getMedicalRecordById
  // ---------------------------------------------------------------------

  /** The object `getMedicalRecordById` sends: the columns of `mr.*`, then
      `pt.patient_id` and the patient's names. The patient code comes later
      under the same name as the record's foreign key and overwrites it, so
      `patientId` is the `PAT…` code and the key itself is not sent. */
  datatype RecordDetail = RecordDetail(
    id: nat,
    patientId: string,
    doctorId: nat,
    recordType: string,
    diagnosis: Option<string>,
    symptoms: Option<string>,
    treatment: Option<string>,
    notes: Option<string>,
    patientName: PersonName)

  function RecordSent(r: Row<MedicalRecord>, p: Row<Patient>, u: Row<User>): RecordDetail {
    RecordDetail(r.id, p.data.code, r.data.doctorId, r.data.recordType, r.data.diagnosis, r.data.symptoms,
                 r.data.treatment, r.data.notes, NameOf(u))
  }

  function GetMedicalRecordById(t: Tables, id: nat): (resp: Response<RecordDetail>)
    ensures !resp.Ok? <==> id !in Keys(t.records) ||
                           var r := t.records[IndexOf(t.records, id).value];
                           r.data.patientId !in Keys(t.patients) ||
                           t.patients[IndexOf(t.patients, r.data.patientId).value].data.userId !in Keys(t.users)
    ensures resp.Ok? ==>
              && IndexOf(t.records, id).Some?
              && var r := t.records[IndexOf(t.records, id).value];
              && IndexOf(t.patients, r.data.patientId).Some?
              && var p := t.patients[IndexOf(t.patients, r.data.patientId).value];
              && IndexOf(t.users, p.data.userId).Some?
              && resp.value.id == id
              && resp.value.patientId == p.data.code
              && resp.value.doctorId == r.data.doctorId
              && resp.value.recordType == r.data.recordType && resp.value.diagnosis == r.data.diagnosis
              && resp.value.symptoms == r.data.symptoms && resp.value.treatment == r.data.treatment
              && resp.value.notes == r.data.notes
              && resp.value.patientName == NameOf(t.users[IndexOf(t.users, p.data.userId).value])
    ensures resp.Ok? || resp == NotFound("Medical record not found")
  {
    match IndexOf(t.records, id)
    case None => NotFound("Medical record not found")
    case Some(i) =>
      match IndexOf(t.patients, t.records[i].data.patientId)
      case None => NotFound("Medical record not found")
      case Some(j) =>
        match IndexOf(t.users, t.patients[j].data.userId)
        case None => NotFound("Medical record not found")
        case Some(k) => Ok(RecordSent(t.records[i], t.patients[j], t.users[k]))
  }
  /** With unique keys, `getMedicalRecordById` answers the row of the join
      `medical_records JOIN patients JOIN users` with that id, and 404 exactly when
      the join has none. */
  lemma RecordByIdIsJoinRow(t: Tables, id: nat)
    requires UniqueKeys(t.records) && UniqueKeys(t.patients) && UniqueKeys(t.users)
    ensures GetMedicalRecordById(t, id).Ok? <==>
              exists r, p, u :: && r in t.records && p in t.patients && u in t.users
                                && RecordJoined(r, (p, u)) && PatientJoined(p, u) && r.id == id
    ensures forall r, p, u :: && r in t.records && p in t.patients && u in t.users
                              && RecordJoined(r, (p, u)) && PatientJoined(p, u) && r.id == id ==>
              GetMedicalRecordById(t, id) == Ok(RecordSent(r, p, u))
  {
    forall r, p, u | && r in t.records && p in t.patients && u in t.users
                     && RecordJoined(r, (p, u)) && PatientJoined(p, u) && r.id == id
      ensures GetMedicalRecordById(t, id) == Ok(RecordSent(r, p, u))
    {
      RecordJoinRowFound(t, id, r, p, u);
    }
    if GetMedicalRecordById(t, id).Ok? {
      var r := t.records[IndexOf(t.records, id).value];
      var p := t.patients[IndexOf(t.patients, r.data.patientId).value];
      var u := t.users[IndexOf(t.users, p.data.userId).value];
      assert RecordJoined(r, (p, u)) && PatientJoined(p, u);
    }
  }
  lemma RecordJoinRowFound(t: Tables, id: nat, r: Row<MedicalRecord>, p: Row<Patient>, u: Row<User>)
    requires UniqueKeys(t.records) && UniqueKeys(t.patients) && UniqueKeys(t.users)
    requires r in t.records && p in t.patients && u in t.users
    requires RecordJoined(r, (p, u)) && PatientJoined(p, u) && r.id == id
    ensures GetMedicalRecordById(t, id) == Ok(RecordSent(r, p, u))
  {
    var i :| 0 <= i < |t.records| && t.records[i] == r;
    var j :| 0 <= j < |t.patients| && t.patients[j] == p;
    var k :| 0 <= k < |t.users| && t.users[k] == u;
    IndexOfKey(t.records, i);
    IndexOfKey(t.patients, j);
    IndexOfKey(t.users, k);
  }



  // ---------------------------------------------------------------------
  // createMedicalRecord
  // ---------------------------------------------------------------------

  datatype RecordRequest = RecordRequest(
    patientId: Option<nat>,
    doctorId: Option<nat>,
    recordType: Option<string>,
    diagnosis: Option<string>,
    symptoms: Option<string>,
    treatment: Option<string>,
    notes: Option<string>)

  predicate RecordFieldsGiven(r: RecordRequest) {
    GivenNat(r.patientId) && GivenNat(r.doctorId) && Given(r.recordType)
  }

  function NewRecord(r: RecordRequest): (m: MedicalRecord)
    requires RecordFieldsGiven(r)
    ensures m.patientId == r.patientId.value && m.doctorId == r.doctorId.value
    ensures m.recordType == r.recordType.value && m.diagnosis == r.diagnosis && m.notes == r.notes
  {
    MedicalRecord(r.patientId.value, r.doctorId.value, r.recordType.value, r.diagnosis, r.symptoms,
                  r.treatment, r.notes)
  }

  method CreateMedicalRecord(db: Store, r: RecordRequest) returns (resp: Response<Row<MedicalRecord>>)
    requires db.Valid()
    modifies db
    ensures db.Valid()
    ensures !RecordFieldsGiven(r) ==>
              resp == BadRequest("Required fields missing") && db.Snapshot() == old(db.Snapshot()) &&
              db.next == old(db.next)
    ensures RecordFieldsGiven(r) ==>
              var m, id := NewRecord(r), old(db.next.records);
              if r.patientId.value in Keys(old(db.patients)) && r.doctorId.value in Keys(old(db.users)) then
                resp == Created(Row(id, m)) &&
                db.Snapshot() == old(db.Snapshot()).(records := old(db.records) + [Row(id, m)])
              else
                resp == ServerError("Failed to create medical record") && db.Snapshot() == old(db.Snapshot())
  {
    if !RecordFieldsGiven(r) {
      return BadRequest("Required fields missing");
    }
    var m := NewRecord(r);
    var id, err := db.InsertRecord(m);
    if err.Some? {
      return ServerError("Failed to create medical record");
    }
    resp := Created(Row(id, m));
  }

  // ---------------------------------------------------------------------
  // updateMedicalRecord, deleteMedicalRecord
  // ---------------------------------------------------------------------

  datatype RecordUpdate = RecordUpdate(
    recordType: Option<string>,
    diagnosis: Option<string>,
    symptoms: Option<string>,
    treatment: Option<string>,
    notes: Option<string>)

  function RecordPatched(m: MedicalRecord, r: RecordUpdate): MedicalRecord {
    m.(recordType := Coalesce(r.recordType, m.recordType), diagnosis := CoalesceNull(r.diagnosis, m.diagnosis),
       symptoms := CoalesceNull(r.symptoms, m.symptoms), treatment := CoalesceNull(r.treatment, m.treatment),
       notes := CoalesceNull(r.notes, m.notes))
  }

  /** An update keeps the patient and the doctor; an empty update keeps the
      row; applying it twice is applying it once. */
  lemma RecordPatchedKeeps(m: MedicalRecord, r: RecordUpdate)
    ensures var m' := RecordPatched(m, r);
            && m'.patientId == m.patientId && m'.doctorId == m.doctorId
            && RecordPatched(m, RecordUpdate(None, None, None, None, None)) == m
            && RecordPatched(m', r) == m'
  {
  }

  /** `updateMedicalRecord`: medical_records has no CHECK constraint and the
      update changes no key, so an existing record is always updated. */
  method UpdateMedicalRecord(db: Store, id: nat, r: RecordUpdate) returns (resp: Response<Row<MedicalRecord>>)
    requires db.Valid()
    modifies db
    ensures db.Valid() && db.next == old(db.next)
    ensures IndexOf(old(db.records), id).None? ==>
              resp == NotFound("Medical record not found") && db.Snapshot() == old(db.Snapshot())
    ensures IndexOf(old(db.records), id).Some? ==>
              var i := IndexOf(old(db.records), id).value;
              var m := RecordPatched(old(db.records)[i].data, r);
              resp == Ok(Row(id, m)) && db.Snapshot() == old(db.Snapshot()).(records := Put(old(db.records), i, m))
  {
    var found := IndexOf(db.records, id);
    if found.None? {
      return NotFound("Medical record not found");
    }
    var i := found.value;
    var m := RecordPatched(db.records[i].data, r);
    assert RecordRowOk(db.records[i].data, Keys(db.patients), Keys(db.users));
    var err := db.UpdateRecordRow(i, m);
    resp := Ok(Row(id, m));
  }

  method DeleteMedicalRecord(db: Store, id: nat) returns (resp: Response<string>)
    requires db.Valid()
    modifies db
    ensures db.Valid() && db.next == old(db.next)
    ensures IndexOf(old(db.records), id).None? ==>
              resp == NotFound("Medical record not found") && db.Snapshot() == old(db.Snapshot())
    ensures IndexOf(old(db.records), id).Some? ==>
              resp == Ok("Medical record deleted successfully") &&
              db.Snapshot() == old(db.Snapshot()).(records := Remove(old(db.records), IndexOf(old(db.records), id).value))
    ensures id !in Keys(db.records)
  {
    var found := IndexOf(db.records, id);
    if found.None? {
      return NotFound("Medical record not found");
    }
    db.DeleteRecordRow(found.value);
    resp := Ok("Medical record deleted successfully");
  }
}
