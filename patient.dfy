/** backend/src/controllers/patient.controller.js: the patient list, patient
    creation (a users row and a patients row in one transaction), the
    two-statement update, discharge and transfer. */
module PatientController {
  import opened Base
  import opened Schema
  import opened Sql
  import Crypto

  // ---------------------------------------------------------------------
  // getAllPatients, getPatientById
  // ---------------------------------------------------------------------

  /** A row of `patients p JOIN users u ON p.user_id = u.id`. */
  type PatientRow = (Row<Patient>, Row<User>)

  function PatientView(x: PatientRow): View {
    map[PatientCode := Str(x.0.data.code), FirstName := Str(x.1.data.firstName),
        LastName := Str(x.1.data.lastName), Email := Str(x.1.data.email),
        Status := Str(x.0.data.status)]
  }

  /** The search term occurs in the patient code, a name or the email; the
      status, when given, is the patient's. */
  predicate PatientListed(search: Option<string>, status: Option<string>, x: PatientRow) {
    && (Given(search) ==> PatientSearchHit(x, search.value))
    && (Given(status) ==> x.0.data.status == status.value)
  }

  predicate PatientSearchHit(x: PatientRow, term: string) {
    || Contains(x.0.data.code, term) || Contains(x.1.data.firstName, term)
    || Contains(x.1.data.lastName, term) || Contains(x.1.data.email, term)
  }

  method PatientQuery(search: Option<string>, status: Option<string>) returns (q: Query)
    ensures Numbered(q)
    ensures forall x :: Admits(q, PatientView(x)) <==> PatientListed(search, status, x)
  {
    q := Query([], []);
    var paramCount := 1;
    var like := AnyLike([PatientCode, FirstName, LastName, Email], paramCount);
    q, paramCount := AndIf(q, paramCount, Given(search), like, OptPattern(search));
    q, paramCount := AndIf(q, paramCount, Given(status), Eq(Status, paramCount), OptStr(status));
    forall x | Given(search)
      ensures Test(like, OptPattern(search), PatientView(x)) <==> PatientSearchHit(x, search.value) {
      LikeAny4(PatientCode, FirstName, LastName, Email, like.p, OptPattern(search), PatientView(x));
    }
  }

  method GetAllPatients(t: Tables, search: Option<string>, status: Option<string>)
    returns (rows: seq<PatientRow>)
    ensures forall x :: x in rows <==>
              x.0 in t.patients && x.1 in t.users && PatientJoined(x.0, x.1) && PatientListed(search, status, x)
    ensures forall x :: multiset(rows)[x] ==
              if PatientListed(search, status, x) then multiset(Pairs(t.patients, t.users, PatientJoined))[x] else 0
  {
    var q := PatientQuery(search, status);
    rows := Select(Pairs(t.patients, t.users, PatientJoined), PatientView, q);
    SelectCounts(Pairs(t.patients, t.users, PatientJoined), PatientView, q);
  }

  /** `getPatientById`: the patient with the user's name, email and picture. */
  datatype PatientDetail = PatientDetail(patient: Row<Patient>, user: PatientContact)

  /** `u.first_name, u.last_name, u.email, u.profile_picture`: the users
      columns `getPatientById` joins in. */
  datatype PatientContact = PatientContact(firstName: string, lastName: string, email: string,
                                           profilePicture: Option<string>)

  function ContactOf(u: Row<User>): PatientContact {
    PatientContact(u.data.firstName, u.data.lastName, u.data.email, u.data.profilePicture)
  }

  function GetPatientById(t: Tables, id: nat): (resp: Response<PatientDetail>)
    ensures !resp.Ok? <==> id !in Keys(t.patients) ||
                           t.patients[IndexOf(t.patients, id).value].data.userId !in Keys(t.users)
    ensures resp.Ok? ==> resp.value.patient in t.patients && resp.value.patient.id == id &&
                         IndexOf(t.users, resp.value.patient.data.userId).Some? &&
                         resp.value.user == ContactOf(t.users[IndexOf(t.users, resp.value.patient.data.userId).value])
    ensures resp.Ok? || resp == NotFound("Patient not found")
  {
    match IndexOf(t.patients, id)
    case None => NotFound("Patient not found")
    case Some(i) =>
      match IndexOf(t.users, t.patients[i].data.userId)
      case None => NotFound("Patient not found")
      case Some(j) => Ok(PatientDetail(t.patients[i], ContactOf(t.users[j])))
  }

  /** With unique keys, `getPatientById` answers the row of the join
      `patients JOIN users` whose patient has that id, and 404 exactly when
      the join has none. */
  lemma PatientByIdIsJoinRow(t: Tables, id: nat)
    requires UniqueKeys(t.patients) && UniqueKeys(t.users)
    ensures GetPatientById(t, id).Ok? <==>
              exists p, u :: p in t.patients && u in t.users && PatientJoined(p, u) && p.id == id
    ensures forall p, u :: p in t.patients && u in t.users && PatientJoined(p, u) && p.id == id ==>
              GetPatientById(t, id) == Ok(PatientDetail(p, ContactOf(u)))
  {
    forall p, u | p in t.patients && u in t.users && PatientJoined(p, u) && p.id == id
      ensures GetPatientById(t, id) == Ok(PatientDetail(p, ContactOf(u)))
    {
      var i :| 0 <= i < |t.patients| && t.patients[i] == p;
      var j :| 0 <= j < |t.users| && t.users[j] == u;
      IndexOfKey(t.patients, i);
      IndexOfKey(t.users, j);
    }
    if GetPatientById(t, id).Ok? {
      var d := GetPatientById(t, id).value;
      var j := IndexOf(t.users, d.patient.data.userId).value;
      assert PatientJoined(d.patient, t.users[j]);
    }
  }

  // ---------------------------------------------------------------------
  // createPatient
  // ---------------------------------------------------------------------

  datatype PatientRequest = PatientRequest(
    email: Option<string>,
    password: Option<string>,
    firstName: Option<string>,
    lastName: Option<string>,
    dateOfBirth: Option<nat>,
    gender: Option<string>,
    phone: Option<string>,
    address: Option<string>,
    emergencyName: Option<string>,
    emergencyPhone: Option<string>,
    bloodType: Option<string>,
    allergies: Option<string>,
    history: Option<string>)

  predicate PatientFieldsGiven(r: PatientRequest) {
    Given(r.email) && Given(r.password) && Given(r.firstName) && Given(r.lastName)
  }

  function PatientUser(r: PatientRequest, salt: nat): (u: User)
    requires PatientFieldsGiven(r)
    ensures u.role == "patient" && u.doctorId.None? && !u.mustChangePassword
    ensures u.email == r.email.value && Crypto.Compare(r.password.value, u.password)
  {
    User(r.email.value, Crypto.Hash(r.password.value, salt), r.firstName.value, r.lastName.value,
         "patient", None, None, false)
  }

  /** The patients row, linked to the new users row, with a generated 'PAT'
      code and the default status. */
  function NewPatient(r: PatientRequest, userId: nat, stamp: nat): (p: Patient)
    ensures p.userId == userId && StartsWith(p.code, "PAT") && p.status == "active"
    ensures p.assignedDoctor.None? && p.assignedNurse.None?
  {
    Patient(userId, Stamped("PAT", stamp), r.dateOfBirth, r.gender, r.phone, r.address,
            r.emergencyName, r.emergencyPhone, r.bloodType, r.allergies, r.history, "active", None, None)
  }

  /** `createPatient`. There is no email pre-check here. The users insert
      cannot fail; the patients insert fails only when the generated code
      is already taken, and then the users row is rolled back too. */
  method CreatePatient(db: Store, r: PatientRequest, salt: nat, stamp: nat) returns (resp: Response<Row<Patient>>)
    requires db.Valid()
    modifies db
    ensures db.Valid()
    ensures !PatientFieldsGiven(r) ==>
              resp == BadRequest("Required fields missing") && db.Snapshot() == old(db.Snapshot()) &&
              db.next == old(db.next)
    ensures !resp.Created? ==> db.Snapshot() == old(db.Snapshot())
    ensures PatientFieldsGiven(r) ==>
              var uid, pid := old(db.next.users), old(db.next.patients);
              var p := NewPatient(r, uid, stamp);
              if PatientCodeTaken(old(db.patients), p.code) then
                resp == ServerError("Failed to create patient")
              else
                && resp == Created(Row(pid, p))
                && db.Snapshot() == old(db.Snapshot()).(users := old(db.users) + [Row(uid, PatientUser(r, salt))],
                                                        patients := old(db.patients) + [Row(pid, p)])
  {
    if !PatientFieldsGiven(r) {
      return BadRequest("Required fields missing");
    }
    // BEGIN
    var saved := db.Snapshot();
    ghost var before := db.next;
    var u := PatientUser(r, salt);
    var uid, e1 := db.InsertUser(u);
    if e1.Some? {
      assert false;
      return ServerError("Failed to create patient");
    }
    KeysAppend(saved.users, Row(uid, u));
    var p := NewPatient(r, uid, stamp);
    assert db.patients == saved.patients && PatientRowOk(p, Keys(db.users));
    var pid, e2 := db.InsertPatient(p);
    assert e2.Some? <==> PatientCodeTaken(saved.patients, p.code);
    if e2.Some? {
      ConsistentLater(saved, before, db.next);
      db.Restore(saved);
      return ServerError("Failed to create patient");
    }
    // COMMIT
    resp := Created(Row(pid, p));
  }

  // ---------------------------------------------------------------------
  // updatePatient
  // ---------------------------------------------------------------------

  datatype PatientUpdate = PatientUpdate(
    firstName: Option<string>,
    lastName: Option<string>,
    dateOfBirth: Option<nat>,
    gender: Option<string>,
    phone: Option<string>,
    address: Option<string>,
    emergencyName: Option<string>,
    emergencyPhone: Option<string>,
    bloodType: Option<string>,
    allergies: Option<string>,
    history: Option<string>,
    assignedDoctor: Option<nat>,
    assignedNurse: Option<nat>)

  /** The patients columns after `SET column = COALESCE($k, column)`. */
  function Patched(p: Patient, r: PatientUpdate): Patient {
    p.(dateOfBirth := CoalesceNull(r.dateOfBirth, p.dateOfBirth),
       gender := CoalesceNull(r.gender, p.gender),
       phone := CoalesceNull(r.phone, p.phone),
       address := CoalesceNull(r.address, p.address),
       emergencyName := CoalesceNull(r.emergencyName, p.emergencyName),
       emergencyPhone := CoalesceNull(r.emergencyPhone, p.emergencyPhone),
       bloodType := CoalesceNull(r.bloodType, p.bloodType),
       allergies := CoalesceNull(r.allergies, p.allergies),
       history := CoalesceNull(r.history, p.history),
       assignedDoctor := CoalesceNull(r.assignedDoctor, p.assignedDoctor),
       assignedNurse := CoalesceNull(r.assignedNurse, p.assignedNurse))
  }

  /** The update never touches the user link, the code or the status, and a
      null assignment keeps the assigned doctor and nurse. Applying the same
      update twice is applying it once. */
  lemma PatchedKeeps(p: Patient, r: PatientUpdate)
    ensures var p' := Patched(p, r);
            && p'.userId == p.userId && p'.code == p.code && p'.status == p.status
            && (r.assignedDoctor.None? ==> p'.assignedDoctor == p.assignedDoctor)
            && (r.assignedNurse.None? ==> p'.assignedNurse == p.assignedNurse)
            && (r.assignedDoctor.Some? ==> p'.assignedDoctor == r.assignedDoctor)
            && Patched(p', r) == p'
  {
  }

  /** The users columns after the name update, which runs only when one of
      the names is truthy. */
  function Renamed(u: User, r: PatientUpdate): (u': User)
    ensures !(Given(r.firstName) || Given(r.lastName)) ==> u' == u
    ensures u'.role == u.role && u'.doctorId == u.doctorId && u'.password == u.password
  {
    if Given(r.firstName) || Given(r.lastName) then
      u.(firstName := Coalesce(r.firstName, u.firstName), lastName := Coalesce(r.lastName, u.lastName))
    else u
  }

  /** `updatePatient`: both statements in one transaction. An unknown id is
      not an error: the transaction commits and the body is empty. */
  method UpdatePatient(db: Store, id: nat, r: PatientUpdate) returns (resp: Response<Option<Row<Patient>>>)
    requires db.Valid()
    modifies db
    ensures db.Valid() && db.next == old(db.next)
    ensures IndexOf(old(db.patients), id).None? ==>
              resp == Ok(None) && db.Snapshot() == old(db.Snapshot())
    ensures IndexOf(old(db.patients), id).Some? ==>
              var i := IndexOf(old(db.patients), id).value;
              var p := Patched(old(db.patients)[i].data, r);
              if PatientRowOk(p, Keys(old(db.users))) then
                && resp == Ok(Some(Row(id, p)))
                && db.patients == Put(old(db.patients), i, p)
                && (IndexOf(old(db.users), p.userId).Some? ==>
                      var j := IndexOf(old(db.users), p.userId).value;
                      db.users == Put(old(db.users), j, Renamed(old(db.users)[j].data, r)))
                && db.Snapshot() == old(db.Snapshot()).(users := db.users, patients := db.patients)
              else
                resp == ServerError("Failed to update patient") && db.Snapshot() == old(db.Snapshot())
  {
    // BEGIN
    var saved := db.Snapshot();
    ghost var before := db.next;
    var found := IndexOf(db.patients, id);
    if found.None? {
      // The subquery finds no patient, so the name update changes no row.
      return Ok(None);
    }
    var i := found.value;
    var p := Patched(db.patients[i].data, r);
    var owner := IndexOf(db.users, db.patients[i].data.userId);
    if owner.Some? {
      var j := owner.value;
      KeysPut(db.users, j, Renamed(db.users[j].data, r));
      db.UpdateUserRow(j, Renamed(db.users[j].data, r));
    }
    var e := db.UpdatePatientRow(i, p);
    if e.Some? {
      assert Consistent(saved, before);
      db.Restore(saved);
      return ServerError("Failed to update patient");
    }
    // COMMIT
    resp := Ok(Some(Row(id, p)));
  }

  // ---------------------------------------------------------------------
  // dischargePatient, transferPatient
  // ---------------------------------------------------------------------

  /** `UPDATE patients SET status = …` whatever the current status. */
  method SetStatus(db: Store, id: nat, status: string) returns (resp: Response<Row<Patient>>)
    requires db.Valid() && status in PatientStatuses
    modifies db
    ensures db.Valid() && db.next == old(db.next)
    ensures IndexOf(old(db.patients), id).None? ==>
              resp == NotFound("Patient not found") && db.Snapshot() == old(db.Snapshot())
    ensures IndexOf(old(db.patients), id).Some? ==>
              var i := IndexOf(old(db.patients), id).value;
              var p := old(db.patients)[i].data.(status := status);
              && resp == Ok(Row(id, p))
              && db.Snapshot() == old(db.Snapshot()).(patients := Put(old(db.patients), i, p))
  {
    var found := IndexOf(db.patients, id);
    if found.None? {
      return NotFound("Patient not found");
    }
    var i := found.value;
    var p := db.patients[i].data.(status := status);
    assert PatientRowOk(db.patients[i].data, Keys(db.users));
    var e := db.UpdatePatientRow(i, p);
    if e.Some? {
      assert false;
      return ServerError("Failed to update patient");
    }
    resp := Ok(Row(id, p));
  }

  method DischargePatient(db: Store, id: nat) returns (resp: Response<Row<Patient>>)
    requires db.Valid()
    modifies db
    ensures db.Valid() && db.next == old(db.next)
    ensures IndexOf(old(db.patients), id).None? ==>
              resp == NotFound("Patient not found") && db.Snapshot() == old(db.Snapshot())
    ensures IndexOf(old(db.patients), id).Some? ==>
              var i := IndexOf(old(db.patients), id).value;
              var p := old(db.patients)[i].data.(status := "discharged");
              && resp == Ok(Row(id, p))
              && db.Snapshot() == old(db.Snapshot()).(patients := Put(old(db.patients), i, p))
  {
    resp := SetStatus(db, id, "discharged");
  }

  /** `transferPatient`: the body's department is read but not used. */
  method TransferPatient(db: Store, id: nat, departmentId: Option<nat>) returns (resp: Response<Row<Patient>>)
    requires db.Valid()
    modifies db
    ensures db.Valid() && db.next == old(db.next)
    ensures IndexOf(old(db.patients), id).None? ==>
              resp == NotFound("Patient not found") && db.Snapshot() == old(db.Snapshot())
    ensures IndexOf(old(db.patients), id).Some? ==>
              var i := IndexOf(old(db.patients), id).value;
              var p := old(db.patients)[i].data.(status := "transferred");
              && resp == Ok(Row(id, p))
              && db.Snapshot() == old(db.Snapshot()).(patients := Put(old(db.patients), i, p))
  {
    resp := SetStatus(db, id, "transferred");
  }
}
