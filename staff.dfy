/** backend/src/controllers/staff.controller.js: the admin's account
    provisioning for staff (a users row and an employees row in one
    transaction) and the staff list. */
module StaffController {
  import opened Base
  import opened Schema
  import opened Sql
  import Crypto

  /** The roles an admin may give a staff member: every role but 'patient'. */
  const StaffRoles: set<string> := {"doctor", "nurse", "staff", "admin"}

  datatype StaffRequest = StaffRequest(
    email: Option<string>,
    password: Option<string>,
    firstName: Option<string>,
    lastName: Option<string>,
    role: Option<string>,
    departmentId: Option<nat>,
    position: Option<string>,
    specialization: Option<string>,
    hireDate: Option<nat>,
    salary: Option<int>)

  /** The seven fields `createStaff` requires; a date is present text, so
      present means truthy. */
  predicate StaffFieldsGiven(r: StaffRequest) {
    && Given(r.email) && Given(r.password) && Given(r.firstName) && Given(r.lastName)
    && Given(r.role) && Given(r.position) && r.hireDate.Some?
  }

  /** The 400s `createStaff` answers before it opens a transaction. */
  function StaffGuard(r: StaffRequest): (err: Option<string>)
    ensures !StaffFieldsGiven(r) ==> err == Some("Required fields missing")
    ensures StaffFieldsGiven(r) && r.role.value !in StaffRoles ==>
              err == Some("Invalid role. Allowed: doctor, nurse, staff, admin")
    ensures err.None? <==> StaffFieldsGiven(r) && r.role.value in StaffRoles
    ensures err.None? ==> r.role.value != "patient" && r.role.value in Roles
  {
    if !StaffFieldsGiven(r) then Some("Required fields missing")
    else if r.role.value !in StaffRoles then Some("Invalid role. Allowed: doctor, nurse, staff, admin")
    else None
  }

  /** The users row: a doctor gets a generated 'DOC' identifier, which is
      what the doctor-ID login looks up; the password must be changed at
      first login. */
  function StaffUser(r: StaffRequest, salt: nat, docStamp: nat): (u: User)
    requires StaffFieldsGiven(r)
    ensures u.doctorId.Some? <==> r.role.value == "doctor"
    ensures u.doctorId.Some? ==> StartsWith(u.doctorId.value, "DOC")
    ensures u.mustChangePassword && u.role == r.role.value && u.email == r.email.value
    ensures Crypto.Compare(r.password.value, u.password)
  {
    User(r.email.value, Crypto.Hash(r.password.value, salt), r.firstName.value, r.lastName.value,
         r.role.value, if r.role.value == "doctor" then Some(Stamped("DOC", docStamp)) else None,
         None, true)
  }

  /** The employees row, linked to the new users row. */
  function StaffEmployee(r: StaffRequest, userId: nat, empStamp: nat): (e: Employee)
    requires StaffFieldsGiven(r)
    ensures e.userId == userId && e.status == "active" && StartsWith(e.code, "EMP")
    ensures e.departmentId == r.departmentId && e.position == r.position.value
    ensures e.hireDate == r.hireDate.value && e.salary == r.salary
  {
    Employee(userId, Stamped("EMP", empStamp), r.departmentId, r.position.value, r.specialization,
             r.hireDate.value, r.salary, "active")
  }

  /** `RETURNING id, email, first_name, last_name, role, doctor_id,
      must_change_password`: the `user` object of the 201 response. */
  datatype CreatedUser = CreatedUser(id: nat, email: string, firstName: string, lastName: string, role: string,
                                     doctorId: Option<string>, mustChangePassword: bool)

  function Returned(r: Row<User>): CreatedUser {
    CreatedUser(r.id, r.data.email, r.data.firstName, r.data.lastName, r.data.role, r.data.doctorId,
                r.data.mustChangePassword)
  }

  datatype StaffCreated = StaffCreated(user: CreatedUser, employee: Row<Employee>)

  /** `createStaff`. The clock is read twice, for the doctor ID and for the
      employee code; both readings are parameters, as is bcrypt's salt. */
  method CreateStaff(db: Store, r: StaffRequest, salt: nat, docStamp: nat, empStamp: nat)
    returns (resp: Response<StaffCreated>)
    requires db.Valid()
    modifies db
    ensures db.Valid()
    ensures StaffGuard(r).Some? ==>
              resp == BadRequest(StaffGuard(r).value) && db.Snapshot() == old(db.Snapshot()) &&
              db.next == old(db.next)
    ensures StaffGuard(r).None? && EmailTaken(old(db.users), r.email.value) ==>
              resp == BadRequest("User with this email already exists") &&
              db.Snapshot() == old(db.Snapshot()) && db.next == old(db.next)
    // Atomicity: either both rows are added, or no table changes.
    ensures !resp.Created? ==> db.Snapshot() == old(db.Snapshot())
    ensures resp.Created? ==>
              && StaffGuard(r).None? && !EmailTaken(old(db.users), r.email.value)
              && var uid, eid := old(db.next.users), old(db.next.employees);
                 var u, e := StaffUser(r, salt, docStamp), StaffEmployee(r, uid, empStamp);
                 && db.Snapshot() == old(db.Snapshot()).(users := old(db.users) + [Row(uid, u)],
                                                         employees := old(db.employees) + [Row(eid, e)])
                 && resp.value == StaffCreated(Returned(Row(uid, u)), Row(eid, e))
    ensures resp.Created? || resp.BadRequest? || resp == ServerError("Failed to create staff member")
    // What can make the transaction fail once the guards have passed.
    ensures StaffGuard(r).None? && !EmailTaken(old(db.users), r.email.value) ==>
              var u := StaffUser(r, salt, docStamp);
              var e := StaffEmployee(r, old(db.next.users), empStamp);
              (resp.Created? <==>
                 && InsertUserError(old(db.users), u).None?
                 && EmployeeError(e, Keys(old(db.users)) + {old(db.next.users)}, Keys(old(db.departments))).None?
                 && !EmployeeCodeTaken(old(db.employees), e.code))
  {
    var err := StaffGuard(r);
    if err.Some? {
      return BadRequest(err.value);
    }
    // BEGIN
    var saved := db.Snapshot();
    ghost var before := db.next;
    if EmailTaken(db.users, r.email.value) {
      // ROLLBACK: nothing has been written.
      return BadRequest("User with this email already exists");
    }
    var u := StaffUser(r, salt, docStamp);
    var uid, e1 := db.InsertUser(u);
    if e1.Some? {
      ConsistentLater(saved, before, db.next);
      db.Restore(saved);
      return ServerError("Failed to create staff member");
    }
    KeysAppend(saved.users, Row(uid, u));
    var e := StaffEmployee(r, uid, empStamp);
    var eid, e2 := db.InsertEmployee(e);
    if e2.Some? {
      ConsistentLater(saved, before, db.next);
      db.Restore(saved);
      return ServerError("Failed to create staff member");
    }
    // COMMIT
    resp := Created(StaffCreated(Returned(Row(uid, u)), Row(eid, e)));
  }

  // ---------------------------------------------------------------------
  // getAllStaff
  // ---------------------------------------------------------------------

  /** A row of `users u JOIN employees e ON u.id = e.user_id`. */
  type StaffRow = (Row<User>, Row<Employee>)

  /** The fixed part of the query: the join, restricted to staff roles. */
  predicate StaffJoined(u: Row<User>, e: Row<Employee>) {
    u.id == e.data.userId && u.data.role in StaffRoles
  }

  function StaffView(x: StaffRow): View {
    map[Role := Str(x.0.data.role), DepartmentRef := OptInt(x.1.data.departmentId)]
  }

  /** What the role and department filters mean: each given one must match. */
  predicate StaffListed(role: Option<string>, departmentId: Option<nat>, x: StaffRow) {
    && (Given(role) ==> x.0.data.role == role.value)
    && (departmentId.Some? ==> x.1.data.departmentId == Some(departmentId.value))
  }

  /** The conditions and parameters `getAllStaff` appends. */
  method StaffQuery(role: Option<string>, departmentId: Option<nat>) returns (q: Query)
    ensures Numbered(q)
    ensures forall x :: Admits(q, StaffView(x)) <==> StaffListed(role, departmentId, x)
  {
    q := Query([], []);
    var paramCount := 1;
    q, paramCount := AndIf(q, paramCount, Given(role), Eq(Role, paramCount), OptStr(role));
    q, paramCount := AndIf(q, paramCount, departmentId.Some?, Eq(DepartmentRef, paramCount), OptInt(departmentId));
  }

  /** `getAllStaff`: the staff members with an employees row that pass every
      given filter. */
  method GetAllStaff(t: Tables, role: Option<string>, departmentId: Option<nat>)
    returns (rows: seq<StaffRow>)
    ensures forall x :: x in rows <==>
              && x.0 in t.users && x.1 in t.employees && StaffJoined(x.0, x.1)
              && StaffListed(role, departmentId, x)
    ensures forall x :: multiset(rows)[x] ==
              if StaffListed(role, departmentId, x) then multiset(Pairs(t.users, t.employees, StaffJoined))[x] else 0
    ensures forall x :: x in rows ==> x.0.data.role != "patient"
  {
    var q := StaffQuery(role, departmentId);
    rows := Select(Pairs(t.users, t.employees, StaffJoined), StaffView, q);
    SelectCounts(Pairs(t.users, t.employees, StaffJoined), StaffView, q);
  }
}
