/** backend/src/controllers/employee.controller.js: the employee list and
    lookups, employee creation (a users row and an employees row in one
    transaction) and the employee update. */
module EmployeeController {
  import opened Base
  import opened Schema
  import opened Sql
  import Crypto

  // ---------------------------------------------------------------------
  // getAllEmployees, getEmployeeById, getMyEmployeeInfo
  // ---------------------------------------------------------------------

  /** A row of `employees e JOIN users u ON e.user_id = u.id`. */
  type EmployeeRow = (Row<Employee>, Row<User>)

  predicate EmployeeJoined(e: Row<Employee>, u: Row<User>) {
    e.data.userId == u.id
  }

  function EmployeeView(x: EmployeeRow): (v: View)
    ensures EmployeeCode in v && v[EmployeeCode] == Str(x.0.data.code)
    ensures FirstName in v && v[FirstName] == Str(x.1.data.firstName)
    ensures LastName in v && v[LastName] == Str(x.1.data.lastName)
    ensures Position in v && v[Position] == Str(x.0.data.position)
    ensures DepartmentRef in v && v[DepartmentRef] == OptInt(x.0.data.departmentId)
    ensures Status in v && v[Status] == Str(x.0.data.status)
  {
    map[EmployeeCode := Str(x.0.data.code), FirstName := Str(x.1.data.firstName),
        LastName := Str(x.1.data.lastName), Position := Str(x.0.data.position),
        DepartmentRef := OptInt(x.0.data.departmentId), Status := Str(x.0.data.status)]
  }

  predicate EmployeeSearchHit(x: EmployeeRow, term: string) {
    || Contains(x.0.data.code, term) || Contains(x.1.data.firstName, term)
    || Contains(x.1.data.lastName, term) || Contains(x.0.data.position, term)
  }

  /** The four filters are conjunctive; each applies only when given. */
  predicate EmployeeListed(search: Option<string>, departmentId: Option<nat>, position: Option<string>,
                           status: Option<string>, x: EmployeeRow) {
    && (Given(search) ==> EmployeeSearchHit(x, search.value))
    && (departmentId.Some? ==> x.0.data.departmentId == Some(departmentId.value))
    && (Given(position) ==> x.0.data.position == position.value)
    && (Given(status) ==> x.0.data.status == status.value)
  }

  method EmployeeQuery(search: Option<string>, departmentId: Option<nat>, position: Option<string>,
                       status: Option<string>) returns (q: Query)
    ensures Numbered(q)
    ensures forall x :: Admits(q, EmployeeView(x)) <==> EmployeeListed(search, departmentId, position, status, x)
  {
    var paramCount;
    q, paramCount := EmployeeSearch(search);
    q, paramCount := AndIf(q, paramCount, departmentId.Some?, Eq(DepartmentRef, paramCount), OptInt(departmentId));
    q, paramCount := AndIf(q, paramCount, Given(position), Eq(Position, paramCount), OptStr(position));
    q, paramCount := AndIf(q, paramCount, Given(status), Eq(Status, paramCount), OptStr(status));
  }

  /** The first condition: the search over the code, the names and the position. */
  method EmployeeSearch(search: Option<string>) returns (q: Query, paramCount: nat)
    ensures Numbered(q) && paramCount == |q.params| + 1
    ensures forall x :: Admits(q, EmployeeView(x)) <==> (Given(search) ==> EmployeeSearchHit(x, search.value))
  {
    q := Query([], []);
    paramCount := 1;
    var like := AnyLike([EmployeeCode, FirstName, LastName, Position], paramCount);
    q, paramCount := AndIf(q, paramCount, Given(search), like, OptPattern(search));
    forall x | Given(search)
      ensures Test(like, OptPattern(search), EmployeeView(x)) <==> EmployeeSearchHit(x, search.value) {
      LikeAny4(EmployeeCode, FirstName, LastName, Position, like.p, OptPattern(search), EmployeeView(x));
    }
  }

  method GetAllEmployees(t: Tables, search: Option<string>, departmentId: Option<nat>,
                         position: Option<string>, status: Option<string>) returns (rows: seq<EmployeeRow>)
    ensures forall x :: x in rows <==>
              && x.0 in t.employees && x.1 in t.users && EmployeeJoined(x.0, x.1)
              && EmployeeListed(search, departmentId, position, status, x)
    ensures forall x :: multiset(rows)[x] ==
              if EmployeeListed(search, departmentId, position, status, x)
              then multiset(Pairs(t.employees, t.users, EmployeeJoined))[x] else 0
  {
    var q := EmployeeQuery(search, departmentId, position, status);
    rows := Select(Pairs(t.employees, t.users, EmployeeJoined), EmployeeView, q);
    SelectCounts(Pairs(t.employees, t.users, EmployeeJoined), EmployeeView, q);
  }

  datatype EmployeeDetail = EmployeeDetail(employee: Row<Employee>, user: EmployeeContact)

  /** `u.first_name, u.last_name, u.email, u.role, u.profile_picture`: the
      users columns the employee lookups join in. */
  datatype EmployeeContact = EmployeeContact(firstName: string, lastName: string, email: string, role: string,
                                             profilePicture: Option<string>)

  function ContactOf(u: Row<User>): EmployeeContact {
    EmployeeContact(u.data.firstName, u.data.lastName, u.data.email, u.data.role, u.data.profilePicture)
  }

  /** The employee at position `i` with its user's columns: the inner join
      `employees e JOIN users u ON e.user_id = u.id` on that one row. */
  function Detail(t: Tables, i: nat, notFound: string): (resp: Response<EmployeeDetail>)
    requires i < |t.employees|
    ensures !resp.Ok? <==> t.employees[i].data.userId !in Keys(t.users)
    ensures resp.Ok? ==> resp.value.employee == t.employees[i] &&
                         resp.value.user == ContactOf(t.users[IndexOf(t.users, t.employees[i].data.userId).value])
    ensures resp.Ok? || resp == NotFound(notFound)
  {
    match IndexOf(t.users, t.employees[i].data.userId)
    case None => NotFound(notFound)
    case Some(j) => Ok(EmployeeDetail(t.employees[i], ContactOf(t.users[j])))
  }

  function GetEmployeeById(t: Tables, id: nat): (resp: Response<EmployeeDetail>)
    ensures !resp.Ok? <==> id !in Keys(t.employees) ||
                           t.employees[IndexOf(t.employees, id).value].data.userId !in Keys(t.users)
    ensures resp.Ok? ==> resp.value.employee in t.employees && resp.value.employee.id == id &&
                         IndexOf(t.users, resp.value.employee.data.userId).Some? &&
                         resp.value.user == ContactOf(t.users[IndexOf(t.users, resp.value.employee.data.userId).value])
    ensures resp.Ok? || resp == NotFound("Employee not found")
  {
    match IndexOf(t.employees, id)
    case None => NotFound("Employee not found")
    case Some(i) => Detail(t, i, "Employee not found")
  }

  /** With unique keys, `getEmployeeById` answers the row of the join
      `employees JOIN users` whose employee has that id, and 404 exactly when
      the join has none. */
  lemma EmployeeByIdIsJoinRow(t: Tables, id: nat)
    requires UniqueKeys(t.employees) && UniqueKeys(t.users)
    ensures GetEmployeeById(t, id).Ok? <==>
              exists e, u :: e in t.employees && u in t.users && EmployeeJoined(e, u) && e.id == id
    ensures forall e, u :: e in t.employees && u in t.users && EmployeeJoined(e, u) && e.id == id ==>
              GetEmployeeById(t, id) == Ok(EmployeeDetail(e, ContactOf(u)))
  {
    forall e, u | e in t.employees && u in t.users && EmployeeJoined(e, u) && e.id == id
      ensures GetEmployeeById(t, id) == Ok(EmployeeDetail(e, ContactOf(u)))
    {
      var i :| 0 <= i < |t.employees| && t.employees[i] == e;
      var j :| 0 <= j < |t.users| && t.users[j] == u;
      IndexOfKey(t.employees, i);
      IndexOfKey(t.users, j);
    }
    if GetEmployeeById(t, id).Ok? {
      var d := GetEmployeeById(t, id).value;
      var j := IndexOf(t.users, d.employee.data.userId).value;
      assert EmployeeJoined(d.employee, t.users[j]);
    }
  }

  /** `getMyEmployeeInfo`: `rows[0]` of the caller's employees rows joined
      to the caller's users row. `employees.user_id` is not UNIQUE, so the
      first such row in table order is the one sent. */
  function GetMyEmployeeInfo(t: Tables, userId: nat): (resp: Response<EmployeeDetail>)
    ensures !resp.Ok? <==> (forall j :: 0 <= j < |t.employees| ==> t.employees[j].data.userId != userId) ||
                           userId !in Keys(t.users)
    ensures resp.Ok? ==> && resp.value.employee == t.employees[EmployeeOf(t.employees, userId).value]
                         && resp.value.employee.data.userId == userId
                         && resp.value.user == ContactOf(t.users[IndexOf(t.users, userId).value])
    ensures resp.Ok? || resp == NotFound("Employee record not found")
  {
    match EmployeeOf(t.employees, userId)
    case None => NotFound("Employee record not found")
    case Some(i) => Detail(t, i, "Employee record not found")
  }

  // ---------------------------------------------------------------------
  // createEmployee
  // ---------------------------------------------------------------------

  datatype EmployeeRequest = EmployeeRequest(
    email: Option<string>,
    password: Option<string>,
    firstName: Option<string>,
    lastName: Option<string>,
    role: Option<string>,
    departmentId: Option<nat>,
    position: Option<string>,
    specialization: Option<string>,
    hireDate: Option<nat>,
    salary: Option<int>)

  predicate EmployeeFieldsGiven(r: EmployeeRequest) {
    && Given(r.email) && Given(r.password) && Given(r.firstName) && Given(r.lastName)
    && Given(r.role) && Given(r.position) && r.hireDate.Some?
  }

  /** The users row: any role string is passed on, the CHECK constraint is
      the only role check; the forced password change is not set. */
  function EmployeeUser(r: EmployeeRequest, salt: nat, docStamp: nat): (u: User)
    requires EmployeeFieldsGiven(r)
    ensures u.doctorId.Some? <==> r.role.value == "doctor"
    ensures u.doctorId.Some? ==> StartsWith(u.doctorId.value, "DOC")
    ensures !u.mustChangePassword && u.role == r.role.value
    ensures UserRowOk(u) <==> r.role.value in Roles
  {
    User(r.email.value, Crypto.Hash(r.password.value, salt), r.firstName.value, r.lastName.value,
         r.role.value, if r.role.value == "doctor" then Some(Stamped("DOC", docStamp)) else None,
         None, false)
  }

  function NewEmployee(r: EmployeeRequest, userId: nat, empStamp: nat): (e: Employee)
    requires EmployeeFieldsGiven(r)
    ensures e.userId == userId && e.status == "active" && StartsWith(e.code, "EMP")
    ensures e.departmentId == r.departmentId && e.salary == r.salary
  {
    Employee(userId, Stamped("EMP", empStamp), r.departmentId, r.position.value, r.specialization,
             r.hireDate.value, r.salary, "active")
  }

  /** `createEmployee`: no email pre-check and no role whitelist. */
  method CreateEmployee(db: Store, r: EmployeeRequest, salt: nat, docStamp: nat, empStamp: nat)
    returns (resp: Response<Row<Employee>>)
    requires db.Valid()
    modifies db
    ensures db.Valid()
    ensures !EmployeeFieldsGiven(r) ==>
              resp == BadRequest("Required fields missing") && db.Snapshot() == old(db.Snapshot()) &&
              db.next == old(db.next)
    ensures !resp.Created? ==> db.Snapshot() == old(db.Snapshot())
    ensures resp.Created? || resp.BadRequest? || resp == ServerError("Failed to create employee")
    ensures EmployeeFieldsGiven(r) ==>
              var uid, eid := old(db.next.users), old(db.next.employees);
              var u, e := EmployeeUser(r, salt, docStamp), NewEmployee(r, uid, empStamp);
              if InsertUserError(old(db.users), u).None? &&
                 InsertEmployeeError(old(db.employees), e, Keys(old(db.users)) + {uid}, Keys(old(db.departments))).None?
              then
                && resp == Created(Row(eid, e))
                && db.Snapshot() == old(db.Snapshot()).(users := old(db.users) + [Row(uid, u)],
                                                        employees := old(db.employees) + [Row(eid, e)])
              else resp == ServerError("Failed to create employee")
  {
    if !EmployeeFieldsGiven(r) {
      return BadRequest("Required fields missing");
    }
    // BEGIN
    var saved := db.Snapshot();
    ghost var before := db.next;
    var u := EmployeeUser(r, salt, docStamp);
    var uid, e1 := db.InsertUser(u);
    if e1.Some? {
      ConsistentLater(saved, before, db.next);
      db.Restore(saved);
      return ServerError("Failed to create employee");
    }
    KeysAppend(saved.users, Row(uid, u));
    var e := NewEmployee(r, uid, empStamp);
    var eid, e2 := db.InsertEmployee(e);
    if e2.Some? {
      ConsistentLater(saved, before, db.next);
      db.Restore(saved);
      return ServerError("Failed to create employee");
    }
    // COMMIT
    resp := Created(Row(eid, e));
  }

  /** A 'patient' role is accepted here, unlike in staff creation. */
  lemma PatientRoleAccepted(r: EmployeeRequest, salt: nat, docStamp: nat)
    requires EmployeeFieldsGiven(r) && r.role.value == "patient"
    ensures UserRowOk(EmployeeUser(r, salt, docStamp)) && EmployeeUser(r, salt, docStamp).doctorId.None?
  {
  }

  // ---------------------------------------------------------------------
  // updateEmployee
  // ---------------------------------------------------------------------

  datatype EmployeeUpdate = EmployeeUpdate(
    departmentId: Option<nat>,
    position: Option<string>,
    specialization: Option<string>,
    salary: Option<int>,
    status: Option<string>)

  function EmployeePatched(e: Employee, r: EmployeeUpdate): Employee {
    e.(departmentId := CoalesceNull(r.departmentId, e.departmentId),
       position := Coalesce(r.position, e.position),
       specialization := CoalesceNull(r.specialization, e.specialization),
       salary := CoalesceNull(r.salary, e.salary),
       status := Coalesce(r.status, e.status))
  }

  /** The update keeps the user link, the code and the hire date; an empty
      update keeps the row, and the same update applied twice is applied once. */
  lemma EmployeePatchedKeeps(e: Employee, r: EmployeeUpdate)
    ensures var e' := EmployeePatched(e, r);
            && e'.userId == e.userId && e'.code == e.code && e'.hireDate == e.hireDate
            && EmployeePatched(e, EmployeeUpdate(None, None, None, None, None)) == e
            && EmployeePatched(e', r) == e'
  {
  }

  method UpdateEmployee(db: Store, id: nat, r: EmployeeUpdate) returns (resp: Response<Row<Employee>>)
    requires db.Valid()
    modifies db
    ensures db.Valid() && db.next == old(db.next)
    ensures IndexOf(old(db.employees), id).None? ==>
              resp == NotFound("Employee not found") && db.Snapshot() == old(db.Snapshot())
    ensures IndexOf(old(db.employees), id).Some? ==>
              var i := IndexOf(old(db.employees), id).value;
              var e := EmployeePatched(old(db.employees)[i].data, r);
              if EmployeeError(e, Keys(old(db.users)), Keys(old(db.departments))).None? then
                resp == Ok(Row(id, e)) &&
                db.Snapshot() == old(db.Snapshot()).(employees := Put(old(db.employees), i, e))
              else
                resp == ServerError("Failed to update employee") && db.Snapshot() == old(db.Snapshot())
  {
    var found := IndexOf(db.employees, id);
    if found.None? {
      return NotFound("Employee not found");
    }
    var i := found.value;
    var e := EmployeePatched(db.employees[i].data, r);
    var err := db.UpdateEmployeeRow(i, e);
    if err.Some? {
      return ServerError("Failed to update employee");
    }
    resp := Ok(Row(id, e));
  }
}
