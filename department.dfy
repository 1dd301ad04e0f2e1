/** backend/src/controllers/department.controller.js: the department list
    with employee counts, lookup, creation and update. */
module DepartmentController {
  import opened Base
  import opened Schema

  function InDepartment(id: nat): Employee -> bool {
    (e: Employee) => e.departmentId == Some(id)
  }

  /** `COUNT(e.id)` over `LEFT JOIN employees e ON d.id = e.department_id`:
      the employees whose department is `id`. */
  function EmployeeCount(t: Table<Employee>, id: nat): (n: nat)
    ensures n <= |t|
    ensures n == |set i | 0 <= i < |t| && t[i].data.departmentId == Some(id)|
  {
    assert Where(t, InDepartment(id)) == set i | 0 <= i < |t| && t[i].data.departmentId == Some(id);
    CountWhere(t, InDepartment(id))
  }

  /** Adding an employee raises the count of its own department by one and
      leaves every other department's count as it was. */
  lemma CountAfterHire(t: Table<Employee>, e: Row<Employee>, id: nat)
    ensures EmployeeCount(t + [e], id) == EmployeeCount(t, id) + (if e.data.departmentId == Some(id) then 1 else 0)
  {
    assert (t + [e])[..|t|] == t;
  }

  datatype DepartmentSummary = DepartmentSummary(department: Row<Department>, employeeCount: nat)

  /** `getAllDepartments`: one summary per department, in table order (the
      `ORDER BY d.name` is not modelled). */
  function GetAllDepartments(t: Tables): (r: seq<DepartmentSummary>)
    ensures |r| == |t.departments|
    ensures forall i :: 0 <= i < |r| ==>
              r[i].department == t.departments[i] &&
              r[i].employeeCount == EmployeeCount(t.employees, t.departments[i].id)
  {
    seq(|t.departments|, i requires 0 <= i < |t.departments| =>
      DepartmentSummary(t.departments[i], EmployeeCount(t.employees, t.departments[i].id)))
  }

  function GetDepartmentById(t: Tables, id: nat): (resp: Response<Row<Department>>)
    ensures id in Keys(t.departments) <==> resp.Ok?
    ensures resp.Ok? ==> resp.value in t.departments && resp.value.id == id
    ensures !resp.Ok? ==> resp == NotFound("Department not found")
  {
    match IndexOf(t.departments, id)
    case None => NotFound("Department not found")
    case Some(i) => Ok(t.departments[i])
  }

  datatype DepartmentRequest = DepartmentRequest(
    name: Option<string>,
    description: Option<string>,
    headDoctor: Option<nat>)

  /** `createDepartment`: a UNIQUE violation on the name is the one error
      reported as a bad request. */
  method CreateDepartment(db: Store, r: DepartmentRequest) returns (resp: Response<Row<Department>>)
    requires db.Valid()
    modifies db
    ensures db.Valid()
    ensures !resp.Created? ==> db.Snapshot() == old(db.Snapshot())
    ensures !Given(r.name) ==> resp == BadRequest("Department name is required") && db.next == old(db.next)
    ensures Given(r.name) ==>
              var d, id := Department(r.name.value, r.description, r.headDoctor), old(db.next.departments);
              if DepartmentNameTaken(old(db.departments), r.name.value, None) then
                resp == BadRequest("Department name already exists")
              else if RefOk(r.headDoctor, Keys(old(db.users))) then
                resp == Created(Row(id, d)) &&
                db.Snapshot() == old(db.Snapshot()).(departments := old(db.departments) + [Row(id, d)])
              else
                resp == ServerError("Failed to create department")
  {
    if !Given(r.name) {
      return BadRequest("Department name is required");
    }
    var d := Department(r.name.value, r.description, r.headDoctor);
    var id, err := db.InsertDepartment(d);
    if err.Some? {
      if err.value.UniqueViolation? {
        return BadRequest("Department name already exists");
      }
      return ServerError("Failed to create department");
    }
    resp := Created(Row(id, d));
  }

  datatype DepartmentUpdate = DepartmentUpdate(
    name: Option<string>,
    description: Option<string>,
    headDoctor: Option<nat>)

  function DepartmentPatched(d: Department, r: DepartmentUpdate): Department {
    Department(Coalesce(r.name, d.name), CoalesceNull(r.description, d.description),
               CoalesceNull(r.headDoctor, d.headDoctor))
  }

  /** An empty update keeps the row; applying an update twice is applying it
      once; an update cannot clear the head doctor, since COALESCE keeps the
      stored one when the request sends none. */
  lemma DepartmentPatchedKeeps(d: Department, r: DepartmentUpdate)
    ensures DepartmentPatched(d, DepartmentUpdate(None, None, None)) == d
    ensures DepartmentPatched(DepartmentPatched(d, r), r) == DepartmentPatched(d, r)
    ensures d.headDoctor.Some? ==> DepartmentPatched(d, r).headDoctor.Some?
  {
  }

  /** `updateDepartment`: every error, a duplicate name included, is a 500. */
  method UpdateDepartment(db: Store, id: nat, r: DepartmentUpdate) returns (resp: Response<Row<Department>>)
    requires db.Valid()
    modifies db
    ensures db.Valid() && db.next == old(db.next)
    ensures IndexOf(old(db.departments), id).None? ==>
              resp == NotFound("Department not found") && db.Snapshot() == old(db.Snapshot())
    ensures IndexOf(old(db.departments), id).Some? ==>
              var i := IndexOf(old(db.departments), id).value;
              var d := DepartmentPatched(old(db.departments)[i].data, r);
              if !DepartmentNameTaken(old(db.departments), d.name, Some(id)) && RefOk(d.headDoctor, Keys(old(db.users))) then
                resp == Ok(Row(id, d)) &&
                db.Snapshot() == old(db.Snapshot()).(departments := Put(old(db.departments), i, d))
              else
                resp == ServerError("Failed to update department") && db.Snapshot() == old(db.Snapshot())
  {
    var found := IndexOf(db.departments, id);
    if found.None? {
      return NotFound("Department not found");
    }
    var i := found.value;
    var d := DepartmentPatched(db.departments[i].data, r);
    var err := db.UpdateDepartmentRow(i, d);
    if err.Some? {
      return ServerError("Failed to update department");
    }
    resp := Ok(Row(id, d));
  }
}
