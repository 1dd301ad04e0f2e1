/** The relational schema created by backend/src/config/migrate.js (with the
    columns backend/src/config/patch-schema.js adds: users.must_change_password,
    patients.assigned_doctor_id and patients.assigned_nurse_id), as an
    in-memory store. Each table is a sequence of rows in insertion order, each
    row carrying its SERIAL primary key; the CHECK, UNIQUE and REFERENCES
    constraints are the store's invariant. */
module Schema {
  import opened Base
  import Crypto

  // ---------------------------------------------------------------------
  // Rows and tables
  // ---------------------------------------------------------------------

  /** A row: its SERIAL `id` and the other columns. */
  datatype Row<+T> = Row(id: nat, data: T)

  type Table<T> = seq<Row<T>>

  /** The primary keys present in a table. */
  function Keys<T>(t: Table<T>): (ks: set<nat>)
    ensures forall i :: 0 <= i < |t| ==> t[i].id in ks
    ensures forall k :: k in ks ==> exists i :: 0 <= i < |t| && t[i].id == k
  {
    set i | 0 <= i < |t| :: t[i].id
  }

  /** PRIMARY KEY with a SERIAL default: keys are distinct and below the
      sequence's next value. */
  ghost predicate PrimaryKey<T>(t: Table<T>, next: nat) {
    && (forall i :: 0 <= i < |t| ==> t[i].id < next)
    && UniqueKeys(t)
  }

  /** No two rows share a key. */
  ghost predicate UniqueKeys<T>(t: Table<T>) {
    forall i, j :: 0 <= i < j < |t| ==> t[i].id != t[j].id
  }

  /** `WHERE id = $1` on the primary key: the position of that row, if any. */
  function IndexOf<T>(t: Table<T>, id: nat): (r: Option<nat>)
    ensures r.Some? ==> r.value < |t| && t[r.value].id == id
    ensures r.None? <==> id !in Keys(t)
  {
    if |t| == 0 then None
    else if t[0].id == id then Some(0)
    else match IndexOf(t[1..], id)
      case Some(k) => Some(k + 1)
      case None => None
  }

  /** With unique keys, `WHERE id = $1` finds the one row with that key. */
  lemma IndexOfKey<T>(t: Table<T>, i: nat)
    requires UniqueKeys(t) && i < |t|
    ensures IndexOf(t, t[i].id) == Some(i)
  {
    var k := IndexOf(t, t[i].id);
    assert k.Some?;
    assert t[k.value].id == t[i].id;
  }

  /** The first row satisfying `p`: `rows[0]` of a SELECT without ORDER BY,
      taking the table's insertion order as the order rows come back in. */
  function FirstWhere<T>(t: Table<T>, p: Row<T> -> bool): (r: Option<nat>)
    ensures r.Some? ==> r.value < |t| && p(t[r.value])
    ensures r.Some? ==> forall j :: 0 <= j < r.value ==> !p(t[j])
    ensures r.None? <==> forall j :: 0 <= j < |t| ==> !p(t[j])
  {
    if |t| == 0 then None
    else if p(t[0]) then Some(0)
    else match FirstWhere(t[1..], p)
      case Some(k) =>
        assert forall j :: 1 <= j < k + 1 ==> t[j] == t[1..][j - 1];
        Some(k + 1)
      case None =>
        assert forall j :: 1 <= j < |t| ==> t[j] == t[1..][j - 1];
        None
  }

  /** The positions of the rows whose columns satisfy `p`. */
  function Where<T>(t: Table<T>, p: T -> bool): set<nat> {
    set i | 0 <= i < |t| && p(t[i].data)
  }

  /** `SELECT COUNT(*) … WHERE p`: the number of rows whose columns satisfy `p`. */
  function CountWhere<T>(t: Table<T>, p: T -> bool): (n: nat)
    ensures n <= |t|
    ensures n == |Where(t, p)|
  {
    if |t| == 0 then 0
    else
      var k := |t| - 1;
      assert Where(t, p) == Where(t[..k], p) + (if p(t[k].data) then {k} else {});
      CountWhere(t[..k], p) + (if p(t[k].data) then 1 else 0)
  }

  /** Replace the columns of the row at position `i`, keeping its key. */
  function Put<T>(t: Table<T>, i: nat, d: T): (r: Table<T>)
    requires i < |t|
    ensures |r| == |t| && r[i] == Row(t[i].id, d)
    ensures forall j :: 0 <= j < |t| && j != i ==> r[j] == t[j]
  {
    t[i := Row(t[i].id, d)]
  }

  /** Remove the row at position `i`. */
  function Remove<T>(t: Table<T>, i: nat): (r: Table<T>)
    requires i < |t|
    ensures |r| == |t| - 1
    ensures forall j :: 0 <= j < i ==> r[j] == t[j]
    ensures forall j :: i <= j < |r| ==> r[j] == t[j + 1]
  {
    t[..i] + t[i + 1..]
  }

  lemma KeysAppend<T>(t: Table<T>, row: Row<T>)
    ensures Keys(t + [row]) == Keys(t) + {row.id}
  {
    var u := t + [row];
    assert u[|t|] == row;
    forall k | k in Keys(t) ensures k in Keys(u) {
      var i :| 0 <= i < |t| && t[i].id == k;
      assert u[i] == t[i];
    }
  }

  lemma KeysPut<T>(t: Table<T>, i: nat, d: T)
    requires i < |t|
    ensures Keys(Put(t, i, d)) == Keys(t)
  {
    var u := Put(t, i, d);
    forall k | k in Keys(t) ensures k in Keys(u) {
      var j :| 0 <= j < |t| && t[j].id == k;
      assert u[j].id == k;
    }
  }

  lemma KeysRemove<T>(t: Table<T>, i: nat, next: nat)
    requires i < |t| && PrimaryKey(t, next)
    ensures Keys(Remove(t, i)) == Keys(t) - {t[i].id}
    ensures PrimaryKey(Remove(t, i), next)
  {
    var u := Remove(t, i);
    forall k | k in Keys(t) - {t[i].id} ensures k in Keys(u) {
      var j :| 0 <= j < |t| && t[j].id == k;
      if j < i { assert u[j].id == k; } else { assert u[j - 1].id == k; }
    }
    PrimaryKeyRemove(t, i, next);
  }

  lemma PrimaryKeyRemove<T>(t: Table<T>, i: nat, next: nat)
    requires i < |t| && PrimaryKey(t, next)
    ensures PrimaryKey(Remove(t, i), next)
  {
    var u := Remove(t, i);
    forall a | 0 <= a < |u| ensures u[a].id < next {
      if a < i { assert u[a] == t[a]; } else { assert u[a] == t[a + 1]; }
    }
    forall a, b | 0 <= a < b < |u| ensures u[a].id != u[b].id {
      var a' := if a < i then a else a + 1;
      var b' := if b < i then b else b + 1;
      assert u[a] == t[a'] && u[b] == t[b'] && a' < b';
    }
  }

  // ---------------------------------------------------------------------
  // Columns and their CHECK constraints
  // ---------------------------------------------------------------------

  const Roles: set<string> := {"patient", "doctor", "nurse", "staff", "admin"}
  const PatientStatuses: set<string> := {"active", "discharged", "transferred"}
  const EmployeeStatuses: set<string> := {"active", "on_leave", "terminated"}
  const AppointmentStatuses: set<string> := {"scheduled", "completed", "cancelled", "rescheduled"}
  const PrescriptionStatuses: set<string> := {"active", "completed", "cancelled"}
  const PayrollStatuses: set<string> := {"pending", "paid", "cancelled"}
  const Priorities: set<string> := {"low", "normal", "high", "urgent"}
  const Audiences: set<string> := {"all", "doctors", "nurses", "patients", "staff"}

  /** DECIMAL(10, 2) holds amounts below 10^8 in magnitude; amounts are whole
      units in this model. */
  predicate FitsMoney(x: int) {
    -100000000 < x < 100000000
  }

  /** users. `email` carries no UNIQUE constraint. */
  datatype User = User(
    email: string,
    password: Crypto.Digest,
    firstName: string,
    lastName: string,
    role: string,
    doctorId: Option<string>,
    profilePicture: Option<string>,
    mustChangePassword: bool)

  /** patients; `code` is the generated `patient_id` text. */
  datatype Patient = Patient(
    userId: nat,
    code: string,
    dateOfBirth: Option<nat>,
    gender: Option<string>,
    phone: Option<string>,
    address: Option<string>,
    emergencyName: Option<string>,
    emergencyPhone: Option<string>,
    bloodType: Option<string>,
    allergies: Option<string>,
    history: Option<string>,
    status: string,
    assignedDoctor: Option<nat>,
    assignedNurse: Option<nat>)

  datatype Department = Department(
    name: string,
    description: Option<string>,
    headDoctor: Option<nat>)

  /** employees; `code` is the generated `employee_id` text. */
  datatype Employee = Employee(
    userId: nat,
    code: string,
    departmentId: Option<nat>,
    position: string,
    specialization: Option<string>,
    hireDate: nat,
    salary: Option<int>,
    status: string)

  /** appointments; `patientId` is a patients key, `doctorId` a users key. */
  datatype Appointment = Appointment(
    patientId: nat,
    doctorId: nat,
    date: nat,
    time: nat,
    reason: Option<string>,
    status: string,
    notes: Option<string>)

  datatype Prescription = Prescription(
    patientId: nat,
    doctorId: nat,
    medication: string,
    dosage: Option<string>,
    frequency: Option<string>,
    duration: Option<string>,
    instructions: Option<string>,
    status: string)

  datatype MedicalRecord = MedicalRecord(
    patientId: nat,
    doctorId: nat,
    recordType: string,
    diagnosis: Option<string>,
    symptoms: Option<string>,
    treatment: Option<string>,
    notes: Option<string>)

  /** payroll; `employeeId` is an employees key. */
  datatype Payroll = Payroll(
    employeeId: nat,
    month: int,
    year: int,
    baseSalary: int,
    allowances: int,
    deductions: int,
    bonus: int,
    netSalary: int,
    status: string,
    paymentDate: Option<nat>)

  datatype Notice = Notice(
    title: string,
    content: string,
    priority: string,
    audience: string,
    createdBy: Option<nat>)

  /** An error a statement can raise, with its SQLSTATE class:
      22003 numeric overflow, 23514 CHECK, 23505 UNIQUE, 23503 REFERENCES. */
  datatype DbError =
    | NumericOverflow
    | CheckViolation(constraint: string)
    | UniqueViolation(constraint: string)
    | ForeignKeyViolation(constraint: string)

  predicate RefOk(ref: Option<nat>, keys: set<nat>) {
    ref.Some? ==> ref.value in keys
  }

  // ---------------------------------------------------------------------
  // Row constraints (CHECK and REFERENCES) and table constraints (UNIQUE)
  // ---------------------------------------------------------------------

  predicate UserRowOk(u: User) {
    u.role in Roles
  }

  ghost predicate UsersOk(t: Table<User>, next: nat) {
    && PrimaryKey(t, next)
    && (forall i :: 0 <= i < |t| ==> UserRowOk(t[i].data))
    && (forall i, j :: 0 <= i < j < |t| && t[i].data.doctorId.Some? ==>
          t[i].data.doctorId != t[j].data.doctorId)
  }

  predicate PatientRowOk(p: Patient, users: set<nat>) {
    && p.status in PatientStatuses
    && p.userId in users
    && RefOk(p.assignedDoctor, users)
    && RefOk(p.assignedNurse, users)
  }

  ghost predicate PatientsOk(t: Table<Patient>, next: nat, users: set<nat>) {
    && PrimaryKey(t, next)
    && (forall i :: 0 <= i < |t| ==> PatientRowOk(t[i].data, users))
    && (forall i, j :: 0 <= i < j < |t| ==> t[i].data.code != t[j].data.code)
  }

  predicate DepartmentRowOk(d: Department, users: set<nat>) {
    RefOk(d.headDoctor, users)
  }

  ghost predicate DepartmentsOk(t: Table<Department>, next: nat, users: set<nat>) {
    && PrimaryKey(t, next)
    && (forall i :: 0 <= i < |t| ==> DepartmentRowOk(t[i].data, users))
    && (forall i, j :: 0 <= i < j < |t| ==> t[i].data.name != t[j].data.name)
  }

  predicate EmployeeRowOk(e: Employee, users: set<nat>, departments: set<nat>) {
    && (e.salary.Some? ==> FitsMoney(e.salary.value))
    && e.status in EmployeeStatuses
    && e.userId in users
    && RefOk(e.departmentId, departments)
  }

  ghost predicate EmployeesOk(t: Table<Employee>, next: nat, users: set<nat>, departments: set<nat>) {
    && PrimaryKey(t, next)
    && (forall i :: 0 <= i < |t| ==> EmployeeRowOk(t[i].data, users, departments))
    && (forall i, j :: 0 <= i < j < |t| ==> t[i].data.code != t[j].data.code)
  }

  predicate AppointmentRowOk(a: Appointment, patients: set<nat>, users: set<nat>) {
    && a.status in AppointmentStatuses
    && a.patientId in patients
    && a.doctorId in users
  }

  ghost predicate AppointmentsOk(t: Table<Appointment>, next: nat, patients: set<nat>, users: set<nat>) {
    && PrimaryKey(t, next)
    && (forall i :: 0 <= i < |t| ==> AppointmentRowOk(t[i].data, patients, users))
  }

  predicate PrescriptionRowOk(p: Prescription, patients: set<nat>, users: set<nat>) {
    && p.status in PrescriptionStatuses
    && p.patientId in patients
    && p.doctorId in users
  }

  ghost predicate PrescriptionsOk(t: Table<Prescription>, next: nat, patients: set<nat>, users: set<nat>) {
    && PrimaryKey(t, next)
    && (forall i :: 0 <= i < |t| ==> PrescriptionRowOk(t[i].data, patients, users))
  }

  predicate RecordRowOk(m: MedicalRecord, patients: set<nat>, users: set<nat>) {
    && m.patientId in patients
    && m.doctorId in users
  }

  ghost predicate RecordsOk(t: Table<MedicalRecord>, next: nat, patients: set<nat>, users: set<nat>) {
    && PrimaryKey(t, next)
    && (forall i :: 0 <= i < |t| ==> RecordRowOk(t[i].data, patients, users))
  }

  predicate AmountsFit(p: Payroll) {
    && FitsMoney(p.baseSalary) && FitsMoney(p.allowances) && FitsMoney(p.deductions)
    && FitsMoney(p.bonus) && FitsMoney(p.netSalary)
  }

  predicate PayrollRowOk(p: Payroll, employees: set<nat>) {
    && AmountsFit(p)
    && 1 <= p.month <= 12
    && p.status in PayrollStatuses
    && p.employeeId in employees
  }

  /** The `UNIQUE(employee_id, month, year)` key of a payroll row. */
  predicate SamePeriod(a: Payroll, b: Payroll) {
    a.employeeId == b.employeeId && a.month == b.month && a.year == b.year
  }

  ghost predicate PayrollsOk(t: Table<Payroll>, next: nat, employees: set<nat>) {
    && PrimaryKey(t, next)
    && (forall i :: 0 <= i < |t| ==> PayrollRowOk(t[i].data, employees))
    && (forall i, j :: 0 <= i < j < |t| ==> !SamePeriod(t[i].data, t[j].data))
  }

  predicate NoticeRowOk(n: Notice, users: set<nat>) {
    && n.priority in Priorities
    && n.audience in Audiences
    && RefOk(n.createdBy, users)
  }

  ghost predicate NoticesOk(t: Table<Notice>, next: nat, users: set<nat>) {
    && PrimaryKey(t, next)
    && (forall i :: 0 <= i < |t| ==> NoticeRowOk(t[i].data, users))
  }

  // ---------------------------------------------------------------------
  // The errors a statement raises, in the order PostgreSQL detects them:
  // value conversion, then CHECK, then the UNIQUE index, then REFERENCES.
  // ---------------------------------------------------------------------

  predicate DoctorIdTaken(t: Table<User>, doctorId: Option<string>) {
    doctorId.Some? && exists i :: 0 <= i < |t| && t[i].data.doctorId == doctorId
  }

  function InsertUserError(t: Table<User>, u: User): (e: Option<DbError>)
    ensures e.None? <==> UserRowOk(u) && !DoctorIdTaken(t, u.doctorId)
  {
    if !UserRowOk(u) then Some(CheckViolation("users_role_check"))
    else if DoctorIdTaken(t, u.doctorId) then Some(UniqueViolation("users_doctor_id_key"))
    else None
  }

  function PatientError(p: Patient, users: set<nat>): (e: Option<DbError>)
    ensures e.None? <==> PatientRowOk(p, users)
    ensures e.Some? && p.status in PatientStatuses ==> e.value.ForeignKeyViolation?
  {
    if p.status !in PatientStatuses then Some(CheckViolation("patients_status_check"))
    else if !PatientRowOk(p, users) then Some(ForeignKeyViolation("patients_fkey"))
    else None
  }

  predicate PatientCodeTaken(t: Table<Patient>, code: string) {
    exists i :: 0 <= i < |t| && t[i].data.code == code
  }

  function InsertPatientError(t: Table<Patient>, p: Patient, users: set<nat>): (e: Option<DbError>)
    ensures e.None? <==> PatientRowOk(p, users) && !PatientCodeTaken(t, p.code)
  {
    if p.status !in PatientStatuses then Some(CheckViolation("patients_status_check"))
    else if PatientCodeTaken(t, p.code) then Some(UniqueViolation("patients_patient_id_key"))
    else PatientError(p, users)
  }

  predicate DepartmentNameTaken(t: Table<Department>, name: string, except: Option<nat>) {
    exists i :: 0 <= i < |t| && t[i].data.name == name && Some(t[i].id) != except
  }

  /** INSERT (`except` is None) or UPDATE of the department row `except`. */
  function DepartmentError(t: Table<Department>, d: Department, except: Option<nat>, users: set<nat>): (e: Option<DbError>)
    ensures e.None? <==> DepartmentRowOk(d, users) && !DepartmentNameTaken(t, d.name, except)
    ensures DepartmentNameTaken(t, d.name, except) <==> e.Some? && e.value.UniqueViolation?
  {
    if DepartmentNameTaken(t, d.name, except) then Some(UniqueViolation("departments_name_key"))
    else if !DepartmentRowOk(d, users) then Some(ForeignKeyViolation("departments_head_doctor_id_fkey"))
    else None
  }

  function EmployeeError(e: Employee, users: set<nat>, departments: set<nat>): (r: Option<DbError>)
    ensures r.None? <==> EmployeeRowOk(e, users, departments)
  {
    if e.salary.Some? && !FitsMoney(e.salary.value) then Some(NumericOverflow)
    else if e.status !in EmployeeStatuses then Some(CheckViolation("employees_status_check"))
    else if !EmployeeRowOk(e, users, departments) then Some(ForeignKeyViolation("employees_fkey"))
    else None
  }

  predicate EmployeeCodeTaken(t: Table<Employee>, code: string) {
    exists i :: 0 <= i < |t| && t[i].data.code == code
  }

  function InsertEmployeeError(t: Table<Employee>, e: Employee, users: set<nat>, departments: set<nat>): (r: Option<DbError>)
    ensures r.None? <==> EmployeeRowOk(e, users, departments) && !EmployeeCodeTaken(t, e.code)
  {
    if e.salary.Some? && !FitsMoney(e.salary.value) then Some(NumericOverflow)
    else if e.status !in EmployeeStatuses then Some(CheckViolation("employees_status_check"))
    else if EmployeeCodeTaken(t, e.code) then Some(UniqueViolation("employees_employee_id_key"))
    else EmployeeError(e, users, departments)
  }

  function AppointmentError(a: Appointment, patients: set<nat>, users: set<nat>): (e: Option<DbError>)
    ensures e.None? <==> AppointmentRowOk(a, patients, users)
  {
    if a.status !in AppointmentStatuses then Some(CheckViolation("appointments_status_check"))
    else if !AppointmentRowOk(a, patients, users) then Some(ForeignKeyViolation("appointments_fkey"))
    else None
  }

  function PrescriptionError(p: Prescription, patients: set<nat>, users: set<nat>): (e: Option<DbError>)
    ensures e.None? <==> PrescriptionRowOk(p, patients, users)
  {
    if p.status !in PrescriptionStatuses then Some(CheckViolation("prescriptions_status_check"))
    else if !PrescriptionRowOk(p, patients, users) then Some(ForeignKeyViolation("prescriptions_fkey"))
    else None
  }

  function RecordError(m: MedicalRecord, patients: set<nat>, users: set<nat>): (e: Option<DbError>)
    ensures e.None? <==> RecordRowOk(m, patients, users)
  {
    if !RecordRowOk(m, patients, users) then Some(ForeignKeyViolation("medical_records_fkey")) else None
  }

  predicate PeriodTaken(t: Table<Payroll>, p: Payroll) {
    exists i :: 0 <= i < |t| && SamePeriod(t[i].data, p)
  }

  function PayrollError(p: Payroll, employees: set<nat>): (e: Option<DbError>)
    ensures e.None? <==> PayrollRowOk(p, employees)
  {
    if !AmountsFit(p) then Some(NumericOverflow)
    else if !(1 <= p.month <= 12) then Some(CheckViolation("payroll_month_check"))
    else if p.status !in PayrollStatuses then Some(CheckViolation("payroll_status_check"))
    else if p.employeeId !in employees then Some(ForeignKeyViolation("payroll_employee_id_fkey"))
    else None
  }

  function InsertPayrollError(t: Table<Payroll>, p: Payroll, employees: set<nat>): (e: Option<DbError>)
    ensures e.None? <==> PayrollRowOk(p, employees) && !PeriodTaken(t, p)
    ensures e.Some? && e.value.UniqueViolation? <==>
              AmountsFit(p) && 1 <= p.month <= 12 && p.status in PayrollStatuses && PeriodTaken(t, p)
  {
    if !AmountsFit(p) then Some(NumericOverflow)
    else if !(1 <= p.month <= 12) then Some(CheckViolation("payroll_month_check"))
    else if p.status !in PayrollStatuses then Some(CheckViolation("payroll_status_check"))
    else if PeriodTaken(t, p) then Some(UniqueViolation("payroll_employee_id_month_year_key"))
    else PayrollError(p, employees)
  }

  function NoticeError(n: Notice, users: set<nat>): (e: Option<DbError>)
    ensures e.None? <==> NoticeRowOk(n, users)
  {
    if n.priority !in Priorities then Some(CheckViolation("notices_priority_check"))
    else if n.audience !in Audiences then Some(CheckViolation("notices_target_audience_check"))
    else if !NoticeRowOk(n, users) then Some(ForeignKeyViolation("notices_created_by_fkey"))
    else None
  }

  // ---------------------------------------------------------------------
  // Lookups shared by several controllers
  // ---------------------------------------------------------------------

  predicate EmailTaken(t: Table<User>, email: string) {
    exists i :: 0 <= i < |t| && t[i].data.email == email
  }

  /** `SELECT … FROM patients WHERE user_id = $1`, first row. */
  function PatientOf(t: Table<Patient>, userId: nat): (r: Option<nat>)
    ensures r.Some? ==> r.value < |t| && t[r.value].data.userId == userId
    ensures r.None? <==> forall j :: 0 <= j < |t| ==> t[j].data.userId != userId
  {
    FirstWhere(t, (p: Row<Patient>) => p.data.userId == userId)
  }

  /** `SELECT … FROM employees WHERE user_id = $1`, first row. */
  function EmployeeOf(t: Table<Employee>, userId: nat): (r: Option<nat>)
    ensures r.Some? ==> r.value < |t| && t[r.value].data.userId == userId
    ensures r.None? <==> forall j :: 0 <= j < |t| ==> t[j].data.userId != userId
  {
    FirstWhere(t, (e: Row<Employee>) => e.data.userId == userId)
  }

  /** `patients pt JOIN users p ON pt.user_id = p.id`. */
  predicate PatientJoined(pt: Row<Patient>, u: Row<User>) {
    pt.data.userId == u.id
  }

  /** The caller's own patients key, when the caller is a patient who has a
      patients row; the appointment and prescription lists are restricted to it. */
  function OwnPatient(t: Tables, caller: Option<Caller>): (r: Option<nat>)
    ensures r.Some? <==> caller.Some? && caller.value.role == "patient" && PatientOf(t.patients, caller.value.id).Some?
    ensures r.Some? ==> exists i :: 0 <= i < |t.patients| && t.patients[i].id == r.value &&
                                    t.patients[i].data.userId == caller.value.id
  {
    if caller.Some? && caller.value.role == "patient" then
      match PatientOf(t.patients, caller.value.id)
      case None => None
      case Some(i) => Some(t.patients[i].id)
    else None
  }

  predicate CallerIsPatient(caller: Option<Caller>) {
    caller.Some? && caller.value.role == "patient"
  }

  /** The `user` object of the login response: the users columns it names,
      without the password hash and without the must-change flag, which the
      response sends beside it. */
  datatype PublicUser = PublicUser(
    id: nat,
    email: string,
    firstName: string,
    lastName: string,
    role: string,
    doctorId: Option<string>,
    profilePicture: Option<string>)

  function Public(r: Row<User>): (v: PublicUser)
    ensures v.id == r.id && v.email == r.data.email && v.role == r.data.role
    ensures v.doctorId == r.data.doctorId && v.profilePicture == r.data.profilePicture
    ensures v.firstName == r.data.firstName && v.lastName == r.data.lastName
  {
    PublicUser(r.id, r.data.email, r.data.firstName, r.data.lastName, r.data.role,
               r.data.doctorId, r.data.profilePicture)
  }

  /** `p.first_name as patient_first_name, p.last_name as patient_last_name`:
      the only users columns the appointment, prescription and medical-record
      lookups join in. */
  datatype PersonName = PersonName(firstName: string, lastName: string)

  function NameOf(r: Row<User>): PersonName {
    PersonName(r.data.firstName, r.data.lastName)
  }

  /** The value of all tables at once. */
  datatype Tables = Tables(
    users: Table<User>,
    patients: Table<Patient>,
    departments: Table<Department>,
    employees: Table<Employee>,
    appointments: Table<Appointment>,
    prescriptions: Table<Prescription>,
    records: Table<MedicalRecord>,
    payroll: Table<Payroll>,
    notices: Table<Notice>)

  /** The next value of each table's SERIAL sequence. A sequence is not
      transactional: a failed or rolled-back INSERT still consumes its value. */
  datatype Counters = Counters(
    users: nat,
    patients: nat,
    departments: nat,
    employees: nat,
    appointments: nat,
    prescriptions: nat,
    records: nat,
    payroll: nat,
    notices: nat)

  predicate NotBehind(a: Counters, b: Counters) {
    && a.users <= b.users && a.patients <= b.patients && a.departments <= b.departments
    && a.employees <= b.employees && a.appointments <= b.appointments
    && a.prescriptions <= b.prescriptions && a.records <= b.records
    && a.payroll <= b.payroll && a.notices <= b.notices
  }

  /** Every constraint of the schema holds of the tables `s` with sequences `c`. */
  ghost predicate Consistent(s: Tables, c: Counters) {
    && UsersOk(s.users, c.users)
    && PatientsOk(s.patients, c.patients, Keys(s.users))
    && DepartmentsOk(s.departments, c.departments, Keys(s.users))
    && EmployeesOk(s.employees, c.employees, Keys(s.users), Keys(s.departments))
    && AppointmentsOk(s.appointments, c.appointments, Keys(s.patients), Keys(s.users))
    && PrescriptionsOk(s.prescriptions, c.prescriptions, Keys(s.patients), Keys(s.users))
    && RecordsOk(s.records, c.records, Keys(s.patients), Keys(s.users))
    && PayrollsOk(s.payroll, c.payroll, Keys(s.employees))
    && NoticesOk(s.notices, c.notices, Keys(s.users))
  }

  /** Tables that were consistent stay so while the sequences advance: what
      makes ROLLBACK to a snapshot taken at BEGIN sound. */
  lemma ConsistentLater(s: Tables, c: Counters, c': Counters)
    requires Consistent(s, c) && NotBehind(c, c')
    ensures Consistent(s, c')
  {
  }

  // ---------------------------------------------------------------------
  // What each statement does to the constraints, on values
  // ---------------------------------------------------------------------

  /** A REFERENCES constraint that holds keeps holding when the referenced
      table gains keys. */
  lemma PatientsWider(t: Table<Patient>, n: nat, u: set<nat>, u': set<nat>)
    requires PatientsOk(t, n, u) && u <= u'
    ensures PatientsOk(t, n, u')
  {
    forall i | 0 <= i < |t| ensures PatientRowOk(t[i].data, u') {
      assert PatientRowOk(t[i].data, u);
    }
  }

  lemma DepartmentsWider(t: Table<Department>, n: nat, u: set<nat>, u': set<nat>)
    requires DepartmentsOk(t, n, u) && u <= u'
    ensures DepartmentsOk(t, n, u')
  {
    forall i | 0 <= i < |t| ensures DepartmentRowOk(t[i].data, u') {
      assert DepartmentRowOk(t[i].data, u);
    }
  }

  lemma EmployeesWider(t: Table<Employee>, n: nat, u: set<nat>, u': set<nat>, d: set<nat>, d': set<nat>)
    requires EmployeesOk(t, n, u, d) && u <= u' && d <= d'
    ensures EmployeesOk(t, n, u', d')
  {
    forall i | 0 <= i < |t| ensures EmployeeRowOk(t[i].data, u', d') {
      assert EmployeeRowOk(t[i].data, u, d);
    }
  }

  lemma AppointmentsWider(t: Table<Appointment>, n: nat, p: set<nat>, p': set<nat>, u: set<nat>, u': set<nat>)
    requires AppointmentsOk(t, n, p, u) && p <= p' && u <= u'
    ensures AppointmentsOk(t, n, p', u')
  {
    forall i | 0 <= i < |t| ensures AppointmentRowOk(t[i].data, p', u') {
      assert AppointmentRowOk(t[i].data, p, u);
    }
  }

  lemma PrescriptionsWider(t: Table<Prescription>, n: nat, p: set<nat>, p': set<nat>, u: set<nat>, u': set<nat>)
    requires PrescriptionsOk(t, n, p, u) && p <= p' && u <= u'
    ensures PrescriptionsOk(t, n, p', u')
  {
    forall i | 0 <= i < |t| ensures PrescriptionRowOk(t[i].data, p', u') {
      assert PrescriptionRowOk(t[i].data, p, u);
    }
  }

  lemma RecordsWider(t: Table<MedicalRecord>, n: nat, p: set<nat>, p': set<nat>, u: set<nat>, u': set<nat>)
    requires RecordsOk(t, n, p, u) && p <= p' && u <= u'
    ensures RecordsOk(t, n, p', u')
  {
    forall i | 0 <= i < |t| ensures RecordRowOk(t[i].data, p', u') {
      assert RecordRowOk(t[i].data, p, u);
    }
  }

  lemma PayrollsWider(t: Table<Payroll>, n: nat, e: set<nat>, e': set<nat>)
    requires PayrollsOk(t, n, e) && e <= e'
    ensures PayrollsOk(t, n, e')
  {
    forall i | 0 <= i < |t| ensures PayrollRowOk(t[i].data, e') {
      assert PayrollRowOk(t[i].data, e);
    }
  }

  lemma NoticesWider(t: Table<Notice>, n: nat, u: set<nat>, u': set<nat>)
    requires NoticesOk(t, n, u) && u <= u'
    ensures NoticesOk(t, n, u')
  {
    forall i | 0 <= i < |t| ensures NoticeRowOk(t[i].data, u') {
      assert NoticeRowOk(t[i].data, u);
    }
  }

  /** Appending a row under the sequence's current value keeps the key primary. */
  lemma PrimaryKeyAppend<T>(t: Table<T>, n: nat, d: T)
    requires PrimaryKey(t, n)
    ensures PrimaryKey(t + [Row(n, d)], n + 1)
  {
  }

  /** Adding a patient whose code is not taken keeps the patients table valid. */
  lemma PatientsAppend(t: Table<Patient>, n: nat, u: set<nat>, p: Patient)
    requires PatientsOk(t, n, u) && PatientRowOk(p, u) && !PatientCodeTaken(t, p.code)
    ensures PatientsOk(t + [Row(n, p)], n + 1, u)
  {
    var t' := t + [Row(n, p)];
    PrimaryKeyAppend(t, n, p);
    forall i | 0 <= i < |t'| ensures PatientRowOk(t'[i].data, u) {
      if i < |t| { assert t'[i] == t[i]; }
    }
    forall i, j | 0 <= i < j < |t'| ensures t'[i].data.code != t'[j].data.code {
      assert t'[i] == t[i];
      if j < |t| { assert t'[j] == t[j]; }
    }
  }

  lemma PatientsPut(t: Table<Patient>, n: nat, u: set<nat>, i: nat, p: Patient)
    requires PatientsOk(t, n, u) && i < |t| && p.code == t[i].data.code && PatientRowOk(p, u)
    ensures PatientsOk(Put(t, i, p), n, u)
  {
    var t' := Put(t, i, p);
    PrimaryKeyPut(t, n, i, p);
    forall j | 0 <= j < |t'| ensures PatientRowOk(t'[j].data, u) {
      if j != i { assert t'[j] == t[j]; }
    }
    forall j, k | 0 <= j < k < |t'| ensures t'[j].data.code != t'[k].data.code {
      assert t'[j].data.code == t[j].data.code && t'[k].data.code == t[k].data.code;
    }
  }

  lemma EmployeesAppend(t: Table<Employee>, n: nat, u: set<nat>, d: set<nat>, m: Employee)
    requires EmployeesOk(t, n, u, d) && EmployeeRowOk(m, u, d) && !EmployeeCodeTaken(t, m.code)
    ensures EmployeesOk(t + [Row(n, m)], n + 1, u, d)
  {
    var t' := t + [Row(n, m)];
    PrimaryKeyAppend(t, n, m);
    forall i | 0 <= i < |t'| ensures EmployeeRowOk(t'[i].data, u, d) {
      if i < |t| { assert t'[i] == t[i]; }
    }
    forall i, j | 0 <= i < j < |t'| ensures t'[i].data.code != t'[j].data.code {
      assert t'[i] == t[i];
      if j < |t| { assert t'[j] == t[j]; }
    }
  }

  lemma EmployeesPut(t: Table<Employee>, n: nat, u: set<nat>, d: set<nat>, i: nat, m: Employee)
    requires EmployeesOk(t, n, u, d) && i < |t| && m.code == t[i].data.code && EmployeeRowOk(m, u, d)
    ensures EmployeesOk(Put(t, i, m), n, u, d)
  {
    var t' := Put(t, i, m);
    PrimaryKeyPut(t, n, i, m);
    forall j | 0 <= j < |t'| ensures EmployeeRowOk(t'[j].data, u, d) {
      if j != i { assert t'[j] == t[j]; }
    }
    forall j, k | 0 <= j < k < |t'| ensures t'[j].data.code != t'[k].data.code {
      assert t'[j].data.code == t[j].data.code && t'[k].data.code == t[k].data.code;
    }
  }

  lemma AfterInsertUser(s: Tables, c: Counters, u: User)
    requires Consistent(s, c) && InsertUserError(s.users, u).None?
    ensures Consistent(s.(users := s.users + [Row(c.users, u)]), c.(users := c.users + 1))
  {
    var t := s.users + [Row(c.users, u)];
    KeysAppend(s.users, Row(c.users, u));
    PrimaryKeyAppend(s.users, c.users, u);
    forall i | 0 <= i < |t| ensures UserRowOk(t[i].data) {
      if i < |s.users| { assert t[i] == s.users[i]; }
    }
    forall i, j | 0 <= i < j < |t| && t[i].data.doctorId.Some?
      ensures t[i].data.doctorId != t[j].data.doctorId
    {
      if j == |s.users| {
        assert t[i] == s.users[i];
      } else {
        assert t[i] == s.users[i] && t[j] == s.users[j];
      }
    }
    var k, k' := Keys(s.users), Keys(t);
    PatientsWider(s.patients, c.patients, k, k');
    DepartmentsWider(s.departments, c.departments, k, k');
    EmployeesWider(s.employees, c.employees, k, k', Keys(s.departments), Keys(s.departments));
    AppointmentsWider(s.appointments, c.appointments, Keys(s.patients), Keys(s.patients), k, k');
    PrescriptionsWider(s.prescriptions, c.prescriptions, Keys(s.patients), Keys(s.patients), k, k');
    RecordsWider(s.records, c.records, Keys(s.patients), Keys(s.patients), k, k');
    NoticesWider(s.notices, c.notices, k, k');
  }

  lemma AfterInsertPatient(s: Tables, c: Counters, p: Patient)
    requires Consistent(s, c) && InsertPatientError(s.patients, p, Keys(s.users)).None?
    ensures Consistent(s.(patients := s.patients + [Row(c.patients, p)]), c.(patients := c.patients + 1))
  {
    var t := s.patients + [Row(c.patients, p)];
    KeysAppend(s.patients, Row(c.patients, p));
    PatientsAppend(s.patients, c.patients, Keys(s.users), p);
    var k, k' := Keys(s.patients), Keys(t);
    AppointmentsWider(s.appointments, c.appointments, k, k', Keys(s.users), Keys(s.users));
    PrescriptionsWider(s.prescriptions, c.prescriptions, k, k', Keys(s.users), Keys(s.users));
    RecordsWider(s.records, c.records, k, k', Keys(s.users), Keys(s.users));
  }

  lemma AfterInsertDepartment(s: Tables, c: Counters, d: Department)
    requires Consistent(s, c) && DepartmentError(s.departments, d, None, Keys(s.users)).None?
    ensures Consistent(s.(departments := s.departments + [Row(c.departments, d)]),
                       c.(departments := c.departments + 1))
  {
    var t := s.departments + [Row(c.departments, d)];
    KeysAppend(s.departments, Row(c.departments, d));
    PrimaryKeyAppend(s.departments, c.departments, d);
    forall i | 0 <= i < |t| ensures DepartmentRowOk(t[i].data, Keys(s.users)) {
      if i < |s.departments| { assert t[i] == s.departments[i]; }
    }
    forall i, j | 0 <= i < j < |t| ensures t[i].data.name != t[j].data.name {
      assert t[i] == s.departments[i];
      if j < |s.departments| { assert t[j] == s.departments[j]; }
    }
    EmployeesWider(s.employees, c.employees, Keys(s.users), Keys(s.users), Keys(s.departments), Keys(t));
  }

  lemma AfterInsertEmployee(s: Tables, c: Counters, m: Employee)
    requires Consistent(s, c)
    requires InsertEmployeeError(s.employees, m, Keys(s.users), Keys(s.departments)).None?
    ensures Consistent(s.(employees := s.employees + [Row(c.employees, m)]), c.(employees := c.employees + 1))
  {
    var t := s.employees + [Row(c.employees, m)];
    KeysAppend(s.employees, Row(c.employees, m));
    EmployeesAppend(s.employees, c.employees, Keys(s.users), Keys(s.departments), m);
    PayrollsWider(s.payroll, c.payroll, Keys(s.employees), Keys(t));
  }

  lemma AfterInsertAppointment(s: Tables, c: Counters, a: Appointment)
    requires Consistent(s, c) && AppointmentRowOk(a, Keys(s.patients), Keys(s.users))
    ensures Consistent(s.(appointments := s.appointments + [Row(c.appointments, a)]),
                       c.(appointments := c.appointments + 1))
  {
    var t := s.appointments + [Row(c.appointments, a)];
    PrimaryKeyAppend(s.appointments, c.appointments, a);
    forall i | 0 <= i < |t| ensures AppointmentRowOk(t[i].data, Keys(s.patients), Keys(s.users)) {
      if i < |s.appointments| { assert t[i] == s.appointments[i]; }
    }
  }

  lemma AfterInsertPrescription(s: Tables, c: Counters, p: Prescription)
    requires Consistent(s, c) && PrescriptionRowOk(p, Keys(s.patients), Keys(s.users))
    ensures Consistent(s.(prescriptions := s.prescriptions + [Row(c.prescriptions, p)]),
                       c.(prescriptions := c.prescriptions + 1))
  {
    var t := s.prescriptions + [Row(c.prescriptions, p)];
    PrimaryKeyAppend(s.prescriptions, c.prescriptions, p);
    forall i | 0 <= i < |t| ensures PrescriptionRowOk(t[i].data, Keys(s.patients), Keys(s.users)) {
      if i < |s.prescriptions| { assert t[i] == s.prescriptions[i]; }
    }
  }

  lemma AfterInsertRecord(s: Tables, c: Counters, m: MedicalRecord)
    requires Consistent(s, c) && RecordRowOk(m, Keys(s.patients), Keys(s.users))
    ensures Consistent(s.(records := s.records + [Row(c.records, m)]), c.(records := c.records + 1))
  {
    var t := s.records + [Row(c.records, m)];
    PrimaryKeyAppend(s.records, c.records, m);
    forall i | 0 <= i < |t| ensures RecordRowOk(t[i].data, Keys(s.patients), Keys(s.users)) {
      if i < |s.records| { assert t[i] == s.records[i]; }
    }
  }

  lemma AfterInsertPayroll(s: Tables, c: Counters, p: Payroll)
    requires Consistent(s, c) && InsertPayrollError(s.payroll, p, Keys(s.employees)).None?
    ensures Consistent(s.(payroll := s.payroll + [Row(c.payroll, p)]), c.(payroll := c.payroll + 1))
  {
    var t := s.payroll + [Row(c.payroll, p)];
    PrimaryKeyAppend(s.payroll, c.payroll, p);
    forall i | 0 <= i < |t| ensures PayrollRowOk(t[i].data, Keys(s.employees)) {
      if i < |s.payroll| { assert t[i] == s.payroll[i]; }
    }
    forall i, j | 0 <= i < j < |t| ensures !SamePeriod(t[i].data, t[j].data) {
      assert t[i] == s.payroll[i];
      if j < |s.payroll| { assert t[j] == s.payroll[j]; }
    }
  }

  lemma AfterInsertNotice(s: Tables, c: Counters, n: Notice)
    requires Consistent(s, c) && NoticeRowOk(n, Keys(s.users))
    ensures Consistent(s.(notices := s.notices + [Row(c.notices, n)]), c.(notices := c.notices + 1))
  {
    var t := s.notices + [Row(c.notices, n)];
    PrimaryKeyAppend(s.notices, c.notices, n);
    forall i | 0 <= i < |t| ensures NoticeRowOk(t[i].data, Keys(s.users)) {
      if i < |s.notices| { assert t[i] == s.notices[i]; }
    }
  }

  /** Rewriting a row's columns under the same key. */
  lemma PrimaryKeyPut<T>(t: Table<T>, n: nat, i: nat, d: T)
    requires PrimaryKey(t, n) && i < |t|
    ensures PrimaryKey(Put(t, i, d), n)
  {
  }

  lemma AfterUpdatePatient(s: Tables, c: Counters, i: nat, p: Patient)
    requires Consistent(s, c) && i < |s.patients| && p.code == s.patients[i].data.code
    requires PatientRowOk(p, Keys(s.users))
    ensures Consistent(s.(patients := Put(s.patients, i, p)), c)
  {
    KeysPut(s.patients, i, p);
    PatientsPut(s.patients, c.patients, Keys(s.users), i, p);
  }

  lemma AfterUpdateDepartment(s: Tables, c: Counters, i: nat, d: Department)
    requires Consistent(s, c) && i < |s.departments|
    requires DepartmentError(s.departments, d, Some(s.departments[i].id), Keys(s.users)).None?
    ensures Consistent(s.(departments := Put(s.departments, i, d)), c)
  {
    var t := Put(s.departments, i, d);
    KeysPut(s.departments, i, d);
    PrimaryKeyPut(s.departments, c.departments, i, d);
    forall j | 0 <= j < |t| ensures DepartmentRowOk(t[j].data, Keys(s.users)) {
      if j != i { assert t[j] == s.departments[j]; }
    }
    forall j, k | 0 <= j < k < |t| ensures t[j].data.name != t[k].data.name {
      if j == i {
        assert t[k] == s.departments[k] && s.departments[k].id != s.departments[i].id;
      } else if k == i {
        assert t[j] == s.departments[j] && s.departments[j].id != s.departments[i].id;
      } else {
        assert t[j] == s.departments[j] && t[k] == s.departments[k];
      }
    }
  }

  lemma AfterUpdateEmployee(s: Tables, c: Counters, i: nat, m: Employee)
    requires Consistent(s, c) && i < |s.employees| && m.code == s.employees[i].data.code
    requires EmployeeRowOk(m, Keys(s.users), Keys(s.departments))
    ensures Consistent(s.(employees := Put(s.employees, i, m)), c)
  {
    KeysPut(s.employees, i, m);
    EmployeesPut(s.employees, c.employees, Keys(s.users), Keys(s.departments), i, m);
  }

  lemma AfterUpdateAppointment(s: Tables, c: Counters, i: nat, a: Appointment)
    requires Consistent(s, c) && i < |s.appointments| && AppointmentRowOk(a, Keys(s.patients), Keys(s.users))
    ensures Consistent(s.(appointments := Put(s.appointments, i, a)), c)
  {
    var t := Put(s.appointments, i, a);
    PrimaryKeyPut(s.appointments, c.appointments, i, a);
    forall j | 0 <= j < |t| ensures AppointmentRowOk(t[j].data, Keys(s.patients), Keys(s.users)) {
      if j != i { assert t[j] == s.appointments[j]; }
    }
  }

  lemma AfterUpdatePrescription(s: Tables, c: Counters, i: nat, p: Prescription)
    requires Consistent(s, c) && i < |s.prescriptions| && PrescriptionRowOk(p, Keys(s.patients), Keys(s.users))
    ensures Consistent(s.(prescriptions := Put(s.prescriptions, i, p)), c)
  {
    var t := Put(s.prescriptions, i, p);
    PrimaryKeyPut(s.prescriptions, c.prescriptions, i, p);
    forall j | 0 <= j < |t| ensures PrescriptionRowOk(t[j].data, Keys(s.patients), Keys(s.users)) {
      if j != i { assert t[j] == s.prescriptions[j]; }
    }
  }

  lemma AfterUpdateRecord(s: Tables, c: Counters, i: nat, m: MedicalRecord)
    requires Consistent(s, c) && i < |s.records| && RecordRowOk(m, Keys(s.patients), Keys(s.users))
    ensures Consistent(s.(records := Put(s.records, i, m)), c)
  {
    var t := Put(s.records, i, m);
    PrimaryKeyPut(s.records, c.records, i, m);
    forall j | 0 <= j < |t| ensures RecordRowOk(t[j].data, Keys(s.patients), Keys(s.users)) {
      if j != i { assert t[j] == s.records[j]; }
    }
  }

  lemma AfterUpdatePayroll(s: Tables, c: Counters, i: nat, p: Payroll)
    requires Consistent(s, c) && i < |s.payroll| && SamePeriod(p, s.payroll[i].data)
    requires PayrollRowOk(p, Keys(s.employees))
    ensures Consistent(s.(payroll := Put(s.payroll, i, p)), c)
  {
    PayrollsPut(s.payroll, c.payroll, Keys(s.employees), i, p);
  }

  lemma PayrollsPut(t: Table<Payroll>, n: nat, e: set<nat>, i: nat, p: Payroll)
    requires PayrollsOk(t, n, e) && i < |t| && SamePeriod(p, t[i].data) && PayrollRowOk(p, e)
    ensures PayrollsOk(Put(t, i, p), n, e)
  {
    var t' := Put(t, i, p);
    PrimaryKeyPut(t, n, i, p);
    forall j | 0 <= j < |t'| ensures PayrollRowOk(t'[j].data, e) {
      if j != i { assert t'[j] == t[j]; }
    }
    forall j, k | 0 <= j < k < |t'| ensures !SamePeriod(t'[j].data, t'[k].data) {
      assert SamePeriod(t'[j].data, t[j].data) && SamePeriod(t'[k].data, t[k].data);
    }
  }

  /** Rewriting a user's columns other than the role and the doctor id. */
  lemma AfterUpdateUser(s: Tables, c: Counters, i: nat, u: User)
    requires Consistent(s, c) && i < |s.users|
    requires u.role == s.users[i].data.role && u.doctorId == s.users[i].data.doctorId
    ensures Consistent(s.(users := Put(s.users, i, u)), c)
  {
    KeysPut(s.users, i, u);
    UsersPut(s.users, c.users, i, u);
  }

  lemma UsersPut(t: Table<User>, n: nat, i: nat, u: User)
    requires UsersOk(t, n) && i < |t| && u.role == t[i].data.role && u.doctorId == t[i].data.doctorId
    ensures UsersOk(Put(t, i, u), n)
  {
    var t' := Put(t, i, u);
    PrimaryKeyPut(t, n, i, u);
    forall j | 0 <= j < |t'| ensures UserRowOk(t'[j].data) {
      if j != i { assert t'[j] == t[j]; }
    }
    forall j, k | 0 <= j < k < |t'| && t'[j].data.doctorId.Some?
      ensures t'[j].data.doctorId != t'[k].data.doctorId
    {
      assert t'[j].data.doctorId == t[j].data.doctorId && t'[k].data.doctorId == t[k].data.doctorId;
    }
  }

  lemma AfterUpdateNotice(s: Tables, c: Counters, i: nat, n: Notice)
    requires Consistent(s, c) && i < |s.notices| && NoticeRowOk(n, Keys(s.users))
    ensures Consistent(s.(notices := Put(s.notices, i, n)), c)
  {
    var t := Put(s.notices, i, n);
    PrimaryKeyPut(s.notices, c.notices, i, n);
    forall j | 0 <= j < |t| ensures NoticeRowOk(t[j].data, Keys(s.users)) {
      if j != i { assert t[j] == s.notices[j]; }
    }
  }

  lemma AfterDeletePrescription(s: Tables, c: Counters, i: nat)
    requires Consistent(s, c) && i < |s.prescriptions|
    ensures Consistent(s.(prescriptions := Remove(s.prescriptions, i)), c)
    ensures Keys(Remove(s.prescriptions, i)) == Keys(s.prescriptions) - {s.prescriptions[i].id}
  {
    var t := Remove(s.prescriptions, i);
    KeysRemove(s.prescriptions, i, c.prescriptions);
    forall j | 0 <= j < |t| ensures PrescriptionRowOk(t[j].data, Keys(s.patients), Keys(s.users)) {
      if j < i { assert t[j] == s.prescriptions[j]; } else { assert t[j] == s.prescriptions[j + 1]; }
    }
  }

  lemma AfterDeleteRecord(s: Tables, c: Counters, i: nat)
    requires Consistent(s, c) && i < |s.records|
    ensures Consistent(s.(records := Remove(s.records, i)), c)
    ensures Keys(Remove(s.records, i)) == Keys(s.records) - {s.records[i].id}
  {
    var t := Remove(s.records, i);
    KeysRemove(s.records, i, c.records);
    forall j | 0 <= j < |t| ensures RecordRowOk(t[j].data, Keys(s.patients), Keys(s.users)) {
      if j < i { assert t[j] == s.records[j]; } else { assert t[j] == s.records[j + 1]; }
    }
  }

  lemma AfterDeleteNotice(s: Tables, c: Counters, i: nat)
    requires Consistent(s, c) && i < |s.notices|
    ensures Consistent(s.(notices := Remove(s.notices, i)), c)
    ensures Keys(Remove(s.notices, i)) == Keys(s.notices) - {s.notices[i].id}
  {
    var t := Remove(s.notices, i);
    KeysRemove(s.notices, i, c.notices);
    forall j | 0 <= j < |t| ensures NoticeRowOk(t[j].data, Keys(s.users)) {
      if j < i { assert t[j] == s.notices[j]; } else { assert t[j] == s.notices[j + 1]; }
    }
  }

  /** The database: one field per table and the SERIAL sequences. Each method
      below is one SQL statement on one table. */
  class Store {
    var users: Table<User>
    var patients: Table<Patient>
    var departments: Table<Department>
    var employees: Table<Employee>
    var appointments: Table<Appointment>
    var prescriptions: Table<Prescription>
    var records: Table<MedicalRecord>
    var payroll: Table<Payroll>
    var notices: Table<Notice>
    var next: Counters

    ghost predicate Valid()
      reads this
    {
      Consistent(Snapshot(), next)
    }

    function Snapshot(): Tables
      reads this
    {
      Tables(users, patients, departments, employees, appointments, prescriptions, records, payroll, notices)
    }

    /** The tables as `CREATE TABLE IF NOT EXISTS` leaves a fresh database. */
    constructor ()
      ensures Valid()
      ensures Snapshot() == Tables([], [], [], [], [], [], [], [], [])
      ensures next == Counters(1, 1, 1, 1, 1, 1, 1, 1, 1)
    {
      users, patients, departments, employees := [], [], [], [];
      appointments, prescriptions, records, payroll, notices := [], [], [], [], [];
      next := Counters(1, 1, 1, 1, 1, 1, 1, 1, 1);
    }

    /** ROLLBACK: the tables return to the snapshot taken at BEGIN; the
        sequences keep the values they reached. */
    method Restore(s: Tables)
      requires Consistent(s, next)
      modifies this
      ensures Valid()
      ensures Snapshot() == s && next == old(next)
    {
      users, patients, departments, employees := s.users, s.patients, s.departments, s.employees;
      appointments, prescriptions, records := s.appointments, s.prescriptions, s.records;
      payroll, notices := s.payroll, s.notices;
      assert Snapshot() == s;
    }

    // -------------------------------------------------------------------
    // INSERT … RETURNING *: the statement draws the next key; it adds the
    // row when no constraint fails and changes no table otherwise.
    // -------------------------------------------------------------------

    method InsertUser(u: User) returns (id: nat, e: Option<DbError>)
      requires Valid()
      modifies this
      ensures Valid()
      ensures id == old(next.users) && next == old(next).(users := id + 1)
      ensures e == InsertUserError(old(users), u)
      ensures e.None? ==> Snapshot() == old(Snapshot()).(users := old(users) + [Row(id, u)])
      ensures e.Some? ==> Snapshot() == old(Snapshot())
    {
      id := next.users;
      e := InsertUserError(users, u);
      var c := next.(users := id + 1);
      if e.None? {
        AfterInsertUser(Snapshot(), next, u);
        users := users + [Row(id, u)];
      } else {
        ConsistentLater(Snapshot(), next, c);
      }
      next := c;
    }

    method InsertPatient(p: Patient) returns (id: nat, e: Option<DbError>)
      requires Valid()
      modifies this
      ensures Valid()
      ensures id == old(next.patients) && next == old(next).(patients := id + 1)
      ensures e == InsertPatientError(old(patients), p, Keys(old(users)))
      ensures e.None? ==> Snapshot() == old(Snapshot()).(patients := old(patients) + [Row(id, p)])
      ensures e.Some? ==> Snapshot() == old(Snapshot())
    {
      id := next.patients;
      e := InsertPatientError(patients, p, Keys(users));
      var c := next.(patients := id + 1);
      if e.None? {
        AfterInsertPatient(Snapshot(), next, p);
        patients := patients + [Row(id, p)];
      } else {
        ConsistentLater(Snapshot(), next, c);
      }
      next := c;
    }

    method InsertDepartment(d: Department) returns (id: nat, e: Option<DbError>)
      requires Valid()
      modifies this
      ensures Valid()
      ensures id == old(next.departments) && next == old(next).(departments := id + 1)
      ensures e == DepartmentError(old(departments), d, None, Keys(old(users)))
      ensures e.None? ==> Snapshot() == old(Snapshot()).(departments := old(departments) + [Row(id, d)])
      ensures e.Some? ==> Snapshot() == old(Snapshot())
    {
      id := next.departments;
      e := DepartmentError(departments, d, None, Keys(users));
      var c := next.(departments := id + 1);
      if e.None? {
        AfterInsertDepartment(Snapshot(), next, d);
        departments := departments + [Row(id, d)];
      } else {
        ConsistentLater(Snapshot(), next, c);
      }
      next := c;
    }

    method InsertEmployee(m: Employee) returns (id: nat, e: Option<DbError>)
      requires Valid()
      modifies this
      ensures Valid()
      ensures id == old(next.employees) && next == old(next).(employees := id + 1)
      ensures e == InsertEmployeeError(old(employees), m, Keys(old(users)), Keys(old(departments)))
      ensures e.None? ==> Snapshot() == old(Snapshot()).(employees := old(employees) + [Row(id, m)])
      ensures e.Some? ==> Snapshot() == old(Snapshot())
    {
      id := next.employees;
      e := InsertEmployeeError(employees, m, Keys(users), Keys(departments));
      var c := next.(employees := id + 1);
      if e.None? {
        AfterInsertEmployee(Snapshot(), next, m);
        employees := employees + [Row(id, m)];
      } else {
        ConsistentLater(Snapshot(), next, c);
      }
      next := c;
    }

    method InsertAppointment(a: Appointment) returns (id: nat, e: Option<DbError>)
      requires Valid()
      modifies this
      ensures Valid()
      ensures id == old(next.appointments) && next == old(next).(appointments := id + 1)
      ensures e == AppointmentError(a, Keys(old(patients)), Keys(old(users)))
      ensures e.None? ==> Snapshot() == old(Snapshot()).(appointments := old(appointments) + [Row(id, a)])
      ensures e.Some? ==> Snapshot() == old(Snapshot())
    {
      id := next.appointments;
      e := AppointmentError(a, Keys(patients), Keys(users));
      var c := next.(appointments := id + 1);
      if e.None? {
        AfterInsertAppointment(Snapshot(), next, a);
        appointments := appointments + [Row(id, a)];
      } else {
        ConsistentLater(Snapshot(), next, c);
      }
      next := c;
    }

    method InsertPrescription(p: Prescription) returns (id: nat, e: Option<DbError>)
      requires Valid()
      modifies this
      ensures Valid()
      ensures id == old(next.prescriptions) && next == old(next).(prescriptions := id + 1)
      ensures e == PrescriptionError(p, Keys(old(patients)), Keys(old(users)))
      ensures e.None? ==> Snapshot() == old(Snapshot()).(prescriptions := old(prescriptions) + [Row(id, p)])
      ensures e.Some? ==> Snapshot() == old(Snapshot())
    {
      id := next.prescriptions;
      e := PrescriptionError(p, Keys(patients), Keys(users));
      var c := next.(prescriptions := id + 1);
      if e.None? {
        AfterInsertPrescription(Snapshot(), next, p);
        prescriptions := prescriptions + [Row(id, p)];
      } else {
        ConsistentLater(Snapshot(), next, c);
      }
      next := c;
    }

    method InsertRecord(m: MedicalRecord) returns (id: nat, e: Option<DbError>)
      requires Valid()
      modifies this
      ensures Valid()
      ensures id == old(next.records) && next == old(next).(records := id + 1)
      ensures e == RecordError(m, Keys(old(patients)), Keys(old(users)))
      ensures e.None? ==> Snapshot() == old(Snapshot()).(records := old(records) + [Row(id, m)])
      ensures e.Some? ==> Snapshot() == old(Snapshot())
    {
      id := next.records;
      e := RecordError(m, Keys(patients), Keys(users));
      var c := next.(records := id + 1);
      if e.None? {
        AfterInsertRecord(Snapshot(), next, m);
        records := records + [Row(id, m)];
      } else {
        ConsistentLater(Snapshot(), next, c);
      }
      next := c;
    }

    method InsertPayroll(p: Payroll) returns (id: nat, e: Option<DbError>)
      requires Valid()
      modifies this
      ensures Valid()
      ensures id == old(next.payroll) && next == old(next).(payroll := id + 1)
      ensures e == InsertPayrollError(old(payroll), p, Keys(old(employees)))
      ensures e.None? ==> Snapshot() == old(Snapshot()).(payroll := old(payroll) + [Row(id, p)])
      ensures e.Some? ==> Snapshot() == old(Snapshot())
    {
      id := next.payroll;
      e := InsertPayrollError(payroll, p, Keys(employees));
      var c := next.(payroll := id + 1);
      if e.None? {
        AfterInsertPayroll(Snapshot(), next, p);
        payroll := payroll + [Row(id, p)];
      } else {
        ConsistentLater(Snapshot(), next, c);
      }
      next := c;
    }

    method InsertNotice(n: Notice) returns (id: nat, e: Option<DbError>)
      requires Valid()
      modifies this
      ensures Valid()
      ensures id == old(next.notices) && next == old(next).(notices := id + 1)
      ensures e == NoticeError(n, Keys(old(users)))
      ensures e.None? ==> Snapshot() == old(Snapshot()).(notices := old(notices) + [Row(id, n)])
      ensures e.Some? ==> Snapshot() == old(Snapshot())
    {
      id := next.notices;
      e := NoticeError(n, Keys(users));
      var c := next.(notices := id + 1);
      if e.None? {
        AfterInsertNotice(Snapshot(), next, n);
        notices := notices + [Row(id, n)];
      } else {
        ConsistentLater(Snapshot(), next, c);
      }
      next := c;
    }

    // -------------------------------------------------------------------
    // UPDATE … WHERE id = $n on the row at position `i`: the new columns
    // replace the old ones when no constraint fails. Columns that a
    // controller never rewrites (keys, references it copies) are required
    // to stay as they are.
    // -------------------------------------------------------------------

    method UpdateUserRow(i: nat, u: User)
      requires Valid() && i < |users|
      requires u.role == users[i].data.role && u.doctorId == users[i].data.doctorId
      modifies this
      ensures Valid() && next == old(next)
      ensures Snapshot() == old(Snapshot()).(users := Put(old(users), i, u))
    {
      AfterUpdateUser(Snapshot(), next, i, u);
      users := Put(users, i, u);
    }

    method UpdatePatientRow(i: nat, p: Patient) returns (e: Option<DbError>)
      requires Valid() && i < |patients| && p.code == patients[i].data.code
      modifies this
      ensures Valid() && next == old(next)
      ensures e == PatientError(p, Keys(old(users)))
      ensures e.None? ==> Snapshot() == old(Snapshot()).(patients := Put(old(patients), i, p))
      ensures e.Some? ==> Snapshot() == old(Snapshot())
    {
      e := PatientError(p, Keys(users));
      if e.None? {
        AfterUpdatePatient(Snapshot(), next, i, p);
        patients := Put(patients, i, p);
      }
    }

    method UpdateDepartmentRow(i: nat, d: Department) returns (e: Option<DbError>)
      requires Valid() && i < |departments|
      modifies this
      ensures Valid() && next == old(next)
      ensures e == DepartmentError(old(departments), d, Some(old(departments)[i].id), Keys(old(users)))
      ensures e.None? ==> Snapshot() == old(Snapshot()).(departments := Put(old(departments), i, d))
      ensures e.Some? ==> Snapshot() == old(Snapshot())
    {
      e := DepartmentError(departments, d, Some(departments[i].id), Keys(users));
      if e.None? {
        AfterUpdateDepartment(Snapshot(), next, i, d);
        departments := Put(departments, i, d);
      }
    }

    method UpdateEmployeeRow(i: nat, m: Employee) returns (e: Option<DbError>)
      requires Valid() && i < |employees| && m.code == employees[i].data.code
      modifies this
      ensures Valid() && next == old(next)
      ensures e == EmployeeError(m, Keys(old(users)), Keys(old(departments)))
      ensures e.None? ==> Snapshot() == old(Snapshot()).(employees := Put(old(employees), i, m))
      ensures e.Some? ==> Snapshot() == old(Snapshot())
    {
      e := EmployeeError(m, Keys(users), Keys(departments));
      if e.None? {
        AfterUpdateEmployee(Snapshot(), next, i, m);
        employees := Put(employees, i, m);
      }
    }

    method UpdateAppointmentRow(i: nat, a: Appointment) returns (e: Option<DbError>)
      requires Valid() && i < |appointments|
      modifies this
      ensures Valid() && next == old(next)
      ensures e == AppointmentError(a, Keys(old(patients)), Keys(old(users)))
      ensures e.None? ==> Snapshot() == old(Snapshot()).(appointments := Put(old(appointments), i, a))
      ensures e.Some? ==> Snapshot() == old(Snapshot())
    {
      e := AppointmentError(a, Keys(patients), Keys(users));
      if e.None? {
        AfterUpdateAppointment(Snapshot(), next, i, a);
        appointments := Put(appointments, i, a);
      }
    }

    method UpdatePrescriptionRow(i: nat, p: Prescription) returns (e: Option<DbError>)
      requires Valid() && i < |prescriptions|
      modifies this
      ensures Valid() && next == old(next)
      ensures e == PrescriptionError(p, Keys(old(patients)), Keys(old(users)))
      ensures e.None? ==> Snapshot() == old(Snapshot()).(prescriptions := Put(old(prescriptions), i, p))
      ensures e.Some? ==> Snapshot() == old(Snapshot())
    {
      e := PrescriptionError(p, Keys(patients), Keys(users));
      if e.None? {
        AfterUpdatePrescription(Snapshot(), next, i, p);
        prescriptions := Put(prescriptions, i, p);
      }
    }

    method UpdateRecordRow(i: nat, m: MedicalRecord) returns (e: Option<DbError>)
      requires Valid() && i < |records|
      modifies this
      ensures Valid() && next == old(next)
      ensures e == RecordError(m, Keys(old(patients)), Keys(old(users)))
      ensures e.None? ==> Snapshot() == old(Snapshot()).(records := Put(old(records), i, m))
      ensures e.Some? ==> Snapshot() == old(Snapshot())
    {
      e := RecordError(m, Keys(patients), Keys(users));
      if e.None? {
        AfterUpdateRecord(Snapshot(), next, i, m);
        records := Put(records, i, m);
      }
    }

    method UpdatePayrollRow(i: nat, p: Payroll) returns (e: Option<DbError>)
      requires Valid() && i < |payroll| && SamePeriod(p, payroll[i].data)
      modifies this
      ensures Valid() && next == old(next)
      ensures e == PayrollError(p, Keys(old(employees)))
      ensures e.None? ==> Snapshot() == old(Snapshot()).(payroll := Put(old(payroll), i, p))
      ensures e.Some? ==> Snapshot() == old(Snapshot())
    {
      e := PayrollError(p, Keys(employees));
      if e.None? {
        AfterUpdatePayroll(Snapshot(), next, i, p);
        payroll := Put(payroll, i, p);
      }
    }

    method UpdateNoticeRow(i: nat, n: Notice) returns (e: Option<DbError>)
      requires Valid() && i < |notices|
      modifies this
      ensures Valid() && next == old(next)
      ensures e == NoticeError(n, Keys(old(users)))
      ensures e.None? ==> Snapshot() == old(Snapshot()).(notices := Put(old(notices), i, n))
      ensures e.Some? ==> Snapshot() == old(Snapshot())
    {
      e := NoticeError(n, Keys(users));
      if e.None? {
        AfterUpdateNotice(Snapshot(), next, i, n);
        notices := Put(notices, i, n);
      }
    }

    // -------------------------------------------------------------------
    // DELETE … WHERE id = $n on the row at position `i`. No table refers to
    // prescriptions, medical_records or notices, so these cannot fail.
    // -------------------------------------------------------------------

    method DeletePrescriptionRow(i: nat)
      requires Valid() && i < |prescriptions|
      modifies this
      ensures Valid() && next == old(next)
      ensures Snapshot() == old(Snapshot()).(prescriptions := Remove(old(prescriptions), i))
      ensures Keys(prescriptions) == Keys(old(prescriptions)) - {old(prescriptions)[i].id}
    {
      AfterDeletePrescription(Snapshot(), next, i);
      prescriptions := Remove(prescriptions, i);
    }

    method DeleteRecordRow(i: nat)
      requires Valid() && i < |records|
      modifies this
      ensures Valid() && next == old(next)
      ensures Snapshot() == old(Snapshot()).(records := Remove(old(records), i))
      ensures Keys(records) == Keys(old(records)) - {old(records)[i].id}
    {
      AfterDeleteRecord(Snapshot(), next, i);
      records := Remove(records, i);
    }

    method DeleteNoticeRow(i: nat)
      requires Valid() && i < |notices|
      modifies this
      ensures Valid() && next == old(next)
      ensures Snapshot() == old(Snapshot()).(notices := Remove(old(notices), i))
      ensures Keys(notices) == Keys(old(notices)) - {old(notices)[i].id}
    {
      AfterDeleteNotice(Snapshot(), next, i);
      notices := Remove(notices, i);
    }
  }
}
