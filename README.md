# Hospital management backend — a Dafny model

This project models the core of a hospital management system. The system is an
Express/PostgreSQL backend with a React front end. Staff and patients sign in and
work on these records:

- patients, employees and departments;
- appointments, prescriptions and medical records;
- payroll and notices.

The model covers the following parts:

- **The database** (`schema.dfy`). The tables that `backend/src/config/migrate.js`
  creates become a `Store` class with one sequence field per table and one SERIAL
  counter per table. The CHECK, UNIQUE, NOT NULL and REFERENCES constraints of the
  migration become the invariant `Store.Valid`. Each SQL statement the controllers
  issue becomes one method on the store:
  - An INSERT draws the next key, even when it fails. It then either adds the row
    or raises the error PostgreSQL would raise.
  - An UPDATE replaces one row.
  - A DELETE removes one row.
  - `Restore` is ROLLBACK: the tables go back to the snapshot taken at BEGIN, and
    the counters keep the values they reached.
- **The controllers** (one file per `*.controller.js`). Every handler is a function
  or method. It takes the request values as `Option`s, with JavaScript truthiness
  written out as `Given`. It returns a `Response` with the same status and error
  text as the handler.
  - The list handlers build their query by appending `AND …` conditions with
    numbered placeholders. `sql.dfy` keeps that discipline (`Sql.AndIf`). Each
    builder is proved to admit exactly the rows its filter predicate describes.
  - Multi-statement handlers (staff, employee and patient creation; patient update)
    are transactions. Either every row is written or no table changes.
- **The dashboard** (`report.dfy`). Each role's statistics are stated as set
  cardinalities. The recent lists are stated as the five latest rows.
- **The migration's department seeding** (`migrate.dfy`). It is a loop over the
  fifteen names using `ON CONFLICT (name) DO NOTHING`. It is proved to add exactly
  the missing names and to leave the table unchanged on a second run.
- **`frontend/src/pages/Login.jsx`** (`login_page.dfy`):
  - the password-strength rating;
  - the form state, as a class;
  - the request a submit sends.
- **`frontend/src/services/api.js`** (`api_client.dfy`): the base URL normalisation
  and the Authorization header.

Passwords are hashed with bcrypt, which is modelled by `crypto.dfy`. That model
keeps only what the controllers rely on: a hash verifies exactly the password it
was made from.

## Model

| member | source | states |
|---|---|---|
| Base.Coalesce | backend/src/controllers/auth.controller.js:172-174 | SQL COALESCE: an absent request value keeps the stored column; a present one replaces it |
| Base.CoalesceNull | backend/src/controllers/auth.controller.js:174 | COALESCE on a nullable column: an absent value keeps the stored one, which may be NULL |
| Base.Stamped | backend/src/controllers/patient.controller.js:94 | a generated code `PREFIX${Date.now()}` starts with its prefix and is longer than it |
| Base.Digits | backend/src/controllers/patient.controller.js:94 | the decimal rendering of the clock reading is non-empty and all digits |
| Crypto.CompareHash | backend/src/controllers/auth.controller.js:101-104 | `compare(p, hash(p))` holds, and a hash made from `p` verifies `q` exactly when `q == p`, whatever the salt |
| Sql.AndWhere | backend/src/controllers/staff.controller.js:93-103 | appending `AND c` that names `$paramCount` and pushing its parameter keeps the numbering and narrows the rows by exactly `c` |
| Sql.And | backend/src/controllers/staff.controller.js:94-96 | one appended condition: the numbering is kept, the parameter is pushed last, and a row is admitted iff it was admitted before and passes `c` |
| Sql.AndIf | backend/src/controllers/staff.controller.js:93-103 | a guarded append: when the request value is not given, the query and the admitted rows are unchanged; `paramCount == params.length + 1` before and after |
| Sql.LikeAny3 | backend/src/controllers/appointment.controller.js:33 | a three-column ILIKE search matches iff one of the columns contains the term |
| Sql.LikeAny4 | backend/src/controllers/patient.controller.js:20 | a four-column ILIKE search matches iff one of the columns contains the term |
| Sql.Select | backend/src/controllers/staff.controller.js:107 | the query returns exactly the rows of the fixed part that pass every appended condition, and no more rows than there were |
| Sql.SelectCounts | backend/src/controllers/staff.controller.js:107 | each row comes back as many times as it occurs in the fixed part when it passes the conditions, and never otherwise |
| Sql.Pairs | backend/src/controllers/staff.controller.js:85-86 | a JOIN yields exactly the pairs that satisfy the ON condition |
| Sql.PairsCount | backend/src/controllers/staff.controller.js:85-86 | a JOIN holds each matching pair as many times as the product of the occurrences of its two rows |
| Sql.Matching | backend/src/controllers/staff.controller.js:86 | the rows a single outer row joins with are exactly those satisfying the ON condition |
| Sql.MatchingCount | backend/src/controllers/staff.controller.js:86 | a single outer row joins with each matching inner row once per occurrence of that inner row |
| Schema.CountWhere | backend/src/controllers/report.controller.js:19-22 | `COUNT(*) … WHERE p` is the number of row positions whose data satisfies `p`, at most the table size |
| Schema.IndexOfKey | backend/src/config/migrate.js:10 | on a primary key, `WHERE id = $1` finds exactly the one row with that key |
| Schema.FirstWhere | backend/src/controllers/auth.controller.js:83 | `result.rows[0]`: the first row satisfying the condition, and none before it; None iff no row satisfies it |
| Schema.InsertUserError | backend/src/config/migrate.js:13-16 | an INSERT into users fails iff the role CHECK fails or the doctor id is already taken |
| Schema.PatientError | backend/src/config/migrate.js:27-38 | a patients row is rejected iff the status CHECK or the user reference fails; with a valid status only the reference can fail |
| Schema.InsertPatientError | backend/src/config/migrate.js:27-38 | an INSERT into patients succeeds iff the row is valid and the patient code is unused |
| Schema.DepartmentError | backend/src/config/migrate.js:48-50 | a department INSERT or UPDATE fails iff the name is taken by another row or the head doctor does not exist; a name clash is exactly a unique violation |
| Schema.EmployeeError | backend/src/config/migrate.js:59-66 | an employees row is rejected iff the salary overflows DECIMAL(10,2), the status CHECK fails, or a reference fails |
| Schema.InsertEmployeeError | backend/src/config/migrate.js:59-66 | an INSERT into employees succeeds iff the row is valid and the employee code is unused |
| Schema.AppointmentError | backend/src/config/migrate.js:76-81 | an appointments row is rejected iff the status CHECK or a patient or doctor reference fails |
| Schema.PrescriptionError | backend/src/config/migrate.js:92-99 | a prescriptions row is rejected iff the status CHECK or a reference fails |
| Schema.RecordError | backend/src/config/migrate.js:110-111 | a medical record is rejected iff its patient or doctor reference fails |
| Schema.PayrollError | backend/src/config/migrate.js:127-135 | a payroll row is rejected iff an amount overflows, the month is outside 1–12, the status CHECK fails, or the employee does not exist |
| Schema.InsertPayrollError | backend/src/config/migrate.js:127-139 | a payroll INSERT succeeds iff the row is valid and the (employee, month, year) period is free; it is a unique violation exactly when only the period clashes |
| Schema.NoticeError | backend/src/config/migrate.js:149-151 | a notice is rejected iff the priority or audience CHECK fails or the author does not exist |
| Schema.PatientOf | backend/src/controllers/appointment.controller.js:21-25 | `SELECT id FROM patients WHERE user_id = $1`: a row of that user, and None iff the user has no patients row |
| Schema.EmployeeOf | backend/src/controllers/auth.controller.js:79 | the employees row joined to a user, and None iff there is none |
| Schema.OwnPatient | backend/src/controllers/appointment.controller.js:20-29 | the caller's own patients key exists iff the caller is a patient who has a patients row, and it is that row's key |
| Schema.Public | backend/src/controllers/auth.controller.js:122-133 | the `user` object of the login response carries the row's id, email, names, role, doctor id and picture, never the password; the must-change flag is not in it but is sent at the top level of the response |
| Schema.ConsistentLater | backend/src/controllers/staff.controller.js:66-68 | the constraints hold of a rolled-back snapshot even though the sequences have moved on |
| Schema.Store.constructor | backend/src/config/migrate.js:8-155 | a fresh database: every table empty, every SERIAL at 1, every constraint holding |
| Schema.Store.Restore | backend/src/controllers/staff.controller.js:67 | ROLLBACK: the tables are the BEGIN snapshot again and the sequences keep their values |
| Schema.Store.InsertUser | backend/src/config/migrate.js:8-21 | an INSERT draws the next key; it appends the row iff `InsertUserError` is None and otherwise changes no table; the constraints still hold |
| Schema.Store.InsertPatient | backend/src/config/migrate.js:24-42 | as above for patients, with `InsertPatientError` |
| Schema.Store.InsertDepartment | backend/src/config/migrate.js:45-53 | as above for departments, with `DepartmentError` |
| Schema.Store.InsertEmployee | backend/src/config/migrate.js:56-70 | as above for employees, with `InsertEmployeeError` |
| Schema.Store.InsertAppointment | backend/src/config/migrate.js:73-86 | as above for appointments, with `AppointmentError` |
| Schema.Store.InsertPrescription | backend/src/config/migrate.js:89-104 | as above for prescriptions, with `PrescriptionError` |
| Schema.Store.InsertRecord | backend/src/config/migrate.js:107-121 | as above for medical records, with `RecordError` |
| Schema.Store.InsertPayroll | backend/src/config/migrate.js:124-141 | as above for payroll, with `InsertPayrollError` |
| Schema.Store.InsertNotice | backend/src/config/migrate.js:144-155 | as above for notices, with `NoticeError` |
| Schema.Store.UpdateUserRow | backend/src/controllers/auth.controller.js:170-179 | an UPDATE of one users row that leaves role and doctor id alone replaces that row only and keeps the constraints |
| Schema.Store.UpdatePatientRow | backend/src/controllers/patient.controller.js:150-172 | an UPDATE of one patients row replaces it iff `PatientError` is None; otherwise nothing changes |
| Schema.Store.UpdateDepartmentRow | backend/src/controllers/department.controller.js:75-83 | an UPDATE of one department replaces it iff `DepartmentError` (excluding itself) is None |
| Schema.Store.UpdateEmployeeRow | backend/src/controllers/employee.controller.js:165-176 | an UPDATE of one employee replaces it iff `EmployeeError` is None |
| Schema.Store.UpdateAppointmentRow | backend/src/controllers/appointment.controller.js:119-130 | an UPDATE of one appointment replaces it iff `AppointmentError` is None |
| Schema.Store.UpdatePrescriptionRow | backend/src/controllers/prescription.controller.js:125-137 | an UPDATE of one prescription replaces it iff `PrescriptionError` is None |
| Schema.Store.UpdateRecordRow | backend/src/controllers/medicalRecord.controller.js:105-116 | an UPDATE of one medical record replaces it iff `RecordError` is None |
| Schema.Store.UpdatePayrollRow | backend/src/controllers/payroll.controller.js:138-151 | an UPDATE of one payroll row replaces it iff `PayrollError` is None |
| Schema.Store.UpdateNoticeRow | backend/src/controllers/notice.controller.js:97-107 | an UPDATE of one notice replaces it iff `NoticeError` is None |
| Schema.Store.DeletePrescriptionRow | backend/src/controllers/prescription.controller.js:154 | DELETE removes exactly that row; nothing refers to prescriptions, so it cannot fail |
| Schema.Store.DeleteRecordRow | backend/src/controllers/medicalRecord.controller.js:133 | DELETE removes exactly that medical record |
| Schema.Store.DeleteNoticeRow | backend/src/controllers/notice.controller.js:124 | DELETE removes exactly that notice |
| AuthController.RegisterGuard | backend/src/controllers/auth.controller.js:9-29 | the four registration checks, in order: missing field, mismatched confirmation, shorter than 8, email taken; it passes iff all four pass, in both directions |
| AuthController.RegisteredUser | backend/src/controllers/auth.controller.js:32-40 | a self-registered user is a patient without doctor id or must-change flag, and its hash verifies the password sent |
| AuthController.Register | backend/src/controllers/auth.controller.js:5-66 | a guard failure is a 400 with its message and no change; otherwise 201 with a token for the new id, and exactly one users row appended |
| AuthController.RegisterTwice | backend/src/controllers/auth.controller.js:22-29 | registering the same request again after success is refused with "User already exists" |
| AuthController.LoginUser | backend/src/controllers/auth.controller.js:72-94 | a doctor with a doctor id is looked up by doctor id, anyone else by email; the result is the first matching row, and None iff none matches |
| AuthController.SessionOf | backend/src/controllers/auth.controller.js:111-134 | the session holds the public user, the must-change flag and a token for the user's id, email and role; an employee code iff the user has an employees row |
| AuthController.Login | backend/src/controllers/auth.controller.js:68-139 | "Invalid credentials" when no user is found or the password does not verify; 500 "Login failed" for a found user and no password; "Invalid role" for a correct password and another role given; otherwise 200 with that user's session; and 200 only in that case |
| AuthController.FirstWhereAppend | backend/src/controllers/auth.controller.js:86-93 | after appending a row that matches when none did, the lookup finds the appended row |
| AuthController.RegisterThenLogin | backend/src/controllers/auth.controller.js:5-139 | a user who has just registered can log in with the same email and password, as a patient or with no role given |
| AuthController.GetProfile | backend/src/controllers/auth.controller.js:141-163 | 404 "User not found" iff the user id has no row; otherwise the whole users row, password digest included, with the employee columns of its first employees row and a patient code iff a patients row exists |
| AuthController.RegisterThenProfile | backend/src/controllers/auth.controller.js:141-163 | the profile of who has just registered carries the digest of the password they chose |
| AuthController.UpdateProfile | backend/src/controllers/auth.controller.js:165-189 | only the names and picture of the caller's row change, each by COALESCE; the user sent back holds exactly the RETURNING columns id, email, names, role and picture of the updated row; a missing row changes nothing and returns no user |
| AuthController.PasswordChangeCheck | backend/src/controllers/auth.controller.js:196-214 | the checks in order: both passwords given (400), new one at least 8 (400), user exists (404), current password verifies (401 "Current password is incorrect"); success iff all pass |
| AuthController.ChangePassword | backend/src/controllers/auth.controller.js:191-230 | on success only the password hash and must-change flag of that row change; on each refusal the same status and message as the check, and no change |
| StaffController.StaffGuard | backend/src/controllers/staff.controller.js:11-17 | required fields, then the allowed role list; it passes iff both pass, and then the role is a valid role and never "patient" |
| StaffController.StaffUser | backend/src/controllers/staff.controller.js:31-45 | the staff user must change their password and has a `DOC…` doctor id iff the role is doctor |
| StaffController.StaffEmployee | backend/src/controllers/staff.controller.js:50-58 | the employees row is active, coded `EMP…`, and refers to the new user |
| StaffController.CreateStaff | backend/src/controllers/staff.controller.js:4-76 | a transaction: either the user and the employee rows are both added and 201 returned, with the user as its RETURNING columns (id, email, names, role, doctor id, must-change flag), or no table changes; a taken email is a 400; it fails after the guards iff a constraint of either row fails |
| StaffController.StaffQuery | backend/src/controllers/staff.controller.js:90-103 | the built query admits exactly the rows with the given role and department. A query-string filter counts as given whenever it is present, `0` included. |
| StaffController.GetAllStaff | backend/src/controllers/staff.controller.js:78-113 | the rows are exactly the joined non-patient users with their employees rows that pass the filters. Each listed row occurs exactly as often as it does in the join, which Sql.PairsCount gives as the product of the occurrences of its rows, so the handler neither repeats nor drops a row. A query-string filter counts as given whenever it is present, `0` included. |
| PatientController.PatientQuery | backend/src/controllers/patient.controller.js:16-29 | the built query admits exactly the rows matching the search over code, names and email, and the status |
| PatientController.GetAllPatients | backend/src/controllers/patient.controller.js:3-39 | the rows are exactly the joined patients and users that pass the filters. Each listed row occurs exactly as often as it does in the join, which Sql.PairsCount gives as the product of the occurrences of its rows, so the handler neither repeats nor drops a row. |
| PatientController.GetPatientById | backend/src/controllers/patient.controller.js:41-61 | 404 "Patient not found" iff the id has no row or that row's user is missing; otherwise that patient with its user's names, email and picture, the only users columns the query selects |
| PatientController.PatientByIdIsJoinRow | backend/src/controllers/patient.controller.js:44-54 | with unique keys, 200 iff the join `patients JOIN users` has a row with that id, and then exactly that patient and user |
| PatientController.PatientUser | backend/src/controllers/patient.controller.js:82-89 | the user created for a patient has the patient role, no doctor id, and a hash verifying the password |
| PatientController.NewPatient | backend/src/controllers/patient.controller.js:94-109 | the patients row refers to the new user, is coded `PAT…`, is active and has no assigned staff |
| PatientController.CreatePatient | backend/src/controllers/patient.controller.js:63-123 | 400 on missing fields; otherwise either both rows are added and 201 returned, or, on a code clash, 500 with no table changed |
| PatientController.PatchedKeeps | backend/src/controllers/patient.controller.js:150-165 | an update keeps the user, code and status, keeps an assignment not sent, and applied twice equals applied once |
| PatientController.Renamed | backend/src/controllers/patient.controller.js:140-147 | the user row changes only when a first or last name is given, and never in role, doctor id or password |
| PatientController.UpdatePatient | backend/src/controllers/patient.controller.js:125-186 | a transaction: the patient and the renamed user change together, or, when the patient update fails, nothing changes and 500 is returned; an unknown id returns no row |
| PatientController.SetStatus | backend/src/controllers/patient.controller.js:188-229 | setting a status changes only that row's status; an unknown id is 404 |
| PatientController.DischargePatient | backend/src/controllers/patient.controller.js:188-206 | the row's status becomes "discharged" and nothing else changes; an unknown id is 404 |
| PatientController.TransferPatient | backend/src/controllers/patient.controller.js:208-229 | the row's status becomes "transferred"; the department sent is ignored |
| EmployeeController.EmployeeView | backend/src/controllers/employee.controller.js:7-12 | the joined row shows the code, names, position, department and status to the filters |
| EmployeeController.EmployeeQuery | backend/src/controllers/employee.controller.js:15-40 | the built query admits exactly the rows matching the search, department, position and status. A query-string filter counts as given whenever it is present, `0` included. |
| EmployeeController.EmployeeSearch | backend/src/controllers/employee.controller.js:18-22 | the first condition admits a row iff the term occurs in the code, a name or the position; `paramCount` is then one ahead |
| EmployeeController.GetAllEmployees | backend/src/controllers/employee.controller.js:3-50 | the rows are exactly the joined employees and users that pass the filters. Each listed row occurs exactly as often as it does in the join, which Sql.PairsCount gives as the product of the occurrences of its rows, so the handler neither repeats nor drops a row. A query-string filter counts as given whenever it is present, `0` included. |
| EmployeeController.Detail | backend/src/controllers/employee.controller.js:55-69 | 200 iff the employee's user exists, and then the employee with that user's names, email, role and picture; otherwise the given not-found error |
| EmployeeController.GetEmployeeById | backend/src/controllers/employee.controller.js:52-75 | 404 "Employee not found" iff the id has no row or that row's user is missing; otherwise that employee with its user's names, email, role and picture |
| EmployeeController.EmployeeByIdIsJoinRow | backend/src/controllers/employee.controller.js:55-68 | with unique keys, 200 iff the join `employees JOIN users` has a row with that id, and then exactly that employee and user |
| EmployeeController.GetMyEmployeeInfo | backend/src/controllers/employee.controller.js:77-100 | 404 "Employee record not found" iff the caller has no employees row or no users row; otherwise the first of the caller's employees rows, with the caller's names, email, role and picture |
| EmployeeController.EmployeeUser | backend/src/controllers/employee.controller.js:121-131 | the user has a `DOC…` doctor id iff the role is doctor; it passes the role CHECK iff the role is one of the five |
| EmployeeController.NewEmployee | backend/src/controllers/employee.controller.js:136-144 | the employees row refers to the new user, is coded `EMP…` and is active |
| EmployeeController.CreateEmployee | backend/src/controllers/employee.controller.js:102-158 | 400 on missing fields; otherwise both rows and 201 iff neither INSERT fails, else 500 and no table changed |
| EmployeeController.PatientRoleAccepted | backend/src/controllers/employee.controller.js:109-131 | unlike staff creation, an employee may be created with the patient role: the user row passes its constraints |
| EmployeeController.EmployeePatchedKeeps | backend/src/controllers/employee.controller.js:166-171 | an update keeps the user, code and hire date; the empty update is the identity; applied twice equals applied once |
| EmployeeController.UpdateEmployee | backend/src/controllers/employee.controller.js:160-187 | 404 for an unknown id; otherwise the row is patched iff the result passes its constraints, else 500 and no change |
| DepartmentController.EmployeeCount | backend/src/controllers/department.controller.js:8-12 | a department's employee count is the number of employees rows whose department is that one |
| DepartmentController.CountAfterHire | backend/src/controllers/department.controller.js:8-12 | adding an employee raises only its own department's count, by one |
| DepartmentController.GetAllDepartments | backend/src/controllers/department.controller.js:3-20 | one entry per department, in table order, each with its employee count |
| DepartmentController.GetDepartmentById | backend/src/controllers/department.controller.js:22-43 | 200 iff the id has a row, and then that row; otherwise 404 "Department not found" |
| DepartmentController.CreateDepartment | backend/src/controllers/department.controller.js:45-68 | no name is a 400; a taken name is 400 "Department name already exists"; an unknown head doctor is 500; otherwise 201 and one row appended |
| DepartmentController.DepartmentPatchedKeeps | backend/src/controllers/department.controller.js:76-79 | the empty update is the identity; applied twice equals applied once; a head doctor once set is never cleared |
| DepartmentController.UpdateDepartment | backend/src/controllers/department.controller.js:70-94 | 404 for an unknown id; the patched row replaces it iff its name is free and its head doctor exists, else 500 |
| AppointmentController.AppointmentView | backend/src/controllers/appointment.controller.js:7-13 | the joined row shows the patient and doctor keys, status, patient names and code to the filters |
| AppointmentController.AppointmentQuery | backend/src/controllers/appointment.controller.js:16-54 | the built query admits exactly the rows of the caller's scope that match the search, status, doctor and patient filters. A query-string filter counts as given whenever it is present, `0` included. |
| AppointmentController.AppointmentFilters | backend/src/controllers/appointment.controller.js:32-54 | the optional filters narrow the scoped rows by search, status, doctor and (not for patient callers) patient; `paramCount` stays one ahead. A query-string filter counts as given whenever it is present, `0` included. |
| AppointmentController.AppointmentSearch | backend/src/controllers/appointment.controller.js:32-36 | the search condition admits a row iff the term occurs in the patient's first or last name or code, and keeps the earlier conditions |
| AppointmentController.GetAllAppointments | backend/src/controllers/appointment.controller.js:3-64 | the rows are exactly the joined appointments that pass the scope and filters. Each listed row occurs exactly as often as it does in the join, which Sql.PairsCount gives as the product of the occurrences of its rows, so the handler neither repeats nor drops a row. A query-string filter counts as given whenever it is present, `0` included. |
| AppointmentController.PatientSeesOwn | backend/src/controllers/appointment.controller.js:20-50 | a patient with a patients row sees only their own appointments, and the patient filter then has no effect |
| AppointmentController.UnlinkedPatientUnscoped | backend/src/controllers/appointment.controller.js:20-50 | a patient caller without a patients row gets the unscoped list, with only the patient filter dropped |
| AppointmentController.GetAppointmentById | backend/src/controllers/appointment.controller.js:66-90 | 404 iff the id has no row, or its patient or the patient's user is missing; otherwise the appointment's columns with `patient_id` holding the patient's code, which overwrites the foreign key, and the patient's first and last name; no other patient column is sent |
| AppointmentController.AppointmentByIdIsJoinRow | backend/src/controllers/appointment.controller.js:69-83 | with unique keys, 200 iff the join `appointments JOIN patients JOIN users` has a row with that id, and then exactly that row's sent columns |
| AppointmentController.NewAppointment | backend/src/controllers/appointment.controller.js:100-105 | a new appointment is scheduled, without notes, with the sent patient, doctor, date, time and reason |
| AppointmentController.BookingAccepted | backend/src/controllers/appointment.controller.js:100-105 | a booking is accepted iff its patient and doctor exist |
| AppointmentController.CreateAppointment | backend/src/controllers/appointment.controller.js:92-112 | 400 on missing fields; 201 and one row appended iff the references hold; else 500 and no change |
| AppointmentController.AppointmentPatchedKeeps | backend/src/controllers/appointment.controller.js:120-126 | an update keeps patient and doctor; the empty update is the identity; applied twice equals applied once |
| AppointmentController.UpdateAppointment | backend/src/controllers/appointment.controller.js:114-141 | 404 for an unknown id; the row is patched iff any status sent is allowed, else 500 and no change |
| AppointmentController.SetAppointmentStatus | backend/src/controllers/appointment.controller.js:143-183 | a status change alters only that row's status and notes by COALESCE; an unknown id is 404 |
| AppointmentController.CancelAppointment | backend/src/controllers/appointment.controller.js:143-161 | the row becomes "cancelled" with the success message; an unknown id is 404 |
| AppointmentController.CompleteAppointment | backend/src/controllers/appointment.controller.js:163-183 | the row becomes "completed" with notes by COALESCE; an unknown id is 404 |
| PrescriptionController.PrescriptionView | backend/src/controllers/prescription.controller.js:7-13 | the joined row shows doctor, patient, medication, names and status to the filters |
| PrescriptionController.PrescriptionScope | backend/src/controllers/prescription.controller.js:19-37 | the scope restricts a doctor to their own prescriptions and a linked patient to theirs; `paramCount` stays one ahead |
| PrescriptionController.PrescriptionFilters | backend/src/controllers/prescription.controller.js:39-61 | the optional filters narrow the scoped rows by search, patient (not for patients), doctor (not for doctors) and status. A query-string filter counts as given whenever it is present, `0` included. |
| PrescriptionController.PrescriptionSearch | backend/src/controllers/prescription.controller.js:39-43 | the search condition admits a row iff the term occurs in the medication or the patient's first or last name, and keeps the earlier conditions |
| PrescriptionController.PrescriptionQuery | backend/src/controllers/prescription.controller.js:16-61 | the built query admits exactly the rows of the scope that pass the filters. A query-string filter counts as given whenever it is present, `0` included. |
| PrescriptionController.DoctorScope | backend/src/controllers/prescription.controller.js:20-24 | a doctor caller is scoped to their own user id, and only a doctor is |
| PrescriptionController.GetAllPrescriptions | backend/src/controllers/prescription.controller.js:3-71 | the rows are exactly the joined prescriptions in scope that pass the filters. Each listed row occurs exactly as often as it does in the join, which Sql.PairsCount gives as the product of the occurrences of its rows, so the handler neither repeats nor drops a row. A query-string filter counts as given whenever it is present, `0` included. |
| PrescriptionController.DoctorSeesOwn | backend/src/controllers/prescription.controller.js:20-51 | a doctor sees only their own prescriptions, and the doctor filter then has no effect |
| PrescriptionController.PatientSeesOwn | backend/src/controllers/prescription.controller.js:27-45 | a linked patient sees only their own prescriptions, and the patient filter then has no effect |
| PrescriptionController.GetPrescriptionById | backend/src/controllers/prescription.controller.js:73-97 | 404 iff the id has no row, or its patient or the patient's user is missing; otherwise the prescription's columns with `patient_id` holding the patient's code, which overwrites the foreign key, and the patient's first and last name; no other patient column is sent |
| PrescriptionController.PrescriptionByIdIsJoinRow | backend/src/controllers/prescription.controller.js:76-90 | with unique keys, 200 iff the join `prescriptions JOIN patients JOIN users` has a row with that id, and then exactly that row's sent columns |
| PrescriptionController.NewPrescription | backend/src/controllers/prescription.controller.js:107-111 | a new prescription is active and carries the sent patient, doctor, medication, dosage and instructions |
| PrescriptionController.CreatePrescription | backend/src/controllers/prescription.controller.js:99-119 | 400 on missing fields; 201 and one row appended iff patient and doctor exist; else 500 and no change |
| PrescriptionController.PrescriptionPatchedKeeps | backend/src/controllers/prescription.controller.js:127-134 | an update keeps patient and doctor; the empty update is the identity; applied twice equals applied once |
| PrescriptionController.UpdatePrescription | backend/src/controllers/prescription.controller.js:121-149 | 404 for an unknown id; the row is patched iff any status sent is allowed, else 500 |
| PrescriptionController.DeletePrescription | backend/src/controllers/prescription.controller.js:151-165 | 404 for an unknown id; otherwise that row is removed and the id is gone |
| MedicalRecordController.RecordView | backend/src/controllers/medicalRecord.controller.js:7-13 | the joined row shows diagnosis, record type, names, patient and doctor to the filters |
| MedicalRecordController.RecordQuery | backend/src/controllers/medicalRecord.controller.js:16-41 | the built query admits exactly the rows matching the search, patient, doctor and record type. A query-string filter counts as given whenever it is present, `0` included. |
| MedicalRecordController.RecordSearch | backend/src/controllers/medicalRecord.controller.js:19-23 | the first condition admits a row iff the term occurs in the diagnosis, the record type or a name of the patient |
| MedicalRecordController.GetAllMedicalRecords | backend/src/controllers/medicalRecord.controller.js:3-51 | the rows are exactly the joined records that pass the filters. Each listed row occurs exactly as often as it does in the join, which Sql.PairsCount gives as the product of the occurrences of its rows, so the handler neither repeats nor drops a row. A query-string filter counts as given whenever it is present, `0` included. |
| MedicalRecordController.GetMedicalRecordById | backend/src/controllers/medicalRecord.controller.js:53-77 | 404 iff the id has no row, or its patient or the patient's user is missing; otherwise the record's columns with `patient_id` holding the patient's code, which overwrites the foreign key, and the patient's first and last name; no other patient column is sent |
| MedicalRecordController.RecordByIdIsJoinRow | backend/src/controllers/medicalRecord.controller.js:56-70 | with unique keys, 200 iff the join `medical_records JOIN patients JOIN users` has a row with that id, and then exactly that row's sent columns |
| MedicalRecordController.NewRecord | backend/src/controllers/medicalRecord.controller.js:87-92 | the new record carries the sent patient, doctor, type, diagnosis and notes |
| MedicalRecordController.CreateMedicalRecord | backend/src/controllers/medicalRecord.controller.js:79-99 | 400 on missing fields; 201 and one row appended iff patient and doctor exist; else 500 and no change |
| MedicalRecordController.RecordPatchedKeeps | backend/src/controllers/medicalRecord.controller.js:107-113 | an update keeps patient and doctor; the empty update is the identity; applied twice equals applied once |
| MedicalRecordController.UpdateMedicalRecord | backend/src/controllers/medicalRecord.controller.js:101-128 | 404 for an unknown id; otherwise only that row is patched |
| MedicalRecordController.DeleteMedicalRecord | backend/src/controllers/medicalRecord.controller.js:130-144 | 404 for an unknown id; otherwise that row is removed and the id is gone |
| NoticeController.UserRole | backend/src/controllers/notice.controller.js:6 | `req.user?.role` is present iff a caller is |
| NoticeController.NoticeView | backend/src/controllers/notice.controller.js:9-12 | a notice shows its audience and priority to the filters |
| NoticeController.NoticeQuery | backend/src/controllers/notice.controller.js:15-35 | the built query admits exactly the notices for the role's audience, the priority, and (for admins) the target audience |
| NoticeController.GetAllNotices | backend/src/controllers/notice.controller.js:3-45 | the rows are exactly the notices that pass these filters, each as often as it occurs in the table |
| NoticeController.AudienceByRole | backend/src/controllers/notice.controller.js:19-23 | with the audiences the schema allows, a doctor, nurse or patient sees only "all" notices and staff see "all" and "staff" |
| NoticeController.AudienceUnfiltered | backend/src/controllers/notice.controller.js:19-35 | an anonymous caller, or an admin without a target audience, sees every notice of the priority asked for |
| NoticeController.GetNoticeById | backend/src/controllers/notice.controller.js:47-68 | 200 iff the id has a row, and then that notice; otherwise 404 |
| NoticeController.NewNotice | backend/src/controllers/notice.controller.js:78-83 | priority defaults to "normal", audience to "all", and the author is the caller |
| NoticeController.NoticeDefaultsValid | backend/src/config/migrate.js:149-150 | the default priority and audience pass the notice CHECK constraints |
| NoticeController.CreateNotice | backend/src/controllers/notice.controller.js:70-91 | no caller is 500; no title or content is 400; 201 and one row appended iff the constraints hold, else 500 |
| NoticeController.NoticePatchedKeeps | backend/src/controllers/notice.controller.js:99-104 | an update keeps the author; the empty update is the identity; applied twice equals applied once |
| NoticeController.UpdateNotice | backend/src/controllers/notice.controller.js:93-119 | 404 for an unknown id; the row is patched iff any priority and audience sent are allowed, else 500 |
| NoticeController.DeleteNotice | backend/src/controllers/notice.controller.js:121-135 | 404 for an unknown id; otherwise that notice is removed and the id is gone |
| PayrollController.PayrollView | backend/src/controllers/payroll.controller.js:6-12 | the joined row shows employee, month, year, status and the employee's user to the filters |
| PayrollController.PayrollQuery | backend/src/controllers/payroll.controller.js:15-40 | the built query admits exactly the rows matching employee, month, year and status. A query-string filter counts as given whenever it is present, `0` included. |
| PayrollController.PeriodFilters | backend/src/controllers/payroll.controller.js:24-34 | the month and year conditions narrow the rows to the period asked for and keep the parameters already pushed in front. A query-string filter counts as given whenever it is present, `0` included. |
| PayrollController.GetAllPayroll | backend/src/controllers/payroll.controller.js:3-50 | the rows are exactly the joined payroll rows that pass the filters. Each listed row occurs exactly as often as it does in the join, which Sql.PairsCount gives as the product of the occurrences of its rows, so the handler neither repeats nor drops a row. A query-string filter counts as given whenever it is present, `0` included. |
| PayrollController.MyPayrollQuery | backend/src/controllers/payroll.controller.js:64-79 | the first parameter is the caller's id, and a row is admitted iff it belongs to the caller in the period asked for. A query-string filter counts as given whenever it is present, `0` included. |
| PayrollController.GetMyPayroll | backend/src/controllers/payroll.controller.js:52-89 | only the caller's own payroll rows are returned, all of those in the period, each as often as it occurs in the join. A query-string filter counts as given whenever it is present, `0` included. |
| PayrollController.OrZero | backend/src/controllers/payroll.controller.js:99-102 | an absent amount counts as 0 in the net salary |
| PayrollController.NewPayroll | backend/src/controllers/payroll.controller.js:99-109 | the new row is pending, unpaid, carries the sent amounts (absent ones as 0), and its net is base + allowances + bonus − deductions |
| PayrollController.CreatePayroll | backend/src/controllers/payroll.controller.js:91-119 | 400 on missing fields; 201 iff the row is valid and the period free; a taken period alone is 400 "already exists"; any other failure is 500 |
| PayrollController.Recomputed | backend/src/controllers/payroll.controller.js:126-136 | in the net recomputation an omitted amount takes the stored value and a null counts as 0 |
| PayrollController.Kept | backend/src/controllers/payroll.controller.js:138-151 | in the stored columns COALESCE keeps the old value for an omitted or null amount |
| PayrollController.PayrollPatchedKeeps | backend/src/controllers/payroll.controller.js:121-151 | an update never moves a row to another period; the empty update is the identity; applied twice equals applied once |
| PayrollController.PatchedNetConsistent | backend/src/controllers/payroll.controller.js:126-136 | with no null amount sent, a recomputed net is consistent, and without amounts the net stays as consistent as it was |
| PayrollController.NullBaseDesyncs | backend/src/controllers/payroll.controller.js:130-151 | sending `base_salary: null` keeps the stored base but drops it from the net, so the stored net no longer matches |
| PayrollController.UpdatePayroll | backend/src/controllers/payroll.controller.js:121-162 | 404 "Payroll record not found" for an unknown id; the row is patched iff the amounts fit and the status is allowed, else 500 |
| ReportController.InsertLatestFirst | backend/src/controllers/report.controller.js:31 | inserting into a latest-first list keeps it latest first and adds exactly that row |
| ReportController.SortLatestFirst | backend/src/controllers/report.controller.js:31 | the rows ordered by date then time, descending, as a permutation |
| ReportController.Recent | backend/src/controllers/report.controller.js:31-32 | `ORDER BY … DESC LIMIT 5`: min(5, n) of the rows, latest first, and no row left out is later than one kept |
| ReportController.LatestFirstSplit | backend/src/controllers/report.controller.js:31-32 | cutting a latest-first list keeps the head ordered, and no row of the tail is later than a row of the head |
| ReportController.AllJoined | backend/src/controllers/report.controller.js:27-30 | the appointments joined with their patients and the patients' users |
| ReportController.DoctorJoined | backend/src/controllers/report.controller.js:57-60 | the joined appointments of exactly that doctor |
| ReportController.AppointmentDateView | backend/src/controllers/report.controller.js:154-164 | an appointment shows its patient and date to the filters |
| ReportController.PatientAppointments | backend/src/controllers/report.controller.js:116-118 | the appointments of exactly that patient |
| ReportController.DoctorPatientsBound | backend/src/controllers/report.controller.js:52 | a doctor's distinct patients are no more than their appointments, and at least one when they have an appointment |
| ReportController.GetDashboardStats | backend/src/controllers/report.controller.js:3-138 | admin, doctor and nurse callers get their own kind of statistics, a patient gets them iff a patients row exists, and anyone else gets `{}`; each count is the number of rows its WHERE selects, and each recent list is `Recent` of its rows |
| ReportController.AppointmentStatsQuery | backend/src/controllers/report.controller.js:151-164 | the built query admits exactly the appointments dated within the inclusive bounds given |
| ReportController.GetAppointmentStats | backend/src/controllers/report.controller.js:140-174 | one group per date in range and status that occurs; its count is the number of appointments of that date and status, at least one |
| ReportController.GroupOf | backend/src/controllers/report.controller.js:145-166 | a group's date and status are the appointment's, and its count is how many appointments share them |
| ReportController.GroupsExact | backend/src/controllers/report.controller.js:154-166 | the groups of the rows in range are exactly the (date, status) pairs in range that occur, each with its count |
| ReportController.GroupsNonEmpty | backend/src/controllers/report.controller.js:166 | every group counts at least the row it was made from |
| Migrate.Names | backend/src/config/migrate.js:48 | the set of names in the departments table: every row's name, and only those |
| Migrate.NamesAppend | backend/src/config/migrate.js:164-169 | appending a department adds exactly its name to the set of names |
| Migrate.SeedOne | backend/src/config/migrate.js:165-168 | `INSERT … ON CONFLICT (name) DO NOTHING`: a present name leaves the table as it is, a new one is appended as a bare department; no other table changes |
| Migrate.SeedStep | backend/src/config/migrate.js:166 | the only error a bare department INSERT can raise is the name conflict, which is absorbed |
| Migrate.SeedAdvance | backend/src/config/migrate.js:164-169 | the loop invariant of the seeding is kept by one more INSERT |
| Migrate.SeedAll | backend/src/config/migrate.js:164-169 | afterwards every name is present, the old rows are kept in front, the appended rows carry listed names, and nothing changes when all names were already present |
| Migrate.SeedDepartments | backend/src/config/migrate.js:157-169 | the fifteen departments are present, seeded rows are bare, and a second run leaves the table as it was |
| Migrate.MigrationConstraints | backend/src/config/migrate.js:15-150 | every consistent state satisfies the role, status, month, priority and audience CHECKs and the doctor id, patient code, employee code and payroll period UNIQUE constraints |
| LoginPage.ClassCount | frontend/src/pages/Login.jsx:34-38 | the number of character classes present is at most four |
| LoginPage.PasswordStrength | frontend/src/pages/Login.jsx:25-42 | no rating iff empty; weak under 8; strong iff at least 8 with all four classes; medium iff at least 8 with exactly three |
| LoginPage.StrengthMonotone | frontend/src/pages/Login.jsx:25-42 | typing one more character never lowers the rating of a non-empty password |
| LoginPage.OneClassIsWeak | frontend/src/pages/Login.jsx:38-39 | any non-empty password made of one character class only is weak, however long it is |
| LoginPage.SpecialIsNoLetterOrDigit | frontend/src/pages/Login.jsx:34-37 | the four character classes are disjoint: no special character is a letter or a digit |
| LoginPage.UnderscoreIsNotSpecial | frontend/src/pages/Login.jsx:37 | an underscore does not count as a special character |
| LoginPage.AllClassesIsStrong | frontend/src/pages/Login.jsx:34-41 | any password of at least eight characters with an uppercase letter, a lowercase letter, a digit and a special character somewhere in it is strong |
| LoginPage.LoginTypeFor | frontend/src/pages/Login.jsx:142-146 | choosing a role switches to doctor-id login iff the role is doctor |
| LoginPage.LoginCredentials | frontend/src/pages/Login.jsx:59-67 | the login body carries password and role, and exactly one of email and doctor id, the one the login type names |
| LoginPage.RegisterError | frontend/src/pages/Login.jsx:75-84 | registration is sent iff the confirmation matches and the rating is not weak; the mismatch is reported first |
| LoginPage.EmptyPasswordPasses | frontend/src/pages/Login.jsx:75-84 | an empty password with an empty confirmation passes both client checks, since it has no rating |
| LoginPage.LoginForm.constructor | frontend/src/pages/Login.jsx:7-23 | the initial state: login mode, patient role, email login, empty inputs, no rating, not remembered, no error, not loading |
| LoginPage.LoginForm.HandleChange | frontend/src/pages/Login.jsx:44-50 | one input changes; the rating is recomputed iff the password changed, and it always matches the password |
| LoginPage.LoginForm.SelectRole | frontend/src/pages/Login.jsx:142-146 | the role changes and the login type follows it; nothing else changes |
| LoginPage.LoginForm.SelectLoginType | frontend/src/pages/Login.jsx:163 | only the login type changes |
| LoginPage.LoginForm.SetMode | frontend/src/pages/Login.jsx:118-127 | only the login/register mode changes |
| LoginPage.LoginForm.SetRememberMe | frontend/src/pages/Login.jsx:352 | only the remember-me flag changes |
| LoginPage.LoginForm.Submit | frontend/src/pages/Login.jsx:52-103 | login sends the credentials; registration either shows the first failing check and sends nothing, or sends the five fields; loading ends false and the inputs are kept |
| ApiClient.RawBase | frontend/src/services/api.js:4 | an unset or empty environment value falls back to `http://localhost:5000/api` |
| ApiClient.StripSlash | frontend/src/services/api.js:8 | `replace(/\/$/, '')` removes at most one trailing slash |
| ApiClient.NormalizeBase | frontend/src/services/api.js:6-9 | the base always ends in `/api`; one that already does is kept; any other loses one trailing slash and gains `/api` |
| ApiClient.NormalizeIdempotent | frontend/src/services/api.js:6-9 | normalising twice is normalising once |
| ApiClient.TrailingSlashAfterApi | frontend/src/services/api.js:7-8 | a base ending in `/api/` becomes `…/api/api` |
| ApiClient.OneSlashOnly | frontend/src/services/api.js:8 | a base ending in `//` becomes `…//api` |
| ApiClient.BaseUrl | frontend/src/services/api.js:4-9 | the URL ends in `/api`; it is the default without an environment value, and the environment value itself when that already ends in `/api` |
| ApiClient.AuthHeader | frontend/src/services/api.js:19-25 | a header is added iff a non-empty token is stored; the local-storage token wins over the session one |

## Left out

- Password hashing and tokens: bcrypt and JWT are foreign libraries. A digest keeps its plaintext so that verification can be stated; one-wayness, salting strength, the signature and the expiry are not modelled.
- SQL text: queries are modelled by their conditions and parameters, not their text. ILIKE is modelled as Contains, without case folding, and the search term is taken literally: in `'%' || term || '%'` a `%` or `_` inside the term is a wildcard (`a_c` matches `abc`, `%` matches every row), which the model does not capture, so the search rows hold for terms without those two characters.
- Row order: ORDER BY is ignored everywhere except the five-row recent lists, where ties (the same date and time) are broken in some order. `rows[0]` of a SELECT without ORDER BY is taken to be the first match in table order; PostgreSQL may return any match, which matters where several rows can match: `users.email` has no UNIQUE constraint, so Schema.FirstWhere, AuthController.LoginUser and the `employees.user_id` lookups pick one of possibly several rows. `patients.user_id` has no UNIQUE constraint either, so Schema.PatientOf, Schema.OwnPatient, the patient code in AuthController.GetProfile and the patient branch of ReportController.GetDashboardStats also take the first of possibly several rows.
- Time: `Date.now()` and the random salt are parameters. `CURRENT_TIMESTAMP` columns, `created_at` and `updated_at`, are not modelled.
- Dates: appointment dates are whole day numbers, so the DATE() grouping is exact. Malformed date, number or id text, which makes PostgreSQL raise an error and the handler answer 500, is not modelled.
- Promise.all: the independent dashboard queries run one after the other; concurrency is not modelled.
- Numbers: DECIMAL(10,2) amounts are whole numbers below 10^8. parseFloat is modelled only as "absent is 0"; NaN arithmetic is not.
- Integer range: ids, months and years are unbounded `nat` and `int`. A request value outside PostgreSQL's INTEGER range, -2147483648 to 2147483647, makes the database raise an error and the handler answer 500; the model does not reject such values.
- Column lengths: VARCHAR length limits and free-text columns that no handler tests (phone, address, gender, blood type and the like) are not modelled.
- Display columns: names and codes that come from LEFT JOINs for display only are not modelled.
- GetAllStaff: each listed row is the whole joined tuple of users and employees row. The sent object carries only the users columns `id`, email, names, role, doctor id and picture, then the employees columns code, department, position, specialization, hire date and status, and the department name. Its `id` is the user's key, and the password digest and the must-change flag are never sent. The model does not project the rows onto these columns.
- GetAllPatients: each listed row is the whole joined tuple of patients and users row. The sent object carries `p.*`, and from the user only the first and last name, the email and the picture. The model does not project the rows onto these columns.
- GetAllEmployees: each listed row is the whole joined tuple of employees and users row. The sent object carries `e.*`, and from the user only the first and last name, the email, the role and the picture. The model does not project the rows onto these columns.
- GetAllPayroll: each listed row is the whole joined tuple of payroll, employees and users row. The sent object carries `py.*`, the employee code and position, and the user's first and last name and email. Its `employee_id` is the `EMP…` code, because `e.employee_id` overwrites `py.employee_id`. The model does not project the rows onto these columns.
- GetMyPayroll: each listed row is the whole joined tuple. The sent object carries `py.*`, the employee code and position, and the user's first and last name. Its `employee_id` is the `EMP…` code, because `e.employee_id` overwrites the foreign key. The model does not project the rows onto these columns.
- GetAllAppointments: each listed row is the whole joined tuple of appointment, patient and user. The sent object carries only `a.*`, the patient code and the patient's and doctor's names. Its `patient_id` is the patient code, because `pt.patient_id` overwrites `a.patient_id`. Its `doctor_id` is the doctor's `DOC…` code, or null when that user has none, because `d.doctor_id` overwrites `a.doctor_id`. The model does not project the rows onto these columns.
- GetAllPrescriptions: each listed row is the whole joined tuple. The sent object carries only `pr.*`, the patient code and the names, and its `patient_id` is the patient code, which overwrites the foreign key. The model does not project the rows onto these columns.
- GetAllMedicalRecords: each listed row is the whole joined tuple. The sent object carries only `mr.*`, the patient code and the names, and its `patient_id` is the patient code, which overwrites the foreign key. The model does not project the rows onto these columns.
- Failed reads: a database failure on a read, answered with `500 "Failed to fetch …"`, is not modelled; reads always succeed.
- Logging: console logging is not modelled.
- ON DELETE CASCADE: no modelled operation deletes a user, patient or employee, so cascades never fire and are not modelled.
- Routing and authorisation: the routes, `server.js`, the JWT middleware and role authorisation are not part of this model. Each handler receives `req.user` as a `Caller`.
- Other scripts and pages: the patch-schema script itself, apart from the columns it adds (`users.must_change_password` and the payroll allowances, deductions, bonus, net salary and status, all part of the schema here), the seed-admin script, and every React page other than Login, are not part of this model.
- Login page: the HTTP request, storing the returned token and user, navigation, the password visibility toggles and the error from a failed request (the `catch`) are not modelled.
- API client: the 401 response interceptor, which clears storage and redirects, is not modelled.
- LoginPage.PasswordStrength: counts the length in Unicode scalar values; JavaScript's `.length` counts UTF-16 code units, so a password of four characters outside the Basic Multilingual Plane is long enough in the page but not in the model.
- AuthController.RegisterGuard: the at-least-8 check counts Unicode scalar values, not the UTF-16 code units of `.length`, with the same divergence for characters outside the Basic Multilingual Plane.
- AuthController.PasswordChangeCheck: the at-least-8 check on the new password counts Unicode scalar values, not UTF-16 code units, as for RegisterGuard.
- ReportController.GetAppointmentStats: returns the groups as a set, without the `ORDER BY date DESC` order.
- PatientController.TransferPatient: the `department_id` it reads is ignored, as in the handler. The success message of discharge and transfer is not part of the response value.
