/** backend/src/config/migrate.js: the constraints the migration creates
    are the invariant `Store.Valid` of the schema module; what remains is
    the seeding of the fifteen departments with `ON CONFLICT (name) DO
    NOTHING`. */
module Migrate {
  import opened Base
  import opened Schema

  const SeedDepartmentNames: seq<string> := [
    "Cardiology", "Neurology", "Orthopedics", "Pediatrics", "Emergency",
    "Surgery", "Radiology", "Laboratory", "Pharmacy", "Nursing",
    "Administration", "IT", "Maintenance", "Security", "Housekeeping"]

  /** The department names present in a table. */
  function Names(t: Table<Department>): (r: set<string>)
    ensures forall i :: 0 <= i < |t| ==> t[i].data.name in r
    ensures forall n :: n in r ==> exists i :: 0 <= i < |t| && t[i].data.name == n
  {
    set i | 0 <= i < |t| :: t[i].data.name
  }

  lemma NamesAppend(t: Table<Department>, r: Row<Department>)
    ensures Names(t + [r]) == Names(t) + {r.data.name}
  {
    assert (t + [r])[|t|] == r;
    forall n | n in Names(t) ensures n in Names(t + [r]) {
      var i :| 0 <= i < |t| && t[i].data.name == n;
      assert (t + [r])[i] == t[i];
    }
  }

  /** A department inserted with its name only: no description, no head doctor. */
  predicate Bare(d: Department) {
    d.description.None? && d.headDoctor.None?
  }

  predicate Seeded(d: Department) {
    d.name in SeedDepartmentNames && Bare(d)
  }

  /** What one `INSERT INTO departments (name) VALUES ($1) ON CONFLICT
      (name) DO NOTHING` does to the table `t`: a name already present
      leaves it as it is, a new one is appended as a bare department. */
  predicate SeedEffect(t: Table<Department>, t': Table<Department>, name: string) {
    && Names(t') == Names(t) + {name}
    && (name in Names(t) ==> t' == t)
    && (name !in Names(t) ==> |t'| == |t| + 1 && t'[..|t|] == t && t'[|t|].data == Department(name, None, None))
  }

  method SeedOne(db: Store, name: string)
    requires db.Valid()
    modifies db
    ensures db.Valid()
    ensures db.Snapshot() == old(db.Snapshot()).(departments := db.departments)
    ensures SeedEffect(old(db.departments), db.departments, name)
  {
    ghost var t := db.departments;
    var id, e := db.InsertDepartment(Department(name, None, None));
    SeedStep(t, db.departments, id, name, e, Keys(old(db.users)));
  }

  /** The effect of one seeding INSERT, from the error it raises: a UNIQUE
      violation on the name is the conflict DO NOTHING absorbs, and a row
      without a head doctor raises nothing else. */
  lemma SeedStep(t: Table<Department>, t': Table<Department>, id: nat, name: string, e: Option<DbError>,
                 users: set<nat>)
    requires e == DepartmentError(t, Department(name, None, None), None, users)
    requires e.None? ==> t' == t + [Row(id, Department(name, None, None))]
    requires e.Some? ==> t' == t
    ensures SeedEffect(t, t', name)
  {
    if e.None? {
      assert t'[..|t|] == t;
      NamesAppend(t, Row(id, Department(name, None, None)));
    } else {
      var i :| 0 <= i < |t| && t[i].data.name == name;
      assert name in Names(t);
    }
  }

  /** The state after seeding the first `k` names into `start`. */
  predicate SeededFrom(start: Table<Department>, t: Table<Department>, names: seq<string>, k: nat)
    requires k <= |names|
  {
    && Names(t) == Names(start) + (set n | n in names[..k])
    && |start| <= |t| && t[..|start|] == start
    && (forall j :: |start| <= j < |t| ==> t[j].data.name in names && Bare(t[j].data))
    && ((forall n :: n in names ==> n in Names(start)) ==> t == start)
  }

  lemma SeedAdvance(start: Table<Department>, t: Table<Department>, t': Table<Department>,
                    names: seq<string>, k: nat)
    requires k < |names| && SeededFrom(start, t, names, k) && SeedEffect(t, t', names[k])
    ensures SeededFrom(start, t', names, k + 1)
  {
    var done, next := names[..k], names[..k + 1];
    assert next == done + [names[k]];
    assert (set n | n in next) == (set n | n in done) + {names[k]};
    if names[k] !in Names(t) {
      assert t'[..|t|] == t;
      assert t'[..|start|] == t[..|start|];
      forall j | |start| <= j < |t'| ensures t'[j].data.name in names && Bare(t'[j].data) {
        if j < |t| { assert t'[j] == t[j]; }
      }
      assert names[k] !in Names(start);
    }
  }

  /** The seeding loop over `names`. Afterwards every name is present, the
      rows that were there are kept in front, the appended rows carry names
      from the list and nothing else, and the other tables are untouched.
      When every name is already present, as on a second run, the
      departments table is left as it was. */
  method SeedAll(db: Store, names: seq<string>)
    requires db.Valid()
    modifies db
    ensures db.Valid()
    ensures db.Snapshot() == old(db.Snapshot()).(departments := db.departments)
    ensures SeededFrom(old(db.departments), db.departments, names, |names|)
  {
    ghost var start := db.departments;
    assert names[..0] == [];
    var k := 0;
    while k < |names|
      invariant 0 <= k <= |names|
      invariant db.Valid()
      invariant db.Snapshot() == old(db.Snapshot()).(departments := db.departments)
      invariant SeededFrom(start, db.departments, names, k)
    {
      ghost var before := db.departments;
      SeedOne(db, names[k]);
      SeedAdvance(start, before, db.departments, names, k);
      k := k + 1;
    }
  }

  /** The seeding of migrate.js: afterwards all fifteen names are present,
      the rows that were there are kept in front and the appended rows are
      seeded departments. Running it on a table that holds all fifteen, as
      a second run does, leaves the table as it was. */
  method SeedDepartments(db: Store)
    requires db.Valid()
    modifies db
    ensures db.Valid()
    ensures db.Snapshot() == old(db.Snapshot()).(departments := db.departments)
    ensures Names(db.departments) == Names(old(db.departments)) + (set n | n in SeedDepartmentNames)
    ensures |old(db.departments)| <= |db.departments| &&
            db.departments[..|old(db.departments)|] == old(db.departments)
    ensures forall j :: |old(db.departments)| <= j < |db.departments| ==> Seeded(db.departments[j].data)
    ensures (forall n :: n in SeedDepartmentNames ==> n in Names(old(db.departments))) ==>
              db.departments == old(db.departments)
  {
    SeedAll(db, SeedDepartmentNames);
    assert SeedDepartmentNames[..|SeedDepartmentNames|] == SeedDepartmentNames;
  }

  /** What the CHECK and UNIQUE constraints of the migration guarantee of
      every consistent state: user roles, the status columns, the payroll
      month and period key, and notice priority and audience. */
  lemma MigrationConstraints(s: Tables, c: Counters)
    requires Consistent(s, c)
    ensures forall i :: 0 <= i < |s.users| ==> s.users[i].data.role in Roles
    ensures forall i, j :: 0 <= i < j < |s.users| && s.users[i].data.doctorId.Some? ==>
              s.users[i].data.doctorId != s.users[j].data.doctorId
    ensures forall i, j :: 0 <= i < j < |s.patients| ==> s.patients[i].data.code != s.patients[j].data.code
    ensures forall i, j :: 0 <= i < j < |s.employees| ==> s.employees[i].data.code != s.employees[j].data.code
    ensures forall i :: 0 <= i < |s.patients| ==> s.patients[i].data.status in PatientStatuses
    ensures forall i :: 0 <= i < |s.employees| ==> s.employees[i].data.status in EmployeeStatuses
    ensures forall i :: 0 <= i < |s.appointments| ==> s.appointments[i].data.status in AppointmentStatuses
    ensures forall i :: 0 <= i < |s.prescriptions| ==> s.prescriptions[i].data.status in PrescriptionStatuses
    ensures forall i :: 0 <= i < |s.payroll| ==>
              s.payroll[i].data.status in PayrollStatuses && 1 <= s.payroll[i].data.month <= 12
    ensures forall i, j :: 0 <= i < j < |s.payroll| ==> !SamePeriod(s.payroll[i].data, s.payroll[j].data)
    ensures forall i :: 0 <= i < |s.notices| ==>
              s.notices[i].data.priority in Priorities && s.notices[i].data.audience in Audiences
  {
    forall i | 0 <= i < |s.users| ensures s.users[i].data.role in Roles {
      assert UserRowOk(s.users[i].data);
    }
    forall i | 0 <= i < |s.patients| ensures s.patients[i].data.status in PatientStatuses {
      assert PatientRowOk(s.patients[i].data, Keys(s.users));
    }
    forall i | 0 <= i < |s.employees| ensures s.employees[i].data.status in EmployeeStatuses {
      assert EmployeeRowOk(s.employees[i].data, Keys(s.users), Keys(s.departments));
    }
    forall i | 0 <= i < |s.appointments| ensures s.appointments[i].data.status in AppointmentStatuses {
      assert AppointmentRowOk(s.appointments[i].data, Keys(s.patients), Keys(s.users));
    }
    forall i | 0 <= i < |s.prescriptions| ensures s.prescriptions[i].data.status in PrescriptionStatuses {
      assert PrescriptionRowOk(s.prescriptions[i].data, Keys(s.patients), Keys(s.users));
    }
    forall i | 0 <= i < |s.payroll|
      ensures s.payroll[i].data.status in PayrollStatuses && 1 <= s.payroll[i].data.month <= 12 {
      assert PayrollRowOk(s.payroll[i].data, Keys(s.employees));
    }
    forall i | 0 <= i < |s.notices|
      ensures s.notices[i].data.priority in Priorities && s.notices[i].data.audience in Audiences {
      assert NoticeRowOk(s.notices[i].data, Keys(s.users));
    }
  }
}
