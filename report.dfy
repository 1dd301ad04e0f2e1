/** backend/src/controllers/report.controller.js: the dashboard statistics,
    which differ by the caller's role, and the per-day appointment
    statistics over an optional date range. */
module ReportController {
  import opened Base
  import opened Schema
  import opened Sql
  import opened AppointmentController

  // ---------------------------------------------------------------------
  // The five most recent appointments
  // ---------------------------------------------------------------------

  /** `(appointment_date, appointment_time)`, the sort key of the recent lists. */
  type Moment = (nat, nat)

  /** `a` comes no later than `b` in `ORDER BY appointment_date DESC,
      appointment_time DESC`: a later date, or the same date and a time no
      earlier. */
  predicate NoEarlier(a: Moment, b: Moment) {
    a.0 > b.0 || (a.0 == b.0 && a.1 >= b.1)
  }

  predicate LatestFirst<R>(rows: seq<R>, at: R -> Moment) {
    forall i, j :: 0 <= i < j < |rows| ==> NoEarlier(at(rows[i]), at(rows[j]))
  }

  /** Insert `x` into a list ordered latest first, keeping the order. */
  function InsertLatestFirst<R(==)>(x: R, rows: seq<R>, at: R -> Moment): (r: seq<R>)
    requires LatestFirst(rows, at)
    ensures multiset(r) == multiset(rows) + multiset{x}
    ensures LatestFirst(r, at)
  {
    if |rows| == 0 then [x]
    else if NoEarlier(at(x), at(rows[0])) then [x] + rows
    else
      var rest := InsertLatestFirst(x, rows[1..], at);
      assert rows == [rows[0]] + rows[1..];
      HeadNoEarlier(rows, x, rest, at);
      ConsLatestFirst(rows[0], rest, at);
      [rows[0]] + rest
  }

  /** The head of a list ordered latest first, when it is later than `x`, is
      no earlier than any row of the rest with `x` added. */
  lemma HeadNoEarlier<R>(rows: seq<R>, x: R, rest: seq<R>, at: R -> Moment)
    requires |rows| > 0 && LatestFirst(rows, at) && !NoEarlier(at(x), at(rows[0]))
    requires multiset(rest) == multiset(rows[1..]) + multiset{x}
    ensures forall j :: 0 <= j < |rest| ==> NoEarlier(at(rows[0]), at(rest[j]))
  {
    forall j | 0 <= j < |rest| ensures NoEarlier(at(rows[0]), at(rest[j])) {
      assert rest[j] in multiset(rest);
      if rest[j] != x {
        var k :| 0 <= k < |rows[1..]| && rows[1..][k] == rest[j];
        assert rows[k + 1] == rest[j];
      }
    }
  }

  lemma ConsLatestFirst<R>(y: R, rest: seq<R>, at: R -> Moment)
    requires LatestFirst(rest, at) && forall j :: 0 <= j < |rest| ==> NoEarlier(at(y), at(rest[j]))
    ensures LatestFirst([y] + rest, at)
  {
    var r := [y] + rest;
    forall i, j | 0 <= i < j < |r| ensures NoEarlier(at(r[i]), at(r[j])) {
      assert r[j] == rest[j - 1];
      if i > 0 { assert r[i] == rest[i - 1]; }
    }
  }

  /** The rows ordered latest first, by insertion. */
  function SortLatestFirst<R(==)>(rows: seq<R>, at: R -> Moment): (r: seq<R>)
    ensures multiset(r) == multiset(rows)
    ensures LatestFirst(r, at)
  {
    if |rows| == 0 then []
    else
      assert rows == [rows[0]] + rows[1..];
      InsertLatestFirst(rows[0], SortLatestFirst(rows[1..], at), at)
  }

  /** `ORDER BY appointment_date DESC, appointment_time DESC LIMIT 5`: at most
      five of the rows, latest first, and no row left out is later than a
      row kept. Ties are broken in some order, as the database may. */
  function Recent<R(==)>(rows: seq<R>, at: R -> Moment): (r: seq<R>)
    ensures |r| == Min(5, |rows|)
    ensures multiset(r) <= multiset(rows)
    ensures LatestFirst(r, at)
    ensures forall x, y :: x in r && y in multiset(rows) - multiset(r) ==> NoEarlier(at(x), at(y))
  {
    var s := SortLatestFirst(rows, at);
    var k := Min(5, |rows|);
    assert |s| == |multiset(s)| == |rows|;
    LatestFirstSplit(s, k, at);
    s[..k]
  }

  /** Cutting a list ordered latest first after `k` rows: the kept rows and
      the rest together are the list, and no row of the rest is later than a
      kept row. */
  lemma LatestFirstSplit<R>(s: seq<R>, k: nat, at: R -> Moment)
    requires LatestFirst(s, at) && k <= |s|
    ensures LatestFirst(s[..k], at)
    ensures multiset(s) - multiset(s[..k]) == multiset(s[k..])
    ensures forall x, y :: x in s[..k] && y in multiset(s[k..]) ==> NoEarlier(at(x), at(y))
  {
    assert s == s[..k] + s[k..];
    forall x, y | x in s[..k] && y in multiset(s[k..]) ensures NoEarlier(at(x), at(y)) {
      var i :| 0 <= i < k && s[i] == x;
      var j :| 0 <= j < |s[k..]| && s[k..][j] == y;
      assert s[k + j] == y;
    }
  }

  function JoinedMoment(x: AppointmentRow): Moment {
    (x.0.data.date, x.0.data.time)
  }

  function RowMoment(a: Row<Appointment>): Moment {
    (a.data.date, a.data.time)
  }

  /** `appointments a JOIN patients pt ON a.patient_id = pt.id JOIN users p
      ON pt.user_id = p.id`. */
  function AllJoined(t: Tables): (r: seq<AppointmentRow>)
    ensures forall x :: x in r <==>
              && x.0 in t.appointments && x.1.0 in t.patients && x.1.1 in t.users
              && AppointmentJoined(x.0, x.1) && PatientJoined(x.1.0, x.1.1)
  {
    Pairs(t.appointments, Pairs(t.patients, t.users, PatientJoined), AppointmentJoined)
  }

  /** The joined rows `WHERE a.doctor_id = $1`. */
  function DoctorJoined(t: Tables, doctorId: nat): (r: seq<AppointmentRow>)
    ensures forall x :: x in r <==> x in AllJoined(t) && x.0.data.doctorId == doctorId
  {
    Select(AllJoined(t), AppointmentView, And(Query([], []), Eq(DoctorRef, 1), Int(doctorId)))
  }

  /** The appointment columns the patient's list and the statistics filter on. */
  function AppointmentDateView(a: Row<Appointment>): (v: View)
    ensures PatientRef in v && v[PatientRef] == Int(a.data.patientId)
    ensures Date in v && v[Date] == Int(a.data.date)
  {
    map[PatientRef := Int(a.data.patientId), Date := Int(a.data.date)]
  }

  /** The appointments `WHERE a.patient_id = $1`; the doctor's name comes
      from a `LEFT JOIN` and is display only. */
  function PatientAppointments(t: Tables, patientId: nat): (r: seq<Row<Appointment>>)
    ensures forall a :: a in r <==> a in t.appointments && a.data.patientId == patientId
  {
    Select(t.appointments, AppointmentDateView, And(Query([], []), Eq(PatientRef, 1), Int(patientId)))
  }

  // ---------------------------------------------------------------------
  // Counts
  // ---------------------------------------------------------------------

  function ActivePatient(): Patient -> bool { (p: Patient) => p.status == "active" }
  function ActiveEmployee(): Employee -> bool { (e: Employee) => e.status == "active" }
  function Scheduled(): Appointment -> bool { (a: Appointment) => a.status == "scheduled" }

  function ScheduledFor(doctorId: Option<nat>, patientId: Option<nat>): Appointment -> bool {
    (a: Appointment) =>
      a.status == "scheduled" && (doctorId.Some? ==> a.doctorId == doctorId.value) &&
      (patientId.Some? ==> a.patientId == patientId.value)
  }

  function ActivePrescriptionFor(doctorId: Option<nat>, patientId: Option<nat>): Prescription -> bool {
    (p: Prescription) =>
      p.status == "active" && (doctorId.Some? ==> p.doctorId == doctorId.value) &&
      (patientId.Some? ==> p.patientId == patientId.value)
  }

  function RecordOf(patientId: nat): MedicalRecord -> bool {
    (m: MedicalRecord) => m.patientId == patientId
  }

  /** `COUNT(DISTINCT patient_id) … WHERE doctor_id = $1`: the patients the
      doctor has an appointment with, whatever its status. */
  function DoctorPatients(t: Table<Appointment>, doctorId: nat): set<nat> {
    set i | 0 <= i < |t| && t[i].data.doctorId == doctorId :: t[i].data.patientId
  }

  /** A doctor has no more distinct patients than appointments, and at least
      one patient as soon as there is one appointment. */
  lemma {:induction false} DoctorPatientsBound(t: Table<Appointment>, doctorId: nat)
    ensures |DoctorPatients(t, doctorId)| <= |set i | 0 <= i < |t| && t[i].data.doctorId == doctorId|
    ensures (exists i :: 0 <= i < |t| && t[i].data.doctorId == doctorId) ==> |DoctorPatients(t, doctorId)| >= 1
  {
    if |t| > 0 {
      var k := |t| - 1;
      DoctorPatientsBound(t[..k], doctorId);
      DoctorRowsLast(t, doctorId);
      DoctorPatientsLast(t, doctorId);
      if i :| 0 <= i < |t| && t[i].data.doctorId == doctorId {
        assert t[i].data.patientId in DoctorPatients(t, doctorId);
      }
    }
  }

  lemma DoctorRowsLast(t: Table<Appointment>, doctorId: nat)
    requires |t| > 0
    ensures var k := |t| - 1;
            (set i | 0 <= i < |t| && t[i].data.doctorId == doctorId) ==
            (set i | 0 <= i < k && t[..k][i].data.doctorId == doctorId) +
            (if t[k].data.doctorId == doctorId then {k} else {})
  {
  }

  lemma DoctorPatientsLast(t: Table<Appointment>, doctorId: nat)
    requires |t| > 0
    ensures var k := |t| - 1;
            DoctorPatients(t, doctorId) ==
            DoctorPatients(t[..k], doctorId) + (if t[k].data.doctorId == doctorId then {t[k].data.patientId} else {})
  {
    var k := |t| - 1;
    assert forall i :: 0 <= i < k ==> t[..k][i] == t[i];
  }

  // ---------------------------------------------------------------------
  // getDashboardStats
  // ---------------------------------------------------------------------

  /** The JSON object the dashboard receives; `NoStats` is `{}`. */
  datatype Stats =
    | AdminStats(totalPatients: nat, totalAppointments: nat, totalEmployees: nat, totalDepartments: nat,
                 recent: seq<AppointmentRow>)
    | DoctorStats(myAppointments: nat, myPatients: nat, myPrescriptions: nat, recent: seq<AppointmentRow>)
    | NurseStats(totalPatients: nat, totalAppointments: nat, recent: seq<AppointmentRow>)
    | PatientStats(myAppointments: nat, myPrescriptions: nat, myRecords: nat, ownRecent: seq<Row<Appointment>>)
    | NoStats

  /** `getDashboardStats`, the independent queries of each branch run one
      after the other. */
  method GetDashboardStats(t: Tables, caller: Caller) returns (stats: Stats)
    ensures caller.role == "admin" <==> stats.AdminStats?
    ensures caller.role == "doctor" <==> stats.DoctorStats?
    ensures caller.role == "nurse" <==> stats.NurseStats?
    ensures stats.PatientStats? <==> caller.role == "patient" && PatientOf(t.patients, caller.id).Some?
    ensures (stats.AdminStats? || stats.NurseStats?) ==>
              && stats.totalPatients == |set i | 0 <= i < |t.patients| && t.patients[i].data.status == "active"|
              && stats.totalAppointments ==
                 |set i | 0 <= i < |t.appointments| && t.appointments[i].data.status == "scheduled"|
              && stats.recent == Recent(AllJoined(t), JoinedMoment)
    ensures stats.AdminStats? ==>
              && stats.totalEmployees == |set i | 0 <= i < |t.employees| && t.employees[i].data.status == "active"|
              && stats.totalDepartments == |t.departments|
    ensures stats.DoctorStats? ==>
              && stats.myAppointments ==
                 |set i | 0 <= i < |t.appointments| && t.appointments[i].data.doctorId == caller.id &&
                          t.appointments[i].data.status == "scheduled"|
              && stats.myPatients == |DoctorPatients(t.appointments, caller.id)|
              && stats.myPrescriptions ==
                 |set i | 0 <= i < |t.prescriptions| && t.prescriptions[i].data.doctorId == caller.id &&
                          t.prescriptions[i].data.status == "active"|
              && stats.recent == Recent(DoctorJoined(t, caller.id), JoinedMoment)
    ensures stats.PatientStats? ==>
              var pid := t.patients[PatientOf(t.patients, caller.id).value].id;
              && stats.myAppointments ==
                 |set i | 0 <= i < |t.appointments| && t.appointments[i].data.patientId == pid &&
                          t.appointments[i].data.status == "scheduled"|
              && stats.myPrescriptions ==
                 |set i | 0 <= i < |t.prescriptions| && t.prescriptions[i].data.patientId == pid &&
                          t.prescriptions[i].data.status == "active"|
              && stats.myRecords == |set i | 0 <= i < |t.records| && t.records[i].data.patientId == pid|
              && stats.ownRecent == Recent(PatientAppointments(t, pid), RowMoment)
  {
    stats := NoStats;
    if caller.role == "admin" || caller.role == "nurse" {
      assert Where(t.patients, ActivePatient()) == set i | 0 <= i < |t.patients| && t.patients[i].data.status == "active";
      assert Where(t.appointments, Scheduled()) ==
             set i | 0 <= i < |t.appointments| && t.appointments[i].data.status == "scheduled";
      var patients := CountWhere(t.patients, ActivePatient());
      var appointments := CountWhere(t.appointments, Scheduled());
      var recent := Recent(AllJoined(t), JoinedMoment);
      if caller.role == "admin" {
        assert Where(t.employees, ActiveEmployee()) ==
               set i | 0 <= i < |t.employees| && t.employees[i].data.status == "active";
        var employees := CountWhere(t.employees, ActiveEmployee());
        stats := AdminStats(patients, appointments, employees, |t.departments|, recent);
      } else {
        stats := NurseStats(patients, appointments, recent);
      }
    } else if caller.role == "doctor" {
      var me := Some(caller.id);
      assert Where(t.appointments, ScheduledFor(me, None)) ==
             set i | 0 <= i < |t.appointments| && t.appointments[i].data.doctorId == caller.id &&
                     t.appointments[i].data.status == "scheduled";
      assert Where(t.prescriptions, ActivePrescriptionFor(me, None)) ==
             set i | 0 <= i < |t.prescriptions| && t.prescriptions[i].data.doctorId == caller.id &&
                     t.prescriptions[i].data.status == "active";
      stats := DoctorStats(CountWhere(t.appointments, ScheduledFor(me, None)),
                           |DoctorPatients(t.appointments, caller.id)|,
                           CountWhere(t.prescriptions, ActivePrescriptionFor(me, None)),
                           Recent(DoctorJoined(t, caller.id), JoinedMoment));
    } else if caller.role == "patient" {
      var found := PatientOf(t.patients, caller.id);
      if found.Some? {
        var pid := t.patients[found.value].id;
        assert Where(t.appointments, ScheduledFor(None, Some(pid))) ==
               set i | 0 <= i < |t.appointments| && t.appointments[i].data.patientId == pid &&
                       t.appointments[i].data.status == "scheduled";
        assert Where(t.prescriptions, ActivePrescriptionFor(None, Some(pid))) ==
               set i | 0 <= i < |t.prescriptions| && t.prescriptions[i].data.patientId == pid &&
                       t.prescriptions[i].data.status == "active";
        assert Where(t.records, RecordOf(pid)) == set i | 0 <= i < |t.records| && t.records[i].data.patientId == pid;
        stats := PatientStats(CountWhere(t.appointments, ScheduledFor(None, Some(pid))),
                              CountWhere(t.prescriptions, ActivePrescriptionFor(None, Some(pid))),
                              CountWhere(t.records, RecordOf(pid)),
                              Recent(PatientAppointments(t, pid), RowMoment));
      }
    }
  }

  // ---------------------------------------------------------------------
  // getAppointmentStats
  // ---------------------------------------------------------------------

  /** Both bounds are inclusive and each applies only when given. */
  predicate InRange(startDate: Option<nat>, endDate: Option<nat>, date: nat) {
    (startDate.Some? ==> startDate.value <= date) && (endDate.Some? ==> date <= endDate.value)
  }

  method AppointmentStatsQuery(startDate: Option<nat>, endDate: Option<nat>) returns (q: Query)
    ensures Numbered(q)
    ensures forall a :: Admits(q, AppointmentDateView(a)) <==> InRange(startDate, endDate, a.data.date)
  {
    q := Query([], []);
    var paramCount := 1;
    q, paramCount := AndIf(q, paramCount, startDate.Some?, AtLeast(Date, paramCount), OptInt(startDate));
    q, paramCount := AndIf(q, paramCount, endDate.Some?, AtMost(Date, paramCount), OptInt(endDate));
  }

  /** One row of `GROUP BY DATE(appointment_date), status`. */
  datatype DayCount = DayCount(date: nat, count: nat, status: string)

  function OnDayWith(date: nat, status: string): Appointment -> bool {
    (a: Appointment) => a.date == date && a.status == status
  }

  /** `getAppointmentStats`: one group per date in range and status that
      occurs, counting its appointments. The range tests only the date, so
      every appointment of a group's date and status is in range. */
  method GetAppointmentStats(t: Tables, startDate: Option<nat>, endDate: Option<nat>)
    returns (groups: set<DayCount>)
    ensures forall g :: g in groups <==>
              && InRange(startDate, endDate, g.date)
              && (exists a :: a in t.appointments && a.data.date == g.date && a.data.status == g.status)
              && g.count == |Where(t.appointments, OnDayWith(g.date, g.status))|
    ensures forall g :: g in groups ==> g.count >= 1
  {
    var q := AppointmentStatsQuery(startDate, endDate);
    var selected := Select(t.appointments, AppointmentDateView, q);
    groups := set a | a in selected :: GroupOf(t.appointments, a.data);
    GroupsExact(t.appointments, selected, startDate, endDate);
    GroupsNonEmpty(t.appointments, selected);
  }

  /** The groups of the rows in range are exactly the (date, status) pairs
      in range that occur, with their counts. */
  lemma GroupsExact(t: Table<Appointment>, selected: seq<Row<Appointment>>, startDate: Option<nat>,
                    endDate: Option<nat>)
    requires forall a :: a in selected <==> a in t && InRange(startDate, endDate, a.data.date)
    ensures forall g :: g in (set a | a in selected :: GroupOf(t, a.data)) <==>
              && InRange(startDate, endDate, g.date)
              && (exists a :: a in t && a.data.date == g.date && a.data.status == g.status)
              && g.count == |Where(t, OnDayWith(g.date, g.status))|
  {
    var groups := set a | a in selected :: GroupOf(t, a.data);
    forall g: DayCount | InRange(startDate, endDate, g.date) && g.count == |Where(t, OnDayWith(g.date, g.status))|
      ensures (exists a :: a in t && a.data.date == g.date && a.data.status == g.status) ==> g in groups
    {
      if a :| a in t && a.data.date == g.date && a.data.status == g.status {
        assert a in selected && g == GroupOf(t, a.data);
      }
    }
  }

  /** A group stands for at least the row it was made from. */
  lemma GroupsNonEmpty(t: Table<Appointment>, selected: seq<Row<Appointment>>)
    requires forall a :: a in selected ==> a in t
    ensures forall g :: g in (set a | a in selected :: GroupOf(t, a.data)) ==> g.count >= 1
  {
    forall g | g in (set a | a in selected :: GroupOf(t, a.data)) ensures g.count >= 1 {
      var a :| a in selected && g == GroupOf(t, a.data);
      var i :| 0 <= i < |t| && t[i] == a;
      assert i in Where(t, OnDayWith(g.date, g.status));
    }
  }

  function GroupOf(t: Table<Appointment>, a: Appointment): (g: DayCount)
    ensures g.date == a.date && g.status == a.status
    ensures g.count == |Where(t, OnDayWith(a.date, a.status))|
  {
    DayCount(a.date, CountWhere(t, OnDayWith(a.date, a.status)), a.status)
  }
}
