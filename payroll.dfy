/** backend/src/controllers/payroll.controller.js: the payroll list, the
    caller's own payslips, payroll creation with its derived net salary, and
    the update that recomputes the net salary when an amount is sent. */
module PayrollController {
  import opened Base
  import opened Schema
  import opened Sql
  import EmployeeController

  /** The net salary the controller derives: base plus allowances plus bonus
      minus deductions. */
  function Net(base: int, allowances: int, deductions: int, bonus: int): int {
    base + allowances + bonus - deductions
  }

  /** The stored net salary agrees with the stored amounts. */
  predicate NetConsistent(p: Payroll) {
    p.netSalary == Net(p.baseSalary, p.allowances, p.deductions, p.bonus)
  }

  // ---------------------------------------------------------------------
  // getAllPayroll, getMyPayroll
  // ---------------------------------------------------------------------

  /** A row of `payroll py JOIN employees e ON py.employee_id = e.id JOIN
      users u ON e.user_id = u.id`. */
  type PayrollRow = (Row<Payroll>, (Row<Employee>, Row<User>))

  predicate PayrollJoined(py: Row<Payroll>, eu: (Row<Employee>, Row<User>)) {
    py.data.employeeId == eu.0.id
  }

  function PayrollView(x: PayrollRow): (v: View)
    ensures EmployeeRef in v && v[EmployeeRef] == Int(x.0.data.employeeId)
    ensures Month in v && v[Month] == Int(x.0.data.month)
    ensures Year in v && v[Year] == Int(x.0.data.year)
    ensures Status in v && v[Status] == Str(x.0.data.status)
    ensures UserRef in v && v[UserRef] == Int(x.1.0.data.userId)
  {
    map[EmployeeRef := Int(x.0.data.employeeId), Month := Int(x.0.data.month), Year := Int(x.0.data.year),
        Status := Str(x.0.data.status), UserRef := Int(x.1.0.data.userId)]
  }

  /** The month and year filters that both lists share. */
  predicate InPeriod(month: Option<int>, year: Option<int>, x: PayrollRow) {
    && (month.Some? ==> x.0.data.month == month.value)
    && (year.Some? ==> x.0.data.year == year.value)
  }

  predicate PayrollListed(employeeId: Option<nat>, month: Option<int>, year: Option<int>,
                          status: Option<string>, x: PayrollRow) {
    && (employeeId.Some? ==> x.0.data.employeeId == employeeId.value)
    && InPeriod(month, year, x)
    && (Given(status) ==> x.0.data.status == status.value)
  }

  method PayrollQuery(employeeId: Option<nat>, month: Option<int>, year: Option<int>, status: Option<string>)
    returns (q: Query)
    ensures Numbered(q)
    ensures forall x :: Admits(q, PayrollView(x)) <==> PayrollListed(employeeId, month, year, status, x)
  {
    q := Query([], []);
    var paramCount := 1;
    q, paramCount := AndIf(q, paramCount, employeeId.Some?, Eq(EmployeeRef, paramCount), OptInt(employeeId));
    q, paramCount := PeriodFilters(q, paramCount, month, year);
    q, paramCount := AndIf(q, paramCount, Given(status), Eq(Status, paramCount), OptStr(status));
  }

  /** The month and year conditions, appended after the ones already there. */
  method PeriodFilters(q0: Query, paramCount0: nat, month: Option<int>, year: Option<int>)
    returns (q: Query, paramCount: nat)
    requires Numbered(q0) && paramCount0 == |q0.params| + 1
    ensures Numbered(q) && paramCount == |q.params| + 1 && q0.params <= q.params
    ensures forall x :: Admits(q, PayrollView(x)) <==> Admits(q0, PayrollView(x)) && InPeriod(month, year, x)
  {
    q, paramCount := AndIf(q0, paramCount0, month.Some?, Eq(Month, paramCount0), OptInt(month));
    q, paramCount := AndIf(q, paramCount, year.Some?, Eq(Year, paramCount), OptInt(year));
  }

  /** The fixed part of both payroll listings:
      `payroll p JOIN employees e ON p.employee_id = e.id JOIN users u ON e.user_id = u.id`. */
  function PayrollJoin(t: Tables): seq<PayrollRow> {
    Pairs(t.payroll, Pairs(t.employees, t.users, EmployeeController.EmployeeJoined), PayrollJoined)
  }

  /** `getAllPayroll`; the `ORDER BY` on year and month is not modelled. */
  method GetAllPayroll(t: Tables, employeeId: Option<nat>, month: Option<int>, year: Option<int>,
                       status: Option<string>) returns (rows: seq<PayrollRow>)
    ensures forall x :: x in rows <==>
              && x.0 in t.payroll && x.1.0 in t.employees && x.1.1 in t.users
              && PayrollJoined(x.0, x.1) && EmployeeController.EmployeeJoined(x.1.0, x.1.1)
              && PayrollListed(employeeId, month, year, status, x)
    ensures forall x :: multiset(rows)[x] ==
              if PayrollListed(employeeId, month, year, status, x) then multiset(PayrollJoin(t))[x] else 0
  {
    var q := PayrollQuery(employeeId, month, year, status);
    rows := Select(PayrollJoin(t), PayrollView, q);
    SelectCounts(PayrollJoin(t), PayrollView, q);
  }

  /** `WHERE e.user_id = $1` with the caller's id, then the period filters
      from `$2` on. */
  method MyPayrollQuery(caller: Caller, month: Option<int>, year: Option<int>) returns (q: Query)
    ensures Numbered(q) && |q.params| >= 1 && q.params[0] == Int(caller.id)
    ensures forall x :: Admits(q, PayrollView(x)) <==> x.1.0.data.userId == caller.id && InPeriod(month, year, x)
  {
    var q0 := And(Query([], []), Eq(UserRef, 1), Int(caller.id));
    var paramCount;
    q, paramCount := PeriodFilters(q0, 2, month, year);
    assert q.params[0] == q0.params[0];
  }

  /** `getMyPayroll`: only the payslips of the employee rows that belong to
      the caller. */
  method GetMyPayroll(t: Tables, caller: Caller, month: Option<int>, year: Option<int>)
    returns (rows: seq<PayrollRow>)
    ensures forall x :: x in rows <==>
              && x.0 in t.payroll && x.1.0 in t.employees && x.1.1 in t.users
              && PayrollJoined(x.0, x.1) && EmployeeController.EmployeeJoined(x.1.0, x.1.1)
              && x.1.0.data.userId == caller.id && x.1.1.id == caller.id
              && InPeriod(month, year, x)
    ensures forall x :: multiset(rows)[x] ==
              if x.1.0.data.userId == caller.id && InPeriod(month, year, x) then multiset(PayrollJoin(t))[x] else 0
  {
    var q := MyPayrollQuery(caller, month, year);
    rows := Select(PayrollJoin(t), PayrollView, q);
    SelectCounts(PayrollJoin(t), PayrollView, q);
  }

  // ---------------------------------------------------------------------
  // createPayroll
  // ---------------------------------------------------------------------

  datatype PayrollRequest = PayrollRequest(
    employeeId: Option<nat>,
    month: Option<int>,
    year: Option<int>,
    baseSalary: Option<int>,
    allowances: Option<int>,
    deductions: Option<int>,
    bonus: Option<int>)

  /** Employee, month, year and base salary must be truthy; a zero base salary
      counts as missing. */
  predicate PayrollFieldsGiven(r: PayrollRequest) {
    GivenNat(r.employeeId) && GivenInt(r.month) && GivenInt(r.year) && GivenInt(r.baseSalary)
  }

  /** `amount || 0`. */
  function OrZero(amount: Option<int>): (r: int)
    ensures amount.None? ==> r == 0
    ensures amount.Some? ==> r == amount.value
  {
    if amount.Some? then amount.value else 0
  }

  /** The inserted row: missing amounts are stored as 0, the status is
      'pending', there is no payment date yet, and the net salary agrees
      with the stored amounts. */
  function NewPayroll(r: PayrollRequest): (p: Payroll)
    requires PayrollFieldsGiven(r)
    ensures p.employeeId == r.employeeId.value && p.month == r.month.value && p.year == r.year.value
    ensures p.baseSalary == r.baseSalary.value && p.allowances == OrZero(r.allowances)
    ensures p.deductions == OrZero(r.deductions) && p.bonus == OrZero(r.bonus)
    ensures NetConsistent(p)
    ensures p.status == "pending" && p.paymentDate.None?
  {
    var allowances, deductions, bonus := OrZero(r.allowances), OrZero(r.deductions), OrZero(r.bonus);
    Payroll(r.employeeId.value, r.month.value, r.year.value, r.baseSalary.value, allowances, deductions, bonus,
            r.baseSalary.value + allowances + bonus - deductions, "pending", None)
  }

  /** `createPayroll`. A second row for the same employee and period is
      refused with the message of the UNIQUE violation; the DECIMAL range,
      the month CHECK and the employee reference end in 500. */
  method CreatePayroll(db: Store, r: PayrollRequest) returns (resp: Response<Row<Payroll>>)
    requires db.Valid()
    modifies db
    ensures db.Valid()
    ensures !PayrollFieldsGiven(r) ==>
              resp == BadRequest("Required fields missing") && db.Snapshot() == old(db.Snapshot()) &&
              db.next == old(db.next)
    ensures PayrollFieldsGiven(r) ==>
              var p, id := NewPayroll(r), old(db.next.payroll);
              if PayrollRowOk(p, Keys(old(db.employees))) && !PeriodTaken(old(db.payroll), p) then
                resp == Created(Row(id, p)) &&
                db.Snapshot() == old(db.Snapshot()).(payroll := old(db.payroll) + [Row(id, p)])
              else if AmountsFit(p) && 1 <= p.month <= 12 && PeriodTaken(old(db.payroll), p) then
                resp == BadRequest("Payroll record already exists for this employee, month, and year") &&
                db.Snapshot() == old(db.Snapshot())
              else
                resp == ServerError("Failed to create payroll") && db.Snapshot() == old(db.Snapshot())
  {
    if !PayrollFieldsGiven(r) {
      return BadRequest("Required fields missing");
    }
    var p := NewPayroll(r);
    var id, err := db.InsertPayroll(p);
    if err.Some? {
      if err.value.UniqueViolation? {
        return BadRequest("Payroll record already exists for this employee, month, and year");
      }
      return ServerError("Failed to create payroll");
    }
    resp := Created(Row(id, p));
  }

  // ---------------------------------------------------------------------
  // updatePayroll
  // ---------------------------------------------------------------------

  /** An amount in the update body: left out (`undefined`), sent as JSON
      `null`, or sent as a number. */
  datatype Amount = Omitted | Nulled | Sent(v: int)

  datatype PayrollUpdate = PayrollUpdate(
    baseSalary: Amount,
    allowances: Amount,
    deductions: Amount,
    bonus: Amount,
    status: Option<string>,
    paymentDate: Option<nat>)

  predicate AmountSent(r: PayrollUpdate) {
    !r.baseSalary.Omitted? || !r.allowances.Omitted? || !r.deductions.Omitted? || !r.bonus.Omitted?
  }

  predicate NullSent(r: PayrollUpdate) {
    r.baseSalary.Nulled? || r.allowances.Nulled? || r.deductions.Nulled? || r.bonus.Nulled?
  }

  /** The amount the net salary is computed from: the stored one when left
      out, `parseFloat(null) || 0` when null, the sent one otherwise. */
  function Recomputed(a: Amount, stored: int): (r: int)
    ensures a.Omitted? ==> r == stored
    ensures a.Nulled? ==> r == 0
    ensures a.Sent? ==> r == a.v
  {
    match a
    case Omitted => stored
    case Nulled => 0
    case Sent(v) => v
  }

  /** `COALESCE($k, column)`: only a sent number replaces the amount. */
  function Kept(a: Amount, stored: int): (r: int)
    ensures a.Sent? ==> r == a.v
    ensures !a.Sent? ==> r == stored
  {
    if a.Sent? then a.v else stored
  }

  /** The row after the UPDATE. The net salary is replaced only when some
      amount was sent, by the net of the recomputed amounts. */
  function PayrollPatched(p: Payroll, r: PayrollUpdate): Payroll {
    var net :=
      if AmountSent(r) then
        Some(Net(Recomputed(r.baseSalary, p.baseSalary), Recomputed(r.allowances, p.allowances),
                 Recomputed(r.deductions, p.deductions), Recomputed(r.bonus, p.bonus)))
      else None;
    p.(baseSalary := Kept(r.baseSalary, p.baseSalary), allowances := Kept(r.allowances, p.allowances),
       deductions := Kept(r.deductions, p.deductions), bonus := Kept(r.bonus, p.bonus),
       netSalary := Coalesce(net, p.netSalary), status := Coalesce(r.status, p.status),
       paymentDate := CoalesceNull(r.paymentDate, p.paymentDate))
  }

  /** An update never moves a row to another employee or period, so the
      UNIQUE key cannot be violated; an empty update keeps the row; applying
      an update twice is applying it once. */
  lemma PayrollPatchedKeeps(p: Payroll, r: PayrollUpdate)
    ensures SamePeriod(PayrollPatched(p, r), p)
    ensures PayrollPatched(p, PayrollUpdate(Omitted, Omitted, Omitted, Omitted, None, None)) == p
    ensures PayrollPatched(PayrollPatched(p, r), r) == PayrollPatched(p, r)
  {
  }

  /** Without a null amount the update keeps the net salary in agreement with
      the amounts: recomputed when an amount is sent, untouched (together with
      all amounts) otherwise. */
  lemma PatchedNetConsistent(p: Payroll, r: PayrollUpdate)
    requires !NullSent(r)
    ensures AmountSent(r) ==> NetConsistent(PayrollPatched(p, r))
    ensures !AmountSent(r) ==> (NetConsistent(PayrollPatched(p, r)) <==> NetConsistent(p))
  {
  }

  /** A null base salary keeps the stored base salary (COALESCE) but counts
      as 0 in the recomputed net salary, so a row with a non-zero base salary
      no longer agrees with its net salary. */
  lemma NullBaseDesyncs(p: Payroll, status: Option<string>, paymentDate: Option<nat>)
    requires NetConsistent(p) && p.baseSalary != 0
    ensures var p' := PayrollPatched(p, PayrollUpdate(Nulled, Omitted, Omitted, Omitted, status, paymentDate));
            && p'.baseSalary == p.baseSalary
            && p'.netSalary == p.netSalary - p.baseSalary
            && !NetConsistent(p')
  {
  }

  /** `updatePayroll`: 404 when no row has the id; the DECIMAL range and the
      status CHECK end in 500. */
  method UpdatePayroll(db: Store, id: nat, r: PayrollUpdate) returns (resp: Response<Row<Payroll>>)
    requires db.Valid()
    modifies db
    ensures db.Valid() && db.next == old(db.next)
    ensures IndexOf(old(db.payroll), id).None? ==>
              resp == NotFound("Payroll record not found") && db.Snapshot() == old(db.Snapshot())
    ensures IndexOf(old(db.payroll), id).Some? ==>
              var i := IndexOf(old(db.payroll), id).value;
              var p := PayrollPatched(old(db.payroll)[i].data, r);
              if AmountsFit(p) && p.status in PayrollStatuses then
                resp == Ok(Row(id, p)) && db.Snapshot() == old(db.Snapshot()).(payroll := Put(old(db.payroll), i, p))
              else
                resp == ServerError("Failed to update payroll") && db.Snapshot() == old(db.Snapshot())
  {
    var found := IndexOf(db.payroll, id);
    if found.None? {
      return NotFound("Payroll record not found");
    }
    var i := found.value;
    var p := PayrollPatched(db.payroll[i].data, r);
    assert PayrollRowOk(db.payroll[i].data, Keys(db.employees));
    var err := db.UpdatePayrollRow(i, p);
    if err.Some? {
      return ServerError("Failed to update payroll");
    }
    resp := Ok(Row(id, p));
  }
}
