/** backend/src/controllers/auth.controller.js: self-registration, login,
    the caller's profile and password change. */
module AuthController {
  import opened Base
  import opened Schema
  import Crypto

  // ---------------------------------------------------------------------
  // register
  // ---------------------------------------------------------------------

  datatype RegisterRequest = RegisterRequest(
    email: Option<string>,
    password: Option<string>,
    firstName: Option<string>,
    lastName: Option<string>,
    confirmPassword: Option<string>)

  predicate RegisterFieldsGiven(r: RegisterRequest) {
    Given(r.email) && Given(r.password) && Given(r.firstName) && Given(r.lastName)
  }

  /** The 400 `register` answers before it inserts anything: missing field,
      then password mismatch, then length, then an email already in use. */
  function RegisterGuard(r: RegisterRequest, users: Table<User>): (err: Option<string>)
    ensures !RegisterFieldsGiven(r) ==> err == Some("All fields are required")
    ensures RegisterFieldsGiven(r) && r.password != r.confirmPassword ==>
              err == Some("Passwords do not match")
    ensures RegisterFieldsGiven(r) && r.password == r.confirmPassword && |r.password.value| < 8 ==>
              err == Some("Password must be at least 8 characters")
    ensures err == Some("User already exists") <==>
              RegisterFieldsGiven(r) && r.password == r.confirmPassword && |r.password.value| >= 8 &&
              EmailTaken(users, r.email.value)
    ensures err.None? <==>
              RegisterFieldsGiven(r) && r.confirmPassword == r.password &&
              |r.password.value| >= 8 && !EmailTaken(users, r.email.value)
  {
    if !RegisterFieldsGiven(r) then Some("All fields are required")
    else if r.password != r.confirmPassword then Some("Passwords do not match")
    else if |r.password.value| < 8 then Some("Password must be at least 8 characters")
    else if EmailTaken(users, r.email.value) then Some("User already exists")
    else None
  }

  /** The users row `register` inserts: always role 'patient', never a
      doctor_id, no forced password change. */
  function RegisteredUser(r: RegisterRequest, salt: nat): (u: User)
    requires RegisterFieldsGiven(r)
    ensures u.role == "patient" && u.doctorId.None? && !u.mustChangePassword
    ensures u.email == r.email.value && u.firstName == r.firstName.value && u.lastName == r.lastName.value
    ensures Crypto.Compare(r.password.value, u.password)
  {
    User(r.email.value, Crypto.Hash(r.password.value, salt), r.firstName.value, r.lastName.value,
         "patient", None, None, false)
  }

  /** The `user` object of the 201 response: id, email, names and role. The
      type has no place for the password. */
  datatype UserSummary = UserSummary(id: nat, email: string, firstName: string, lastName: string, role: string)

  datatype Registered = Registered(token: Crypto.Token, user: UserSummary)

  method Register(db: Store, r: RegisterRequest, salt: nat) returns (resp: Response<Registered>)
    requires db.Valid()
    modifies db
    ensures db.Valid()
    ensures RegisterGuard(r, old(db.users)).Some? ==>
              resp == BadRequest(RegisterGuard(r, old(db.users)).value) &&
              db.Snapshot() == old(db.Snapshot()) && db.next == old(db.next)
    ensures RegisterGuard(r, old(db.users)).None? ==>
              var id := old(db.next.users);
              && resp == Created(Registered(Crypto.Token(id, r.email.value, "patient"),
                                            UserSummary(id, r.email.value, r.firstName.value, r.lastName.value, "patient")))
              && db.Snapshot() == old(db.Snapshot()).(users := old(db.users) + [Row(id, RegisteredUser(r, salt))])
  {
    var err := RegisterGuard(r, db.users);
    if err.Some? {
      return BadRequest(err.value);
    }
    var u := RegisteredUser(r, salt);
    var id, e := db.InsertUser(u);
    if e.Some? {
      // The row satisfies the role CHECK and carries no doctor_id.
      assert false;
      return ServerError("Registration failed");
    }
    resp := Created(Registered(Crypto.Token(id, u.email, u.role),
                               UserSummary(id, u.email, u.firstName, u.lastName, u.role)));
  }

  /** Once `register` has succeeded, the same request is refused: the email
      is now taken. */
  lemma RegisterTwice(r: RegisterRequest, users: Table<User>, id: nat, salt: nat)
    requires RegisterGuard(r, users).None?
    ensures RegisterGuard(r, users + [Row(id, RegisteredUser(r, salt))]) == Some("User already exists")
  {
    var t := users + [Row(id, RegisteredUser(r, salt))];
    assert t[|users|].data.email == r.email.value;
  }

  // ---------------------------------------------------------------------
  // login
  // ---------------------------------------------------------------------

  datatype LoginRequest = LoginRequest(
    email: Option<string>,
    doctorId: Option<string>,
    password: Option<string>,
    role: Option<string>)

  /** A doctor who gives a doctor ID logs in by it; everybody else by email. */
  predicate ByDoctorId(r: LoginRequest) {
    r.role == Some("doctor") && Given(r.doctorId)
  }

  predicate DoctorWithId(u: Row<User>, doctorId: Option<string>) {
    u.data.doctorId == doctorId && u.data.role == "doctor"
  }

  predicate WithEmail(u: Row<User>, email: string) {
    u.data.email == email
  }

  /** The row `login` fetches, `rows[0]` of its lookup. */
  function LoginUser(users: Table<User>, r: LoginRequest): (i: Option<nat>)
    ensures i.Some? ==> i.value < |users|
    ensures i.Some? && ByDoctorId(r) ==> DoctorWithId(users[i.value], r.doctorId)
    ensures i.Some? && !ByDoctorId(r) ==> Given(r.email) && WithEmail(users[i.value], r.email.value)
    ensures i.Some? ==> forall j :: 0 <= j < i.value ==>
              if ByDoctorId(r) then !DoctorWithId(users[j], r.doctorId) else !WithEmail(users[j], r.email.value)
    ensures i.None? && ByDoctorId(r) ==> forall j :: 0 <= j < |users| ==> !DoctorWithId(users[j], r.doctorId)
    ensures i.None? && !ByDoctorId(r) && Given(r.email) ==> !EmailTaken(users, r.email.value)
  {
    if ByDoctorId(r) then FirstWhere(users, (u: Row<User>) => DoctorWithId(u, r.doctorId))
    else if Given(r.email) then FirstWhere(users, (u: Row<User>) => WithEmail(u, r.email.value))
    else None
  }

  /** The 200 body of `login`: the token, the forced-change flag and the user
      with the columns of its employees row, when it has one. */
  datatype Session = Session(
    mustChangePassword: bool,
    token: Crypto.Token,
    user: PublicUser,
    employeeCode: Option<string>,
    departmentId: Option<nat>,
    position: Option<string>)

  function SessionOf(t: Tables, u: Row<User>): (s: Session)
    ensures s.user == Public(u) && s.mustChangePassword == u.data.mustChangePassword
    ensures s.token == Crypto.Token(u.id, u.data.email, u.data.role)
    ensures s.employeeCode.Some? <==> EmployeeOf(t.employees, u.id).Some?
  {
    var e := EmployeeOf(t.employees, u.id);
    Session(u.data.mustChangePassword, Crypto.Token(u.id, u.data.email, u.data.role), Public(u),
            if e.Some? then Some(t.employees[e.value].data.code) else None,
            if e.Some? then t.employees[e.value].data.departmentId else None,
            if e.Some? then Some(t.employees[e.value].data.position) else None)
  }

  /** `login`. A missing password makes `bcrypt.compare` throw, which the
      handler answers with 500. */
  function Login(t: Tables, r: LoginRequest): (resp: Response<Session>)
    ensures LoginUser(t.users, r).None? ==> resp == Unauthorized("Invalid credentials")
    ensures resp.Ok? ==>
              var i := LoginUser(t.users, r);
              && i.Some? && r.password.Some?
              && Crypto.Compare(r.password.value, t.users[i.value].data.password)
              && (Given(r.role) ==> t.users[i.value].data.role == r.role.value)
              && resp.value == SessionOf(t, t.users[i.value])
    ensures resp == Unauthorized("Invalid role") ==>
              var i := LoginUser(t.users, r);
              && i.Some? && r.password.Some?
              && Crypto.Compare(r.password.value, t.users[i.value].data.password)
              && Given(r.role) && t.users[i.value].data.role != r.role.value
    ensures resp.Ok? || resp.Unauthorized? || resp == ServerError("Login failed")
    ensures LoginUser(t.users, r).Some? ==>
              var u := t.users[LoginUser(t.users, r).value];
              && (r.password.None? ==> resp == ServerError("Login failed"))
              && (r.password.Some? && !Crypto.Compare(r.password.value, u.data.password) ==>
                    resp == Unauthorized("Invalid credentials"))
              && (r.password.Some? && Crypto.Compare(r.password.value, u.data.password) ==>
                    resp == if Given(r.role) && u.data.role != r.role.value
                            then Unauthorized("Invalid role") else Ok(SessionOf(t, u)))
  {
    match LoginUser(t.users, r)
    case None => Unauthorized("Invalid credentials")
    case Some(i) =>
      var u := t.users[i];
      if r.password.None? then ServerError("Login failed")
      else if !Crypto.Compare(r.password.value, u.data.password) then Unauthorized("Invalid credentials")
      else if Given(r.role) && u.data.role != r.role.value then Unauthorized("Invalid role")
      else Ok(SessionOf(t, u))
  }

  /** The first row satisfying `p` in a table extended by one row that
      satisfies it is that row, when no earlier row does. */
  lemma {:induction false} FirstWhereAppend<T>(t: Table<T>, row: Row<T>, p: Row<T> -> bool)
    requires forall j :: 0 <= j < |t| ==> !p(t[j])
    requires p(row)
    ensures FirstWhere(t + [row], p) == Some(|t|)
  {
    if |t| == 0 {
    } else {
      assert (t + [row])[1..] == t[1..] + [row];
      FirstWhereAppend(t[1..], row, p);
    }
  }

  /** Who has just registered can log in with the same email and password,
      as a patient or without naming a role. */
  lemma RegisterThenLogin(t: Tables, r: RegisterRequest, id: nat, salt: nat, role: Option<string>)
    requires RegisterGuard(r, t.users).None?
    requires role.None? || role == Some("patient")
    ensures var t' := t.(users := t.users + [Row(id, RegisteredUser(r, salt))]);
            Login(t', LoginRequest(r.email, None, r.password, role)) ==
              Ok(SessionOf(t', Row(id, RegisteredUser(r, salt))))
  {
    var row := Row(id, RegisteredUser(r, salt));
    var l := LoginRequest(r.email, None, r.password, role);
    forall j | 0 <= j < |t.users| ensures !WithEmail(t.users[j], r.email.value) {
    }
    FirstWhereAppend(t.users, row, (u: Row<User>) => WithEmail(u, r.email.value));
    assert LoginUser(t.users + [row], l) == Some(|t.users|);
  }

  // ---------------------------------------------------------------------
  // getProfile, updateProfile
  // ---------------------------------------------------------------------

  /** The 200 body of `getProfile`: `u.*`, the whole users row with its
      password digest and forced-change flag, and the columns of the caller's
      employees and patients rows. */
  datatype Profile = Profile(
    user: Row<User>,
    employeeCode: Option<string>,
    departmentId: Option<nat>,
    position: Option<string>,
    patientCode: Option<string>)

  function GetProfile(t: Tables, userId: nat): (resp: Response<Profile>)
    ensures resp.NotFound? <==> userId !in Keys(t.users)
    ensures resp.NotFound? ==> resp.error == "User not found"
    ensures resp.Ok? || resp.NotFound?
    ensures resp.Ok? ==> resp.value.user == t.users[IndexOf(t.users, userId).value]
    ensures resp.Ok? ==>
              var e := EmployeeOf(t.employees, userId);
              if e.Some? then
                var m := t.employees[e.value].data;
                resp.value.employeeCode == Some(m.code) && resp.value.departmentId == m.departmentId &&
                resp.value.position == Some(m.position)
              else
                resp.value.employeeCode.None? && resp.value.departmentId.None? && resp.value.position.None?
    ensures resp.Ok? ==>
              var p := PatientOf(t.patients, userId);
              resp.value.patientCode == if p.Some? then Some(t.patients[p.value].data.code) else None
  {
    match IndexOf(t.users, userId)
    case None => NotFound("User not found")
    case Some(i) =>
      var e := EmployeeOf(t.employees, userId);
      var p := PatientOf(t.patients, userId);
      Ok(Profile(t.users[i],
                 if e.Some? then Some(t.employees[e.value].data.code) else None,
                 if e.Some? then t.employees[e.value].data.departmentId else None,
                 if e.Some? then Some(t.employees[e.value].data.position) else None,
                 if p.Some? then Some(t.patients[p.value].data.code) else None))
  }

  /** The profile of who has just registered carries the digest of the
      password they chose: `u.*` sends the password column to the client. */
  lemma RegisterThenProfile(t: Tables, r: RegisterRequest, id: nat, salt: nat)
    requires RegisterFieldsGiven(r)
    requires id !in Keys(t.users)
    ensures var t' := t.(users := t.users + [Row(id, RegisteredUser(r, salt))]);
            var resp := GetProfile(t', id);
            && resp.Ok?
            && resp.value.user.data.password == Crypto.Hash(r.password.value, salt)
            && Crypto.Compare(r.password.value, resp.value.user.data.password)
  {
    var users' := t.users + [Row(id, RegisteredUser(r, salt))];
    assert users'[|t.users|].id == id;
  }

  /** `RETURNING id, email, first_name, last_name, role, profile_picture`:
      the `user` object `updateProfile` sends. */
  datatype ProfileUser = ProfileUser(id: nat, email: string, firstName: string, lastName: string, role: string,
                                     profilePicture: Option<string>)

  function Returned(r: Row<User>): ProfileUser {
    ProfileUser(r.id, r.data.email, r.data.firstName, r.data.lastName, r.data.role, r.data.profilePicture)
  }

  /** `updateProfile`: COALESCE on the names and the picture. An unknown
      caller id updates nothing and the body's `user` is empty. */
  method UpdateProfile(db: Store, userId: nat, firstName: Option<string>, lastName: Option<string>,
                       picture: Option<string>) returns (resp: Response<Option<ProfileUser>>)
    requires db.Valid()
    modifies db
    ensures db.Valid() && db.next == old(db.next)
    ensures IndexOf(old(db.users), userId).None? ==>
              resp == Ok(None) && db.Snapshot() == old(db.Snapshot())
    ensures IndexOf(old(db.users), userId).Some? ==>
              var i := IndexOf(old(db.users), userId).value;
              var u := old(db.users)[i].data;
              var u' := u.(firstName := Coalesce(firstName, u.firstName),
                           lastName := Coalesce(lastName, u.lastName),
                           profilePicture := CoalesceNull(picture, u.profilePicture));
              && db.Snapshot() == old(db.Snapshot()).(users := Put(old(db.users), i, u'))
              && resp == Ok(Some(Returned(Row(userId, u'))))
  {
    var found := IndexOf(db.users, userId);
    if found.None? {
      return Ok(None);
    }
    var i := found.value;
    var u := db.users[i].data;
    var u' := u.(firstName := Coalesce(firstName, u.firstName),
                 lastName := Coalesce(lastName, u.lastName),
                 profilePicture := CoalesceNull(picture, u.profilePicture));
    db.UpdateUserRow(i, u');
    resp := Ok(Some(Returned(Row(userId, u'))));
  }

  // ---------------------------------------------------------------------
  // changePassword
  // ---------------------------------------------------------------------

  /** The checks of `changePassword` in their order; `Ok(i)` is the position
      of the caller's row, whose hash may then be replaced. */
  function PasswordChangeCheck(users: Table<User>, userId: nat, current: Option<string>,
                               newPassword: Option<string>): (r: Response<nat>)
    ensures !(Given(current) && Given(newPassword)) ==>
              r == BadRequest("Current and new passwords are required")
    ensures Given(current) && Given(newPassword) && |newPassword.value| < 8 ==>
              r == BadRequest("Password must be at least 8 characters")
    ensures r == NotFound("User not found") <==>
              Given(current) && Given(newPassword) && |newPassword.value| >= 8 && userId !in Keys(users)
    ensures r.Ok? <==>
              && Given(current) && Given(newPassword) && |newPassword.value| >= 8
              && IndexOf(users, userId).Some?
              && Crypto.Compare(current.value, users[IndexOf(users, userId).value].data.password)
    ensures r.Ok? ==> r.value == IndexOf(users, userId).value
    ensures Given(current) && Given(newPassword) && |newPassword.value| >= 8 && IndexOf(users, userId).Some? &&
            !Crypto.Compare(current.value, users[IndexOf(users, userId).value].data.password) ==>
              r == Unauthorized("Current password is incorrect")
    ensures r.Ok? || r.BadRequest? || r.NotFound? || r == Unauthorized("Current password is incorrect")
  {
    if !(Given(current) && Given(newPassword)) then BadRequest("Current and new passwords are required")
    else if |newPassword.value| < 8 then BadRequest("Password must be at least 8 characters")
    else match IndexOf(users, userId)
      case None => NotFound("User not found")
      case Some(i) =>
        if !Crypto.Compare(current.value, users[i].data.password) then
          Unauthorized("Current password is incorrect")
        else Ok(i)
  }

  method ChangePassword(db: Store, userId: nat, current: Option<string>, newPassword: Option<string>,
                        salt: nat) returns (resp: Response<string>)
    requires db.Valid()
    modifies db
    ensures db.Valid() && db.next == old(db.next)
    ensures var c := PasswordChangeCheck(old(db.users), userId, current, newPassword);
            if c.Ok? then
              var u := old(db.users)[c.value].data;
              && resp == Ok("Password changed successfully")
              && db.Snapshot() == old(db.Snapshot()).(users := Put(old(db.users), c.value,
                   u.(password := Crypto.Hash(newPassword.value, salt), mustChangePassword := false)))
            else
              && db.Snapshot() == old(db.Snapshot())
              && (c.BadRequest? ==> resp == BadRequest(c.error))
              && (c.NotFound? ==> resp == NotFound(c.error))
              && (c.Unauthorized? ==> resp == Unauthorized(c.error))
  {
    var c := PasswordChangeCheck(db.users, userId, current, newPassword);
    match c {
      case Ok(i) =>
        var u := db.users[i].data;
        db.UpdateUserRow(i, u.(password := Crypto.Hash(newPassword.value, salt), mustChangePassword := false));
        resp := Ok("Password changed successfully");
      case BadRequest(m) => resp := BadRequest(m);
      case NotFound(m) => resp := NotFound(m);
      case Unauthorized(m) => resp := Unauthorized(m);
      case Created(_) => assert false;
      case ServerError(_) => assert false;
    }
  }
}
