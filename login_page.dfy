/** frontend/src/pages/Login.jsx: the password-strength rating, the form
    state the component keeps, and the request a submit sends. The request
    itself, the storage of the returned token and the navigation are not
    part of this model. */
module LoginPage {
  import opened Base

  // ---------------------------------------------------------------------
  // checkPasswordStrength
  // ---------------------------------------------------------------------

  /** The rating shown under the password field; `NoRating` is ''. */
  datatype Rating = NoRating | Weak | Medium | Strong

  function Rank(r: Rating): nat {
    match r
    case NoRating => 0
    case Weak => 1
    case Medium => 2
    case Strong => 3
  }

  predicate IsUpper(c: char) { 'A' <= c <= 'Z' }
  predicate IsLower(c: char) { 'a' <= c <= 'z' }
  predicate IsDigit(c: char) { '0' <= c <= '9' }

  /** `[!@#$%^&*(),.?":{}|<>]`: only these twenty characters count as special. */
  predicate IsSpecial(c: char) {
    c in "!@#$%^&*(),.?\":{}|<>"
  }

  predicate HasUpper(s: string) { exists i :: 0 <= i < |s| && IsUpper(s[i]) }
  predicate HasLower(s: string) { exists i :: 0 <= i < |s| && IsLower(s[i]) }
  predicate HasDigit(s: string) { exists i :: 0 <= i < |s| && IsDigit(s[i]) }
  predicate HasSpecial(s: string) { exists i :: 0 <= i < |s| && IsSpecial(s[i]) }

  function Bit(b: bool): nat { if b then 1 else 0 }

  /** How many of the four character classes occur in the password. */
  function ClassCount(s: string): (n: nat)
    ensures n <= 4
  {
    Bit(HasUpper(s)) + Bit(HasLower(s)) + Bit(HasDigit(s)) + Bit(HasSpecial(s))
  }

  /** `checkPasswordStrength`: no rating for an empty password, 'weak' for
      fewer than eight characters whatever they are, and from eight on
      'weak', 'medium' or 'strong' for at most two, three or four classes. */
  function PasswordStrength(s: string): (r: Rating)
    ensures r == NoRating <==> |s| == 0
    ensures 0 < |s| < 8 ==> r == Weak
    ensures r == Strong <==> |s| >= 8 && HasUpper(s) && HasLower(s) && HasDigit(s) && HasSpecial(s)
    ensures r == Medium <==> |s| >= 8 && ClassCount(s) == 3
  {
    if |s| == 0 then NoRating
    else if |s| < 8 then Weak
    else
      var n := ClassCount(s);
      if n <= 2 then Weak else if n == 3 then Medium else Strong
  }

  /** Typing one more character never lowers the rating of a non-empty
      password: a class present stays present and the length only grows. */
  lemma {:induction false} StrengthMonotone(s: string, c: char)
    requires |s| > 0
    ensures Rank(PasswordStrength(s)) <= Rank(PasswordStrength(s + [c]))
  {
    var t := s + [c];
    assert forall i :: 0 <= i < |s| ==> t[i] == s[i];
    if HasUpper(s) { var i :| 0 <= i < |s| && IsUpper(s[i]); assert IsUpper(t[i]); }
    if HasLower(s) { var i :| 0 <= i < |s| && IsLower(s[i]); assert IsLower(t[i]); }
    if HasDigit(s) { var i :| 0 <= i < |s| && IsDigit(s[i]); assert IsDigit(t[i]); }
    if HasSpecial(s) { var i :| 0 <= i < |s| && IsSpecial(s[i]); assert IsSpecial(t[i]); }
  }

  /** A non-empty password made of one class only is weak however long it
      is. */
  lemma OneClassIsWeak(s: string)
    requires |s| > 0
    requires || (forall i :: 0 <= i < |s| ==> IsUpper(s[i]))
             || (forall i :: 0 <= i < |s| ==> IsLower(s[i]))
             || (forall i :: 0 <= i < |s| ==> IsDigit(s[i]))
             || (forall i :: 0 <= i < |s| ==> IsSpecial(s[i]))
    ensures PasswordStrength(s) == Weak
  {
    forall i | 0 <= i < |s|
      ensures IsSpecial(s[i]) ==> !IsUpper(s[i]) && !IsLower(s[i]) && !IsDigit(s[i])
    {
      SpecialIsNoLetterOrDigit(s[i]);
    }
    assert ClassCount(s) <= 1;
  }

  /** The four classes are disjoint: no special character is a letter or a
      digit. */
  lemma SpecialIsNoLetterOrDigit(c: char)
    ensures IsSpecial(c) ==> !IsUpper(c) && !IsLower(c) && !IsDigit(c)
  {
  }

  /** An underscore is not special: `abcdefg_1` has two classes only. */
  lemma UnderscoreIsNotSpecial()
    ensures PasswordStrength("abcdefg_1") == Weak
  {
    var b := "abcdefg_1";
    assert IsLower(b[0]) && IsDigit(b[8]);
    assert forall i :: 0 <= i < |b| ==> IsLower(b[i]) || b[i] == '_' || IsDigit(b[i]);
  }

  /** Eight characters with an uppercase letter, a lowercase letter, a digit
      and a special character at any four positions are strong. */
  lemma AllClassesIsStrong(s: string, i: nat, j: nat, k: nat, l: nat)
    requires |s| >= 8 && i < |s| && j < |s| && k < |s| && l < |s|
    requires IsUpper(s[i]) && IsLower(s[j]) && IsDigit(s[k]) && IsSpecial(s[l])
    ensures PasswordStrength(s) == Strong
  {
  }

  // ---------------------------------------------------------------------
  // The request a submit sends
  // ---------------------------------------------------------------------

  /** `loginType`: the identifier the login form asks for. */
  datatype LoginType = ByEmail | ByDoctorId

  /** The role select: a doctor signs in with a doctor id by default, every
      other role with an email address. */
  function LoginTypeFor(role: string): (t: LoginType)
    ensures t == ByDoctorId <==> role == "doctor"
  {
    if role == "doctor" then ByDoctorId else ByEmail
  }

  /** The body of `authService.login`: `email` or `doctor_id`, never both. */
  datatype Credentials = Credentials(password: string, role: string, email: Option<string>, doctorId: Option<string>)

  function LoginCredentials(password: string, role: string, loginType: LoginType, email: string,
                            doctorId: string): (c: Credentials)
    ensures c.password == password && c.role == role
    ensures c.doctorId.Some? <==> loginType == ByDoctorId
    ensures c.email.Some? <==> !c.doctorId.Some?
    ensures c.email.Some? ==> c.email.value == email
    ensures c.doctorId.Some? ==> c.doctorId.value == doctorId
  {
    if loginType == ByDoctorId then Credentials(password, role, None, Some(doctorId))
    else Credentials(password, role, Some(email), None)
  }

  /** The two checks before a registration is sent, the mismatch first. */
  function RegisterError(password: string, confirm: string, strength: Rating): (e: Option<string>)
    ensures e.None? <==> password == confirm && strength != Weak
    ensures password != confirm ==> e == Some("Passwords do not match")
    ensures password == confirm && strength == Weak ==> e == Some("Password is too weak")
  {
    if password != confirm then Some("Passwords do not match")
    else if strength == Weak then Some("Password is too weak")
    else None
  }

  /** The weak check only catches 'weak': an empty password has no rating,
      so an empty password confirmed by an empty confirmation passes both. */
  lemma EmptyPasswordPasses()
    ensures RegisterError("", "", PasswordStrength("")).None?
  {
  }

  datatype Request =
    | Login(credentials: Credentials)
    | Register(email: string, password: string, confirmPassword: string, firstName: string, lastName: string)

  // ---------------------------------------------------------------------
  // The component state
  // ---------------------------------------------------------------------

  /** The inputs of `formData`. */
  datatype Field = Email | DoctorId | Password | ConfirmPassword | FirstName | LastName

  class LoginForm {
    var isLogin: bool
    var loginRole: string
    var loginType: LoginType
    var form: map<Field, string>
    var passwordStrength: Rating
    var rememberMe: bool
    var error: string
    var loading: bool

    /** Every input has a value and the rating shown is the rating of the
        password typed. */
    predicate Valid()
      reads this
    {
      && (forall f: Field :: f in form)
      && passwordStrength == PasswordStrength(form[Password])
    }

    constructor()
      ensures Valid()
      ensures isLogin && loginRole == "patient" && loginType == ByEmail
      ensures forall f: Field :: form[f] == ""
      ensures passwordStrength == NoRating && !rememberMe && error == "" && !loading
    {
      isLogin, loginRole, loginType := true, "patient", ByEmail;
      form := map[Email := "", DoctorId := "", Password := "", ConfirmPassword := "", FirstName := "",
                  LastName := ""];
      passwordStrength, rememberMe, error, loading := NoRating, false, "", false;
      new;
      forall f: Field ensures f in form && form[f] == "" {
        match f
        case Email =>
        case DoctorId =>
        case Password =>
        case ConfirmPassword =>
        case FirstName =>
        case LastName =>
      }
    }

    /** `handleChange`: store the input; the rating is recomputed only when
        the password changes. */
    method HandleChange(name: Field, value: string)
      requires Valid()
      modifies this
      ensures Valid()
      ensures form == old(form)[name := value]
      ensures name != Password ==> passwordStrength == old(passwordStrength)
      ensures isLogin == old(isLogin) && loginRole == old(loginRole) && loginType == old(loginType)
      ensures rememberMe == old(rememberMe) && error == old(error) && loading == old(loading)
    {
      form := form[name := value];
      if name == Password {
        passwordStrength := PasswordStrength(value);
      }
    }

    /** The role select of the login form. */
    method SelectRole(role: string)
      requires Valid()
      modifies this
      ensures Valid()
      ensures loginRole == role && loginType == LoginTypeFor(role)
      ensures isLogin == old(isLogin) && form == old(form) && passwordStrength == old(passwordStrength)
      ensures rememberMe == old(rememberMe) && error == old(error) && loading == old(loading)
    {
      loginRole := role;
      loginType := LoginTypeFor(role);
    }

    /** The doctor's choice between doctor id and email. */
    method SelectLoginType(t: LoginType)
      requires Valid()
      modifies this
      ensures Valid()
      ensures loginType == t
      ensures isLogin == old(isLogin) && loginRole == old(loginRole) && form == old(form)
      ensures passwordStrength == old(passwordStrength)
      ensures rememberMe == old(rememberMe) && error == old(error) && loading == old(loading)
    {
      loginType := t;
    }

    /** The Login and Register tabs. */
    method SetMode(login: bool)
      requires Valid()
      modifies this
      ensures Valid()
      ensures isLogin == login
      ensures loginRole == old(loginRole) && loginType == old(loginType) && form == old(form)
      ensures passwordStrength == old(passwordStrength)
      ensures rememberMe == old(rememberMe) && error == old(error) && loading == old(loading)
    {
      isLogin := login;
    }

    /** The remember-me checkbox: it decides where a returned token is kept. */
    method SetRememberMe(checked: bool)
      requires Valid()
      modifies this
      ensures Valid()
      ensures rememberMe == checked
      ensures isLogin == old(isLogin) && loginRole == old(loginRole) && loginType == old(loginType)
      ensures form == old(form) && passwordStrength == old(passwordStrength)
      ensures error == old(error) && loading == old(loading)
    {
      rememberMe := checked;
    }

    /** `handleSubmit` up to the request: the request it sends, if any. A
        registration stops on a mismatched confirmation, then on a weak
        password, with the message shown and nothing sent. `loading` is
        cleared on every path, as the `finally` does. */
    method Submit() returns (request: Option<Request>)
      requires Valid()
      modifies this
      ensures Valid()
      ensures form == old(form) && isLogin == old(isLogin) && loginRole == old(loginRole)
      ensures loginType == old(loginType) && passwordStrength == old(passwordStrength)
      ensures rememberMe == old(rememberMe) && !loading
      ensures isLogin ==>
                && request == Some(Login(LoginCredentials(form[Password], loginRole, loginType, form[Email],
                                                          form[DoctorId])))
                && error == ""
      ensures !isLogin ==>
                var e := RegisterError(form[Password], form[ConfirmPassword], PasswordStrength(form[Password]));
                if e.Some? then request.None? && error == e.value
                else
                  && request == Some(Register(form[Email], form[Password], form[ConfirmPassword], form[FirstName],
                                              form[LastName]))
                  && error == ""
    {
      error := "";
      loading := true;
      if isLogin {
        request := Some(Login(LoginCredentials(form[Password], loginRole, loginType, form[Email], form[DoctorId])));
      } else {
        var e := RegisterError(form[Password], form[ConfirmPassword], passwordStrength);
        if e.Some? {
          error := e.value;
          loading := false;
          return None;
        }
        request := Some(Register(form[Email], form[Password], form[ConfirmPassword], form[FirstName],
                                 form[LastName]));
      }
      loading := false;
    }
  }
}
