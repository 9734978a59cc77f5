/**
  * The login/signup page: the form's validation for each tab (with the
  * password-mismatch message overriding the missing-confirmation one), editing a
  * field, the role redirect, and how login and signup outcomes update the page.
  */
module LoginSignup {
  import opened Common
  import opened Text
  import opened NavBar

  datatype Tab = Login | Signup

  datatype Field = Fullname | Email | Password | ConfirmPassword | ContactNo | Role

  /** The page's `formData`. */
  datatype FormData = FormData(fullname: string, email: string, password: string,
                               confirmPassword: string, contactNo: string, role: string)
  {
    function Get(f: Field): string
    {
      match f
      case Fullname => fullname
      case Email => email
      case Password => password
      case ConfirmPassword => confirmPassword
      case ContactNo => contactNo
      case Role => role
    }

    function With(f: Field, v: string): (r: FormData)
      ensures r.Get(f) == v
      ensures forall g :: g != f ==> r.Get(g) == Get(g)
    {
      match f
      case Fullname => this.(fullname := v)
      case Email => this.(email := v)
      case Password => this.(password := v)
      case ConfirmPassword => this.(confirmPassword := v)
      case ContactNo => this.(contactNo := v)
      case Role => this.(role := v)
    }
  }

  const EmptyForm := FormData("", "", "", "", "", "")

  const MismatchMessage := "Passwords do not match"
  const ConfirmMissingMessage := "Confirm password is required"

  /** The message `validateForm` leaves for a field once all its assignments have run. */
  function FieldError(tab: Tab, d: FormData, f: Field): Option<string>
  {
    match f
    case Fullname => if tab == Signup && d.fullname == "" then Some("Full name is required") else None
    case Email => if d.email == "" then Some("Email is required") else None
    case Password => if d.password == "" then Some("Password is required") else None
    case ConfirmPassword =>
      if tab == Signup && d.password != d.confirmPassword then Some(MismatchMessage)
      else if tab == Signup && d.confirmPassword == "" then Some(ConfirmMissingMessage)
      else None
    case ContactNo => if tab == Signup && d.contactNo == "" then Some("Contact number is required") else None
    case Role => if tab == Signup && d.role == "" then Some("Role is required") else None
  }

  /** The error object holds exactly field `f`'s final message, if it has one. */
  predicate Records(errs: map<Field, string>, tab: Tab, d: FormData, f: Field)
  {
    (f in errs <==> FieldError(tab, d, f).Some?) && (f in errs ==> errs[f] == FieldError(tab, d, f).value)
  }

  /**
    * The `newErrors` object `validateForm` builds: its conditional assignments in
    * source order. The mismatch check comes after the missing-confirmation check
    * and overwrites its message.
    */
  function ValidationErrors(tab: Tab, d: FormData): map<Field, string>
  {
    var signup := tab == Signup;
    var e1 := Record(map[], Fullname, if signup && d.fullname == "" then Some("Full name is required") else None);
    var e2 := Record(e1, Email, if d.email == "" then Some("Email is required") else None);
    var e3 := Record(e2, Password, if d.password == "" then Some("Password is required") else None);
    var e4 := Record(e3, ConfirmPassword, if signup && d.confirmPassword == "" then Some(ConfirmMissingMessage) else None);
    var e5 := Record(e4, ConfirmPassword, if signup && d.password != d.confirmPassword then Some(MismatchMessage) else None);
    var e6 := Record(e5, ContactNo, if signup && d.contactNo == "" then Some("Contact number is required") else None);
    Record(e6, Role, if signup && d.role == "" then Some("Role is required") else None)
  }

  predicate FormValid(tab: Tab, d: FormData)
  {
    forall f: Field :: FieldError(tab, d, f).None?
  }

  /** The assignments leave every field with exactly its final message, and nothing else. */
  lemma ValidationErrorsComplete(tab: Tab, d: FormData)
    ensures forall f :: Records(ValidationErrors(tab, d), tab, d, f)
  {
    var e := ValidationErrors(tab, d);
    forall f ensures Records(e, tab, d, f) {
      match f
      case Fullname =>
      case Email =>
      case Password =>
      case ConfirmPassword =>
      case ContactNo =>
      case Role =>
    }
  }

  /** `validateForm` returns true exactly when no field fails. */
  lemma ValidationErrorsEmptyIff(tab: Tab, d: FormData)
    ensures |ValidationErrors(tab, d)| == 0 <==> FormValid(tab, d)
  {
    var e := ValidationErrors(tab, d);
    ValidationErrorsComplete(tab, d);
    if FormValid(tab, d) {
      forall f ensures f !in e {
        assert Records(e, tab, d, f) && FieldError(tab, d, f).None?;
      }
      assert e == map[];
    } else {
      var f :| FieldError(tab, d, f).Some?;
      assert Records(e, tab, d, f);
    }
  }

  /** Logging in only needs an email and a password; the signup-only fields are never looked at. */
  lemma LoginChecksOnlyCredentials(d: FormData)
    ensures FormValid(Login, d) <==> d.email != "" && d.password != ""
    ensures forall f :: f !in {Email, Password} ==> FieldError(Login, d, f).None?
  {
    if d.email != "" && d.password != "" {
      forall f: Field ensures FieldError(Login, d, f).None? {
      }
    } else {
      assert FieldError(Login, d, Email).Some? || FieldError(Login, d, Password).Some?;
    }
  }

  /** Signing up needs every field, and the two passwords must agree. */
  lemma SignupChecksEverything(d: FormData)
    ensures FormValid(Signup, d) <==>
              d.fullname != "" && d.email != "" && d.password != "" && d.confirmPassword == d.password
              && d.contactNo != "" && d.role != ""
  {
    if !FormValid(Signup, d) {
      var f: Field :| FieldError(Signup, d, f).Some?;
    } else {
      assert FieldError(Signup, d, Fullname).None? && FieldError(Signup, d, Email).None?;
      assert FieldError(Signup, d, Password).None? && FieldError(Signup, d, ConfirmPassword).None?;
      assert FieldError(Signup, d, ContactNo).None? && FieldError(Signup, d, Role).None?;
    }
  }

  /** A mismatch wins over a missing confirmation: an empty confirmation with a password reads "Passwords do not match". */
  lemma MismatchOverridesMissing(d: FormData)
    requires d.confirmPassword == "" && d.password != ""
    ensures FieldError(Signup, d, ConfirmPassword) == Some(MismatchMessage)
  {
  }

  /** With both passwords empty nothing mismatches, so the missing confirmation is what is reported. */
  lemma ConfirmMissingWhenBothEmpty(d: FormData)
    requires d.confirmPassword == "" && d.password == ""
    ensures FieldError(Signup, d, ConfirmPassword) == Some(ConfirmMissingMessage)
    ensures FieldError(Signup, d, Password) == Some("Password is required")
  {
  }

  /** Where `redirectBasedOnRole` sends each role; `None` for an unknown role. */
  function RoleTarget(role: string): (t: Option<string>)
    ensures t.Some? <==> role in {"Admin", "Organizer", "User"}
    ensures t.Some? ==> IsDashboardPage(t.value)
  {
    match role
    case "Admin" => assert StartsWith("/admindb", "/admindb"); Some("/admindb")
    case "Organizer" => assert StartsWith("/orgdb", "/orgdb"); Some("/orgdb")
    case "User" => assert StartsWith("/userdb", "/userdb"); Some("/userdb")
    case _ => None
  }

  /** Each role lands on its own dashboard. */
  lemma RoleTargets()
    ensures RoleTarget("Admin") == Some("/admindb")
    ensures RoleTarget("Organizer") == Some("/orgdb")
    ensures RoleTarget("User") == Some("/userdb")
    ensures RoleTarget("admin") == None
  {
  }

  /** A thrown error as the `catch` blocks read it: the server's message and the error's own. */
  datatype Failure = Failure(responseMessage: Option<string>, message: Option<string>)

  /** `error.response?.data?.message`, else `error.message`, else the fallback. */
  function FailureText(e: Failure, fallback: string): string
  {
    Or(e.responseMessage, Or(e.message, fallback))
  }

  const LoginFallback := "Invalid email or password"
  const SignupFallback := "An error occurred during signup"

  /** The server's message wins, then the error's own, then the fallback. */
  lemma FailureTextPrecedence(e: Failure, fallback: string)
    ensures e.responseMessage.Some? && e.responseMessage.value != "" ==> FailureText(e, fallback) == e.responseMessage.value
    ensures ((e.responseMessage.None? || e.responseMessage.value == "") && e.message.Some? && e.message.value != "")
              ==> FailureText(e, fallback) == e.message.value
    ensures ((e.responseMessage.None? || e.responseMessage.value == "") && (e.message.None? || e.message.value == ""))
              ==> FailureText(e, fallback) == fallback
  {
  }

  /** The `user` object of a login body; its `role` may be missing. */
  datatype User = User(role: Option<string>)

  /**
    * The argument `redirectBasedOnRole` receives: `user.role`. A missing role is
    * `undefined`, which no case of the switch matches, like "".
    */
  function RoleOf(u: User): string
  {
    Or(u.role, "")
  }

  /** How `/users/login` answered: a body with (perhaps) a token and a user, or a throw. */
  datatype LoginResponse = LoginAnswered(token: Option<string>, user: Option<User>) | LoginThrew(failure: Failure)

  /** How `/users/signup` answered: a body with or without `user`, or a throw. */
  datatype SignupResponse = SignupAnswered(hasUser: bool) | SignupThrew(failure: Failure)

  /** The state of the `LoginSignup` component. */
  class LoginSignupPage {
    var activeTab: Tab
    var formData: FormData
    var errors: map<Field, string>
    var loading: bool
    var error: string
    var showSuccessDialog: bool
    var showErrorAlert: bool
    var redirectedTo: Option<string>

    constructor ()
      ensures activeTab == Login && formData == EmptyForm && errors == map[] && !loading
      ensures error == "" && !showSuccessDialog && !showErrorAlert && redirectedTo == None
    {
      activeTab := Login;
      formData := EmptyForm;
      errors := map[];
      loading := false;
      error := "";
      showSuccessDialog := false;
      showErrorAlert := false;
      redirectedTo := None;
    }

    /** `handleInputChange`: set the field, blank its error, hide the alert. */
    method HandleInputChange(f: Field, value: string)
      modifies this`formData, this`errors, this`showErrorAlert
      ensures formData == old(formData).With(f, value)
      ensures f in errors && errors[f] == ""
      ensures forall g :: g != f ==> (g in errors <==> g in old(errors)) && (g in errors ==> errors[g] == old(errors)[g])
      ensures !showErrorAlert
    {
      formData := formData.With(f, value);
      errors := errors[f := ""];
      showErrorAlert := false;
    }

    /** `validateForm`: record the errors of the current tab's checks; valid when there are none. */
    method ValidateForm() returns (valid: bool)
      modifies this`errors
      ensures errors == ValidationErrors(activeTab, formData)
      ensures forall f :: Records(errors, activeTab, formData, f)
      ensures valid <==> |errors| == 0
      ensures valid <==> FormValid(activeTab, formData)
    {
      errors := ValidationErrors(activeTab, formData);
      ValidationErrorsComplete(activeTab, formData);
      ValidationErrorsEmptyIff(activeTab, formData);
      valid := |errors| == 0;
    }

    /** `redirectBasedOnRole`: a known role navigates to its dashboard; any other shows "Invalid user role". */
    method RedirectBasedOnRole(role: string)
      modifies this`redirectedTo, this`error, this`showErrorAlert
      ensures RoleTarget(role).Some? ==>
                redirectedTo == RoleTarget(role) && error == old(error) && showErrorAlert == old(showErrorAlert)
      ensures RoleTarget(role).None? ==>
                redirectedTo == old(redirectedTo) && error == "Invalid user role" && showErrorAlert
    {
      var target := RoleTarget(role);
      if target.Some? {
        redirectedTo := target;
      } else {
        error := "Invalid user role";
        showErrorAlert := true;
      }
    }

    /**
      * What the page shows after a login answer: a token and a user with a known
      * role redirect and clear the alert; an unknown role shows "Invalid user role";
      * a body lacking either shows "Invalid response from server"; a throw shows its
      * message. Only a redirect changes the target.
      */
    predicate LoginShows(response: LoginResponse, oldRedirect: Option<string>)
      reads this
    {
      match response
      case LoginAnswered(token, user) =>
        if Truthy(token) && user.Some? then
          if RoleTarget(RoleOf(user.value)).Some?
          then redirectedTo == RoleTarget(RoleOf(user.value)) && error == "" && !showErrorAlert
          else redirectedTo == oldRedirect && error == "Invalid user role" && showErrorAlert
        else error == "Invalid response from server" && showErrorAlert && redirectedTo == oldRedirect
      case LoginThrew(failure) =>
        error == FailureText(failure, LoginFallback) && showErrorAlert && redirectedTo == oldRedirect
    }

    /**
      * `handleLogin`: a body with a token and a user redirects by the user's role
      * (a user without a known role gets "Invalid user role"); a body lacking
      * either shows "Invalid response from server"; a throw shows its message.
      */
    method HandleLogin(response: LoginResponse)
      modifies this`redirectedTo, this`error, this`showErrorAlert
      ensures LoginShows(response, old(redirectedTo))
      ensures response.LoginAnswered? && Truthy(response.token) && response.user.Some? && response.user.value.role.None? ==>
                redirectedTo == old(redirectedTo) && error == "Invalid user role" && showErrorAlert
    {
      match response {
        case LoginAnswered(token, user) =>
          if Truthy(token) && user.Some? {
            error := "";
            showErrorAlert := false;
            RedirectBasedOnRole(RoleOf(user.value));
          } else {
            error := "Invalid response from server";
            showErrorAlert := true;
          }
        case LoginThrew(failure) =>
          error := FailureText(failure, LoginFallback);
          showErrorAlert := true;
      }
    }

    /**
      * What the page shows after a signup answer: a created user opens the
      * success dialog and empties the form, keeping the alert as it was; any other
      * answer shows its message in the alert and keeps the form and the dialog.
      */
    predicate SignupShows(response: SignupResponse, oldForm: FormData, oldDialog: bool, oldAlert: bool)
      reads this
    {
      match response
      case SignupAnswered(hasUser) =>
        if hasUser then error == "" && showSuccessDialog && formData == EmptyForm && showErrorAlert == oldAlert
        else error == "Signup failed: Invalid response data" && showErrorAlert
             && formData == oldForm && showSuccessDialog == oldDialog
      case SignupThrew(failure) =>
        error == FailureText(failure, SignupFallback) && showErrorAlert
        && formData == oldForm && showSuccessDialog == oldDialog
    }

    /** `handleSignup`: a created user opens the success dialog and empties all six fields. */
    method HandleSignup(response: SignupResponse)
      modifies this`formData, this`error, this`showErrorAlert, this`showSuccessDialog
      ensures SignupShows(response, old(formData), old(showSuccessDialog), old(showErrorAlert))
    {
      match response {
        case SignupAnswered(hasUser) =>
          if hasUser {
            error := "";
            showSuccessDialog := true;
            formData := EmptyForm;
          } else {
            error := "Signup failed: Invalid response data";
            showErrorAlert := true;
          }
        case SignupThrew(failure) =>
          error := FailureText(failure, SignupFallback);
          showErrorAlert := true;
      }
    }

    /**
      * `handleSubmit`: clear the alert, validate, and only a valid form is sent —
      * to login or signup according to the tab. Returns whether a request went out.
      */
    method HandleSubmit(login: LoginResponse, signup: SignupResponse) returns (sent: bool)
      modifies this`errors, this`loading, this`error, this`showErrorAlert, this`redirectedTo,
               this`formData, this`showSuccessDialog
      ensures forall f :: Records(errors, activeTab, old(formData), f)
      ensures sent <==> FormValid(activeTab, old(formData))
      ensures !sent ==> error == "" && !showErrorAlert && formData == old(formData) && loading == old(loading)
      ensures sent ==> !loading
      ensures activeTab == Login ==> formData == old(formData)
      ensures !sent ==> redirectedTo == old(redirectedTo) && showSuccessDialog == old(showSuccessDialog)
      ensures activeTab == Login ==> showSuccessDialog == old(showSuccessDialog)
      ensures activeTab == Signup ==> redirectedTo == old(redirectedTo)
      ensures sent && activeTab == Login ==> LoginShows(login, old(redirectedTo))
      ensures sent && activeTab == Signup ==> SignupShows(signup, old(formData), old(showSuccessDialog), false)
    {
      error := "";
      showErrorAlert := false;
      sent := ValidateForm();
      if sent {
        Send(login, signup);
      }
    }

    /** The request itself: loading is raised around the call to the tab's handler. */
    method Send(login: LoginResponse, signup: SignupResponse)
      modifies this`loading, this`error, this`showErrorAlert, this`redirectedTo, this`formData, this`showSuccessDialog
      ensures !loading
      ensures activeTab == Login ==>
                LoginShows(login, old(redirectedTo)) && formData == old(formData) && showSuccessDialog == old(showSuccessDialog)
      ensures activeTab == Signup ==>
                SignupShows(signup, old(formData), old(showSuccessDialog), old(showErrorAlert)) && redirectedTo == old(redirectedTo)
    {
      loading := true;
      if activeTab == Login {
        HandleLogin(login);
      } else {
        HandleSignup(signup);
      }
      loading := false;
    }

    /** Closing the success dialog switches to the login tab. */
    method CloseSuccessDialog()
      modifies this`showSuccessDialog, this`activeTab
      ensures !showSuccessDialog && activeTab == Login
    {
      showSuccessDialog := false;
      activeTab := Login;
    }
  }
}
