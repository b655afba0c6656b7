/** The login form: the client-side checks of the e-mail and password,
    the error messages shown, and what a submit sends. */
module LoginPage {
  import opened Common
  import Validate
  import UserValidator

  /** A character `[^\s@]` accepts. */
  predicate Plain(c: char)
  {
    !IsSpace(c) && c != '@'
  }

  /** `/^[^\s@]+@[^\s@]+\.[^\s@]+$/` matches with its `@` at `at` and its
      `.` at `dot`: every other character is plain, and the three runs
      around them are not empty. */
  predicate StrictEmailAt(s: string, at: nat, dot: nat)
  {
    && 0 < at && at + 1 < dot && dot + 1 < |s|
    && s[at] == '@' && s[dot] == '.'
    && forall k :: 0 <= k < |s| && k != at ==> Plain(s[k])
  }

  /** `/^[^\s@]+@[^\s@]+\.[^\s@]+$/.test(s)` */
  predicate StrictEmail(s: string)
  {
    exists at: nat, dot: nat | at < |s| && dot < |s| :: StrictEmailAt(s, at, dot)
  }

  /** A strict e-mail has exactly one `@`. */
  lemma StrictEmailHasOneAt(s: string, at: nat, dot: nat, k: nat)
    requires StrictEmailAt(s, at, dot) && k < |s| && s[k] == '@'
    ensures k == at
  {
  }

  /** Every address the form accepts also passes the server's looser
      e-mail rule. */
  lemma StrictImpliesLoose(s: string)
    requires StrictEmail(s)
    ensures UserValidator.LooseEmail(s)
  {
    var at: nat, dot: nat :| at < |s| && dot < |s| && StrictEmailAt(s, at, dot);
    assert Plain(s[at - 1]) && Plain(s[dot + 1]);
    forall k | at < k < dot
      ensures !IsSpace(s[k])
    {
      assert Plain(s[k]);
    }
    assert UserValidator.LooseEmailAt(s, at, dot);
  }

  /** The server's rule finds an address inside text with a space; the
      form's anchored rule does not. */
  lemma LooseButNotStrict()
    ensures UserValidator.LooseEmail("a b@c.d")
    ensures !StrictEmail("a b@c.d")
  {
    var s := "a b@c.d";
    assert UserValidator.LooseEmailAt(s, 3, 5);
    forall at: nat, dot: nat | at < |s| && dot < |s|
      ensures !StrictEmailAt(s, at, dot)
    {
      if at != 1 {
        assert !Plain(s[1]);
      }
    }
  }

  /** The error messages the form shows; none means no error. */
  datatype LoginErrors = LoginErrors(email: Option<string>, password: Option<string>, form: Option<string>)

  const NoErrors: LoginErrors := LoginErrors(None, None, None)

  /** The e-mail check: required, then the strict shape. */
  function EmailError(email: string): (r: Option<string>)
    ensures r.None? <==> StrictEmail(email)
    ensures email == "" ==> r == Some("Email is required")
    ensures email != "" && !StrictEmail(email) ==> r == Some("Invalid email format")
  {
    if email == "" then Some("Email is required")
    else if !StrictEmail(email) then Some("Invalid email format")
    else None
  }

  /** The password check: required, then at least six UTF-16 code units. */
  function PasswordError(password: string): (r: Option<string>)
    ensures r.None? <==> JsLength(password) >= 6
    ensures password == "" ==> r == Some("Password is required")
    ensures password != "" && JsLength(password) < 6 ==> r == Some("Password must be at least 6 characters")
  {
    if password == "" then Some("Password is required")
    else if JsLength(password) < 6 then Some("Password must be at least 6 characters")
    else None
  }

  /** The errors `validateForm` records for a form. */
  function FormErrors(email: string, password: string): LoginErrors
  {
    LoginErrors(EmailError(email), PasswordError(password), None)
  }

  /** A form passes exactly when its e-mail has the strict shape and its
      password has at least six UTF-16 code units. */
  lemma FormValidIff(email: string, password: string)
    ensures FormErrors(email, password) == NoErrors <==> StrictEmail(email) && JsLength(password) >= 6
  {
  }

  /** A form that passes the client checks also passes the server's rules
      for the same two fields. */
  lemma ValidFormMeetsServerRules(email: string, password: string)
    requires FormErrors(email, password) == NoErrors
    ensures UserValidator.EmailString(Validate.JsString(email))
    ensures UserValidator.PasswordString(Validate.JsString(password))
  {
    StrictImpliesLoose(email);
  }

  /** The request body of a login. */
  datatype LoginDto = LoginDto(email: string, password: string)

  /** How the login request ended. */
  datatype LoginOutcome = Succeeded | FailedWith(message: string)

  class LoginForm {
    var email: string
    var password: string
    var errors: LoginErrors
    /** The route navigated to, if any. */
    var navigatedTo: Option<string>

    constructor ()
      ensures email == "" && password == "" && errors == NoErrors && navigatedTo == None
    {
      email, password, errors, navigatedTo := "", "", NoErrors, None;
    }

    /** `validateForm`: record the errors of the form and answer whether
        there are none. */
    method ValidateForm() returns (ok: bool)
      modifies this
      ensures errors == FormErrors(email, password)
      ensures ok <==> StrictEmail(email) && JsLength(password) >= 6
      ensures email == old(email) && password == old(password) && navigatedTo == old(navigatedTo)
    {
      var newErrors := NoErrors;
      if email == "" {
        newErrors := newErrors.(email := Some("Email is required"));
      } else if !StrictEmail(email) {
        newErrors := newErrors.(email := Some("Invalid email format"));
      }
      if password == "" {
        newErrors := newErrors.(password := Some("Password is required"));
      } else if JsLength(password) < 6 {
        newErrors := newErrors.(password := Some("Password must be at least 6 characters"));
      }
      errors := newErrors;
      ok := newErrors == NoErrors;
    }

    /** `handleSubmit`: nothing is sent for an invalid form; otherwise the
        e-mail and password are sent, and the outcome either navigates to
        the dashboard or replaces the errors with the failure message
        ("Login failed. Please try again." when it is empty). */
    method HandleSubmit(outcome: LoginOutcome) returns (sent: Option<LoginDto>)
      modifies this
      ensures email == old(email) && password == old(password)
      ensures sent.Some? <==> StrictEmail(email) && JsLength(password) >= 6
      ensures sent.None? ==> errors == FormErrors(email, password) && navigatedTo == old(navigatedTo)
      ensures sent.Some? ==> sent.value == LoginDto(email, password)
      ensures sent.Some? && outcome.Succeeded? ==> errors == NoErrors && navigatedTo == Some("/dashboard")
      ensures sent.Some? && outcome.FailedWith? ==>
        navigatedTo == old(navigatedTo) &&
        errors == LoginErrors(None, None, Some(if outcome.message == "" then "Login failed. Please try again." else outcome.message))
    {
      var ok := ValidateForm();
      if !ok {
        return None;
      }
      sent := Some(LoginDto(email, password));
      match outcome
      case Succeeded =>
        navigatedTo := Some("/dashboard");
      case FailedWith(message) =>
        errors := LoginErrors(None, None, Some(if message == "" then "Login failed. Please try again." else message));
    }

    /** Typing in the e-mail field clears its error and keeps the others. */
    method OnEmailChange(v: string)
      modifies this
      ensures email == v && password == old(password) && navigatedTo == old(navigatedTo)
      ensures old(errors).email.Some? && old(errors).email.value != "" ==> errors == old(errors).(email := None)
      ensures !(old(errors).email.Some? && old(errors).email.value != "") ==> errors == old(errors)
    {
      email := v;
      if errors.email.Some? && errors.email.value != "" {
        errors := errors.(email := None);
      }
    }

    /** Typing in the password field clears its error and keeps the others. */
    method OnPasswordChange(v: string)
      modifies this
      ensures password == v && email == old(email) && navigatedTo == old(navigatedTo)
      ensures old(errors).password.Some? && old(errors).password.value != "" ==> errors == old(errors).(password := None)
      ensures !(old(errors).password.Some? && old(errors).password.value != "") ==> errors == old(errors)
    {
      password := v;
      if errors.password.Some? && errors.password.value != "" {
        errors := errors.(password := None);
      }
    }
  }

  /** Every message the form itself records is non-empty, so a later
      change of the field always clears it. */
  lemma FormMessagesNonEmpty(email: string, password: string)
    ensures var e := FormErrors(email, password);
      (e.email.Some? ==> e.email.value != "") && (e.password.Some? ==> e.password.value != "")
  {
  }
}
