/**
 * The sign-in screen: e-mail and password fields, and a submit that
 * raises the loading flag, checks both fields, and only then asks the
 * auth repository to sign in, reporting exactly one outcome.
 */
module Login {
  import opened Common
  import opened Forms

  const EmailEmpty: string := "Email cannot be empty"
  const PasswordEmpty: string := "Password cannot be empty"

  /** `validateEmail`. */
  function ValidateEmail(email: Option<string>): (r: ValidationResult)
    ensures r.isSuccess <==> email.Some? && email.value != ""
    ensures r.message == Some(if r.isSuccess then "Success" else EmailEmpty)
  {
    NonEmptyCheck(email, EmailEmpty)
  }

  /** `validatePassword`. */
  function ValidatePassword(password: Option<string>): (r: ValidationResult)
    ensures r.isSuccess <==> password.Some? && password.value != ""
    ensures r.message == Some(if r.isSuccess then "Success" else PasswordEmpty)
  {
    NonEmptyCheck(password, PasswordEmpty)
  }

  /** `LoginUISate`. */
  datatype LoginForm = LoginForm(email: string, password: string, emailError: Option<string>, passwordError: Option<string>)

  const DefaultLoginForm: LoginForm := LoginForm("", "", None, None)

  /** `LoginFormEvent` other than submit, which is `Login` below. */
  datatype LoginEvent = EmailChanged(email: string) | PasswordChanged(password: string)

  /** `LoginResponse`: the auth repository's answer. */
  datatype LoginResponse = LoginResponse(isSuccess: bool, errorMessage: Option<string>)

  /** What happens outside the form, in order: loading-flag writes, the sign-in call, the callbacks. */
  datatype Effect = Loading(on: bool) | SignIn(email: string, password: string) | Success | Error(message: string) | Crash

  /** Every error the form shows is its validator's failure on the current value. */
  predicate LoginExplained(s: LoginForm) {
    && Explains(s.emailError, ValidateEmail(Some(s.email)))
    && Explains(s.passwordError, ValidatePassword(Some(s.password)))
  }

  predicate LoginValid(s: LoginForm) {
    s.email != "" && s.password != ""
  }

  /** The form after an edit. */
  function LoginAfterEdit(s: LoginForm, e: LoginEvent): LoginForm {
    match e
    case EmailChanged(v) =>
      s.(email := v, emailError := ErrorAfterChange(s.emailError, ValidateEmail(Some(v)).isSuccess))
    case PasswordChanged(v) =>
      s.(password := v, passwordError := ErrorAfterChange(s.passwordError, ValidatePassword(Some(v)).isSuccess))
  }

  /** The form after submit's checks: each failing field shows its message. */
  function LoginChecked(s: LoginForm): LoginForm {
    s.(emailError := ErrorAfterFailure(s.emailError, ValidateEmail(Some(s.email))),
       passwordError := ErrorAfterFailure(s.passwordError, ValidatePassword(Some(s.password))))
  }

  /**
   * The effects of one submit from form `s` when the repository would
   * answer `response`: the loading flag goes up; each failing field lowers
   * it again; a valid form signs in and reports success, or the error
   * message (a missing message dies on `!!` before loading is lowered).
   */
  function LoginTrace(s: LoginForm, response: LoginResponse): seq<Effect> {
    if !LoginValid(s) then
      [Loading(true)] + (if s.email == "" then [Loading(false)] else [])
                      + (if s.password == "" then [Loading(false)] else [])
    else
      [Loading(true), SignIn(s.email, s.password)] +
      if response.isSuccess then [Success, Loading(false)]
      else if response.errorMessage.None? then [Crash]
      else [Error(response.errorMessage.value), Loading(false)]
  }

  /** Edits keep every error explained by the current value. */
  lemma LoginEditKeepsExplained(s: LoginForm, e: LoginEvent)
    requires LoginExplained(s)
    ensures LoginExplained(LoginAfterEdit(s, e))
  {
  }

  /** After the checks a field shows an error exactly when it is empty, and the form is valid exactly when none shows. */
  lemma LoginCheckedShowsFailures(s: LoginForm)
    requires LoginExplained(s)
    ensures var t := LoginChecked(s);
            && LoginExplained(t)
            && (t.emailError.Some? <==> s.email == "")
            && (t.passwordError.Some? <==> s.password == "")
            && (LoginValid(s) <==> t.emailError.None? && t.passwordError.None?)
  {
  }

  /**
   * Loading goes up first. An invalid form never reaches the repository and
   * ends with loading lowered. A valid form calls it once, with the form's
   * values, then reports exactly one of success or error; loading ends
   * lowered unless the error message was missing.
   */
  lemma {:induction false} LoginTraceShape(s: LoginForm, response: LoginResponse)
    ensures var t := LoginTrace(s, response);
            && |t| >= 2 && t[0] == Loading(true)
            && (!LoginValid(s) ==> (forall i :: 0 <= i < |t| ==> !t[i].SignIn?) && t[|t| - 1] == Loading(false))
            && (LoginValid(s) ==> t[1] == SignIn(s.email, s.password))
            && (LoginValid(s) && response.isSuccess ==> t[2..] == [Success, Loading(false)])
            && (LoginValid(s) && !response.isSuccess && response.errorMessage.Some? ==>
                  t[2..] == [Error(response.errorMessage.value), Loading(false)])
            && (LoginValid(s) && !response.isSuccess && response.errorMessage.None? ==> t[2..] == [Crash])
  {
    var t := LoginTrace(s, response);
    if !LoginValid(s) {
      assert forall i :: 1 <= i < |t| ==> t[i] == Loading(false);
    }
  }

  class LoginViewModel {
    var state: LoginForm
    var loading: bool
    var effects: seq<Effect>

    predicate Valid()
      reads this
    {
      LoginExplained(state)
    }

    constructor ()
      ensures Valid() && state == DefaultLoginForm && !loading && effects == []
    {
      state, loading, effects := DefaultLoginForm, false, [];
    }

    /** `onLoginEvent` for the two edits. */
    method OnLoginEvent(e: LoginEvent)
      requires Valid()
      modifies this`state
      ensures Valid() && state == LoginAfterEdit(old(state), e)
    {
      match e
      case EmailChanged(v) =>
        state := state.(email := v);
        if ValidateEmail(Some(v)).isSuccess && state.emailError.Some? {
          state := state.(emailError := None);
        }
      case PasswordChanged(v) =>
        state := state.(password := v);
        if ValidatePassword(Some(v)).isSuccess && state.passwordError.Some? {
          state := state.(passwordError := None);
        }
    }

    /** `login` (also what submit does), with `response` what the repository answers. */
    method Login(response: LoginResponse)
      requires Valid()
      modifies this
      ensures Valid()
      ensures state == LoginChecked(old(state))
      ensures effects == old(effects) + LoginTrace(old(state), response)
      ensures loading == (LoginValid(old(state)) && !response.isSuccess && response.errorMessage.None?)
    {
      ghost var s0 := state;
      LoginCheckedShowsFailures(s0);
      loading := true;
      effects := effects + [Loading(true)];
      var hasError := false;
      var emailResult := ValidateEmail(Some(state.email));
      if !emailResult.isSuccess {
        state := state.(emailError := emailResult.message);
        loading := false;
        effects := effects + [Loading(false)];
        hasError := true;
      }
      var passwordResult := ValidatePassword(Some(state.password));
      if !passwordResult.isSuccess {
        state := state.(passwordError := passwordResult.message);
        loading := false;
        effects := effects + [Loading(false)];
        hasError := true;
      }
      if hasError {
        return;
      }
      effects := effects + [SignIn(state.email, state.password)];
      if response.isSuccess {
        effects := effects + [Success];
      } else {
        if response.errorMessage.None? {
          effects := effects + [Crash];
          return;
        }
        effects := effects + [Error(response.errorMessage.value)];
      }
      loading := false;
      effects := effects + [Loading(false)];
    }
  }
}
