/**
 * The sign-up screen: five text fields checked in the order e-mail,
 * password, phone, name, surname; only a fully filled form reaches the
 * auth repository, and a refusal without a message is reported with a
 * fixed fallback text.
 */
module Register {
  import opened Common
  import opened Forms
  import Login

  const EmailEmpty: string := "Email cannot be empty"
  const PasswordEmpty: string := "Password cannot be empty"
  const NameEmpty: string := "Name cannot be empty"
  const SurnameEmpty: string := "Surname cannot be empty"
  const PhoneEmpty: string := "Phone cannot be empty"
  const RegisterFallback: string := "Error registering user"

  /** `validateEmail`: the sign-in screen's check, with the same message. */
  function ValidateEmail(email: Option<string>): (r: ValidationResult)
    ensures r.isSuccess <==> email.Some? && email.value != ""
    ensures r.message == Some(if r.isSuccess then "Success" else EmailEmpty)
  {
    Login.ValidateEmail(email)
  }

  /** `validatePassword`: the sign-in screen's check, with the same message. */
  function ValidatePassword(password: Option<string>): (r: ValidationResult)
    ensures r.isSuccess <==> password.Some? && password.value != ""
    ensures r.message == Some(if r.isSuccess then "Success" else PasswordEmpty)
  {
    Login.ValidatePassword(password)
  }

  /** `validateName`. */
  function ValidateName(name: Option<string>): (r: ValidationResult)
    ensures r.isSuccess <==> name.Some? && name.value != ""
    ensures r.message == Some(if r.isSuccess then "Success" else NameEmpty)
  {
    NonEmptyCheck(name, NameEmpty)
  }

  /** `validateSurname`. */
  function ValidateSurname(surname: Option<string>): (r: ValidationResult)
    ensures r.isSuccess <==> surname.Some? && surname.value != ""
    ensures r.message == Some(if r.isSuccess then "Success" else SurnameEmpty)
  {
    NonEmptyCheck(surname, SurnameEmpty)
  }

  /** `validatePhone`. */
  function ValidatePhone(phone: Option<string>): (r: ValidationResult)
    ensures r.isSuccess <==> phone.Some? && phone.value != ""
    ensures r.message == Some(if r.isSuccess then "Success" else PhoneEmpty)
  {
    NonEmptyCheck(phone, PhoneEmpty)
  }

  /** `RegisterUISate`. */
  datatype RegisterForm = RegisterForm(
    email: string,
    password: string,
    name: string,
    surname: string,
    phone: string,
    emailError: Option<string>,
    passwordError: Option<string>,
    nameError: Option<string>,
    surnameError: Option<string>,
    phoneError: Option<string>)

  const DefaultRegisterForm: RegisterForm := RegisterForm("", "", "", "", "", None, None, None, None, None)

  /** `RegisterFormEvent` other than submit, which is `Register` below. */
  datatype RegisterEvent =
    | EmailChanged(email: string)
    | PasswordChanged(password: string)
    | NameChanged(name: string)
    | SurnameChanged(surname: string)
    | PhoneChanged(phone: string)

  /** `RegisterUser`: what the auth repository is asked to create. */
  datatype RegisterUser = RegisterUser(email: string, password: string, name: string, surname: string, phone: string)

  /** The auth repository's answer. */
  datatype RegisterResponse = RegisterResponse(isSuccess: bool, errorMessage: Option<string>)

  /** What happens outside the form, in order: loading-flag writes, the sign-up call, the callbacks. */
  datatype Effect = Loading(on: bool) | SignUp(user: RegisterUser) | Success | Error(message: string)

  /** Every error the form shows is its validator's failure on the current value. */
  predicate RegisterExplained(s: RegisterForm) {
    && Explains(s.emailError, ValidateEmail(Some(s.email)))
    && Explains(s.passwordError, ValidatePassword(Some(s.password)))
    && Explains(s.nameError, ValidateName(Some(s.name)))
    && Explains(s.surnameError, ValidateSurname(Some(s.surname)))
    && Explains(s.phoneError, ValidatePhone(Some(s.phone)))
  }

  predicate RegisterValid(s: RegisterForm) {
    s.email != "" && s.password != "" && s.name != "" && s.surname != "" && s.phone != ""
  }

  /** The form after an edit. */
  function RegisterAfterEdit(s: RegisterForm, e: RegisterEvent): RegisterForm {
    match e
    case EmailChanged(v) =>
      s.(email := v, emailError := ErrorAfterChange(s.emailError, ValidateEmail(Some(v)).isSuccess))
    case PasswordChanged(v) =>
      s.(password := v, passwordError := ErrorAfterChange(s.passwordError, ValidatePassword(Some(v)).isSuccess))
    case NameChanged(v) =>
      s.(name := v, nameError := ErrorAfterChange(s.nameError, ValidateName(Some(v)).isSuccess))
    case SurnameChanged(v) =>
      s.(surname := v, surnameError := ErrorAfterChange(s.surnameError, ValidateSurname(Some(v)).isSuccess))
    case PhoneChanged(v) =>
      s.(phone := v, phoneError := ErrorAfterChange(s.phoneError, ValidatePhone(Some(v)).isSuccess))
  }

  /** The form after submit's checks: each failing field shows its message. */
  function RegisterChecked(s: RegisterForm): RegisterForm {
    s.(emailError := ErrorAfterFailure(s.emailError, ValidateEmail(Some(s.email))),
       passwordError := ErrorAfterFailure(s.passwordError, ValidatePassword(Some(s.password))),
       nameError := ErrorAfterFailure(s.nameError, ValidateName(Some(s.name))),
       surnameError := ErrorAfterFailure(s.surnameError, ValidateSurname(Some(s.surname))),
       phoneError := ErrorAfterFailure(s.phoneError, ValidatePhone(Some(s.phone))))
  }

  /** `n` writes lowering the loading flag. */
  function Lowered(n: nat): (r: seq<Effect>)
    ensures |r| == n && forall i :: 0 <= i < n ==> r[i] == Loading(false)
  {
    seq(n, _ => Loading(false))
  }

  lemma LoweredOnceMore(n: nat)
    ensures Lowered(n) + [Loading(false)] == Lowered(n + 1)
  {
  }

  /** The number of empty fields: each lowers the loading flag once. */
  function EmptyCount(s: RegisterForm): nat {
    (if s.email == "" then 1 else 0) + (if s.password == "" then 1 else 0) + (if s.phone == "" then 1 else 0)
      + (if s.name == "" then 1 else 0) + (if s.surname == "" then 1 else 0)
  }

  /**
   * The effects of one submit from form `s` when the repository would
   * answer `response`: loading goes up; each failing field lowers it again;
   * a valid form signs up and reports success or the error, with the
   * fallback text when the answer carries none, then lowers loading.
   */
  function RegisterTrace(s: RegisterForm, response: RegisterResponse): seq<Effect> {
    if !RegisterValid(s) then
      [Loading(true)] + Lowered(EmptyCount(s))
    else
      [Loading(true), SignUp(RegisterUser(s.email, s.password, s.name, s.surname, s.phone)),
       if response.isSuccess then Success else Error(response.errorMessage.GetOr(RegisterFallback)),
       Loading(false)]
  }

  /** Edits keep every error explained by the current value. */
  lemma RegisterEditKeepsExplained(s: RegisterForm, e: RegisterEvent)
    requires RegisterExplained(s)
    ensures RegisterExplained(RegisterAfterEdit(s, e))
  {
  }

  /** After the checks a field shows an error exactly when it is empty, and the form is valid exactly when none shows. */
  lemma RegisterCheckedShowsFailures(s: RegisterForm)
    requires RegisterExplained(s)
    ensures var t := RegisterChecked(s);
            && RegisterExplained(t)
            && (t.emailError.Some? <==> s.email == "")
            && (t.passwordError.Some? <==> s.password == "")
            && (t.nameError.Some? <==> s.name == "")
            && (t.surnameError.Some? <==> s.surname == "")
            && (t.phoneError.Some? <==> s.phone == "")
            && (RegisterValid(s) <==>
                  t.emailError.None? && t.passwordError.None? && t.nameError.None?
                  && t.surnameError.None? && t.phoneError.None?)
  {
  }

  /**
   * Loading goes up first and always ends lowered. An invalid form never
   * reaches the repository and lowers loading once per empty field. A
   * valid form calls it once, with exactly the form's five values, then
   * reports exactly one of success or error.
   */
  lemma {:induction false} RegisterTraceShape(s: RegisterForm, response: RegisterResponse)
    ensures var t := RegisterTrace(s, response);
            && |t| >= 2 && t[0] == Loading(true) && t[|t| - 1] == Loading(false)
            && (!RegisterValid(s) ==>
                  && |t| == 1 + EmptyCount(s)
                  && forall i :: 1 <= i < |t| ==> t[i] == Loading(false))
            && (RegisterValid(s) ==>
                  && |t| == 4
                  && t[1] == SignUp(RegisterUser(s.email, s.password, s.name, s.surname, s.phone))
                  && (response.isSuccess <==> t[2] == Success)
                  && (!response.isSuccess ==>
                        t[2] == Error(if response.errorMessage.Some? then response.errorMessage.value else RegisterFallback)))
  {
    var t := RegisterTrace(s, response);
    if !RegisterValid(s) {
      assert EmptyCount(s) > 0;
      assert t[|t| - 1] == Lowered(EmptyCount(s))[EmptyCount(s) - 1];
    }
  }

  /**
   * The five checks of `register`, in the source's order, on the form as it
   * stands: each failing field gets its message and lowers the loading flag.
   */
  method CheckFields(s: RegisterForm) returns (checked: RegisterForm, lowered: seq<Effect>, hasError: bool)
    ensures checked == RegisterChecked(s)
    ensures lowered == Lowered(EmptyCount(s))
    ensures hasError <==> !RegisterValid(s)
  {
    checked, lowered, hasError := s, [], false;
    var emailResult := ValidateEmail(Some(checked.email));
    if !emailResult.isSuccess {
      checked := checked.(emailError := emailResult.message);
      LoweredOnceMore(|lowered|);
      lowered := lowered + [Loading(false)];
      hasError := true;
    }
    var passwordResult := ValidatePassword(Some(checked.password));
    if !passwordResult.isSuccess {
      checked := checked.(passwordError := passwordResult.message);
      LoweredOnceMore(|lowered|);
      lowered := lowered + [Loading(false)];
      hasError := true;
    }
    var phoneResult := ValidatePhone(Some(checked.phone));
    if !phoneResult.isSuccess {
      checked := checked.(phoneError := phoneResult.message);
      LoweredOnceMore(|lowered|);
      lowered := lowered + [Loading(false)];
      hasError := true;
    }
    var nameResult := ValidateName(Some(checked.name));
    if !nameResult.isSuccess {
      checked := checked.(nameError := nameResult.message);
      LoweredOnceMore(|lowered|);
      lowered := lowered + [Loading(false)];
      hasError := true;
    }
    var surnameResult := ValidateSurname(Some(checked.surname));
    if !surnameResult.isSuccess {
      checked := checked.(surnameError := surnameResult.message);
      LoweredOnceMore(|lowered|);
      lowered := lowered + [Loading(false)];
      hasError := true;
    }
  }

  class RegisterViewModel {
    var state: RegisterForm
    var loading: bool
    var effects: seq<Effect>

    predicate Valid()
      reads this
    {
      RegisterExplained(state)
    }

    constructor ()
      ensures Valid() && state == DefaultRegisterForm && !loading && effects == []
    {
      state, loading, effects := DefaultRegisterForm, false, [];
    }

    /** `onRegisterEvent` for the five edits. */
    method OnRegisterEvent(e: RegisterEvent)
      requires Valid()
      modifies this`state
      ensures Valid() && state == RegisterAfterEdit(old(state), e)
    {
      match e
      case EmailChanged(v) =>
        state := state.(email := v);
        if ValidateEmail(Some(v)).isSuccess && state.emailError.Some? {
          state := state.(emailError := None);
        }
      case NameChanged(v) =>
        state := state.(name := v);
        if ValidateName(Some(v)).isSuccess && state.nameError.Some? {
          state := state.(nameError := None);
        }
      case PasswordChanged(v) =>
        state := state.(password := v);
        if ValidatePassword(Some(v)).isSuccess && state.passwordError.Some? {
          state := state.(passwordError := None);
        }
      case PhoneChanged(v) =>
        state := state.(phone := v);
        if ValidatePhone(Some(v)).isSuccess && state.phoneError.Some? {
          state := state.(phoneError := None);
        }
      case SurnameChanged(v) =>
        state := state.(surname := v);
        if ValidateSurname(Some(v)).isSuccess && state.surnameError.Some? {
          state := state.(surnameError := None);
        }
    }

    /** `register` (what submit does), with `response` what the repository answers. */
    method Register(response: RegisterResponse)
      requires Valid()
      modifies this
      ensures Valid()
      ensures state == RegisterChecked(old(state))
      ensures effects == old(effects) + RegisterTrace(old(state), response)
      ensures !loading
    {
      RegisterCheckedShowsFailures(state);
      // the coroutine runs to the repository call without suspending, so the
      // checks and their loading-flag writes are published together
      var form, lowered, hasError := CheckFields(state);
      state := form;
      if hasError {
        loading := false;
        effects := effects + [Loading(true)] + lowered;
        return;
      }
      var trace := [Loading(true)];
      var user := RegisterUser(state.email, state.password, state.name, state.surname, state.phone);
      trace := trace + [SignUp(user)];
      if response.isSuccess {
        trace := trace + [Success];
      } else {
        trace := trace + [Error(response.errorMessage.GetOr(RegisterFallback))];
      }
      loading := false;
      effects := effects + trace + [Loading(false)];
    }
  }
}
