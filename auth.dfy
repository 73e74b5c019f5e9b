/** The sign-in / sign-up form (frontend/src/Auth.js): local registration checks,
    the password-strength meter, and the two-step exchange (credentials for a token,
    then the token for a profile) that ends in `onLogin`. */
module AuthComponent {
  import opened Common
  import opened Browser

  const MinPasswordLength: nat := 6

  const LoginSucceededMsg: string := "✅ Вход выполнен успешно!"
  const LoginFailedPrefix: string := ErrorMark + "Ошибка входа: "
  const LoginFallback: string := "Неверный email или пароль"
  const PasswordsDifferMsg: string := ErrorMark + "Пароли не совпадают!"
  const PasswordTooShortMsg: string := ErrorMark + "Пароль должен содержать не менее 6 символов!"
  const RegisterSucceededMsg: string := "✅ Регистрация завершена! Вход выполнен."
  const RegisterFailedPrefix: string := ErrorMark + "Ошибка регистрации: "
  const RegisterFallback: string := "Ошибка сервера"

  /** Which of the form's messages render as errors. */
  lemma MessageStyles()
    ensures IsErrorMessage(LoginFailedPrefix) && IsErrorMessage(RegisterFailedPrefix)
    ensures IsErrorMessage(PasswordsDifferMsg) && IsErrorMessage(PasswordTooShortMsg)
    ensures !IsErrorMessage(LoginSucceededMsg) && !IsErrorMessage(RegisterSucceededMsg)
  {
    ErrorMarkShowsError("Ошибка входа: ");
    ErrorMarkShowsError("Ошибка регистрации: ");
    ErrorMarkShowsError("Пароли не совпадают!");
    ErrorMarkShowsError("Пароль должен содержать не менее 6 символов!");
  }

  // The four character classes of the strength meter: /[a-z]/, /[A-Z]/, /\d/, /[^a-zA-Z\d]/.

  predicate IsLower(c: char) { 'a' <= c <= 'z' }

  predicate IsUpper(c: char) { 'A' <= c <= 'Z' }

  predicate IsSymbol(c: char) { !IsLower(c) && !IsUpper(c) && !IsDigit(c) }

  predicate HasLower(p: string) { exists i | 0 <= i < |p| :: IsLower(p[i]) }

  predicate HasUpper(p: string) { exists i | 0 <= i < |p| :: IsUpper(p[i]) }

  predicate HasDigit(p: string) { exists i | 0 <= i < |p| :: IsDigit(p[i]) }

  predicate HasSymbol(p: string) { exists i | 0 <= i < |p| :: IsSymbol(p[i]) }

  /** `password.length >= 6`, counting UTF-16 code units as JavaScript does. */
  predicate LongEnough(p: string) { Utf16Length(p) >= MinPasswordLength }

  /** Both a lower-case and an upper-case ASCII letter occur. */
  predicate MixedCase(p: string) { HasLower(p) && HasUpper(p) }

  /** One criterion of the meter is worth 25 points. */
  function Points(met: bool): nat { if met then 25 else 0 }

  /** `calculatePasswordStrength`: the sum of four independent 25-point criteria. */
  function PasswordStrength(password: string): (strength: nat)
    ensures strength in {0, 25, 50, 75, 100}
    ensures strength == 0 <==>
      !LongEnough(password) && !MixedCase(password) && !HasDigit(password) && !HasSymbol(password)
    ensures strength == 100 <==>
      LongEnough(password) && MixedCase(password) && HasDigit(password) && HasSymbol(password)
    ensures password == "" ==> strength == 0
  {
    Points(LongEnough(password)) + Points(MixedCase(password))
    + Points(HasDigit(password)) + Points(HasSymbol(password))
  }

  /** A password of lower-case letters only earns nothing but the length point. */
  lemma LowercaseOnlyEarnsLengthOnly(p: string)
    requires forall i | 0 <= i < |p| :: IsLower(p[i])
    ensures !MixedCase(p) && !HasDigit(p) && !HasSymbol(p)
    ensures PasswordStrength(p) == Points(LongEnough(p))
  {
  }

  /** Typing one more character never lowers the meter. */
  lemma StrengthGrowsWithTyping(p: string, c: char)
    ensures PasswordStrength(p) <= PasswordStrength(p + [c])
  {
    var q := p + [c];
    Utf16LengthAppend(p, [c]);
    assert forall i | 0 <= i < |p| :: q[i] == p[i];
    if HasLower(p) { var i :| 0 <= i < |p| && IsLower(p[i]); assert IsLower(q[i]); }
    if HasUpper(p) { var i :| 0 <= i < |p| && IsUpper(p[i]); assert IsUpper(q[i]); }
    if HasDigit(p) { var i :| 0 <= i < |p| && IsDigit(p[i]); assert IsDigit(q[i]); }
    if HasSymbol(p) { var i :| 0 <= i < |p| && IsSymbol(p[i]); assert IsSymbol(q[i]); }
  }

  datatype LoginData = LoginData(email: string, password: string)

  datatype RegisterData = RegisterData(name: string, email: string, password: string, confirmPassword: string)

  /** The local checks of `handleRegisterSubmit`, in their order: the confirmation first,
      then the length. `None` means the form may be sent. */
  function RegisterProblem(d: RegisterData): (problem: Option<string>)
    ensures problem == Some(PasswordsDifferMsg) <==> d.password != d.confirmPassword
    ensures problem == Some(PasswordTooShortMsg) <==>
      d.password == d.confirmPassword && !LongEnough(d.password)
    ensures problem.None? <==> d.password == d.confirmPassword && LongEnough(d.password)
  {
    if d.password != d.confirmPassword then Some(PasswordsDifferMsg)
    else if Utf16Length(d.password) < MinPasswordLength then Some(PasswordTooShortMsg)
    else None
  }

  /** A password that passes the local checks always earns the meter's length point. */
  lemma AcceptedPasswordEarnsLengthPoint(d: RegisterData)
    requires RegisterProblem(d).None?
    ensures PasswordStrength(d.password) >= 25
  {
  }

  /** The form component. `storage` is the browser's token entry, shared with the application. */
  class Auth {
    var activeForm: string
    var loading: bool
    var message: string
    var loginData: LoginData
    var registerData: RegisterData
    var passwordStrength: nat
    /** Every request this component has issued, oldest first: a record kept for the
        proofs, not state of the component. */
    ghost var sent: seq<Request>
    const storage: TokenSlot

    /** The meter always shows the strength of the password in the form. */
    ghost predicate Valid()
      reads this
    {
      passwordStrength == PasswordStrength(registerData.password)
    }

    constructor (storage: TokenSlot)
      ensures Valid()
      ensures this.storage == storage
      ensures activeForm == "login" && !loading && message == ""
      ensures loginData == LoginData("", "") && registerData == RegisterData("", "", "", "")
      ensures passwordStrength == 0 && sent == []
    {
      this.storage := storage;
      activeForm := "login";
      loading := false;
      message := "";
      loginData := LoginData("", "");
      registerData := RegisterData("", "", "", "");
      passwordStrength := 0;
      sent := [];
    }

    /** `switchForm`: show the named form and clear the message. */
    method SwitchForm(formName: string)
      requires Valid()
      modifies this
      ensures Valid()
      ensures activeForm == formName && message == ""
      ensures loading == old(loading) && loginData == old(loginData) && registerData == old(registerData)
      ensures passwordStrength == old(passwordStrength) && sent == old(sent)
    {
      activeForm := formName;
      message := "";
    }

    /** The `onChange` handlers of the two sign-in inputs. */
    method EditLogin(email: string, password: string)
      requires Valid()
      modifies this
      ensures Valid()
      ensures loginData == LoginData(email, password)
      ensures activeForm == old(activeForm) && loading == old(loading) && message == old(message)
      ensures registerData == old(registerData) && passwordStrength == old(passwordStrength) && sent == old(sent)
    {
      loginData := LoginData(email, password);
    }

    /** The `onChange` handlers of the name, e-mail and confirmation inputs of the sign-up form. */
    method EditRegisterDetails(name: string, email: string, confirmPassword: string)
      requires Valid()
      modifies this
      ensures Valid()
      ensures registerData == old(registerData).(name := name, email := email, confirmPassword := confirmPassword)
      ensures activeForm == old(activeForm) && loading == old(loading) && message == old(message)
      ensures loginData == old(loginData) && passwordStrength == old(passwordStrength) && sent == old(sent)
    {
      registerData := registerData.(name := name, email := email, confirmPassword := confirmPassword);
    }

    /** `handlePasswordChange`: store the password and re-score it. */
    method HandlePasswordChange(password: string)
      modifies this
      ensures Valid()
      ensures registerData == old(registerData).(password := password)
      ensures passwordStrength == PasswordStrength(password)
      ensures activeForm == old(activeForm) && loading == old(loading) && message == old(message)
      ensures loginData == old(loginData) && sent == old(sent)
    {
      registerData := registerData.(password := password);
      passwordStrength := PasswordStrength(password);
    }

    /** The part `handleLoginSubmit` and `handleRegisterSubmit` share once the first request
        is known: send it; on a token, store it and fetch the profile with it; report.
        `onLogin` is produced only when both requests succeed. */
    method Exchange(first: Request, credential: Outcome<string>, profile: Outcome<Profile>,
                    succeeded: string, failedPrefix: string, fallback: string)
      returns (onLogin: Option<UserData>)
      requires IsErrorMessage(failedPrefix) && !IsErrorMessage(succeeded)
      modifies this, storage
      ensures !loading
      ensures sent == old(sent) + [first] + (if credential.Success? then [GetProfile(credential.data)] else [])
      ensures storage.token == (if credential.Success? then Some(credential.data) else old(storage.token))
      ensures onLogin == (if credential.Success? && profile.Success?
                          then Some(UserData(credential.data, profile.data)) else None)
      ensures message == (if credential.Failure? then failedPrefix + DetailOr(credential.error, fallback)
                          else if profile.Failure? then failedPrefix + DetailOr(profile.error, fallback)
                          else succeeded)
      ensures IsErrorMessage(message) <==> onLogin.None?
      ensures activeForm == old(activeForm) && loginData == old(loginData)
      ensures registerData == old(registerData) && passwordStrength == old(passwordStrength)
    {
      onLogin := None;
      sent := sent + [first];
      match credential {
        case Failure(e) =>
          message := failedPrefix + DetailOr(e, fallback);
        case Success(token) =>
          storage.token := Some(token);
          message := succeeded;
          sent := sent + [GetProfile(token)];
          match profile {
            case Failure(e) =>
              message := failedPrefix + DetailOr(e, fallback);
            case Success(p) =>
              onLogin := Some(UserData(token, p));
          }
      }
      loading := false;
    }

    /** `handleLoginSubmit`, with the replies to `POST /login/` and `GET /profile/` given. */
    method HandleLoginSubmit(credential: Outcome<string>, profile: Outcome<Profile>)
      returns (onLogin: Option<UserData>)
      requires Valid()
      modifies this, storage
      ensures Valid() && !loading
      ensures sent == old(sent) + [PostLogin(loginData.email, loginData.password)]
                     + (if credential.Success? then [GetProfile(credential.data)] else [])
      ensures storage.token == (if credential.Success? then Some(credential.data) else old(storage.token))
      ensures onLogin == (if credential.Success? && profile.Success?
                          then Some(UserData(credential.data, profile.data)) else None)
      ensures message == (if credential.Failure? then LoginFailedPrefix + DetailOr(credential.error, LoginFallback)
                          else if profile.Failure? then LoginFailedPrefix + DetailOr(profile.error, LoginFallback)
                          else LoginSucceededMsg)
      ensures IsErrorMessage(message) <==> onLogin.None?
      ensures activeForm == old(activeForm) && loginData == old(loginData)
      ensures registerData == old(registerData) && passwordStrength == old(passwordStrength)
    {
      MessageStyles();
      loading := true;
      message := "";
      onLogin := Exchange(PostLogin(loginData.email, loginData.password), credential, profile,
                          LoginSucceededMsg, LoginFailedPrefix, LoginFallback);
    }

    /** `handleRegisterSubmit`, with the replies to `POST /register/` and `GET /profile/` given.
        A failed local check sends nothing; the request body leaves out the confirmation. */
    method HandleRegisterSubmit(credential: Outcome<string>, profile: Outcome<Profile>)
      returns (onLogin: Option<UserData>)
      requires Valid()
      modifies this, storage
      ensures Valid() && !loading
      ensures activeForm == old(activeForm) && loginData == old(loginData)
      ensures registerData == old(registerData) && passwordStrength == old(passwordStrength)
      ensures IsErrorMessage(message) <==> onLogin.None?
      ensures RegisterProblem(registerData).Some? ==>
        && message == RegisterProblem(registerData).value
        && sent == old(sent)
        && storage.token == old(storage.token)
        && onLogin.None?
      ensures RegisterProblem(registerData).None? ==>
        && sent == old(sent) + [PostRegister(registerData.name, registerData.email, registerData.password)]
                  + (if credential.Success? then [GetProfile(credential.data)] else [])
        && storage.token == (if credential.Success? then Some(credential.data) else old(storage.token))
        && onLogin == (if credential.Success? && profile.Success?
                       then Some(UserData(credential.data, profile.data)) else None)
        && message == (if credential.Failure? then RegisterFailedPrefix + DetailOr(credential.error, RegisterFallback)
                       else if profile.Failure? then RegisterFailedPrefix + DetailOr(profile.error, RegisterFallback)
                       else RegisterSucceededMsg)
    {
      MessageStyles();
      loading := true;
      message := "";
      onLogin := None;

      if registerData.password != registerData.confirmPassword {
        message := PasswordsDifferMsg;
        loading := false;
        return;
      }

      if Utf16Length(registerData.password) < MinPasswordLength {
        message := PasswordTooShortMsg;
        loading := false;
        return;
      }

      onLogin := Exchange(PostRegister(registerData.name, registerData.email, registerData.password),
                          credential, profile, RegisterSucceededMsg, RegisterFailedPrefix, RegisterFallback);
    }
  }
}
