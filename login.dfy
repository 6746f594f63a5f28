/**
  * The sign-in screen of MainActivity.kt: the two-field form check, the guard on
  * the sign-in call and `updateUI`. The platform's e-mail regular expression is
  * the parameter `emailPattern`.
  */
module Login {
  import opened Wrappers
  import opened Text

  /** The signed-in account, as far as this screen looks at it. */
  datatype FirebaseUser = FirebaseUser(email: Option<string>)

  /** The map screen opened for a signed-in user, with its `user_email` extra. */
  datatype Navigation = ToMapScreen(userEmail: Option<string>)

  /** The credentials handed to `signInWithEmailAndPassword`. */
  datatype SignInRequest = SignInRequest(email: string, password: string)

  const EmptyEmail := "Ingresa tu correo"
  const InvalidEmail := "Correo no válido"
  const EmptyPassword := "Ingresa tu contraseña"
  const ShortPassword := "Mínimo 6 caracteres"
  const BadCredentials := "Error: Credenciales incorrectas"
  const MinPasswordLength := 6

  /** The e-mail check: missing first, then the format. */
  function EmailErrorFor(email: string, emailPattern: string -> bool): Option<string> {
    if email == [] then Some(EmptyEmail)
    else if !emailPattern(email) then Some(InvalidEmail)
    else None
  }

  /** The password check: missing first, then the length in UTF-16 units. */
  function PasswordErrorFor(password: string): Option<string> {
    if password == [] then Some(EmptyPassword)
    else if Utf16Length(password) < MinPasswordLength then Some(ShortPassword)
    else None
  }

  /** The form is acceptable: a non-empty matching e-mail and a password of at least 6 UTF-16 units. */
  predicate Acceptable(email: string, password: string, emailPattern: string -> bool) {
    && email != [] && emailPattern(email)
    && password != [] && Utf16Length(password) >= MinPasswordLength
  }

  /** The form passes exactly when neither field is left with an error. */
  lemma AcceptableIffNoErrors(email: string, password: string, emailPattern: string -> bool)
    ensures Acceptable(email, password, emailPattern) <==>
            EmailErrorFor(email, emailPattern).None? && PasswordErrorFor(password).None?
  {
  }

  /**
    * An empty or blank e-mail is reported as missing, never as malformed, whatever the
    * pattern says; the same holds for the password.
    */
  lemma BlankFieldsReportedMissing(rawEmail: string, rawPassword: string, emailPattern: string -> bool)
    ensures AllWhitespace(rawEmail) ==> EmailErrorFor(Trim(rawEmail), emailPattern) == Some(EmptyEmail)
    ensures AllWhitespace(rawPassword) ==> PasswordErrorFor(Trim(rawPassword)) == Some(EmptyPassword)
  {
    if AllWhitespace(rawEmail) { TrimOfBlank(rawEmail); }
    if AllWhitespace(rawPassword) { TrimOfBlank(rawPassword); }
  }

  /** A password this form accepts is at least 6 characters once trimmed, and at least 3 even counting characters outside the BMP. */
  lemma AcceptedPasswordLength(email: string, password: string, emailPattern: string -> bool)
    requires Acceptable(email, password, emailPattern)
    ensures |password| >= 3
    ensures (forall k :: 0 <= k < |password| ==> password[k] as int < 0x1_0000) ==> |password| >= 6
  {
    if forall k :: 0 <= k < |password| ==> password[k] as int < 0x1_0000 {
      Utf16LengthOfBmp(password);
    }
  }

  class LoginScreen {
    const emailPattern: string -> bool

    /** The field contents as typed. */
    var emailText: string
    var passwordText: string
    var emailError: Option<string>
    var passwordError: Option<string>
    /** The screen opened by `updateUI`, `None` while this screen is showing. */
    var navigation: Option<Navigation>

    constructor (emailPattern: string -> bool)
      ensures this.emailPattern == emailPattern
      ensures emailText == "" && passwordText == ""
      ensures emailError.None? && passwordError.None? && navigation.None?
    {
      this.emailPattern := emailPattern;
      emailText, passwordText := "", "";
      emailError, passwordError := None, None;
      navigation := None;
    }

    /** `validateForm`: both fields checked, each error set or cleared, and a running flag. */
    method ValidateForm(email: string, password: string) returns (valid: bool)
      modifies this`emailError, this`passwordError
      ensures valid == Acceptable(email, password, emailPattern)
      ensures emailError == EmailErrorFor(email, emailPattern)
      ensures passwordError == PasswordErrorFor(password)
    {
      valid := true;

      if email == [] {
        emailError := Some(EmptyEmail);
        valid := false;
      } else if !emailPattern(email) {
        emailError := Some(InvalidEmail);
        valid := false;
      } else {
        emailError := None;
      }

      if password == [] {
        passwordError := Some(EmptyPassword);
        valid := false;
      } else if Utf16Length(password) < MinPasswordLength {
        passwordError := Some(ShortPassword);
        valid := false;
      } else {
        passwordError := None;
      }
    }

    /** The login button: trim both fields and sign in only with a valid form. */
    method OnLoginClick() returns (signIn: Option<SignInRequest>)
      modifies this`emailError, this`passwordError
      ensures emailError == EmailErrorFor(Trim(emailText), emailPattern)
      ensures passwordError == PasswordErrorFor(Trim(passwordText))
      ensures signIn == (if Acceptable(Trim(emailText), Trim(passwordText), emailPattern)
                         then Some(SignInRequest(Trim(emailText), Trim(passwordText)))
                         else None)
    {
      var email := Trim(emailText);
      var password := Trim(passwordText);
      var valid := ValidateForm(email, password);
      assert email == Trim(emailText) && password == Trim(passwordText);
      if valid {
        signIn := Some(SignInRequest(email, password));
      } else {
        signIn := None;
      }
    }

    /** `updateUI`: a user leads to the map screen, no user only clears the password field. */
    method UpdateUI(user: Option<FirebaseUser>)
      modifies this`passwordText, this`navigation
      ensures user.Some? ==> navigation == Some(ToMapScreen(user.value.email)) && passwordText == old(passwordText)
      ensures user.None? ==> passwordText == "" && navigation == old(navigation)
    {
      match user
      case Some(u) =>
        navigation := Some(ToMapScreen(u.email));
      case None =>
        passwordText := "";
    }

    /** The completion listener of the sign-in call. */
    method OnSignInResult(success: bool, currentUser: Option<FirebaseUser>) returns (toast: Option<string>)
      modifies this`passwordText, this`navigation
      ensures success ==> toast.None?
      ensures success && currentUser.Some? ==>
                navigation == Some(ToMapScreen(currentUser.value.email)) && passwordText == old(passwordText)
      ensures success && currentUser.None? ==> passwordText == "" && navigation == old(navigation)
      ensures !success ==> toast == Some(BadCredentials) && passwordText == "" && navigation == old(navigation)
    {
      if success {
        toast := None;
        UpdateUI(currentUser);
      } else {
        toast := Some(BadCredentials);
        UpdateUI(None);
      }
    }

    /** `onStart`: an account that is already signed in goes straight to the map screen. */
    method OnStart(currentUser: Option<FirebaseUser>)
      modifies this`passwordText, this`navigation
      ensures currentUser.Some? ==> navigation == Some(ToMapScreen(currentUser.value.email))
      ensures passwordText == old(passwordText)
      ensures currentUser.None? ==> navigation == old(navigation)
    {
      if currentUser.Some? {
        UpdateUI(currentUser);
      }
    }
  }
}
