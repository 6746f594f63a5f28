/**
  * The registration screen of RegisterActivity.kt: the five-field form check, the
  * gate on having a location fix, and what is written once the account exists.
  * The platform's e-mail regular expression is the parameter `emailPattern`.
  */
module Register {
  import opened Wrappers
  import opened Text

  /** A location fix of the device. */
  datatype Fix = Fix(latitude: real, longitude: real)

  /** The contents of the five text fields. */
  datatype RegisterForm = RegisterForm(name: string, lastName: string, email: string, password: string, idNumber: string)

  /** The error shown on each field; `None` means the error is cleared. */
  datatype FieldErrors = FieldErrors(
    name: Option<string>,
    lastName: Option<string>,
    email: Option<string>,
    password: Option<string>,
    idNumber: Option<string>)

  /** What a tap on the register button leads to. */
  datatype RegisterOutcome =
    | FormRejected                                 // errors shown, nothing else
    | AwaitingLocation(toast: string)              // valid form but no fix yet
    | CreateAccount(email: string, password: string)

  /** A value stored in the realtime database. */
  datatype DbValue = Str(s: string) | Num(r: real) | Null

  /** A `setValue` of a record at a path of the database. */
  datatype DatabaseWrite = DatabaseWrite(path: seq<string>, record: map<string, DbValue>)

  const NameError := "Ingrese su nombre"
  const LastNameError := "Ingrese su apellido"
  const EmailError := "Ingrese un email válido"
  const PasswordError := "La contraseña debe tener al menos 6 caracteres"
  const IdNumberError := "Ingrese su número de identificación"
  const WaitForLocation := "Obteniendo ubicación, por favor espere..."
  const MinPasswordLength := 6

  /** Every field trimmed, as `registerUser` reads them. */
  function Trimmed(f: RegisterForm): RegisterForm {
    RegisterForm(Trim(f.name), Trim(f.lastName), Trim(f.email), Trim(f.password), Trim(f.idNumber))
  }

  /** The form is acceptable: three non-empty fields, a matching e-mail and a password of 6 or more UTF-16 units. */
  predicate Acceptable(f: RegisterForm, emailPattern: string -> bool) {
    && f.name != []
    && f.lastName != []
    && f.email != [] && emailPattern(f.email)
    && Utf16Length(f.password) >= MinPasswordLength
    && f.idNumber != []
  }

  /** The error each field check leaves on its field. */
  function ExpectedErrors(f: RegisterForm, emailPattern: string -> bool): FieldErrors {
    FieldErrors(
      if f.name == [] then Some(NameError) else None,
      if f.lastName == [] then Some(LastNameError) else None,
      if f.email == [] || !emailPattern(f.email) then Some(EmailError) else None,
      if f.password == [] || Utf16Length(f.password) < MinPasswordLength then Some(PasswordError) else None,
      if f.idNumber == [] then Some(IdNumberError) else None)
  }

  const NoErrors := FieldErrors(None, None, None, None, None)

  /** The form passes exactly when no field is left with an error: every field is checked. */
  lemma AcceptableIffNoErrors(f: RegisterForm, emailPattern: string -> bool)
    ensures Acceptable(f, emailPattern) <==> ExpectedErrors(f, emailPattern) == NoErrors
  {
  }

  /** A field holding only whitespace is empty after trimming, so it is reported. */
  lemma BlankFieldsRejected(raw: RegisterForm, emailPattern: string -> bool)
    requires AllWhitespace(raw.name) || AllWhitespace(raw.lastName) || AllWhitespace(raw.idNumber)
    ensures !Acceptable(Trimmed(raw), emailPattern)
    ensures AllWhitespace(raw.name) ==> ExpectedErrors(Trimmed(raw), emailPattern).name == Some(NameError)
    ensures AllWhitespace(raw.lastName) ==> ExpectedErrors(Trimmed(raw), emailPattern).lastName == Some(LastNameError)
    ensures AllWhitespace(raw.idNumber) ==> ExpectedErrors(Trimmed(raw), emailPattern).idNumber == Some(IdNumberError)
  {
    if AllWhitespace(raw.name) { TrimOfBlank(raw.name); }
    if AllWhitespace(raw.lastName) { TrimOfBlank(raw.lastName); }
    if AllWhitespace(raw.idNumber) { TrimOfBlank(raw.idNumber); }
  }

  /** The profile's display name: name and last name joined by one space. */
  function DisplayName(name: string, lastName: string): string {
    name + " " + lastName
  }

  /** The display name splits back, at the position after the name, into the two parts. */
  lemma DisplayNameSplits(name: string, lastName: string)
    ensures |DisplayName(name, lastName)| == |name| + 1 + |lastName|
    ensures DisplayName(name, lastName)[..|name|] == name
    ensures DisplayName(name, lastName)[|name|] == ' '
    ensures DisplayName(name, lastName)[|name| + 1..] == lastName
  {
  }

  /** The record `saveUserToDatabase` stores; a coordinate of a missing fix is null. */
  function UserRecord(f: RegisterForm, location: Option<Fix>): (r: map<string, DbValue>)
    ensures r.Keys == {"name", "lastName", "email", "idNumber", "latitude", "longitude", "profileImageUrl"}
    ensures r["name"] == Str(f.name) && r["lastName"] == Str(f.lastName)
    ensures r["email"] == Str(f.email) && r["idNumber"] == Str(f.idNumber)
    ensures r["profileImageUrl"] == Str("")
    ensures forall k :: k in r && k != "latitude" && k != "longitude" ==> r[k].Str?
    ensures location.Some? ==>
              r["latitude"] == Num(location.value.latitude) && r["longitude"] == Num(location.value.longitude)
    ensures location.None? ==> r["latitude"] == Null && r["longitude"] == Null
  {
    map[
      "name" := Str(f.name),
      "lastName" := Str(f.lastName),
      "email" := Str(f.email),
      "idNumber" := Str(f.idNumber),
      "latitude" := (match location case Some(l) => Num(l.latitude) case None => Null),
      "longitude" := (match location case Some(l) => Num(l.longitude) case None => Null),
      "profileImageUrl" := Str("")]
  }

  /** `saveUserToDatabase`: nothing without a user id, else the record under `users/<id>`. */
  function SaveUserToDatabase(userId: Option<string>, f: RegisterForm, location: Option<Fix>): (w: Option<DatabaseWrite>)
    ensures w.None? <==> userId.None?
    ensures w.Some? ==> w.value.path == ["users", userId.value] && w.value.record == UserRecord(f, location)
  {
    match userId
    case None => None
    case Some(id) => Some(DatabaseWrite(["users", id], UserRecord(f, location)))
  }

  /** The fields that the list screen and the monitor service read to decide availability are never written here. */
  lemma RecordCarriesNoAvailability(f: RegisterForm, location: Option<Fix>)
    ensures "status" !in UserRecord(f, location) && "available" !in UserRecord(f, location)
    ensures "imageUrl" !in UserRecord(f, location)
  {
  }

  class RegisterScreen {
    const emailPattern: string -> bool

    /** The field contents as typed. */
    var form: RegisterForm
    var errors: FieldErrors
    /** The last fix delivered by the location callback, `None` before the first one. */
    var currentLocation: Option<Fix>

    constructor (emailPattern: string -> bool)
      ensures this.emailPattern == emailPattern
      ensures form == RegisterForm("", "", "", "", "") && errors == NoErrors && currentLocation.None?
    {
      this.emailPattern := emailPattern;
      form := RegisterForm("", "", "", "", "");
      errors := NoErrors;
      currentLocation := None;
    }

    /** The location callback: `currentLocation = locationResult.lastLocation`. */
    method OnLocationResult(lastLocation: Option<Fix>)
      modifies this`currentLocation
      ensures currentLocation == lastLocation
    {
      currentLocation := lastLocation;
    }

    /** `validateForm`: every field checked in turn, its error set or cleared, and a running flag. */
    method ValidateForm(f: RegisterForm) returns (valid: bool)
      modifies this`errors
      ensures valid == Acceptable(f, emailPattern)
      ensures errors == ExpectedErrors(f, emailPattern)
    {
      valid := true;
      var nameError, lastNameError, emailError, passwordError, idNumberError;

      if f.name == [] {
        nameError := Some(NameError);
        valid := false;
      } else {
        nameError := None;
      }

      if f.lastName == [] {
        lastNameError := Some(LastNameError);
        valid := false;
      } else {
        lastNameError := None;
      }

      if f.email == [] || !emailPattern(f.email) {
        emailError := Some(EmailError);
        valid := false;
      } else {
        emailError := None;
      }

      if f.password == [] || Utf16Length(f.password) < MinPasswordLength {
        passwordError := Some(PasswordError);
        valid := false;
      } else {
        passwordError := None;
      }

      if f.idNumber == [] {
        idNumberError := Some(IdNumberError);
        valid := false;
      } else {
        idNumberError := None;
      }

      errors := FieldErrors(nameError, lastNameError, emailError, passwordError, idNumberError);
    }

    /** `registerUser`: trim, validate, and ask for the account only when a fix is known. */
    method RegisterUser() returns (outcome: RegisterOutcome)
      modifies this`errors
      ensures errors == ExpectedErrors(Trimmed(form), emailPattern)
      ensures outcome == (if !Acceptable(Trimmed(form), emailPattern) then FormRejected
                          else if currentLocation.None? then AwaitingLocation(WaitForLocation)
                          else CreateAccount(Trimmed(form).email, Trimmed(form).password))
    {
      var f := Trimmed(form);
      var valid := ValidateForm(f);
      if valid {
        if currentLocation.None? {
          outcome := AwaitingLocation(WaitForLocation);
          return;
        }
        outcome := CreateAccount(f.email, f.password);
      } else {
        outcome := FormRejected;
      }
    }
  }

  /** What happens after a successful account creation, for the signed-in user's id (if any). */
  datatype AccountCreated = AccountCreated(
    displayName: Option<string>,        // the profile update, when there is a user
    write: Option<DatabaseWrite>,       // the record, when there is a user id
    userName: string)                   // passed on to the map screen

  /** The success branch of `createUserWithEmailAndPassword`'s listener, for the trimmed form `f`. */
  function OnAccountCreated(userId: Option<string>, f: RegisterForm, location: Option<Fix>): (a: AccountCreated)
    ensures a.displayName.Some? <==> userId.Some?
    ensures a.displayName.Some? ==> a.displayName.value == a.userName
    ensures a.userName == DisplayName(f.name, f.lastName)
    ensures a.write == SaveUserToDatabase(userId, f, location)
  {
    var fullName := DisplayName(f.name, f.lastName);
    AccountCreated(if userId.Some? then Some(fullName) else None, SaveUserToDatabase(userId, f, location), fullName)
  }
}
