/** The simulated session gate: one stored account in a single storage
    slot, a sign-up form that overwrites it and a sign-in form that
    compares against it. */
module Login {
  import opened Wrappers
  import opened JsText

  /** The account record kept under the application's one storage key. */
  datatype User = User(email: string, password: string, name: string)

  const FillAllFieldsMessage: string := "Please fill all fields"
  const ShortPasswordMessage: string := "Password must be at least 6 characters"
  const InvalidCredentialsMessage: string := "Invalid email or password"
  const MinPasswordLength: nat := 6

  /** Sign-up validation. An empty field is reported before a short
      password; the password is measured in UTF-16 code units. */
  function SignUpError(name: string, email: string, password: string): (e: Option<string>)
    ensures e == Some(FillAllFieldsMessage) <==> name == "" || email == "" || password == ""
    ensures e == Some(ShortPasswordMessage) <==>
      name != "" && email != "" && password != "" && Utf16Length(password) < MinPasswordLength
    ensures e == None <==>
      name != "" && email != "" && Utf16Length(password) >= MinPasswordLength
  {
    if name == "" || email == "" || password == "" then Some(FillAllFieldsMessage)
    else if Utf16Length(password) < MinPasswordLength then Some(ShortPasswordMessage)
    else None
  }

  /** Sign-in accepts exactly when an account is stored and both its email
      and its password equal the ones typed; the name plays no part. */
  predicate SignInAccepted(stored: Option<User>, email: string, password: string) {
    stored.Some? && stored.value.email == email && stored.value.password == password
  }

  /** A password of three characters outside the Basic Multilingual Plane
      is six UTF-16 code units long and so passes the length check. */
  lemma AstralPasswordLength()
    ensures SignUpError("A", "a@x.com", "\U{1F600}\U{1F600}\U{1F600}") == None
  {
    var p := "\U{1F600}\U{1F600}\U{1F600}";
    assert p[1..][1..][1..] == [];
    assert Utf16Length(p) == 6;
  }

  /** The login screen's state; `storedUser` stands for the storage slot. */
  class LoginForm {
    var email: string
    var password: string
    var name: string
    var error: string
    var isLoading: bool
    var isSuccess: bool
    var isSignUp: bool
    var storedUser: Option<User>

    constructor(storedUser: Option<User>)
      ensures this.storedUser == storedUser
      ensures email == "" && password == "" && name == "" && error == ""
      ensures !isLoading && !isSuccess && !isSignUp
    {
      this.storedUser := storedUser;
      email, password, name, error := "", "", "", "";
      isLoading, isSuccess, isSignUp := false, false, false;
    }

    method SetEmail(value: string)
      modifies this`email
      ensures email == value
    {
      email := value;
    }

    method SetPassword(value: string)
      modifies this`password
      ensures password == value
    {
      password := value;
    }

    method SetName(value: string)
      modifies this`name
      ensures name == value
    {
      name := value;
    }

    /** Submitting the form. The result tells whether the login callback
        fires. Every submission ends with loading off; a success shows the
        success screen and leaves no error; sign-up writes the slot only
        when it succeeds and sign-in never writes it. */
    method HandleSubmit() returns (loggedIn: bool)
      modifies this`error, this`isLoading, this`isSuccess, this`storedUser
      ensures !isLoading
      ensures loggedIn ==> isSuccess && error == ""
      ensures !loggedIn ==> isSuccess == old(isSuccess)
      ensures isSignUp ==> (loggedIn <==> SignUpError(name, email, password).None?)
      ensures isSignUp && loggedIn ==> storedUser == Some(User(email, password, name))
      ensures isSignUp && !loggedIn ==>
        storedUser == old(storedUser) && Some(error) == SignUpError(name, email, password)
      ensures !isSignUp ==> storedUser == old(storedUser)
      ensures !isSignUp ==> (loggedIn <==> SignInAccepted(old(storedUser), email, password))
      ensures !isSignUp && !loggedIn ==> error == InvalidCredentialsMessage
    {
      error := "";
      isLoading := true;
      if isSignUp {
        var problem := SignUpError(name, email, password);
        if problem.Some? {
          error := problem.value;
          isLoading := false;
          return false;
        }
        storedUser := Some(User(email, password, name));
        isLoading := false;
        isSuccess := true;
        loggedIn := true;
      } else {
        var stored := storedUser;
        if SignInAccepted(stored, email, password) {
          isLoading := false;
          isSuccess := true;
          loggedIn := true;
        } else {
          error := InvalidCredentialsMessage;
          isLoading := false;
          loggedIn := false;
        }
      }
    }

    /** Switching between sign-in and sign-up clears the form and the error. */
    method ToggleMode()
      modifies this`isSignUp, this`error, this`email, this`password, this`name
      ensures isSignUp == !old(isSignUp)
      ensures error == "" && email == "" && password == "" && name == ""
    {
      isSignUp := !isSignUp;
      error := "";
      email := "";
      password := "";
      name := "";
    }
  }

  /** The sign-up / sign-in round trip through the form: after a sign-up
      that passes validation, the form shown again after logging out (a
      fresh one over the written slot, which opens in sign-in mode)
      refuses any other password with the invalid-credentials message and
      then, with the same email and password retyped, logs in. The name and
      whatever was stored before play no part. */
  method SignUpThenSignIn(stored: Option<User>, name: string, email: string,
                          password: string, other: string)
    returns (signedUp: bool, signedIn: bool, otherAccepted: bool, otherError: string)
    requires SignUpError(name, email, password).None? && other != password
    ensures signedUp && signedIn && !otherAccepted
    ensures otherError == InvalidCredentialsMessage
  {
    var form := new LoginForm(stored);
    form.ToggleMode();
    form.SetName(name);
    form.SetEmail(email);
    form.SetPassword(password);
    signedUp := form.HandleSubmit();
    var again := new LoginForm(form.storedUser);
    again.SetEmail(email);
    again.SetPassword(other);
    otherAccepted := again.HandleSubmit();
    otherError := again.error;
    again.SetPassword(password);
    signedIn := again.HandleSubmit();
  }
}
