/** The sign-in page: three views (sign in, create account, reset
    password), the checks each submit button makes before it calls the
    account store, and the message it then shows. */
module AuthPage {
  import opened Wrappers
  import opened Auth

  datatype View = SignInView | SignUpView | ForgotView

  /** The toast a submit button raises. */
  datatype Notice =
    | FillAllFields | WelcomeBack | InvalidCredentials
    | PasswordsDiffer | PasswordTooShort | AccountCreated | AccountExists
    | EnterEmail | ResetSent | NoAccount

  const MinPasswordLength: nat := 6
  const DefaultCountry: string := "India"

  /** The views each view links to. */
  function Links(v: View): (r: set<View>)
    ensures v !in r
    ensures SignInView in r <==> v != SignInView
  {
    match v
    case SignInView => {ForgotView, SignUpView}
    case SignUpView => {SignInView}
    case ForgotView => {SignInView}
  }

  /** Sign in: both fields must be filled before the store is asked. */
  function SignInBlocked(email: string, password: string): (r: Option<Notice>)
    ensures r.None? <==> email != "" && password != ""
    ensures r.Some? ==> r.value == FillAllFields
  {
    if email == "" || password == "" then Some(FillAllFields) else None
  }

  /** Create account: all four fields filled, then the two passwords equal,
      then at least six characters, checked in that order. */
  function SignUpBlocked(name: string, email: string, password: string, confirm: string): (r: Option<Notice>)
    ensures r == Some(FillAllFields) <==> name == "" || email == "" || password == "" || confirm == ""
    ensures r == Some(PasswordsDiffer) <==>
      name != "" && email != "" && password != "" && confirm != "" && password != confirm
    ensures r == Some(PasswordTooShort) <==>
      name != "" && email != "" && password != "" && password == confirm && |password| < MinPasswordLength
    ensures r.None? <==>
      name != "" && email != "" && password == confirm && |password| >= MinPasswordLength
  {
    if name == "" || email == "" || password == "" || confirm == "" then Some(FillAllFields)
    else if password != confirm then Some(PasswordsDiffer)
    else if |password| < MinPasswordLength then Some(PasswordTooShort)
    else None
  }

  class Page {
    const store: AuthStore
    var view: View
    var showPassword: bool
    var name: string
    var email: string
    var password: string
    var confirmPassword: string
    var country: string

    /** The page opens on sign-in with empty fields and India selected. */
    constructor (store: AuthStore)
      ensures this.store == store && view == SignInView && !showPassword
      ensures name == "" && email == "" && password == "" && confirmPassword == ""
      ensures country == DefaultCountry
    {
      this.store := store;
      view := SignInView;
      showPassword := false;
      name := "";
      email := "";
      password := "";
      confirmPassword := "";
      country := DefaultCountry;
    }

    /** Typing into the form. */
    method SetFields(name': string, email': string, password': string, confirm': string, country': string)
      modifies this
      ensures name == name' && email == email' && password == password'
      ensures confirmPassword == confirm' && country == country'
      ensures view == old(view) && showPassword == old(showPassword)
    {
      name, email, password, confirmPassword, country := name', email', password', confirm', country';
    }

    method ToggleShowPassword()
      modifies this`showPassword
      ensures showPassword == !old(showPassword)
    {
      showPassword := !showPassword;
    }

    /** A link under the form; only the links the current view shows exist. */
    method FollowLink(target: View)
      requires target in Links(view)
      modifies this`view
      ensures view == target
    {
      view := target;
    }

    /** `handleSignIn`. */
    method HandleSignIn() returns (notice: Notice)
      modifies store`user
      ensures SignInBlocked(email, password).Some? ==> notice == FillAllFields && store.user == old(store.user)
      ensures SignInBlocked(email, password).None? ==>
        (notice == WelcomeBack <==> SignInResult(store.Accounts(), email, password).Some?)
      ensures notice == WelcomeBack ==> store.user == SignInResult(store.Accounts(), email, password)
      ensures notice != WelcomeBack ==> store.user == old(store.user)
      ensures notice in {FillAllFields, WelcomeBack, InvalidCredentials}
    {
      var blocked := SignInBlocked(email, password);
      if blocked.Some? {
        return blocked.value;
      }
      var ok := store.SignIn(email, password);
      notice := if ok then WelcomeBack else InvalidCredentials;
    }

    /** `handleSignUp`: the store is only asked once the form passes. */
    method HandleSignUp() returns (notice: Notice)
      modifies store
      ensures SignUpBlocked(name, email, password, confirmPassword).Some? ==>
        notice == SignUpBlocked(name, email, password, confirmPassword).value
        && store.usersSlot == old(store.usersSlot) && store.user == old(store.user)
      ensures SignUpBlocked(name, email, password, confirmPassword).None? ==>
        (notice == AccountCreated <==> email !in old(store.Accounts()))
      ensures notice == AccountCreated ==>
        store.usersSlot == Parsed(old(store.Accounts())[email := Registered(name, email, password, country)])
        && store.user == Some(Profile(name, email, country, None))
      ensures notice != AccountCreated ==> store.usersSlot == old(store.usersSlot) && store.user == old(store.user)
    {
      var blocked := SignUpBlocked(name, email, password, confirmPassword);
      if blocked.Some? {
        return blocked.value;
      }
      var ok := store.SignUp(name, email, password, country);
      notice := if ok then AccountCreated else AccountExists;
    }

    /** `handleForgot`: a registered address goes back to sign-in; nothing
        else changes. */
    method HandleForgot() returns (notice: Notice)
      modifies this`view
      ensures email == "" ==> notice == EnterEmail && view == old(view)
      ensures email != "" ==> (notice == ResetSent <==> email in store.Accounts())
      ensures notice == ResetSent ==> view == SignInView
      ensures notice != ResetSent ==> view == old(view)
    {
      if email == "" {
        return EnterEmail;
      }
      var registered := store.ResetPassword(email);
      if registered {
        view := SignInView;
        notice := ResetSent;
      } else {
        notice := NoAccount;
      }
    }
  }
}
